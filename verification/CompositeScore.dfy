/** Exactly when raising the execution composite cannot lower the score, over all models that respect the
    weight bounds: when it changes no member of its group. */
module CompositeScore {
  import opened Arithmetic
  import opened Common
  import opened OnlineModel
  import opened ModelLaws
  import opened ModelTables
  import opened MonotoneScore

  const COMPOSITE := EXECUTION.composite
  const COMPOSITE_INDEX: nat := 7

  /** The two records damp the execution group equally, or list no member with a value to damp. */
  ghost predicate Shielded(low: map<string, real>, high: map<string, real>) {
    || Damping(EXECUTION, low) == Damping(EXECUTION, high)
    || forall m :: m in EXECUTION.members && m in low ==> low[m] == 0.0
  }

  // ---------------------------------------------------------------------------------------------
  // Names
  // ---------------------------------------------------------------------------------------------

  predicate MemberMark(n: string) {
    || (|n| == 13 && n[0] in {'b', 'q'}) || (|n| == 15 && n[0] in {'m', 'q', 'b'}) || (|n| == 16 && n[0] in {'o', 'd'})
    || |n| == 21 || (|n| == 24 && n[0] == 'w')
  }

  lemma MembersAreMarked(n: string)
    requires n in EXECUTION.members
    ensures MemberMark(n)
  {
  }

  lemma BoundedAreUnmarked(i: nat)
    requires i < |MONOTONIC|
    ensures !MemberMark(MONOTONIC[i].name)
  {
  }

  lemma CompositeIsNoMember()
    ensures COMPOSITE !in TREND.members && COMPOSITE !in BREAKOUT.members && COMPOSITE !in EXECUTION.members
    ensures COMPOSITE != TREND.composite && COMPOSITE != BREAKOUT.composite
    ensures MONOTONIC[COMPOSITE_INDEX] == Monotonic(COMPOSITE, 0.18, AtLeast(0.045))
  {
    assert |COMPOSITE| == 27 && |TREND.composite| == 23 && |BREAKOUT.composite| == 26;
    ShortTrendNames();
    ShortBreakoutNames();
    ShortExecutionNames();
  }

  lemma ShortTrendNames()
    ensures forall n :: n in TREND.members ==> |n| < 27
  {
  }

  lemma ShortBreakoutNames()
    ensures forall n :: n in BREAKOUT.members ==> |n| < 27
  {
  }

  lemma ShortExecutionNames()
    ensures forall n :: n in EXECUTION.members ==> |n| < 27
  {
  }

  // ---------------------------------------------------------------------------------------------
  // What the groups make of a raised composite
  // ---------------------------------------------------------------------------------------------

  /** The features after the first two groups. */
  function Halfway(values: map<string, real>): map<string, real> { DampedBy(BREAKOUT, DampedBy(TREND, values)) }

  lemma PreparedInTwo(values: map<string, real>, sqrt: real -> real, sigmoid: real -> real)
    ensures Prepared(Learner(sqrt, sigmoid), values) == DampedBy(EXECUTION, Halfway(values))
  {
    hide DampedBy;
    var groups := Learner(sqrt, sigmoid).groups;
    assert groups[1..] == [BREAKOUT, EXECUTION] && groups[1..][1..] == [EXECUTION] && [EXECUTION][1..] == [];
    assert DampedByAll([EXECUTION], Halfway(values)) == DampedBy(EXECUTION, Halfway(values));
    assert DampedByAll([BREAKOUT, EXECUTION], DampedBy(TREND, values)) == DampedBy(EXECUTION, Halfway(values));
  }

  /** A group of strength below one damps no value to zero. */
  lemma DampingKeepsNonZero(g: Group, values: map<string, real>, n: string)
    requires n in values && 0.0 <= g.strength < 1.0
    ensures n in DampedBy(g, values)
    ensures DampedBy(g, values)[n] == 0.0 <==> values[n] == 0.0
    ensures n !in g.members ==> DampedBy(g, values)[n] == values[n]
  {
    DampedAt(g, values, n);
    DampingBelowOne(g, values);
    var keep := 1.0 - Damping(g, values);
    hide Damping;
    if values[n] * keep == 0.0 {
      NoZeroProduct(values[n], keep);
    }
  }

  lemma DampingBelowOne(g: Group, values: map<string, real>)
    requires 0.0 <= g.strength < 1.0
    ensures 0.0 <= Damping(g, values) < 1.0
  {
    hide ValueOf, Abs;
  }

  lemma HalfwayFacts(values: map<string, real>, n: string)
    requires n in values
    ensures n in Halfway(values)
    ensures Halfway(values)[n] == 0.0 <==> values[n] == 0.0
    ensures n == COMPOSITE ==> Halfway(values)[n] == values[n]
  {
    hide DampedBy;
    CompositeIsNoMember();
    DampingKeepsNonZero(TREND, values, n);
    DampingKeepsNonZero(BREAKOUT, DampedBy(TREND, values), n);
  }

  lemma SameExecutionDamping(values: map<string, real>)
    requires COMPOSITE in values
    ensures Damping(EXECUTION, Halfway(values)) == Damping(EXECUTION, values)
  {
    hide Halfway;
    HalfwayFacts(values, COMPOSITE);
  }

  lemma HalfwayKeepsRaise(low: map<string, real>, high: map<string, real>)
    requires RaisedAt(low, high, COMPOSITE)
    ensures RaisedAt(Halfway(low), Halfway(high), COMPOSITE)
  {
    hide RaisedAt, DampedBy;
    CompositeIsNoMember();
    GroupKeepsRaise(TREND, low, high, COMPOSITE);
    GroupKeepsRaise(BREAKOUT, DampedBy(TREND, low), DampedBy(TREND, high), COMPOSITE);
  }

  /** The prepared value of one feature, for a record whose composite is raised. */
  lemma PreparedValues(low: map<string, real>, high: map<string, real>, n: string,
                       sqrt: real -> real, sigmoid: real -> real)
    requires RaisedAt(low, high, COMPOSITE) && n in low
    ensures var a, b := Prepared(Learner(sqrt, sigmoid), low), Prepared(Learner(sqrt, sigmoid), high);
            && n in a && n in b
            && (n == COMPOSITE ==> a[n] <= b[n])
            && (n != COMPOSITE && n !in EXECUTION.members ==> a[n] == b[n])
            && (n in EXECUTION.members ==>
                  (a[n] == b[n] <==> Damping(EXECUTION, low) == Damping(EXECUTION, high) || low[n] == 0.0))
  {
    hide DampedBy, Damping, Prepared, Learner, Halfway;
    PreparedInTwo(low, sqrt, sigmoid);
    PreparedInTwo(high, sqrt, sigmoid);
    HalfwayKeepsRaise(low, high);
    HalfwayFacts(low, n);
    SameExecutionDamping(low);
    SameExecutionDamping(high);
    CompositeIsNoMember();
    LastGroup(EXECUTION, Halfway(low), Halfway(high), COMPOSITE, n);
  }

  /** What a group makes of two records of which the second has a raised value outside the group. */
  lemma LastGroup(g: Group, low: map<string, real>, high: map<string, real>, c: string, n: string)
    requires RaisedAt(low, high, c) && c !in g.members && n in low
    ensures var a, b := DampedBy(g, low), DampedBy(g, high);
            && n in a && n in b
            && (n == c ==> a[n] <= b[n])
            && (n != c && n !in g.members ==> a[n] == b[n])
            && (n in g.members ==> (a[n] == b[n] <==> Damping(g, low) == Damping(g, high) || low[n] == 0.0))
  {
    hide Damping, DampedBy, Kept;
    DampedAt(g, low, n);
    DampedAt(g, high, n);
    SameKept(low[n], Damping(g, low), Damping(g, high));
  }

  lemma SameKept(x: real, d: real, e: real)
    ensures Kept(x, d) == Kept(x, e) <==> d == e || x == 0.0
  {
    assert Kept(x, d) - Kept(x, e) == x * (e - d);
    if x * (e - d) == 0.0 && e - d != 0.0 {
      NoZeroProduct(x, e - d);
    }
  }

  lemma PreparedRaised(low: map<string, real>, high: map<string, real>, sqrt: real -> real, sigmoid: real -> real)
    requires RaisedAt(low, high, COMPOSITE) && Shielded(low, high)
    ensures RaisedAt(Prepared(Learner(sqrt, sigmoid), low), Prepared(Learner(sqrt, sigmoid), high), COMPOSITE)
  {
    hide Prepared, Damping;
    var setup := Learner(sqrt, sigmoid);
    PreparedKeys(setup, low);
    PreparedKeys(setup, high);
    PreparedValues(low, high, COMPOSITE, sqrt, sigmoid);
    forall n | n in low && n != COMPOSITE
      ensures Prepared(setup, low)[n] == Prepared(setup, high)[n]
    {
      PreparedValues(low, high, n, sqrt, sigmoid);
    }
  }

  // ---------------------------------------------------------------------------------------------
  // A model that scores lower
  // ---------------------------------------------------------------------------------------------

  /** The smallest weights that respect the bounds. */
  function Least(ms: seq<Monotonic>): map<string, real> {
    if ms == [] then map[]
    else
      var m := ms[|ms| - 1];
      Least(ms[..|ms| - 1])[m.name := match m.bound case AtLeast(min) => min case AtMost(max) => max]
  }

  lemma {:induction false} LeastNames(ms: seq<Monotonic>, n: string)
    ensures n in Least(ms) <==> exists i :: 0 <= i < |ms| && ms[i].name == n
  {
    if ms != [] {
      LeastNames(ms[..|ms| - 1], n);
      assert forall i :: 0 <= i < |ms| - 1 ==> ms[..|ms| - 1][i] == ms[i];
    }
  }

  lemma {:induction false} LeastWeights(ms: seq<Monotonic>, i: nat)
    requires i < |ms| && forall j, k :: 0 <= j < k < |ms| ==> ms[j].name != ms[k].name
    ensures ms[i].name in Least(ms)
    ensures Least(ms)[ms[i].name] == match ms[i].bound case AtLeast(min) => min case AtMost(max) => max
  {
    if i < |ms| - 1 {
      LeastWeights(ms[..|ms| - 1], i);
      assert ms[..|ms| - 1][i] == ms[i];
    }
  }

  /** A model that weighs one member so that its damping costs a whole unit of score. */
  function Witness(m: string, mean: real, weight: real): State {
    State(0.0, Least(MONOTONIC)[m := weight], map[m := Stat(8, mean, 0.0)])
  }

  lemma WitnessRespects(m: string, mean: real, weight: real)
    requires m in EXECUTION.members
    ensures AllRespect(MONOTONIC, Witness(m, mean, weight).weights)
    ensures WeightOf(Witness(m, mean, weight).weights, COMPOSITE) == 0.045
    ensures forall n :: n in EXECUTION.members && n != m ==> WeightOf(Witness(m, mean, weight).weights, n) == 0.0
    ensures m != COMPOSITE
  {
    hide Least, Respects, MemberMark;
    NamesDiffer();
    CompositeIsNoMember();
    var weights := Witness(m, mean, weight).weights;
    MembersAreMarked(m);
    forall i | 0 <= i < |MONOTONIC|
      ensures Respects(MONOTONIC[i], weights)
      ensures i == COMPOSITE_INDEX ==> WeightOf(weights, COMPOSITE) == 0.045
    {
      LeastWeights(MONOTONIC, i);
      BoundedAreUnmarked(i);
      RespectsAtBound(MONOTONIC[i], weights);
    }
    forall n | n in EXECUTION.members && n != m
      ensures WeightOf(weights, n) == 0.0
    {
      LeastNames(MONOTONIC, n);
      MembersAreMarked(n);
      forall i | 0 <= i < |MONOTONIC|
        ensures MONOTONIC[i].name != n
      {
        BoundedAreUnmarked(i);
      }
    }
  }

  lemma RespectsAtBound(m: Monotonic, weights: map<string, real>)
    requires m.name in weights
    requires weights[m.name] == match m.bound case AtLeast(min) => min case AtMost(max) => max
    ensures Respects(m, weights)
  {
  }

  /** What a feature contributes to the linear score. */
  function Share(st: State, n: string, values: map<string, real>, setup: Setup): real {
    WeightOf(st.weights, n) * Normalized(StatOf(st.stats, n), ValueOf(values, n), setup)
  }

  /** Two records that differ in what two features contribute differ in the score by just that. */
  lemma {:induction false} ScoreGap(st: State, order: seq<string>, low: map<string, real>, high: map<string, real>,
                                    c: string, m: string, setup: Setup, k: nat)
    requires k <= |order| && c != m
    requires forall i, j :: 0 <= i < j < |order| ==> order[i] != order[j]
    requires forall i :: 0 <= i < |order| && order[i] != c && order[i] != m ==>
                           Share(st, order[i], low, setup) == Share(st, order[i], high, setup)
    ensures Linear(st, order, high, setup, k) - Linear(st, order, low, setup, k)
            == (if c in order[..k] then Share(st, c, high, setup) - Share(st, c, low, setup) else 0.0)
               + (if m in order[..k] then Share(st, m, high, setup) - Share(st, m, low, setup) else 0.0)
  {
    hide Share;
    if k > 0 {
      ScoreGap(st, order, low, high, c, m, setup, k - 1);
      assert order[..k] == order[..k - 1] + [order[k - 1]];
      OneShare(st, order, low, setup, k);
      OneShare(st, order, high, setup, k);
    } else {
      assert Linear(st, order, high, setup, 0) == Linear(st, order, low, setup, 0);
    }
  }

  lemma OneShare(st: State, order: seq<string>, values: map<string, real>, setup: Setup, k: nat)
    requires 0 < k <= |order|
    ensures Linear(st, order, values, setup, k)
            == Linear(st, order, values, setup, k - 1) + Share(st, order[k - 1], values, setup)
  {
  }

  lemma CompositeShare(st: State, low: map<string, real>, high: map<string, real>, setup: Setup)
    requires WeightOf(st.weights, COMPOSITE) == 0.045
    ensures Share(st, COMPOSITE, high, setup) - Share(st, COMPOSITE, low, setup) <= 0.36
  {
    hide Normalized, ValueOf, StatOf;
    NormalizedWithin(StatOf(st.stats, COMPOSITE), ValueOf(high, COMPOSITE), setup);
    NormalizedWithin(StatOf(st.stats, COMPOSITE), ValueOf(low, COMPOSITE), setup);
  }

  /** A statistic centred on one value tells it from any other. */
  lemma CentredTells(mean: real, value: real, setup: Setup)
    requires value != mean
    ensures Normalized(Stat(8, mean, 0.0), mean, setup) == 0.0
    ensures Normalized(Stat(8, mean, 0.0), value, setup) != 0.0
  {
    var d := StandardDeviation(Stat(8, mean, 0.0), setup);
    hide StandardDeviation;
    assert (mean - mean) / d == 0.0;
    assert (value - mean) / d * d == value - mean;
  }

  /** When the raise changes a member, some model that respects every bound scores strictly lower. */
  lemma UnshieldedLowers(low: Features, high: Features, sqrt: real -> real, sigmoid: real -> real) returns (st: State)
    requires WellFormed(low) && low.order == high.order && RaisedAt(low.values, high.values, COMPOSITE)
    requires !Shielded(low.values, high.values)
    ensures AllRespect(MONOTONIC, st.weights)
    ensures var setup := Learner(sqrt, sigmoid);
            Linear(st, high.order, Prepared(setup, high.values), setup, |high.order|)
            < Linear(st, low.order, Prepared(setup, low.values), setup, |low.order|)
  {
    hide Damping, Prepared, Normalized, AllRespect, Linear, Share, Witness, RaisedAt, Learner;
    var m :| m in EXECUTION.members && m in low.values && low.values[m] != 0.0;
    var setup := Learner(sqrt, sigmoid);
    var a, b := Prepared(setup, low.values), Prepared(setup, high.values);
    PreparedValues(low.values, high.values, m, sqrt, sigmoid);
    CentredTells(b[m], a[m], setup);
    var x := Normalized(Stat(8, b[m], 0.0), a[m], setup);
    st := Witness(m, b[m], 1.0 / x);
    WitnessRespects(m, b[m], 1.0 / x);
    WitnessShares(st, m, a, b, x, setup);
    forall i | 0 <= i < |low.order| && low.order[i] != COMPOSITE && low.order[i] != m
      ensures Share(st, low.order[i], a, setup) == Share(st, low.order[i], b, setup)
    {
      assert low.order[i] in low.values;
      PreparedValues(low.values, high.values, low.order[i], sqrt, sigmoid);
      EqualShares(st, low.order[i], a, b, setup);
    }
    CompositeShare(st, a, b, setup);
    ScoreGap(st, low.order, a, b, COMPOSITE, m, setup, |low.order|);
    assert low.order[..|low.order|] == low.order && m in low.order;
  }

  lemma EqualShares(st: State, n: string, a: map<string, real>, b: map<string, real>, setup: Setup)
    requires n in a && n in b && (WeightOf(st.weights, n) == 0.0 || a[n] == b[n])
    ensures Share(st, n, a, setup) == Share(st, n, b, setup)
  {
    hide Normalized, StatOf;
  }

  lemma WitnessShares(st: State, m: string, a: map<string, real>, b: map<string, real>, x: real, setup: Setup)
    requires m in a && m in b && x != 0.0
    requires st == Witness(m, b[m], 1.0 / x)
    requires x == Normalized(Stat(8, b[m], 0.0), a[m], setup) && Normalized(Stat(8, b[m], 0.0), b[m], setup) == 0.0
    ensures Share(st, m, a, setup) == 1.0 && Share(st, m, b, setup) == 0.0
  {
    hide Normalized, Least;
    assert 1.0 / x * x == 1.0;
  }

  /** The execution composite scores monotonically, in every model that respects the bounds, exactly when
      raising it changes no member of its group. */
  lemma CompositeIsMonotoneIff(low: Features, high: Features, sqrt: real -> real, sigmoid: real -> real)
    requires Sound(Learner(sqrt, sigmoid))
    requires WellFormed(low) && low.order == high.order && RaisedAt(low.values, high.values, COMPOSITE)
    ensures var setup := Learner(sqrt, sigmoid);
            (forall st: State :: AllRespect(MONOTONIC, st.weights) ==>
                Linear(st, low.order, Prepared(setup, low.values), setup, |low.order|)
                <= Linear(st, high.order, Prepared(setup, high.values), setup, |high.order|))
            <==> Shielded(low.values, high.values)
  {
    hide Shielded, Prepared, Linear, AllRespect, RaisedAt, WellFormed, Sound;
    var setup := Learner(sqrt, sigmoid);
    if Shielded(low.values, high.values) {
      forall st: State | AllRespect(MONOTONIC, st.weights)
        ensures Linear(st, low.order, Prepared(setup, low.values), setup, |low.order|)
                <= Linear(st, high.order, Prepared(setup, high.values), setup, |high.order|)
      {
        ShieldedRaises(st, low, high, setup, sqrt, sigmoid);
      }
    } else {
      var st := UnshieldedLowers(low, high, sqrt, sigmoid);
    }
  }

  lemma ShieldedRaises(st: State, low: Features, high: Features, setup: Setup,
                       sqrt: real -> real, sigmoid: real -> real)
    requires setup == Learner(sqrt, sigmoid) && Sound(setup) && AllRespect(MONOTONIC, st.weights)
    requires low.order == high.order && RaisedAt(low.values, high.values, COMPOSITE)
    requires Shielded(low.values, high.values)
    ensures Linear(st, low.order, Prepared(setup, low.values), setup, |low.order|)
            <= Linear(st, high.order, Prepared(setup, high.values), setup, |high.order|)
  {
    hide Shielded, Prepared, Linear, RaisedAt;
    PreparedRaised(low.values, high.values, sqrt, sigmoid);
    CompositeIsNoMember();
    assert Respects(MONOTONIC[COMPOSITE_INDEX], st.weights);
    LinearMoves(st, low.order, Prepared(setup, low.values), Prepared(setup, high.values), COMPOSITE, AtLeast(0.045),
                setup, |low.order|);
  }
}
