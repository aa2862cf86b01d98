/** Monotone scoring in every reachable model, for every bounded feature but the execution composite. */
module MonotoneScore {
  import opened Arithmetic
  import opened Common
  import opened OnlineModel
  import opened ModelLaws
  import opened ModelTables

  ghost predicate GoodGroups(gs: seq<Group>) {
    forall i :: 0 <= i < |gs| ==> 0.0 <= gs[i].strength <= 1.0
  }

  /** The same features, except that `name` is at least as large in `high`. */
  ghost predicate RaisedAt(low: map<string, real>, high: map<string, real>, name: string) {
    && low.Keys == high.Keys && name in low && low[name] <= high[name]
    && forall n :: n in low && n != name ==> low[n] == high[n]
  }

  lemma DampedAt(g: Group, values: map<string, real>, n: string)
    requires n in values
    ensures n in DampedBy(g, values)
    ensures DampedBy(g, values)[n] == if n in g.members then Kept(values[n], Damping(g, values)) else values[n]
  {
  }

  lemma DampingIsFraction(g: Group, values: map<string, real>)
    requires 0.0 <= g.strength <= 1.0
    ensures 0.0 <= Damping(g, values) <= 1.0
  {
    hide ValueOf, Abs;
  }

  lemma GroupKeepsRaise(g: Group, low: map<string, real>, high: map<string, real>, name: string)
    requires RaisedAt(low, high, name) && g.composite != name && 0.0 <= g.strength <= 1.0
    ensures RaisedAt(DampedBy(g, low), DampedBy(g, high), name)
  {
    SameDamping(g, low, high, name);
    assert DampedBy(g, low).Keys == low.Keys && DampedBy(g, high).Keys == high.Keys;
    hide DampedBy, Damping;
    RaisedProduct(g, low, high, name);
    forall n | n in low && n != name
      ensures DampedBy(g, low)[n] == DampedBy(g, high)[n]
    {
      DampedAt(g, low, n);
      DampedAt(g, high, n);
    }
  }

  lemma SameDamping(g: Group, low: map<string, real>, high: map<string, real>, name: string)
    requires RaisedAt(low, high, name) && g.composite != name
    ensures Damping(g, low) == Damping(g, high)
  {
  }

  lemma RaisedProduct(g: Group, low: map<string, real>, high: map<string, real>, name: string)
    requires name in low && name in high && low[name] <= high[name]
    requires Damping(g, low) == Damping(g, high) && 0.0 <= g.strength <= 1.0
    ensures name in DampedBy(g, low) && name in DampedBy(g, high)
    ensures DampedBy(g, low)[name] <= DampedBy(g, high)[name]
  {
    hide Kept, Damping, DampedBy;
    DampedAt(g, low, name);
    DampedAt(g, high, name);
    DampingIsFraction(g, low);
    KeptGrows(low[name], high[name], Damping(g, low));
  }

  lemma KeptGrows(x: real, y: real, d: real)
    requires x <= y && d <= 1.0
    ensures Kept(x, d) <= Kept(y, d)
  {
    Grow(x, y, 1.0 - d);
  }

  lemma {:induction false} GroupsKeepRaise(gs: seq<Group>, low: map<string, real>, high: map<string, real>,
                                            name: string)
    requires RaisedAt(low, high, name) && GoodGroups(gs)
    requires forall i :: 0 <= i < |gs| ==> gs[i].composite != name
    ensures RaisedAt(DampedByAll(gs, low), DampedByAll(gs, high), name)
  {
    hide DampedBy, RaisedAt;
    if gs != [] {
      GroupKeepsRaise(gs[0], low, high, name);
      GroupsKeepRaise(gs[1..], DampedBy(gs[0], low), DampedBy(gs[0], high), name);
    }
  }

  lemma NormalizedGrows(stat: Stat, x: real, y: real, setup: Setup)
    requires x <= y && forall v :: setup.sqrt(v) >= 0.0
    ensures Normalized(stat, x, setup) <= Normalized(stat, y, setup)
  {
    if stat.count >= 8 {
      var d := StandardDeviation(stat, setup);
      assert d > 0.0;
      hide StandardDeviation;
      Divide(x - stat.mean, y - stat.mean, d);
    }
  }

  /** The sign of a weight, as its bound promises it. */
  predicate Signed(bound: Bound, w: real) {
    match bound
    case AtLeast(_) => w >= 0.0
    case AtMost(_) => w <= 0.0
  }

  predicate Ordered(bound: Bound, low: real, high: real) {
    match bound
    case AtLeast(_) => low <= high
    case AtMost(_) => high <= low
  }

  lemma TermMoves(bound: Bound, w: real, x: real, y: real)
    requires Signed(bound, w) && x <= y
    ensures Ordered(bound, w * x, w * y)
  {
    if bound.AtLeast? {
      Grow(x, y, w);
      assert x * w == w * x && y * w == w * y;
    } else {
      Grow(x, y, -w);
      assert x * -w == -(w * x) && y * -w == -(w * y);
    }
  }

  lemma {:induction false} LinearMoves(st: State, order: seq<string>, low: map<string, real>, high: map<string, real>,
                                       name: string, bound: Bound, setup: Setup, k: nat)
    requires RaisedAt(low, high, name) && k <= |order|
    requires forall v :: setup.sqrt(v) >= 0.0
    requires Signed(bound, WeightOf(st.weights, name))
    ensures Ordered(bound, Linear(st, order, low, setup, k), Linear(st, order, high, setup, k))
  {
    hide Normalized, WeightOf, StatOf, Signed;
    if k > 0 {
      LinearMoves(st, order, low, high, name, bound, setup, k - 1);
      var n := order[k - 1];
      if n == name {
        NormalizedGrows(StatOf(st.stats, n), ValueOf(low, n), ValueOf(high, n), setup);
        TermMoves(bound, WeightOf(st.weights, n), Normalized(StatOf(st.stats, n), ValueOf(low, n), setup),
                  Normalized(StatOf(st.stats, n), ValueOf(high, n), setup));
      } else {
        assert ValueOf(low, n) == ValueOf(high, n);
      }
    }
  }

  /** The numerical functions behave: roots are not negative, the sigmoid is monotone. */
  ghost predicate Sound(setup: Setup) {
    && (forall v :: setup.sqrt(v) >= 0.0)
    && (forall u, v :: u <= v ==> setup.sigmoid(u) <= setup.sigmoid(v))
  }

  lemma ProbabilityMoves(st: State, low: Features, high: Features, i: nat, setup: Setup)
    requires Sound(setup) && GoodGroups(setup.groups) && GoodTable(setup.monotonic)
    requires i < |setup.monotonic| && AllRespect(setup.monotonic, st.weights)
    requires forall g :: 0 <= g < |setup.groups| ==> setup.groups[g].composite != setup.monotonic[i].name
    requires low.order == high.order && RaisedAt(low.values, high.values, setup.monotonic[i].name)
    ensures Ordered(setup.monotonic[i].bound, Probability(st, low, setup), Probability(st, high, setup))
  {
    hide RaisedAt, Linear, DampedByAll;
    var m := setup.monotonic[i];
    GroupsKeepRaise(setup.groups, low.values, high.values, m.name);
    assert Respects(m, st.weights) && GoodBound(m);
    LinearMoves(st, low.order, Prepared(setup, low.values), Prepared(setup, high.values),
                m.name, m.bound, setup, |low.order|);
  }

  // ---------------------------------------------------------------------------------------------
  // The source's tables
  // ---------------------------------------------------------------------------------------------

  /** A number for each bounded name, which shows that the names differ. */
  function Key(name: string): int {
    2 * |name| + (if name != "" && name[0] == 'p' then 1 else 0)
  }

  lemma NamesDiffer()
    ensures forall i, j :: 0 <= i < j < |MONOTONIC| ==> MONOTONIC[i].name != MONOTONIC[j].name
  {
    forall i, j | 0 <= i < j < |MONOTONIC|
      ensures MONOTONIC[i].name != MONOTONIC[j].name
    {
      assert Key(MONOTONIC[i].name) != Key(MONOTONIC[j].name);
    }
  }

  lemma TablesAreGood(sqrt: real -> real, sigmoid: real -> real)
    ensures GoodGroups(Learner(sqrt, sigmoid).groups)
    ensures GoodTable(MONOTONIC)
  {
    NamesDiffer();
  }

  /** Of the bounded features, only the execution composite damps others. */
  lemma OtherCompositesAreUnbounded(i: nat)
    requires i < |MONOTONIC|
    ensures MONOTONIC[i].name != TREND.composite && MONOTONIC[i].name != BREAKOUT.composite
  {
    assert |TREND.composite| == 23 && |BREAKOUT.composite| == 26;
    assert |MONOTONIC[i].name| != 23 && |MONOTONIC[i].name| != 26;
  }

  /** Monotone scoring in every reachable model: after any sequence of trade updates, raising one bounded
      feature moves the probability only in the direction of its bound, for every bounded feature except
      the execution composite. */
  lemma ScoreIsMonotone(start: State, priors: map<string, real>, rounds: seq<Round>, cap: real,
                        sqrt: real -> real, sigmoid: real -> real, low: Features, high: Features, i: nat)
    requires Sound(Learner(sqrt, sigmoid))
    requires i < |MONOTONIC| && MONOTONIC[i].name != EXECUTION.composite
    requires low.order == high.order && RaisedAt(low.values, high.values, MONOTONIC[i].name)
    ensures var setup := Learner(sqrt, sigmoid);
            var st := Run(Constructed(setup, start, priors), rounds, cap, setup);
            match MONOTONIC[i].bound
            case AtLeast(_) => Probability(st, low, setup) <= Probability(st, high, setup)
            case AtMost(_) => Probability(st, high, setup) <= Probability(st, low, setup)
  {
    hide RaisedAt, Probability, Run, Constructed, AllRespect, GoodTable, GoodGroups;
    var setup := Learner(sqrt, sigmoid);
    TablesAreGood(sqrt, sigmoid);
    ConstructedRespects(setup, start, priors);
    RunRespects(Constructed(setup, start, priors), rounds, cap, setup);
    OtherCompositesAreUnbounded(i);
    ProbabilityMoves(Run(Constructed(setup, start, priors), rounds, cap, setup), low, high, i, setup);
  }
}
