/** One model, within all its bounds, that scores lower when the execution composite rises. */
module CompositeExample {
  import opened OnlineModel
  import opened ModelLaws
  import opened ModelTables
  import opened MonotoneScore
  import opened CompositeScore

  const COMPOSITE_NAME := "execution_quality_composite"
  const MEMBER_NAME := "book_pressure"

  function Example(composite: real, pressure: real): map<string, real> {
    map[COMPOSITE_NAME := composite, MEMBER_NAME := pressure]
  }

  lemma ExampleNames()
    ensures COMPOSITE_NAME != MEMBER_NAME && EXECUTION.composite == COMPOSITE_NAME
    ensures MEMBER_NAME in EXECUTION.members && COMPOSITE_NAME !in EXECUTION.members
    ensures TREND.composite != COMPOSITE_NAME && TREND.composite != MEMBER_NAME
    ensures BREAKOUT.composite != COMPOSITE_NAME && BREAKOUT.composite != MEMBER_NAME
  {
    assert |COMPOSITE_NAME| == 27 && |MEMBER_NAME| == 13 && |TREND.composite| == 23 && |BREAKOUT.composite| == 26;
    assert forall n :: n in EXECUTION.members ==> |n| < 27;
  }

  lemma ExamplePrepared(composite: real, pressure: real, sqrt: real -> real, sigmoid: real -> real)
    requires 0.0 <= composite <= 3.0
    ensures Prepared(Learner(sqrt, sigmoid), Example(composite, pressure))
            == Example(composite, pressure * (1.0 - composite / 3.0 * 0.26))
  {
    var values := Example(composite, pressure);
    ExampleNames();
    var groups := Learner(sqrt, sigmoid).groups;
    assert groups[1..] == [BREAKOUT, EXECUTION] && groups[1..][1..] == [EXECUTION] && [EXECUTION][1..] == [];
    NoDamping(TREND, values);
    NoDamping(BREAKOUT, values);
    hide Example;
    ExampleDamped(composite, pressure);
    assert DampedByAll([], DampedBy(EXECUTION, values)) == DampedBy(EXECUTION, values);
    assert DampedByAll([EXECUTION], values) == DampedBy(EXECUTION, values);
    assert DampedByAll([BREAKOUT, EXECUTION], values) == DampedBy(EXECUTION, values);
  }

  lemma ExampleDamped(composite: real, pressure: real)
    requires 0.0 <= composite <= 3.0
    ensures DampedBy(EXECUTION, Example(composite, pressure))
            == Example(composite, pressure * (1.0 - composite / 3.0 * 0.26))
  {
    ExampleNames();
    var g := EXECUTION;
    assert g.strength == 0.26;
    TwoDamped(g, COMPOSITE_NAME, MEMBER_NAME, composite, pressure);
  }

  lemma TwoDamped(g: Group, c: string, m: string, x: real, p: real)
    requires g.composite == c && g.strength == 0.26 && c != m && m in g.members && c !in g.members
    requires 0.0 <= x <= 3.0
    ensures DampedBy(g, map[c := x, m := p]) == map[c := x, m := p * (1.0 - x / 3.0 * 0.26)]
  {
    var values := map[c := x, m := p];
    hide Damping, DampedBy;
    DampingOf(g, values, x);
    DampedAt(g, values, c);
    DampedAt(g, values, m);
    DampedNames(g, values);
    assert values.Keys == {c, m};
    MapOfTwo(DampedBy(g, values), c, m, x, p * (1.0 - x / 3.0 * 0.26));
  }

  lemma DampingOf(g: Group, values: map<string, real>, x: real)
    requires g.strength == 0.26 && ValueOf(values, g.composite) == x && 0.0 <= x <= 3.0
    ensures Damping(g, values) == x / 3.0 * 0.26
  {
  }

  lemma DampedNames(g: Group, values: map<string, real>)
    ensures DampedBy(g, values).Keys == values.Keys
  {
  }

  lemma MapOfTwo(values: map<string, real>, c: string, m: string, u: real, v: real)
    requires c != m && values.Keys == {c, m} && values[c] == u && values[m] == v
    ensures values == map[c := u, m := v]
  {
  }

  /** The smallest weights that respect the bounds, and one unit on a member of the group. */
  const EXAMPLE := State(0.0, Least(MONOTONIC)[MEMBER_NAME := 1.0], map[])

  lemma ExampleWeights()
    ensures AllRespect(MONOTONIC, EXAMPLE.weights)
    ensures WeightOf(EXAMPLE.weights, COMPOSITE_NAME) == 0.045 && WeightOf(EXAMPLE.weights, MEMBER_NAME) == 1.0
  {
    hide Least, AllRespect;
    ExampleNames();
    WitnessRespects(MEMBER_NAME, 0.0, 1.0);
    assert Witness(MEMBER_NAME, 0.0, 1.0).weights == EXAMPLE.weights;
  }

  function Score(composite: real, pressure: real, setup: Setup): real {
    Linear(EXAMPLE, [COMPOSITE_NAME, MEMBER_NAME], Prepared(setup, Example(composite, pressure)), setup, 2)
  }

  lemma ScoreAt(composite: real, pressure: real, damped: real, sqrt: real -> real, sigmoid: real -> real)
    requires 0.0 <= composite <= 3.0 && damped == pressure * (1.0 - composite / 3.0 * 0.26) && 0.0 <= damped <= 4.0
    ensures Score(composite, pressure, Learner(sqrt, sigmoid)) == 0.045 * composite + damped
  {
    hide Prepared, Learner, Example, Linear, AllRespect;
    ExampleWeights();
    ExamplePrepared(composite, pressure, sqrt, sigmoid);
    ExampleLinear(EXAMPLE, composite, damped, Learner(sqrt, sigmoid));
  }

  /** A model that respects every bound and still scores lower when the execution composite rises, because
      the composite also damps the members of its group. */
  lemma ExecutionCompositeCanLower(sqrt: real -> real, sigmoid: real -> real)
    ensures AllRespect(MONOTONIC, EXAMPLE.weights)
    ensures Score(0.0, 4.0, Learner(sqrt, sigmoid)) == 4.0 && Score(3.0, 4.0, Learner(sqrt, sigmoid)) == 3.095
  {
    hide AllRespect, Score, Learner;
    ExampleWeights();
    ScoreAt(0.0, 4.0, 4.0, sqrt, sigmoid);
    ScoreAt(3.0, 4.0, 2.96, sqrt, sigmoid);
  }

  lemma ExampleLinear(st: State, composite: real, pressure: real, setup: Setup)
    requires st.bias == 0.0 && st.stats == map[]
    requires WeightOf(st.weights, COMPOSITE_NAME) == 0.045 && WeightOf(st.weights, MEMBER_NAME) == 1.0
    requires 0.0 <= composite <= 4.0 && 0.0 <= pressure <= 4.0
    ensures Linear(st, [COMPOSITE_NAME, MEMBER_NAME], Example(composite, pressure), setup, 2)
            == 0.045 * composite + pressure
  {
    ExampleNames();
    var order, values := [COMPOSITE_NAME, MEMBER_NAME], Example(composite, pressure);
    assert Normalized(NO_STAT, composite, setup) == composite && Normalized(NO_STAT, pressure, setup) == pressure;
    assert Linear(st, order, values, setup, 0) == 0.0;
    assert Linear(st, order, values, setup, 1) == 0.045 * composite;
  }
}
