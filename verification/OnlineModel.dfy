/** The online logistic learner of src/ai/onlineModel.js. Square root and sigmoid are parameters. */
module OnlineModel {
  import opened Common

  // ---------------------------------------------------------------------------------------------
  // Tables
  // ---------------------------------------------------------------------------------------------

  /** A composite feature damps the members of its group. */
  datatype Group = Group(composite: string, strength: real, members: set<string>)

  datatype Bound = AtLeast(min: real) | AtMost(max: real)

  /** A feature whose weight keeps its sign: its prior weight, and a quarter of it as the bound. */
  datatype Monotonic = Monotonic(name: string, prior: real, bound: Bound)

  /** The tables and the numerical functions the learner works with. */
  datatype Setup = Setup(
    groups: seq<Group>,
    monotonic: seq<Monotonic>,
    sqrt: real -> real,
    sigmoid: real -> real)

  const PRIOR_BIAS := -0.12

  // ---------------------------------------------------------------------------------------------
  // State and features
  // ---------------------------------------------------------------------------------------------

  datatype Stat = Stat(count: nat, mean: real, m2: real)

  const NO_STAT := Stat(0, 0.0, 0.0)

  datatype State = State(bias: real, weights: map<string, real>, stats: map<string, Stat>)

  /** A record of raw features, with the order in which it lists them. */
  datatype Features = Features(order: seq<string>, values: map<string, real>)

  ghost predicate WellFormed(f: Features) {
    && (forall n :: n in f.order <==> n in f.values)
    && (forall i, j :: 0 <= i < j < |f.order| ==> f.order[i] != f.order[j])
  }

  function WeightOf(weights: map<string, real>, name: string): real { if name in weights then weights[name] else 0.0 }

  function StatOf(stats: map<string, Stat>, name: string): Stat { if name in stats then stats[name] else NO_STAT }

  function ValueOf(values: map<string, real>, name: string): real { if name in values then values[name] else 0.0 }

  function Damping(g: Group, values: map<string, real>): real {
    Clamp(Abs(ValueOf(values, g.composite)) / 3.0 * g.strength, 0.0, g.strength)
  }

  /** What damping by `d` leaves of `x`. */
  function Kept(x: real, d: real): real { x * (1.0 - d) }

  /** What one group makes of the features. */
  function DampedBy(g: Group, values: map<string, real>): map<string, real> {
    map n | n in values :: if n in g.members then Kept(values[n], Damping(g, values)) else values[n]
  }

  function DampedByAll(gs: seq<Group>, values: map<string, real>): map<string, real> {
    if gs == [] then values else DampedByAll(gs[1..], DampedBy(gs[0], values))
  }

  function Prepared(setup: Setup, values: map<string, real>): map<string, real> { DampedByAll(setup.groups, values) }

  /** The inner loop of `prepareFeatureSet`, over the members of one group. */
  method DampMembers(g: Group, values: map<string, real>) returns (prepared: map<string, real>)
    ensures prepared == DampedBy(g, values)
  {
    hide Kept, Damping;
    prepared := values;
    var damping := Damping(g, values);
    var todo := g.members;
    while todo != {}
      invariant todo <= g.members && prepared.Keys == values.Keys
      invariant forall n :: n in values ==>
                  prepared[n] == if n in g.members && n !in todo then Kept(values[n], damping) else values[n]
      decreases todo
    {
      var member :| member in todo;
      if member in prepared {
        prepared := prepared[member := Kept(prepared[member], damping)];
      }
      todo := todo - {member};
    }
    assert prepared.Keys == DampedBy(g, values).Keys;
  }

  /** `prepareFeatureSet`: composites that are zero are skipped, which is damping by nothing. */
  method PrepareFeatureSet(setup: Setup, raw: map<string, real>) returns (prepared: map<string, real>)
    requires forall g :: g in setup.groups ==> g.strength >= 0.0
    ensures prepared == Prepared(setup, raw)
  {
    hide DampedBy;
    var gs := setup.groups;
    prepared := raw;
    for i := 0 to |gs|
      invariant DampedByAll(gs[i..], prepared) == DampedByAll(gs, raw)
    {
      assert gs[i] in gs;
      if ValueOf(prepared, gs[i].composite) == 0.0 {
        NoDamping(gs[i], prepared);
      } else {
        prepared := DampMembers(gs[i], prepared);
      }
    }
  }

  lemma NoDamping(g: Group, values: map<string, real>)
    requires ValueOf(values, g.composite) == 0.0 && g.strength >= 0.0
    ensures DampedBy(g, values) == values
  {
    assert Damping(g, values) == 0.0;
  }

  function StandardDeviation(stat: Stat, setup: Setup): (d: real)
    ensures d != 0.0
  {
    var variance := if stat.count > 1 then stat.m2 / (stat.count - 1) as real else 0.0;
    if setup.sqrt(variance) == 0.0 then 1.0 else setup.sqrt(variance)
  }

  function Normalized(stat: Stat, value: real, setup: Setup): real {
    if stat.count < 8 then Clamp(value, -4.0, 4.0)
    else Clamp((value - stat.mean) / StandardDeviation(stat, setup), -4.0, 4.0)
  }

  /** Welford's update. */
  function Updated(stat: Stat, value: real): Stat {
    var count := stat.count + 1;
    var delta := value - stat.mean;
    var mean := stat.mean + delta / count as real;
    Stat(count, mean, stat.m2 + delta * (value - mean))
  }

  /** The first `k` names of a record. */
  function Listed(order: seq<string>, k: nat): set<string>
    requires k <= |order|
  {
    if k == 0 then {} else Listed(order, k - 1) + {order[k - 1]}
  }

  lemma {:induction false} ListedIs(order: seq<string>, k: nat, n: string)
    requires k <= |order|
    ensures n in Listed(order, k) <==> n in order[..k]
  {
    if k > 0 {
      ListedIs(order, k - 1, n);
      assert order[..k] == order[..k - 1] + [order[k - 1]];
    }
  }

  lemma AllListed(f: Features)
    requires WellFormed(f)
    ensures Listed(f.order, |f.order|) == f.values.Keys
  {
    assert f.order[..|f.order|] == f.order;
    forall n
      ensures n in Listed(f.order, |f.order|) <==> n in f.values
    {
      ListedIs(f.order, |f.order|, n);
    }
  }

  lemma NotYetListed(f: Features, i: nat)
    requires WellFormed(f) && i < |f.order|
    ensures f.order[i] !in Listed(f.order, i)
  {
    ListedIs(f.order, i, f.order[i]);
  }

  /** The linear score after the first `k` features. */
  function Linear(st: State, order: seq<string>, values: map<string, real>, setup: Setup, k: nat): real
    requires k <= |order|
  {
    if k == 0 then st.bias
    else
      var name := order[k - 1];
      Linear(st, order, values, setup, k - 1)
      + WeightOf(st.weights, name) * Normalized(StatOf(st.stats, name), ValueOf(values, name), setup)
  }

  /** `score(rawFeatures).probability`. */
  function Probability(st: State, f: Features, setup: Setup): real {
    setup.sigmoid(Linear(st, f.order, Prepared(setup, f.values), setup, |f.order|))
  }

  // ---------------------------------------------------------------------------------------------
  // Learning
  // ---------------------------------------------------------------------------------------------

  datatype Trade = Trade(
    features: Features,
    labelScore: Option<real>,
    targetOverride: Option<real>,
    netPnl: real,
    executionQuality: Option<real>,
    brokerModeWeight: Option<real>,
    live: bool,
    executionRegret: real)

  function Target(t: Trade): real {
    Clamp(t.labelScore.GetOr(t.targetOverride.GetOr(if t.netPnl > 0.0 then 1.0 else 0.0)), 0.0, 1.0)
  }

  /** How much a trade says: the money it moved, and how decided its outcome is. */
  function Evidence(t: Trade): real { Abs(t.netPnl) * 22.0 + Abs(Target(t) - 0.5) * 2.2 }

  /** What a factor leaves of an amount. */
  function Scaled(amount: real, factor: real): real { amount * factor }

  /** The evidence, less what the quality of the execution, the broker mode and the regret take from it. */
  function Trusted(t: Trade): real {
    Scaled(Scaled(Scaled(Evidence(t), Clamp(t.executionQuality.GetOr(0.5), 0.1, 1.0)),
                  Clamp(t.brokerModeWeight.GetOr(if t.live then 1.08 else 0.94), 0.75, 1.2)),
           Clamp(1.0 - t.executionRegret * 0.22, 0.72, 1.0))
  }

  function SampleWeight(t: Trade, cap: real): real { Clamp(Trusted(t), 0.3, cap) }

  function Error(st: State, t: Trade, cap: real, setup: Setup): real {
    (Target(t) - Probability(st, t.features, setup)) * SampleWeight(t, cap)
  }

  function NewWeight(w: real, error: real, x: real, rate: real, l2: real): real {
    w * (1.0 - rate * l2) + rate * error * x
  }

  function Confined(m: Monotonic, weights: map<string, real>): real {
    var value := if m.name in weights then weights[m.name] else m.prior;
    match m.bound
    case AtLeast(min) => Max(value, min)
    case AtMost(max) => Min(value, max)
  }

  function ProjectedBy(ms: seq<Monotonic>, weights: map<string, real>): map<string, real> {
    if ms == [] then weights else ProjectedBy(ms[1..], weights[ms[0].name := Confined(ms[0], weights)])
  }

  /** `enforceMonotonicWeights`. */
  function Projected(setup: Setup, weights: map<string, real>): map<string, real> {
    ProjectedBy(setup.monotonic, weights)
  }

  /** The gradient step on every listed feature, before projection. */
  function SteppedWeights(st: State, values: map<string, real>, error: real, rate: real, l2: real, setup: Setup)
    : map<string, real>
  {
    st.weights + map n | n in values ::
      NewWeight(WeightOf(st.weights, n), error, Normalized(StatOf(st.stats, n), values[n], setup), rate, l2)
  }

  function SteppedStats(st: State, values: map<string, real>): map<string, Stat> {
    st.stats + map n | n in values :: Updated(StatOf(st.stats, n), values[n])
  }

  /** `updateFromTrade` as a simultaneous step. */
  function Learned(st: State, t: Trade, rate: real, l2: real, cap: real, setup: Setup): State {
    var values, error := Prepared(setup, t.features.values), Error(st, t, cap, setup);
    State(st.bias + rate * error, Projected(setup, SteppedWeights(st, values, error, rate, l2, setup)),
          SteppedStats(st, values))
  }

  function Seeded(st: State, priors: map<string, real>): State {
    if st.weights == map[] then State(PRIOR_BIAS, priors, st.stats) else st
  }

  /** The constructor: copy, seed the priors into an empty model, project. */
  function Constructed(setup: Setup, st: State, priors: map<string, real>): State {
    Seeded(st, priors).(weights := Projected(setup, Seeded(st, priors).weights))
  }

  class Model {
    const setup: Setup
    const maxSampleWeight: real
    var bias: real
    var weights: map<string, real>
    var stats: map<string, Stat>

    function View(): State
      reads this
    {
      State(bias, weights, stats)
    }

    constructor (st: State, priors: map<string, real>, setup: Setup, maxSampleWeight: real)
      ensures View() == Constructed(setup, st, priors)
      ensures this.setup == setup && this.maxSampleWeight == maxSampleWeight
    {
      this.setup, this.maxSampleWeight := setup, maxSampleWeight;
      bias, weights, stats := st.bias, st.weights, st.stats;
      new;
      if weights == map[] {
        bias, weights := PRIOR_BIAS, priors;
      }
      EnforceMonotonicWeights();
    }

    method EnforceMonotonicWeights()
      modifies this`weights
      ensures weights == Projected(setup, old(weights))
    {
      for i := 0 to |setup.monotonic|
        invariant ProjectedBy(setup.monotonic[i..], weights) == Projected(setup, old(weights))
      {
        weights := weights[setup.monotonic[i].name := Confined(setup.monotonic[i], weights)];
      }
    }

    /** `getFeatureStat`: looking a statistic up creates it. */
    method GetFeatureStat(name: string) returns (stat: Stat)
      modifies this`stats
      ensures stat == StatOf(old(stats), name)
      ensures stats == old(stats)[name := stat]
    {
      if name !in stats {
        stats := stats[name := NO_STAT];
      }
      stat := stats[name];
    }

    /** `score`: the statistics it looks up are created, but no statistic changes its value. */
    method Score(f: Features) returns (probability: real, confidence: real, normalized: map<string, real>)
      requires WellFormed(f) && forall g :: g in setup.groups ==> g.strength >= 0.0
      modifies this`stats
      ensures probability == Probability(old(View()), f, setup)
      ensures confidence == Clamp(Abs(probability - 0.5) * 2.0, 0.0, 1.0)
      ensures SameStats(stats, old(stats)) && stats.Keys == old(stats).Keys + f.values.Keys
      ensures normalized == NormalizedAll(old(stats), Prepared(setup, f.values), f.values.Keys, setup)
    {
      hide Normalized, Prepared, WellFormed, StatOf, WeightOf, ValueOf, SameStats, NormalizedAll;
      var values := PrepareFeatureSet(setup, f.values);
      ghost var before := View();
      normalized := map[];
      var linear := bias;
      AllListed(f);
      SameStatsRefl(stats);
      NothingNormalized(before.stats, values, setup);
      for i := 0 to |f.order|
        invariant linear == Linear(before, f.order, values, setup, i)
        invariant SameStats(stats, before.stats) && stats.Keys == before.stats.Keys + Listed(f.order, i)
        invariant normalized == NormalizedAll(before.stats, values, Listed(f.order, i), setup)
      {
        var name := f.order[i];
        SameStatsPut(stats, before.stats, name);
        var stat := GetFeatureStat(name);
        var x := Normalized(stat, ValueOf(values, name), setup);
        NormalizedPut(before.stats, values, Listed(f.order, i), name, setup);
        normalized := normalized[name := x];
        linear := linear + WeightOf(weights, name) * x;
      }
      probability := setup.sigmoid(linear);
      confidence := Clamp(Abs(probability - 0.5) * 2.0, 0.0, 1.0);
    }

    /** `updateFromTrade`: the in-place loop computes the simultaneous step. */
    method UpdateFromTrade(t: Trade, rate: real, l2: real) returns (predictionBefore: real, error: real)
      requires WellFormed(t.features) && forall g :: g in setup.groups ==> g.strength >= 0.0
      modifies this
      ensures View() == Learned(old(View()), t, rate, l2, maxSampleWeight, setup)
      ensures predictionBefore == Probability(old(View()), t.features, setup)
      ensures error == Error(old(View()), t, maxSampleWeight, setup)
    {
      hide Normalized, Probability, SampleWeight, Target, Projected, WellFormed, NormalizedAll, SameStats,
        SteppedWeights, SteppedStats, Prepared;
      ghost var before := View();
      var values := PrepareFeatureSet(setup, t.features.values);
      var p, _, normalized := Score(t.features);
      predictionBefore := p;
      error := (Target(t) - p) * SampleWeight(t, maxSampleWeight);
      bias := bias + rate * error;
      PreparedKeys(setup, t.features.values);
      Descend(before, t.features, values, normalized, error, rate, l2);
      assert stats == SteppedStats(before, values) && bias == before.bias + rate * error;
      assert error == Error(before, t, maxSampleWeight, setup);
      EnforceMonotonicWeights();
      assert weights == Projected(setup, SteppedWeights(before, values, error, rate, l2, setup));
    }

    /** The loop of `updateFromTrade` over the listed features. */
    method Descend(ghost before: State, f: Features, values: map<string, real>, normalized: map<string, real>,
                   error: real, rate: real, l2: real)
      requires WellFormed(f) && values.Keys == f.values.Keys
      requires weights == before.weights
      requires SameStats(stats, before.stats) && stats.Keys == before.stats.Keys + values.Keys
      requires normalized == NormalizedAll(before.stats, values, values.Keys, setup)
      modifies this`weights, this`stats
      ensures weights == SteppedWeights(before, values, error, rate, l2, setup)
      ensures stats == SteppedStats(before, values)
    {
      hide Normalized, Updated, NewWeight, StatOf, WeightOf, SameStats, SteppedSome, UpdatedSome, NormalizedAll,
        SteppedWeights, SteppedStats, WellFormed;
      var order := f.order;
      AllListed(f);
      NothingStepped(before, values, stats, error, rate, l2, setup);
      for i := 0 to |order|
        invariant weights == SteppedSome(before, values, Listed(order, i), error, rate, l2, setup)
        invariant SameStats(stats, UpdatedSome(before.stats, values, Listed(order, i)))
        invariant stats.Keys == before.stats.Keys + values.Keys
      {
        var name := order[i];
        ListedWithin(order, i, |order|);
        NotYetListed(f, i);
        NormalizedAt(before.stats, values, values.Keys, name, setup);
        StepWeights(before, values, Listed(order, i), name, error, rate, l2, setup);
        StepStats(before.stats, values, Listed(order, i), name, stats);
        weights := weights[name := NewWeight(WeightOf(weights, name), error, normalized[name], rate, l2)];
        var stat := GetFeatureStat(name);
        stats := stats[name := Updated(stat, ValueOf(values, name))];
      }
      AllStepped(before, values, stats, error, rate, l2, setup);
    }
  }

  /** The same statistics, where a missing one counts as empty. */
  ghost predicate SameStats(a: map<string, Stat>, b: map<string, Stat>) {
    forall n :: StatOf(a, n) == StatOf(b, n)
  }

  lemma SameStatsRefl(a: map<string, Stat>)
    ensures SameStats(a, a)
  {
  }

  lemma SameStatsPut(a: map<string, Stat>, b: map<string, Stat>, name: string)
    requires SameStats(a, b)
    ensures StatOf(a, name) == StatOf(b, name)
    ensures SameStats(a[name := StatOf(a, name)], b)
  {
  }

  function NormalizedAll(stats: map<string, Stat>, values: map<string, real>, names: set<string>, setup: Setup)
    : map<string, real>
  {
    map n | n in names :: Normalized(StatOf(stats, n), ValueOf(values, n), setup)
  }

  /** The weights after the step on some of the features. */
  function SteppedSome(st: State, values: map<string, real>, names: set<string>, error: real,
                       rate: real, l2: real, setup: Setup)
    : map<string, real>
  {
    st.weights + map n | n in names ::
      NewWeight(WeightOf(st.weights, n), error, Normalized(StatOf(st.stats, n), ValueOf(values, n), setup), rate, l2)
  }

  function UpdatedSome(stats: map<string, Stat>, values: map<string, real>, names: set<string>): map<string, Stat> {
    stats + map n | n in names :: Updated(StatOf(stats, n), ValueOf(values, n))
  }

  lemma NothingStepped(st: State, values: map<string, real>, stats: map<string, Stat>,
                       error: real, rate: real, l2: real, setup: Setup)
    requires SameStats(stats, st.stats)
    ensures SteppedSome(st, values, {}, error, rate, l2, setup) == st.weights
    ensures SameStats(stats, UpdatedSome(st.stats, values, {}))
  {
    hide StatOf;
    assert UpdatedSome(st.stats, values, {}) == st.stats;
  }

  lemma NothingNormalized(stats: map<string, Stat>, values: map<string, real>, setup: Setup)
    ensures NormalizedAll(stats, values, {}, setup) == map[]
  {
  }

  lemma NormalizedPut(stats: map<string, Stat>, values: map<string, real>, names: set<string>,
                      name: string, setup: Setup)
    ensures NormalizedAll(stats, values, names, setup)
            [name := Normalized(StatOf(stats, name), ValueOf(values, name), setup)]
            == NormalizedAll(stats, values, names + {name}, setup)
  {
    hide Normalized, StatOf, ValueOf;
  }

  lemma NormalizedAt(stats: map<string, Stat>, values: map<string, real>, names: set<string>,
                     name: string, setup: Setup)
    requires name in names
    ensures name in NormalizedAll(stats, values, names, setup)
    ensures NormalizedAll(stats, values, names, setup)[name]
            == Normalized(StatOf(stats, name), ValueOf(values, name), setup)
  {
    hide Normalized, StatOf, ValueOf;
  }

  lemma StepWeights(st: State, values: map<string, real>, names: set<string>, name: string,
                    error: real, rate: real, l2: real, setup: Setup)
    requires name !in names
    ensures var weights := SteppedSome(st, values, names, error, rate, l2, setup);
            var x := Normalized(StatOf(st.stats, name), ValueOf(values, name), setup);
            && WeightOf(weights, name) == WeightOf(st.weights, name)
            && weights[name := NewWeight(WeightOf(weights, name), error, x, rate, l2)]
               == SteppedSome(st, values, names + {name}, error, rate, l2, setup)
  {
    hide Normalized, NewWeight, ValueOf, StatOf;
  }

  lemma UpdatedAt(stats: map<string, Stat>, values: map<string, real>, names: set<string>, n: string)
    ensures StatOf(UpdatedSome(stats, values, names), n)
            == if n in names then Updated(StatOf(stats, n), ValueOf(values, n)) else StatOf(stats, n)
  {
    hide Updated, ValueOf;
  }

  lemma StepStats(before: map<string, Stat>, values: map<string, real>, names: set<string>, name: string,
                  stats: map<string, Stat>)
    requires name !in names && SameStats(stats, UpdatedSome(before, values, names))
    ensures StatOf(stats, name) == StatOf(before, name)
    ensures var stat := StatOf(stats, name);
            SameStats(stats[name := stat][name := Updated(stat, ValueOf(values, name))],
                      UpdatedSome(before, values, names + {name}))
  {
    hide Updated, ValueOf, UpdatedSome;
    UpdatedAt(before, values, names, name);
    var stat := StatOf(stats, name);
    var stats' := stats[name := stat][name := Updated(stat, ValueOf(values, name))];
    forall n
      ensures StatOf(stats', n) == StatOf(UpdatedSome(before, values, names + {name}), n)
    {
      UpdatedAt(before, values, names, n);
      UpdatedAt(before, values, names + {name}, n);
    }
  }

  lemma AllStepped(st: State, values: map<string, real>, stats: map<string, Stat>,
                   error: real, rate: real, l2: real, setup: Setup)
    requires SameStats(stats, UpdatedSome(st.stats, values, values.Keys)) && stats.Keys == st.stats.Keys + values.Keys
    ensures SteppedSome(st, values, values.Keys, error, rate, l2, setup)
            == SteppedWeights(st, values, error, rate, l2, setup)
    ensures stats == SteppedStats(st, values)
  {
    hide Normalized, NewWeight, Updated, UpdatedSome, SteppedStats, StatOf, SameStats, WeightOf;
    AllUpdated(st, values);
    SameStatsAreEqual(stats, SteppedStats(st, values));
  }

  lemma AllUpdated(st: State, values: map<string, real>)
    ensures UpdatedSome(st.stats, values, values.Keys) == SteppedStats(st, values)
    ensures SteppedStats(st, values).Keys == st.stats.Keys + values.Keys
  {
    hide Updated, StatOf;
  }

  lemma SameStatsAreEqual(a: map<string, Stat>, b: map<string, Stat>)
    requires SameStats(a, b) && a.Keys == b.Keys
    ensures a == b
  {
    forall n | n in a
      ensures a[n] == b[n]
    {
      assert StatOf(a, n) == StatOf(b, n);
    }
  }

  lemma {:induction false} ListedWithin(order: seq<string>, i: nat, k: nat)
    requires i < k <= |order|
    ensures order[i] in Listed(order, k)
  {
    if i < k - 1 {
      ListedWithin(order, i, k - 1);
    }
  }

  lemma PreparedKeys(setup: Setup, values: map<string, real>)
    ensures Prepared(setup, values).Keys == values.Keys
  {
    DampedKeys(setup.groups, values);
  }

  lemma {:induction false} DampedKeys(gs: seq<Group>, values: map<string, real>)
    ensures DampedByAll(gs, values).Keys == values.Keys
  {
    if gs != [] {
      DampedKeys(gs[1..], DampedBy(gs[0], values));
    }
  }
}
