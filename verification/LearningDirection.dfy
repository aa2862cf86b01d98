/** A trade teaches the learner in the direction of its outcome. */
module LearningDirection {
  import opened Arithmetic
  import opened Common
  import opened OnlineModel

  /** What a trade aims at: its label, failing that the caller's target, failing that whether it made money; and
      never outside 0 and 1. */
  function Aim(t: Trade): real {
    var raw := match (t.labelScore, t.targetOverride)
               case (Some(score), _) => score
               case (None, Some(target)) => target
               case (None, None) => if t.netPnl > 0.0 then 1.0 else 0.0;
    if raw < 0.0 then 0.0 else if raw > 1.0 then 1.0 else raw
  }

  lemma AimIsTarget(t: Trade)
    ensures Target(t) == Aim(t)
  {
  }

  lemma WeightIsPositive(t: Trade, cap: real)
    requires cap > 0.0
    ensures 0.0 < SampleWeight(t, cap) <= cap
    ensures cap >= 0.3 ==> SampleWeight(t, cap) >= 0.3
  {
  }

  /** The error is positive exactly when the prediction is below the aim, negative exactly when it is above, and it
      is their distance times a positive weight. */
  lemma ErrorPointsToAim(st: State, t: Trade, cap: real, setup: Setup)
    requires cap > 0.0
    ensures var p, error := Probability(st, t.features, setup), Error(st, t, cap, setup);
            && (error > 0.0 <==> p < Aim(t)) && (error < 0.0 <==> p > Aim(t))
            && error == (Aim(t) - p) * SampleWeight(t, cap)
  {
    hide Probability, SampleWeight, Target, Aim;
    AimIsTarget(t);
    WeightIsPositive(t, cap);
    var distance, weight := Aim(t) - Probability(st, t.features, setup), SampleWeight(t, cap);
    assert Error(st, t, cap, setup) == distance * weight;
    SignOfProduct(distance, weight);
  }

  /** The bias rises exactly when the prediction is below the aim, and falls exactly when it is above. */
  lemma BiasFollows(st: State, t: Trade, rate: real, l2: real, cap: real, setup: Setup)
    requires rate > 0.0 && cap > 0.0
    ensures var p, after := Probability(st, t.features, setup), Learned(st, t, rate, l2, cap, setup);
            && (after.bias > st.bias <==> p < Aim(t)) && (after.bias < st.bias <==> p > Aim(t))
  {
    hide Probability, Error, Aim, Projected, SteppedWeights, SteppedStats, Prepared;
    ErrorPointsToAim(st, t, cap, setup);
    SignOfProduct(Error(st, t, cap, setup), rate);
  }

  /** The weights before the bounds are enforced. */
  function Stepped(st: State, t: Trade, rate: real, l2: real, cap: real, setup: Setup): map<string, real> {
    SteppedWeights(st, Prepared(setup, t.features.values), Error(st, t, cap, setup), rate, l2, setup)
  }

  lemma StepAt(st: State, values: map<string, real>, error: real, rate: real, l2: real, setup: Setup, name: string)
    ensures WeightOf(SteppedWeights(st, values, error, rate, l2, setup), name)
            == if name in values then
                 WeightOf(st.weights, name) * (1.0 - rate * l2)
                 + rate * error * Normalized(StatOf(st.stats, name), values[name], setup)
               else WeightOf(st.weights, name)
  {
    hide Normalized, StatOf;
  }

  /** Beside its decay, every weight moves with the sign of (aim minus prediction) times its normalised feature;
      without decay that is its whole movement. Weights of features that are not listed stay. */
  lemma WeightFollows(st: State, t: Trade, rate: real, l2: real, cap: real, setup: Setup, name: string)
    requires rate > 0.0 && cap > 0.0
    ensures var p, values := Probability(st, t.features, setup), Prepared(setup, t.features.values);
            var w, w' := WeightOf(st.weights, name), WeightOf(Stepped(st, t, rate, l2, cap, setup), name);
            if name in values then
              var x := Normalized(StatOf(st.stats, name), values[name], setup);
              && (w' > w * (1.0 - rate * l2) <==> (Aim(t) - p) * x > 0.0)
              && (w' < w * (1.0 - rate * l2) <==> (Aim(t) - p) * x < 0.0)
              && (l2 == 0.0 ==> w * (1.0 - rate * l2) == w)
            else w' == w
  {
    hide Probability, Error, Aim, SteppedWeights, Prepared, Normalized, StatOf, WeightOf, SampleWeight;
    var values, error := Prepared(setup, t.features.values), Error(st, t, cap, setup);
    StepAt(st, values, error, rate, l2, setup, name);
    if name in values {
      ErrorPointsToAim(st, t, cap, setup);
      WeightIsPositive(t, cap);
      Push(Aim(t) - Probability(st, t.features, setup), SampleWeight(t, cap),
           Normalized(StatOf(st.stats, name), values[name], setup), rate, error);
    }
  }

  lemma Push(distance: real, weight: real, x: real, rate: real, error: real)
    requires weight > 0.0 && rate > 0.0 && error == distance * weight
    ensures rate * error * x > 0.0 <==> distance * x > 0.0
    ensures rate * error * x < 0.0 <==> distance * x < 0.0
  {
    PositiveProduct(weight, rate);
    var k := weight * rate;
    assert rate * error * x == distance * x * k by {
      Regroup(distance, weight, x, rate);
    }
    SignOfProduct(distance * x, k);
  }

  lemma Regroup(d: real, w: real, x: real, r: real)
    ensures r * (d * w) * x == d * x * (w * r)
  {
    var dw := d * w;
    assert r * dw * x == (dw * x) * r;
    assert dw * x == (d * x) * w;
    var dx := d * x;
    assert dx * w * r == dx * (w * r);
  }

  // ---------------------------------------------------------------------------------------------
  // The score
  // ---------------------------------------------------------------------------------------------

  /** The sum of the squared normalised features. */
  function Energy(st: State, order: seq<string>, values: map<string, real>, setup: Setup, k: nat): real
    requires k <= |order|
  {
    if k == 0 then 0.0
    else
      var x := Normalized(StatOf(st.stats, order[k - 1]), ValueOf(values, order[k - 1]), setup);
      Energy(st, order, values, setup, k - 1) + x * x
  }

  lemma {:induction false} EnergyIsNotNegative(st: State, order: seq<string>, values: map<string, real>,
                                                   setup: Setup, k: nat)
    requires k <= |order|
    ensures Energy(st, order, values, setup, k) >= 0.0
  {
    hide Normalized, StatOf, ValueOf;
    if k > 0 {
      EnergyIsNotNegative(st, order, values, setup, k - 1);
      SquareIsNotNegative(Normalized(StatOf(st.stats, order[k - 1]), ValueOf(values, order[k - 1]), setup));
    }
  }

  /** The state with the stepped bias and weights, and the statistics as they were. */
  function Relearned(st: State, values: map<string, real>, error: real, rate: real, setup: Setup): State {
    State(st.bias + rate * error, SteppedWeights(st, values, error, rate, 0.0, setup), st.stats)
  }

  /** Over the first `k` features the score has moved by the step times one plus their energy. */
  ghost predicate Moves(st: State, order: seq<string>, values: map<string, real>, error: real, rate: real,
                        setup: Setup, k: nat)
    requires k <= |order|
  {
    Linear(Relearned(st, values, error, rate, setup), order, values, setup, k)
    == Linear(st, order, values, setup, k) + rate * error * (1.0 + Energy(st, order, values, setup, k))
  }

  lemma {:induction false} ScoreMoves(st: State, order: seq<string>, values: map<string, real>, error: real, rate: real,
                                      setup: Setup, k: nat)
    requires k <= |order| && forall n :: n in order ==> n in values
    ensures Moves(st, order, values, error, rate, setup, k)
  {
    if k > 0 {
      hide Moves;
      ScoreMoves(st, order, values, error, rate, setup, k - 1);
      OneFeature(st, order, values, error, rate, setup, k);
    }
  }

  lemma LinearStep(st: State, order: seq<string>, values: map<string, real>, setup: Setup, k: nat)
    requires 0 < k <= |order|
    ensures Linear(st, order, values, setup, k)
            == Linear(st, order, values, setup, k - 1)
               + WeightOf(st.weights, order[k - 1])
                 * Normalized(StatOf(st.stats, order[k - 1]), ValueOf(values, order[k - 1]), setup)
  {
    hide WeightOf, Normalized, StatOf, ValueOf;
  }

  lemma EnergyStep(st: State, order: seq<string>, values: map<string, real>, setup: Setup, k: nat)
    requires 0 < k <= |order|
    ensures var x := Normalized(StatOf(st.stats, order[k - 1]), ValueOf(values, order[k - 1]), setup);
            Energy(st, order, values, setup, k) == Energy(st, order, values, setup, k - 1) + x * x
  {
    hide Normalized, StatOf, ValueOf;
  }

  lemma NewWeightAt(st: State, values: map<string, real>, error: real, rate: real, setup: Setup, name: string)
    requires name in values
    ensures var now := Relearned(st, values, error, rate, setup);
            && now.stats == st.stats
            && WeightOf(now.weights, name)
               == WeightOf(st.weights, name)
                  + rate * error * Normalized(StatOf(st.stats, name), ValueOf(values, name), setup)
  {
    StepAt(st, values, error, rate, 0.0, setup, name);
    hide WeightOf, Normalized, StatOf, SteppedWeights;
    var w := WeightOf(st.weights, name);
    assert w * (1.0 - rate * 0.0) == w;
  }

  lemma OneFeature(st: State, order: seq<string>, values: map<string, real>, error: real, rate: real,
                   setup: Setup, k: nat)
    requires 0 < k <= |order| && order[k - 1] in values && Moves(st, order, values, error, rate, setup, k - 1)
    ensures Moves(st, order, values, error, rate, setup, k)
  {
    hide Linear, Energy, Relearned, Normalized, StatOf, ValueOf, WeightOf;
    var name, now := order[k - 1], Relearned(st, values, error, rate, setup);
    LinearStep(st, order, values, setup, k);
    LinearStep(now, order, values, setup, k);
    EnergyStep(st, order, values, setup, k);
    NewWeightAt(st, values, error, rate, setup, name);
    OneTerm(Linear(st, order, values, setup, k - 1), Linear(now, order, values, setup, k - 1),
            WeightOf(st.weights, name), WeightOf(now.weights, name), rate * error,
            Normalized(StatOf(st.stats, name), ValueOf(values, name), setup),
            Energy(st, order, values, setup, k - 1));
  }

  /** Without decay, and where no bound is in the way, the score of the same features under the same statistics rises
      exactly when the prediction was below the aim, and falls exactly when it was above; so with an increasing
      sigmoid the prediction moves towards the aim. */
  lemma ScoreFollows(st: State, t: Trade, rate: real, cap: real, setup: Setup)
    requires WellFormed(t.features) && rate > 0.0 && cap > 0.0
    requires Projected(setup, Stepped(st, t, rate, 0.0, cap, setup)) == Stepped(st, t, rate, 0.0, cap, setup)
    requires forall x, y :: x < y ==> setup.sigmoid(x) < setup.sigmoid(y)
    ensures var p, learned := Probability(st, t.features, setup), Learned(st, t, rate, 0.0, cap, setup);
            var after := Probability(learned.(stats := st.stats), t.features, setup);
            && (after > p <==> p < Aim(t)) && (after < p <==> p > Aim(t))
  {
    hide Error, Aim, SteppedWeights, Prepared, Normalized, Linear, SteppedStats, Projected;
    var values, error, order := Prepared(setup, t.features.values), Error(st, t, cap, setup), t.features.order;
    PreparedKeys(setup, t.features.values);
    ErrorPointsToAim(st, t, cap, setup);
    ScoreMoves(st, order, values, error, rate, setup, |order|);
    EnergyIsNotNegative(st, order, values, setup, |order|);
    var energy := 1.0 + Energy(st, order, values, setup, |order|);
    SignOfProduct(error, rate);
    assert rate * error == error * rate;
    SignOfProduct(rate * error, energy);
    var learned := Learned(st, t, rate, 0.0, cap, setup).(stats := st.stats);
    assert learned == Relearned(st, values, error, rate, setup);
    var was, now := Linear(st, order, values, setup, |order|), Linear(learned, order, values, setup, |order|);
    assert now == was + rate * error * energy;
    assert was < now ==> setup.sigmoid(was) < setup.sigmoid(now);
    assert now < was ==> setup.sigmoid(now) < setup.sigmoid(was);
  }

  // ---------------------------------------------------------------------------------------------
  // How much a trade counts
  // ---------------------------------------------------------------------------------------------

  /** A trade counts no less than another that moved less money, was less decided, was executed no better, has no
      larger weight of its mode and was regretted no less. A missing quality counts as one half, and a missing mode
      weight as 1.08 for live trades and 0.94 for the others. */
  lemma WeightGrows(t: Trade, u: Trade, cap: real)
    requires Moved(t) <= Moved(u) && Decided(t) <= Decided(u)
    requires Quality(t) <= Quality(u) && ModeWeight(t) <= ModeWeight(u) && t.executionRegret >= u.executionRegret
    ensures SampleWeight(t, cap) <= SampleWeight(u, cap)
  {
    TrustedGrows(t, u);
    hide Trusted;
  }

  lemma TrustedGrows(t: Trade, u: Trade)
    requires Moved(t) <= Moved(u) && Decided(t) <= Decided(u)
    requires Quality(t) <= Quality(u) && ModeWeight(t) <= ModeWeight(u) && t.executionRegret >= u.executionRegret
    ensures Trusted(t) <= Trusted(u)
  {
    EvidenceGrows(t, u);
    var a, b := Evidence(t), Evidence(u);
    var q, r := Clamp(t.executionQuality.GetOr(0.5), 0.1, 1.0), Clamp(u.executionQuality.GetOr(0.5), 0.1, 1.0);
    var m := Clamp(t.brokerModeWeight.GetOr(if t.live then 1.08 else 0.94), 0.75, 1.2);
    var n := Clamp(u.brokerModeWeight.GetOr(if u.live then 1.08 else 0.94), 0.75, 1.2);
    var x, y := Clamp(1.0 - t.executionRegret * 0.22, 0.72, 1.0), Clamp(1.0 - u.executionRegret * 0.22, 0.72, 1.0);
    assert 0.0 <= q <= r && 0.0 <= m <= n && 0.0 <= x <= y;
    hide Scaled, Clamp, Evidence;
    ScaledGrows(a, b, q, r);
    ScaledGrows(Scaled(a, q), Scaled(b, r), m, n);
    ScaledGrows(Scaled(Scaled(a, q), m), Scaled(Scaled(b, r), n), x, y);
  }

  lemma EvidenceGrows(t: Trade, u: Trade)
    requires Moved(t) <= Moved(u) && Decided(t) <= Decided(u)
    ensures 0.0 <= Evidence(t) <= Evidence(u)
  {
    AimIsTarget(t);
    AimIsTarget(u);
    hide Aim, Target;
  }

  /** How much money it moved, either way. */
  function Moved(t: Trade): real { if t.netPnl < 0.0 then -t.netPnl else t.netPnl }

  lemma ScaledGrows(a: real, b: real, x: real, y: real)
    requires 0.0 <= a <= b && 0.0 <= x <= y
    ensures 0.0 <= Scaled(a, x) <= Scaled(b, y)
  {
    Product(a, x);
    Grow(a, b, x);
    Grow(x, y, b);
  }

  /** How far the aim is from undecided. */
  function Decided(t: Trade): real { if Aim(t) < 0.5 then 0.5 - Aim(t) else Aim(t) - 0.5 }

  function Quality(t: Trade): real {
    match t.executionQuality
    case Some(quality) => quality
    case None => 0.5
  }

  function ModeWeight(t: Trade): real {
    match t.brokerModeWeight
    case Some(weight) => weight
    case None => if t.live then 1.08 else 0.94
  }

  const NOTHING := Features([], map[])

  lemma TrustedIs(t: Trade, e: real, q: real, m: real, x: real, a: real, b: real)
    requires Evidence(t) == e && Clamp(Quality(t), 0.1, 1.0) == q && Clamp(ModeWeight(t), 0.75, 1.2) == m
    requires Clamp(1.0 - t.executionRegret * 0.22, 0.72, 1.0) == x && a == Scaled(e, q) && b == Scaled(a, m)
    ensures Trusted(t) == Scaled(b, x)
  {
    hide Evidence, Clamp, Scaled;
  }

  const LIVE_WIN := Trade(NOTHING, Some(1.0), None, 0.02, Some(1.0), None, true, 0.0)
  const REGRETTED := LIVE_WIN.(live := false, executionRegret := 1.0)
  const BIG_WIN := LIVE_WIN.(labelScore := None, netPnl := 0.5)
  const NON_EVENT := Trade(NOTHING, Some(0.5), None, 0.01, None, None, false, 0.0)

  lemma LiveWin()
    ensures Trusted(LIVE_WIN) == 1.6632
  {
    assert Evidence(LIVE_WIN) == 1.54 && Clamp(Quality(LIVE_WIN), 0.1, 1.0) == 1.0;
    assert Clamp(ModeWeight(LIVE_WIN), 0.75, 1.2) == 1.08;
    assert Scaled(1.54, 1.0) == 1.54 && Scaled(1.54, 1.08) == 1.6632 && Scaled(1.6632, 1.0) == 1.6632;
    TrustedIs(LIVE_WIN, 1.54, 1.0, 1.08, 1.0, 1.54, 1.6632);
  }

  lemma RegrettedWin()
    ensures Trusted(REGRETTED) == 1.129128
  {
    assert Evidence(REGRETTED) == 1.54 && Clamp(Quality(REGRETTED), 0.1, 1.0) == 1.0;
    assert Clamp(ModeWeight(REGRETTED), 0.75, 1.2) == 0.94;
    assert Scaled(1.54, 1.0) == 1.54 && Scaled(1.54, 0.94) == 1.4476 && Scaled(1.4476, 0.78) == 1.129128;
    TrustedIs(REGRETTED, 1.54, 1.0, 0.94, 0.78, 1.54, 1.4476);
  }

  lemma BigWin()
    ensures Trusted(BIG_WIN) == 13.068
  {
    assert Evidence(BIG_WIN) == 12.1 && Clamp(Quality(BIG_WIN), 0.1, 1.0) == 1.0;
    assert Clamp(ModeWeight(BIG_WIN), 0.75, 1.2) == 1.08;
    assert Scaled(12.1, 1.0) == 12.1 && Scaled(12.1, 1.08) == 13.068 && Scaled(13.068, 1.0) == 13.068;
    TrustedIs(BIG_WIN, 12.1, 1.0, 1.08, 1.0, 12.1, 13.068);
  }

  lemma NonEvent()
    ensures Trusted(NON_EVENT) == 0.1034
  {
    assert Evidence(NON_EVENT) == 0.22 && Clamp(Quality(NON_EVENT), 0.1, 1.0) == 0.5;
    assert Clamp(ModeWeight(NON_EVENT), 0.75, 1.2) == 0.94;
    assert Scaled(0.22, 0.5) == 0.11 && Scaled(0.11, 0.94) == 0.1034 && Scaled(0.1034, 1.0) == 0.1034;
    TrustedIs(NON_EVENT, 0.22, 0.5, 0.94, 1.0, 0.11, 0.1034);
  }

  /** A decided live trade of two per cent, well executed and not regretted, counts 1.6632; the same on paper with
      a regret of one counts less; a large one counts the cap, and a small undecided one still counts 0.3. */
  lemma WeightExamples()
    ensures SampleWeight(LIVE_WIN, 1.85) == 1.6632 && SampleWeight(REGRETTED, 1.85) == 1.129128
    ensures SampleWeight(BIG_WIN, 1.85) == 1.85 && SampleWeight(NON_EVENT, 1.85) == 0.3
  {
    hide Trusted;
    LiveWin();
    RegrettedWin();
    BigWin();
    NonEvent();
  }
}
