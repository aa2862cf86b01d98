/** Laws of the online learner: exact statistics, bounded weights and monotone scores over any run. */
module ModelLaws {
  import opened Arithmetic
  import opened Common
  import opened OnlineModel

  // ---------------------------------------------------------------------------------------------
  // Welford's statistics
  // ---------------------------------------------------------------------------------------------

  /** The statistic after a sequence of values. */
  function StatAfter(xs: seq<real>): Stat {
    if xs == [] then NO_STAT else Updated(StatAfter(xs[..|xs| - 1]), xs[|xs| - 1])
  }

  function Square(d: real): real { d * d }

  /** Sum of squared deviations from `mean`. */
  function SquaredDeviations(xs: seq<real>, mean: real): real {
    if xs == [] then 0.0
    else SquaredDeviations(xs[..|xs| - 1], mean) + Square(xs[|xs| - 1] - mean)
  }

  /** What `count` times `mean` stands for. */
  function Total(s: Stat): real { s.mean * s.count as real }

  /** A sum `d0` of `n` squared deviations from `a`, taken from `a - e` instead. */
  function Recentred(d0: real, a: real, e: real, sum: real, n: nat): real {
    d0 + 2.0 * e * (sum - a * n as real) + e * e * n as real
  }

  lemma SquareOfSum(u: real, e: real)
    ensures (u + e) * (u + e) == u * u + 2.0 * e * u + e * e
  {
  }

  lemma SquareNonNegative(d: real)
    ensures d * d >= 0.0
  {
  }

  lemma RecentreStep(d0: real, d1: real, u: real, e: real, p: real, n: real)
    requires d1 == d0 + 2.0 * e * p + e * e * n
    ensures d1 + (u + e) * (u + e) == d0 + u * u + 2.0 * e * (p + u) + e * e * (n + 1.0)
  {
    SquareOfSum(u, e);
    Distribute(2.0 * e, p, u);
    Distribute(e * e, n, 1.0);
  }

  /** Moving the centre of a sum of squared deviations by `e`. */
  lemma {:induction false} Recentre(xs: seq<real>, a: real, e: real)
    ensures SquaredDeviations(xs, a - e) == Recentred(SquaredDeviations(xs, a), a, e, Sum(xs), |xs|)
  {
    hide SquaredDeviations, Sum;
    if xs == [] {
      NoDeviations(a, e);
      assert a * |xs| as real == 0.0 && e * e * |xs| as real == 0.0;
    } else {
      var k := |xs| - 1;
      var u, n, p := xs[k] - a, k as real, Sum(xs[..k]) - a * k as real;
      Recentre(xs[..k], a, e);
      LastSum(xs);
      LastDeviation(xs, a);
      LastDeviation(xs, a - e);
      RecentreStep(SquaredDeviations(xs[..k], a), SquaredDeviations(xs[..k], a - e), u, e, p, n);
      Distribute(a, n, 1.0);
      assert Sum(xs) - a * |xs| as real == p + u;
      assert xs[k] - (a - e) == u + e && |xs| as real == n + 1.0;
    }
  }

  lemma NoDeviations(a: real, e: real)
    ensures SquaredDeviations([], a - e) == SquaredDeviations([], a) == Sum([]) == 0.0
  {
  }

  lemma {:induction false} DeviationsNonNegative(xs: seq<real>, mean: real)
    ensures SquaredDeviations(xs, mean) >= 0.0
  {
    if xs != [] {
      DeviationsNonNegative(xs[..|xs| - 1], mean);
      SquareNonNegative(xs[|xs| - 1] - mean);
    }
  }

  /** Welford correctness: after any sequence of updates, count times mean is the sum, and m2 is exactly
      the sum of squared deviations from the mean. */
  lemma {:induction false} Welford(xs: seq<real>)
    ensures var s := StatAfter(xs);
            && s.count == |xs|
            && s.mean * s.count as real == Sum(xs)
            && s.m2 == SquaredDeviations(xs, s.mean)
            && s.m2 >= 0.0
  {
    WelfordTotal(xs);
    DeviationsNonNegative(xs, StatAfter(xs).mean);
  }

  lemma {:induction false} WelfordStep(xs: seq<real>)
    requires xs != []
    ensures var s := StatAfter(xs);
            s.count == |xs| && Total(s) == Sum(xs) && s.m2 == SquaredDeviations(xs, s.mean)
    decreases xs, 0
  {
    hide SquaredDeviations, Sum, Total, Square, Recentred;
    var k := |xs| - 1;
    var before, x := xs[..k], xs[k];
    var s0, s := StatAfter(before), StatAfter(xs);
    assert s == Updated(s0, x) && s.count == s0.count + 1;
    hide StatAfter, Updated;
    assert s0.count == k && Total(s0) == Sum(before) && s0.m2 == SquaredDeviations(before, s0.mean) by {
      WelfordTotal(before);
    }
    LastSum(xs);
    LastDeviation(xs, s.mean);
    var e := s0.mean - s.mean;
    assert s0.mean - e == s.mean;
    Recentre(before, s0.mean, e);
    WelfordArithmetic(s0, s, x);
  }

  lemma {:induction false} WelfordTotal(xs: seq<real>)
    ensures var s := StatAfter(xs);
            s.count == |xs| && Total(s) == Sum(xs) && s.m2 == SquaredDeviations(xs, s.mean)
    decreases xs, 1
  {
    if xs != [] {
      WelfordStep(xs);
    }
  }

  /** The arithmetic of one update: the mean moves, and so does the centre of the deviations. */
  lemma WelfordArithmetic(s0: Stat, s: Stat, x: real)
    requires s == Updated(s0, x)
    ensures Total(s) == Total(s0) + x
    ensures s.m2 == Recentred(s0.m2, s0.mean, s0.mean - s.mean, Total(s0), s0.count) + Square(x - s.mean)
  {
    var n := s0.count as real;
    var step := UpdatedParts(s0, x);
    hide Updated;
    var e := s0.mean - s.mean;
    assert e == -step;
    assert 2.0 * e * (Total(s0) - s0.mean * n) == 0.0;
    MeanStep(s0.mean, step, n, x - s0.mean);
    Sides(s0.mean, step, n, x - s0.mean, x, s.mean);
    SecondMoment(n, x - s0.mean, step);
  }

  lemma UpdatedParts(s0: Stat, x: real) returns (step: real)
    ensures var s := Updated(s0, x);
            && s.count == s0.count + 1
            && step * (s0.count as real + 1.0) == x - s0.mean
            && s.mean == s0.mean + step
            && s.m2 == s0.m2 + (x - s0.mean) * ((x - s0.mean) - step)
  {
    var n := s0.count as real + 1.0;
    step := (x - s0.mean) / n;
    assert step * n == x - s0.mean;
    assert x - (s0.mean + step) == (x - s0.mean) - step;
  }

  lemma Sides(mean: real, step: real, n0: real, delta: real, x: real, mean': real)
    requires mean' == mean + step && delta == x - mean
    ensures (x - mean') * (x - mean') == (delta - step) * (delta - step)
    ensures (-step) * (-step) * n0 == step * step * n0
    ensures mean - -step == mean'
  {
    assert x - mean' == delta - step;
  }

  lemma MeanStep(mean: real, step: real, n0: real, delta: real)
    requires step * (n0 + 1.0) == delta
    ensures (mean + step) * (n0 + 1.0) == mean * n0 + mean + delta
  {
    Distribute(n0 + 1.0, mean, step);
    Distribute(mean, n0, 1.0);
  }

  lemma LastSum(xs: seq<real>)
    requires xs != []
    ensures Sum(xs) == Sum(xs[..|xs| - 1]) + xs[|xs| - 1]
  {
  }

  lemma LastDeviation(xs: seq<real>, mean: real)
    requires xs != []
    ensures SquaredDeviations(xs, mean) == SquaredDeviations(xs[..|xs| - 1], mean) + Square(xs[|xs| - 1] - mean)
  {
  }

  lemma SecondMoment(n0: real, delta: real, step: real)
    requires step * (n0 + 1.0) == delta
    ensures delta * (delta - step) == step * step * n0 + (delta - step) * (delta - step)
  {
    var rest := delta - step;
    assert rest == step * n0;
    Distribute(rest, step, rest);
    assert rest * step == step * step * n0;
  }

  /** The sample variance; zero for fewer than two values. */
  function SampleVariance(xs: seq<real>): real {
    if |xs| < 2 then 0.0 else SquaredDeviations(xs, Sum(xs) / |xs| as real) / (|xs| - 1) as real
  }

  /** The deviation that normalisation and drift assessment use is the root of the sample variance, or one
      when that root is zero. */
  lemma VarianceIsSampleVariance(xs: seq<real>, setup: Setup)
    ensures StandardDeviation(StatAfter(xs), setup)
            == if setup.sqrt(SampleVariance(xs)) == 0.0 then 1.0 else setup.sqrt(SampleVariance(xs))
  {
    hide SquaredDeviations, Sum, StatAfter;
    Welford(xs);
    var s := StatAfter(xs);
    if |xs| >= 2 {
      assert s.mean == Sum(xs) / |xs| as real by {
        assert s.mean * |xs| as real / |xs| as real == s.mean;
      }
    }
  }

  // ---------------------------------------------------------------------------------------------
  // Runs
  // ---------------------------------------------------------------------------------------------

  datatype Round = Round(trade: Trade, rate: real, l2: real)

  function Run(st: State, rounds: seq<Round>, cap: real, setup: Setup): State
    decreases rounds
  {
    if rounds == [] then st
    else Run(Learned(st, rounds[0].trade, rounds[0].rate, rounds[0].l2, cap, setup), rounds[1..], cap, setup)
  }

  /** The values of one feature that a run feeds into its statistic. */
  function Seen(rounds: seq<Round>, name: string, setup: Setup): seq<real> {
    if rounds == [] then []
    else
      var values := Prepared(setup, rounds[0].trade.features.values);
      (if name in values then [values[name]] else []) + Seen(rounds[1..], name, setup)
  }

  lemma {:induction false} StatAfterMore(xs: seq<real>, x: real)
    ensures Updated(StatAfter(xs), x) == StatAfter(xs + [x])
  {
    assert (xs + [x])[..|xs|] == xs;
  }

  /** Over any run, the statistic of a feature is that of the values seen, appended to those before. */
  lemma {:induction false} StatsFollowValues(st: State, rounds: seq<Round>, name: string,
                                            before: seq<real>, cap: real, setup: Setup)
    requires StatOf(st.stats, name) == StatAfter(before)
    ensures StatOf(Run(st, rounds, cap, setup).stats, name) == StatAfter(before + Seen(rounds, name, setup))
    decreases rounds
  {
    hide Updated, StatAfter, Prepared, Projected, SteppedWeights, Error;
    if rounds == [] {
      assert before + Seen(rounds, name, setup) == before;
    } else {
      var r := rounds[0];
      var values := Prepared(setup, r.trade.features.values);
      var next := Learned(st, r.trade, r.rate, r.l2, cap, setup);
      var more := if name in values then before + [values[name]] else before;
      if name in values {
        StatAfterMore(before, values[name]);
      }
      assert StatOf(next.stats, name) == StatAfter(more);
      StatsFollowValues(next, rounds[1..], name, more, cap, setup);
      assert before + Seen(rounds, name, setup) == more + Seen(rounds[1..], name, setup);
    }
  }

  // ---------------------------------------------------------------------------------------------
  // The projection
  // ---------------------------------------------------------------------------------------------

  /** A bound that lies between zero and the prior weight. */
  predicate GoodBound(m: Monotonic) {
    match m.bound
    case AtLeast(min) => 0.0 <= min <= m.prior
    case AtMost(max) => m.prior <= max <= 0.0
  }

  ghost predicate GoodTable(ms: seq<Monotonic>) {
    (forall i :: 0 <= i < |ms| ==> GoodBound(ms[i]))
    && forall i, j :: 0 <= i < j < |ms| ==> ms[i].name != ms[j].name
  }

  predicate Respects(m: Monotonic, weights: map<string, real>) {
    m.name in weights
    && match m.bound
       case AtLeast(min) => weights[m.name] >= min
       case AtMost(max) => weights[m.name] <= max
  }

  ghost predicate AllRespect(ms: seq<Monotonic>, weights: map<string, real>) {
    forall i :: 0 <= i < |ms| ==> Respects(ms[i], weights)
  }

  lemma {:induction false} ProjectionKeepsOthers(ms: seq<Monotonic>, weights: map<string, real>, name: string)
    requires forall i :: 0 <= i < |ms| ==> ms[i].name != name
    ensures name in ProjectedBy(ms, weights) <==> name in weights
    ensures name in weights ==> ProjectedBy(ms, weights)[name] == weights[name]
  {
    if ms != [] {
      ProjectionKeepsOthers(ms[1..], weights[ms[0].name := Confined(ms[0], weights)], name);
    }
  }

  /** Projecting makes every bound hold. */
  lemma {:induction false} ProjectionConfines(ms: seq<Monotonic>, weights: map<string, real>)
    requires GoodTable(ms)
    ensures AllRespect(ms, ProjectedBy(ms, weights))
  {
    if ms != [] {
      var next := weights[ms[0].name := Confined(ms[0], weights)];
      ProjectionConfines(ms[1..], next);
      ProjectionKeepsOthers(ms[1..], next, ms[0].name);
    }
  }

  /** Projecting weights that respect every bound changes nothing. */
  lemma {:induction false} ProjectionIsIdempotent(ms: seq<Monotonic>, weights: map<string, real>)
    requires AllRespect(ms, weights)
    ensures ProjectedBy(ms, weights) == weights
  {
    if ms != [] {
      assert Respects(ms[0], weights);
      assert weights[ms[0].name := Confined(ms[0], weights)] == weights;
      ProjectionIsIdempotent(ms[1..], weights);
    }
  }

  /** After construction and after every update all bounds hold. */
  lemma LearnedRespects(st: State, t: Trade, rate: real, l2: real, cap: real, setup: Setup)
    requires GoodTable(setup.monotonic)
    ensures AllRespect(setup.monotonic, Learned(st, t, rate, l2, cap, setup).weights)
  {
    hide AllRespect, GoodTable, ProjectedBy, SteppedWeights;
    ProjectionConfines(setup.monotonic,
                       SteppedWeights(st, Prepared(setup, t.features.values),
                                      Error(st, t, cap, setup), rate, l2, setup));
  }

  lemma ConstructedRespects(setup: Setup, st: State, priors: map<string, real>)
    requires GoodTable(setup.monotonic)
    ensures AllRespect(setup.monotonic, Constructed(setup, st, priors).weights)
  {
    ProjectionConfines(setup.monotonic, Seeded(st, priors).weights);
  }

  lemma {:induction false} RunRespects(st: State, rounds: seq<Round>, cap: real, setup: Setup)
    requires GoodTable(setup.monotonic) && AllRespect(setup.monotonic, st.weights)
    ensures AllRespect(setup.monotonic, Run(st, rounds, cap, setup).weights)
    decreases rounds
  {
    hide AllRespect, GoodTable, Learned;
    if rounds != [] {
      var r := rounds[0];
      LearnedRespects(st, r.trade, r.rate, r.l2, cap, setup);
      RunRespects(Learned(st, r.trade, r.rate, r.l2, cap, setup), rounds[1..], cap, setup);
    }
  }

  // ---------------------------------------------------------------------------------------------
  // Bounded weights
  // ---------------------------------------------------------------------------------------------

  ghost predicate Within(weights: map<string, real>, bound: real) {
    forall n :: Abs(WeightOf(weights, n)) <= bound
  }

  ghost predicate PriorsWithin(ms: seq<Monotonic>, bound: real) {
    forall i :: 0 <= i < |ms| ==> Abs(ms[i].prior) <= bound
  }

  /** The prior of one feature, if its weight is bounded at all. */
  ghost predicate PriorWithin(ms: seq<Monotonic>, name: string, bound: real) {
    forall i :: 0 <= i < |ms| && ms[i].name == name ==> Abs(ms[i].prior) <= bound
  }

  lemma ScaleBound(x: real, k: real, bound: real)
    requires Abs(x) <= bound && k >= 0.0
    ensures Abs(x * k) <= bound * k
  {
    Grow(x, bound, k);
    Grow(-bound, x, k);
    assert -bound * k == -(bound * k);
  }

  lemma ProductBound(x: real, y: real, a: real, b: real)
    requires Abs(x) <= a && Abs(y) <= b
    ensures Abs(x * y) <= a * b
  {
    ScaleBound(x, Abs(y), a);
    assert Abs(x * y) == Abs(x * Abs(y));
    assert (b - Abs(y)) * a >= 0.0;
  }

  /** One gradient step with decay is a weighted mean of the old weight and the largest push. */
  lemma StepWithin(w: real, error: real, x: real, rate: real, l2: real, cap: real, bound: real)
    requires Abs(w) <= bound && Abs(error) <= cap && Abs(x) <= 4.0
    requires rate >= 0.0 && l2 > 0.0 && rate * l2 <= 1.0 && 4.0 * cap <= bound * l2
    ensures Abs(NewWeight(w, error, x, rate, l2)) <= bound
  {
    var keep := 1.0 - rate * l2;
    ScaleBound(w, keep, bound);
    PushWithin(error, x, rate, l2, cap, bound);
    Budget(bound, rate, l2);
    TwoParts(w * keep, rate * error * x, bound * keep, bound * l2 * rate);
    assert NewWeight(w, error, x, rate, l2) == w * keep + rate * error * x;
  }

  lemma TwoParts(x: real, y: real, a: real, b: real)
    requires Abs(x) <= a && Abs(y) <= b
    ensures Abs(x + y) <= a + b
  {
  }

  lemma PushWithin(error: real, x: real, rate: real, l2: real, cap: real, bound: real)
    requires Abs(error) <= cap && Abs(x) <= 4.0 && rate >= 0.0 && 4.0 * cap <= bound * l2
    ensures Abs(rate * error * x) <= bound * l2 * rate
  {
    ProductBound(error, x, cap, 4.0);
    var push := error * x;
    ScaleBound(push, rate, 4.0 * cap);
    assert rate * error * x == push * rate;
    Grow(4.0 * cap, bound * l2, rate);
  }

  lemma Budget(bound: real, rate: real, l2: real)
    ensures bound * (1.0 - rate * l2) + bound * l2 * rate == bound
  {
    Distribute(bound, 1.0, -(rate * l2));
    assert bound * l2 * rate == bound * (rate * l2);
    assert bound * -(rate * l2) == -(bound * (rate * l2));
  }

  lemma ErrorWithin(st: State, t: Trade, cap: real, setup: Setup)
    requires cap >= 0.0 && forall x :: 0.0 <= setup.sigmoid(x) <= 1.0
    ensures Abs(Error(st, t, cap, setup)) <= cap
  {
    hide Linear, SampleWeight, Target;
    var gap, weight := Target(t) - Probability(st, t.features, setup), SampleWeight(t, cap);
    SampleWeightWithin(t, cap);
    TargetWithin(t);
    assert Abs(gap) <= 1.0;
    ScaleBound(gap, weight, 1.0);
    assert Error(st, t, cap, setup) == gap * weight;
  }

  lemma TargetWithin(t: Trade)
    ensures 0.0 <= Target(t) <= 1.0
  {
  }

  lemma SampleWeightWithin(t: Trade, cap: real)
    requires cap >= 0.0
    ensures 0.0 <= SampleWeight(t, cap) <= cap
  {
  }

  lemma NormalizedWithin(stat: Stat, value: real, setup: Setup)
    ensures Abs(Normalized(stat, value, setup)) <= 4.0
  {
  }

  lemma {:induction false} ProjectionWithin(ms: seq<Monotonic>, weights: map<string, real>, name: string, bound: real)
    requires forall i :: 0 <= i < |ms| ==> GoodBound(ms[i])
    requires PriorWithin(ms, name, bound) && Abs(WeightOf(weights, name)) <= bound
    ensures Abs(WeightOf(ProjectedBy(ms, weights), name)) <= bound
  {
    if ms != [] {
      hide WeightOf;
      ConfinedWithin(ms[0], weights, name, bound);
      ProjectionWithin(ms[1..], weights[ms[0].name := Confined(ms[0], weights)], name, bound);
    }
  }

  lemma ConfinedWithin(m: Monotonic, weights: map<string, real>, name: string, bound: real)
    requires GoodBound(m) && (m.name == name ==> Abs(m.prior) <= bound) && Abs(WeightOf(weights, name)) <= bound
    ensures Abs(WeightOf(weights[m.name := Confined(m, weights)], name)) <= bound
  {
  }

  /** Rates and sample weights for which the weights stay bounded. */
  ghost predicate Gentle(r: Round, l2Min: real) {
    r.rate >= 0.0 && r.l2 >= l2Min && r.rate * r.l2 <= 1.0
  }

  lemma LearnedWithin(st: State, r: Round, cap: real, l2Min: real, setup: Setup, name: string, bound: real)
    requires cap >= 0.0 && l2Min > 0.0 && 4.0 * cap <= bound * l2Min
    requires GoodTable(setup.monotonic) && PriorWithin(setup.monotonic, name, bound)
    requires forall x :: 0.0 <= setup.sigmoid(x) <= 1.0
    requires Gentle(r, l2Min) && Abs(WeightOf(st.weights, name)) <= bound
    ensures Abs(WeightOf(Learned(st, r.trade, r.rate, r.l2, cap, setup).weights, name)) <= bound
  {
    hide PriorWithin, Prepared, Error, ProjectedBy, SteppedWeights, WeightOf;
    var values, error := Prepared(setup, r.trade.features.values), Error(st, r.trade, cap, setup);
    ErrorWithin(st, r.trade, cap, setup);
    Grow(l2Min, r.l2, bound);
    assert bound * l2Min == l2Min * bound && bound * r.l2 == r.l2 * bound;
    SteppedWithin(st, values, error, r, cap, setup, name, bound);
    ProjectionWithin(setup.monotonic, SteppedWeights(st, values, error, r.rate, r.l2, setup), name, bound);
  }

  lemma SteppedWithin(st: State, values: map<string, real>, error: real, r: Round, cap: real, setup: Setup,
                      name: string, bound: real)
    requires Abs(error) <= cap && 4.0 * cap <= bound * r.l2
    requires r.rate >= 0.0 && r.l2 > 0.0 && r.rate * r.l2 <= 1.0
    requires Abs(WeightOf(st.weights, name)) <= bound
    ensures Abs(WeightOf(SteppedWeights(st, values, error, r.rate, r.l2, setup), name)) <= bound
  {
    hide Normalized, NewWeight, SteppedWeights, WeightOf;
    SteppedWeightAt(st, values, error, r, setup, name);
    if name in values {
      var x := Normalized(StatOf(st.stats, name), values[name], setup);
      NormalizedWithin(StatOf(st.stats, name), values[name], setup);
      StepWithin(WeightOf(st.weights, name), error, x, r.rate, r.l2, cap, bound);
    }
  }

  lemma SteppedWeightAt(st: State, values: map<string, real>, error: real, r: Round, setup: Setup, n: string)
    ensures WeightOf(SteppedWeights(st, values, error, r.rate, r.l2, setup), n)
            == if n in values then
                 NewWeight(WeightOf(st.weights, n), error, Normalized(StatOf(st.stats, n), values[n], setup),
                           r.rate, r.l2)
               else WeightOf(st.weights, n)
  {
    hide Normalized, NewWeight, StatOf;
  }

  /** Bounded weights over any run, weight by weight: none ever exceeds a bound that covers its own start,
      its own prior and four times the largest sample weight over the decay. */
  lemma {:induction false} WeightStaysBounded(st: State, rounds: seq<Round>, cap: real, l2Min: real, setup: Setup,
                                              name: string, bound: real)
    requires cap >= 0.0 && l2Min > 0.0 && 4.0 * cap <= bound * l2Min
    requires GoodTable(setup.monotonic) && PriorWithin(setup.monotonic, name, bound)
    requires forall x :: 0.0 <= setup.sigmoid(x) <= 1.0
    requires forall r :: r in rounds ==> Gentle(r, l2Min)
    requires Abs(WeightOf(st.weights, name)) <= bound
    ensures Abs(WeightOf(Run(st, rounds, cap, setup).weights, name)) <= bound
    decreases rounds
  {
    hide GoodTable, PriorWithin, WeightOf, Gentle, Learned;
    if rounds != [] {
      var r := rounds[0];
      assert r in rounds;
      LearnedWithin(st, r, cap, l2Min, setup, name, bound);
      WeightStaysBounded(Learned(st, r.trade, r.rate, r.l2, cap, setup), rounds[1..], cap, l2Min, setup, name, bound);
    }
  }

  /** The size of a feature's prior; zero when its weight is not bounded. */
  function PriorOf(ms: seq<Monotonic>, name: string): real {
    if ms == [] then 0.0 else if ms[0].name == name then Abs(ms[0].prior) else PriorOf(ms[1..], name)
  }

  lemma {:induction false} PriorOfCovers(ms: seq<Monotonic>, name: string)
    requires GoodTable(ms)
    ensures PriorWithin(ms, name, PriorOf(ms, name))
  {
    if ms != [] {
      PriorOfCovers(ms[1..], name);
    }
  }

  /** The largest of a weight's own start, its own prior and four times the sample weight over the decay. */
  function Ceiling(st: State, cap: real, l2Min: real, setup: Setup, name: string): real
    requires l2Min > 0.0
  {
    Max(Abs(WeightOf(st.weights, name)), Max(PriorOf(setup.monotonic, name), 4.0 * cap / l2Min))
  }

  /** No weight ever exceeds its own ceiling, whatever the other weights started from. */
  lemma WeightsStayBelowCeilings(st: State, rounds: seq<Round>, cap: real, l2Min: real, setup: Setup)
    requires cap >= 0.0 && l2Min > 0.0 && GoodTable(setup.monotonic)
    requires forall x :: 0.0 <= setup.sigmoid(x) <= 1.0
    requires forall r :: r in rounds ==> Gentle(r, l2Min)
    ensures forall n :: Abs(WeightOf(Run(st, rounds, cap, setup).weights, n)) <= Ceiling(st, cap, l2Min, setup, n)
  {
    hide GoodTable, WeightOf, Gentle, Run, PriorWithin, PriorOf;
    forall n
      ensures Abs(WeightOf(Run(st, rounds, cap, setup).weights, n)) <= Ceiling(st, cap, l2Min, setup, n)
    {
      var bound := Ceiling(st, cap, l2Min, setup, n);
      PriorOfCovers(setup.monotonic, n);
      PriorGrows(setup.monotonic, n, PriorOf(setup.monotonic, n), bound);
      Grow(4.0 * cap / l2Min, bound, l2Min);
      assert 4.0 * cap / l2Min * l2Min == 4.0 * cap;
      WeightStaysBounded(st, rounds, cap, l2Min, setup, n, bound);
    }
  }

  lemma PriorGrows(ms: seq<Monotonic>, name: string, low: real, high: real)
    requires PriorWithin(ms, name, low) && low <= high
    ensures PriorWithin(ms, name, high)
  {
  }

  /** With one bound over every start and every prior, it holds for all weights together. */
  lemma WeightsStayBounded(st: State, rounds: seq<Round>, cap: real, l2Min: real, setup: Setup, bound: real)
    requires cap >= 0.0 && l2Min > 0.0 && 4.0 * cap <= bound * l2Min
    requires GoodTable(setup.monotonic) && PriorsWithin(setup.monotonic, bound)
    requires forall x :: 0.0 <= setup.sigmoid(x) <= 1.0
    requires forall r :: r in rounds ==> Gentle(r, l2Min)
    requires Within(st.weights, bound)
    ensures Within(Run(st, rounds, cap, setup).weights, bound)
  {
    hide GoodTable, WeightOf, Gentle, Run;
    forall n
      ensures Abs(WeightOf(Run(st, rounds, cap, setup).weights, n)) <= bound
    {
      WeightStaysBounded(st, rounds, cap, l2Min, setup, n, bound);
    }
  }
}
