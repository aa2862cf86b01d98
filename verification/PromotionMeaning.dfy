/** The promotion decision, said of the models, trades and outcomes of a run. */
module PromotionMeaning {
  import opened Arithmetic
  import opened Common
  import opened OnlineModel
  import opened Promotion

  /** How far a side's blended prediction was from the outcome, squared. */
  function Gap(models: Models, input: Input, setup: Setup): real {
    var distance := Blended(models, input.features, input.expertWeights, setup) - input.outcome;
    distance * distance
  }

  /** The champion's squared gaps on trades `lo` to `hi`, each predicted by the models before that trade. */
  function ChampionGaps(states: seq<Promotion.State>, inputs: seq<Input>, lo: nat, hi: nat, setup: Setup): real
    requires lo <= hi <= |inputs| && hi <= |states|
  {
    if hi == lo then 0.0
    else ChampionGaps(states, inputs, lo, hi - 1, setup) + Gap(states[hi - 1].champion, inputs[hi - 1], setup)
  }

  function ChallengerGaps(states: seq<Promotion.State>, inputs: seq<Input>, lo: nat, hi: nat, setup: Setup): real
    requires lo <= hi <= |inputs| && hi <= |states|
  {
    if hi == lo then 0.0
    else ChallengerGaps(states, inputs, lo, hi - 1, setup) + Gap(states[hi - 1].challenger, inputs[hi - 1], setup)
  }

  /** Trade `k` promoted: it left one more promotion on record. */
  ghost predicate PromotedAt(states: seq<Promotion.State>, k: nat)
    requires k + 1 < |states|
  {
    |states[k + 1].promotions| > |states[k].promotions|
  }

  /** `from` is the first trade after the last promotion before trade `j`, or the first of all when there was none. */
  ghost predicate Since(states: seq<Promotion.State>, from: nat, j: nat)
    requires j < |states|
  {
    && from <= j
    && (forall k :: from <= k < j ==> !PromotedAt(states, k))
    && if from == 0 then states[0].shadow == [] else PromotedAt(states, from - 1)
  }

  /** How many trades a decision looks at. */
  function Looked(cfg: Config, from: nat, j: nat): nat
    requires from <= j
  {
    if cfg.window == 0 || j + 1 - from <= cfg.window then j + 1 - from else cfg.window
  }

  /** The mean of `n` numbers with this sum. */
  function Per(total: real, n: nat): real
    requires n > 0
  {
    total / n as real
  }

  function Metrics(states: seq<Promotion.State>, inputs: seq<Input>, lo: nat, hi: nat, setup: Setup): seq<Metric>
    requires lo <= hi <= |inputs| && hi <= |states|
  {
    seq(hi - lo, i requires 0 <= i < hi - lo => MetricOf(states[lo + i], inputs[lo + i], setup))
  }

  lemma PromotedIff(states: seq<Promotion.State>, inputs: seq<Input>, cfg: Config, setup: Setup,
                    priors: map<string, real>, k: nat)
    requires IsRun(states, inputs, cfg, setup, priors) && k < |inputs|
    ensures PromotedAt(states, k) <==> PromotesNext(states[k], inputs[k], cfg, setup)
    ensures PromotedAt(states, k) ==> states[k + 1].shadow == []
    ensures var shadow := Recorded(states[k].shadow, MetricOf(states[k], inputs[k], setup), cfg);
            && shadow != []
            && (PromotedAt(states, k) <==> Promotes(shadow, cfg, inputs[k].policy))
            && (PromotedAt(states, k) ==>
                  states[k + 1].promotions == states[k].promotions + [RecordOf(shadow, cfg, inputs[k].at)])
    ensures !PromotedAt(states, k) ==>
              states[k + 1].shadow == Recorded(states[k].shadow, MetricOf(states[k], inputs[k], setup), cfg)
  {
    hide Taught, Rebuilt, MetricOf, Promotes, Recorded, RecordOf;
    RecordedGrowsByOne(states[k].shadow, MetricOf(states[k], inputs[k], setup), cfg);
    assert states[k + 1] == Next(states[k], inputs[k], cfg, setup, priors);
  }

  lemma SinceBefore(states: seq<Promotion.State>, from: nat, j: nat)
    requires j < |states| && Since(states, from, j) && from < j
    ensures Since(states, from, j - 1) && !PromotedAt(states, j - 1)
  {
    hide PromotedAt;
  }

  lemma MetricsStep(states: seq<Promotion.State>, inputs: seq<Input>, lo: nat, hi: nat, setup: Setup)
    requires lo < hi <= |inputs| && hi <= |states|
    ensures Metrics(states, inputs, lo, hi, setup)
            == Metrics(states, inputs, lo, hi - 1, setup) + [MetricOf(states[hi - 1], inputs[hi - 1], setup)]
  {
    hide MetricOf;
  }

  lemma ShadowAtStart(states: seq<Promotion.State>, inputs: seq<Input>, cfg: Config, setup: Setup,
                      priors: map<string, real>, from: nat)
    requires IsRun(states, inputs, cfg, setup, priors) && from <= |inputs| < |states| && Since(states, from, from)
    ensures states[from].shadow == [] == LastN(Metrics(states, inputs, from, from, setup), 2 * cfg.window)
  {
    hide IsRun, MetricOf, PromotedAt;
    NothingKept(Metrics(states, inputs, from, from, setup), cfg);
    if from > 0 {
      PromotedIff(states, inputs, cfg, setup, priors, from - 1);
    }
  }

  lemma {:induction false} ShadowHolds(states: seq<Promotion.State>, inputs: seq<Input>, cfg: Config, setup: Setup,
                                       priors: map<string, real>, from: nat, j: nat)
    requires IsRun(states, inputs, cfg, setup, priors) && from <= j <= |inputs| < |states| && Since(states, from, j)
    ensures states[j].shadow == LastN(Metrics(states, inputs, from, j, setup), 2 * cfg.window)
    decreases j
  {
    hide *;
    if j == from {
      ShadowAtStart(states, inputs, cfg, setup, priors, from);
    } else {
      SinceBefore(states, from, j);
      ShadowHolds(states, inputs, cfg, setup, priors, from, j - 1);
      PromotedIff(states, inputs, cfg, setup, priors, j - 1);
      MetricsStep(states, inputs, from, j, setup);
      TruncationKeepsRecent(Metrics(states, inputs, from, j - 1, setup),
                            MetricOf(states[j - 1], inputs[j - 1], setup), cfg);
    }
  }

  lemma NothingKept(s: seq<Metric>, cfg: Config)
    requires s == []
    ensures LastN(s, 2 * cfg.window) == []
  {
  }

  lemma GapsAreRecorded(st: Promotion.State, input: Input, setup: Setup)
    ensures MetricOf(st, input, setup) == Metric(Gap(st.champion, input, setup), Gap(st.challenger, input, setup))
  {
    hide Blended;
  }

  lemma {:induction false} ErrorSums(states: seq<Promotion.State>, inputs: seq<Input>, lo: nat, hi: nat, setup: Setup)
    requires lo <= hi <= |inputs| && hi <= |states|
    ensures var ms := Metrics(states, inputs, lo, hi, setup);
            && Sum(ChampionErrors(ms)) == ChampionGaps(states, inputs, lo, hi, setup)
            && Sum(ChallengerErrors(ms)) == ChallengerGaps(states, inputs, lo, hi, setup)
    decreases hi
  {
    hide MetricOf, Gap;
    if hi > lo {
      ErrorSums(states, inputs, lo, hi - 1, setup);
      var ms, front := Metrics(states, inputs, lo, hi, setup), Metrics(states, inputs, lo, hi - 1, setup);
      GapsAreRecorded(states[hi - 1], inputs[hi - 1], setup);
      assert ms == front + [MetricOf(states[hi - 1], inputs[hi - 1], setup)];
      assert ChampionErrors(ms) == ChampionErrors(front) + [Gap(states[hi - 1].champion, inputs[hi - 1], setup)];
      assert ChallengerErrors(ms) == ChallengerErrors(front) + [Gap(states[hi - 1].challenger, inputs[hi - 1], setup)];
      SumMore(ChampionErrors(front), Gap(states[hi - 1].champion, inputs[hi - 1], setup));
      SumMore(ChallengerErrors(front), Gap(states[hi - 1].challenger, inputs[hi - 1], setup));
    }
  }

  lemma SumMore(s: seq<real>, x: real)
    ensures Sum(s + [x]) == Sum(s) + x
  {
    assert (s + [x])[..|s|] == s;
  }

  lemma LastMetrics(states: seq<Promotion.State>, inputs: seq<Input>, cfg: Config, from: nat, j: nat, setup: Setup)
    requires from <= j < |inputs| && j < |states|
    ensures var n := Looked(cfg, from, j);
            && 1 <= n <= j + 1 - from
            && LastN(Metrics(states, inputs, from, j + 1, setup), cfg.window)
               == Metrics(states, inputs, j + 1 - n, j + 1, setup)
  {
    hide MetricOf;
  }

  /** What `maybePromote` sees on trade `j`. */
  lemma SeenAt(states: seq<Promotion.State>, inputs: seq<Input>, cfg: Config, setup: Setup,
               priors: map<string, real>, from: nat, j: nat)
    requires IsRun(states, inputs, cfg, setup, priors) && from <= j < |inputs| && Since(states, from, j)
    ensures |states| == |inputs| + 1
    ensures var shadow := Recorded(states[j].shadow, MetricOf(states[j], inputs[j], setup), cfg);
            var n := Looked(cfg, from, j);
            && shadow != [] && 1 <= n <= j + 1 - from
            && LastN(shadow, cfg.window) == Metrics(states, inputs, j + 1 - n, j + 1, setup)
  {
    assert |states| == |inputs| + 1;
    hide IsRun, MetricOf, LastN, Since, Recorded, Looked, Metrics;
    LastMetrics(states, inputs, cfg, from, j, setup);
    ShadowHolds(states, inputs, cfg, setup, priors, from, j);
    MetricsStep(states, inputs, from, j + 1, setup);
    var before, metric := Metrics(states, inputs, from, j, setup), MetricOf(states[j], inputs[j], setup);
    TruncationKeepsRecent(before, metric, cfg);
    TruncationKeepsRecent(before + [metric], metric, cfg);
    RecordedGrowsByOne(states[j].shadow, metric, cfg);
  }

  lemma SameLength(states: seq<Promotion.State>, inputs: seq<Input>, lo: nat, hi: nat, setup: Setup)
    requires lo <= hi <= |inputs| && hi <= |states|
    ensures |Metrics(states, inputs, lo, hi, setup)| == hi - lo
  {
  }

  lemma SeenSums(states: seq<Promotion.State>, inputs: seq<Input>, cfg: Config, setup: Setup,
                 priors: map<string, real>, from: nat, j: nat)
    requires IsRun(states, inputs, cfg, setup, priors) && from <= j < |inputs| && Since(states, from, j)
    ensures |states| == |inputs| + 1
    ensures var ms := LastN(Recorded(states[j].shadow, MetricOf(states[j], inputs[j], setup), cfg), cfg.window);
            var n := Looked(cfg, from, j);
            && |ms| == n && 1 <= n <= j + 1 - from
            && Sum(ChampionErrors(ms)) == ChampionGaps(states, inputs, j + 1 - n, j + 1, setup)
            && Sum(ChallengerErrors(ms)) == ChallengerGaps(states, inputs, j + 1 - n, j + 1, setup)
  {
    hide *;
    var n := Looked(cfg, from, j);
    SeenAt(states, inputs, cfg, setup, priors, from, j);
    SameLength(states, inputs, j + 1 - n, j + 1, setup);
    ErrorSums(states, inputs, j + 1 - n, j + 1, setup);
  }

  lemma DecidedOn(shadow: seq<Metric>, cfg: Config, policy: Option<bool>, at: int, n: nat,
                  champion: real, challenger: real)
    requires shadow != [] && n > 0 && |LastN(shadow, cfg.window)| == n
    requires champion == Sum(ChampionErrors(LastN(shadow, cfg.window)))
    requires challenger == Sum(ChallengerErrors(LastN(shadow, cfg.window)))
    ensures Promotes(shadow, cfg, policy) <==>
            && policy != Some(false)
            && n >= cfg.minTrades && (cfg.minShadowTrades.Some? ==> n >= cfg.minShadowTrades.value)
            && Per(challenger, n) + cfg.margin < Per(champion, n)
    ensures RecordOf(shadow, cfg, at) == Promoted(at, Per(champion, n), Per(challenger, n))
  {
    hide LastN, Sum;
  }

  /** After any run, a trade promotes exactly when the policy does not forbid it and, over the last `window` trades
      since the last promotion, there are as many trades as required and the challenger's mean squared gap plus the
      margin is below the champion's; the record then holds these means and the time. */
  lemma PromotesIff(states: seq<Promotion.State>, inputs: seq<Input>, cfg: Config, setup: Setup,
                    priors: map<string, real>, from: nat, j: nat)
    requires IsRun(states, inputs, cfg, setup, priors) && from <= j < |inputs| && Since(states, from, j)
    ensures var n := Looked(cfg, from, j);
            var champion := Per(ChampionGaps(states, inputs, j + 1 - n, j + 1, setup), n);
            var challenger := Per(ChallengerGaps(states, inputs, j + 1 - n, j + 1, setup), n);
            && (PromotedAt(states, j) <==>
                && inputs[j].policy != Some(false)
                && n >= cfg.minTrades && (cfg.minShadowTrades.Some? ==> n >= cfg.minShadowTrades.value)
                && challenger + cfg.margin < champion)
            && (PromotedAt(states, j) ==>
                  states[j + 1].promotions == states[j].promotions + [Promoted(inputs[j].at, champion, challenger)])
  {
    hide *;
    var n := Looked(cfg, from, j);
    SeenSums(states, inputs, cfg, setup, priors, from, j);
    PromotedIff(states, inputs, cfg, setup, priors, j);
    DecidedOn(Recorded(states[j].shadow, MetricOf(states[j], inputs[j], setup), cfg), cfg, inputs[j].policy,
              inputs[j].at, n, ChampionGaps(states, inputs, j + 1 - n, j + 1, setup),
              ChallengerGaps(states, inputs, j + 1 - n, j + 1, setup));
  }

  /** The first trade of a fresh deployment: it promotes exactly when one trade is enough, the policy does not forbid
      it, and the challenger was closer to the outcome by more than the margin. */
  lemma FirstTradePromotesIff(st: Promotion.State, input: Input, cfg: Config, setup: Setup, priors: map<string, real>)
    requires st.shadow == []
    ensures PromotesNext(st, input, cfg, setup) <==>
            && input.policy != Some(false) && cfg.minTrades <= 1
            && (cfg.minShadowTrades.Some? ==> cfg.minShadowTrades.value <= 1)
            && Gap(st.challenger, input, setup) + cfg.margin < Gap(st.champion, input, setup)
  {
    hide Gap, PromotesNext, Next;
    var states, inputs := [st, Next(st, input, cfg, setup, priors)], [input];
    PromotedIff(states, inputs, cfg, setup, priors, 0);
    PromotesIff(states, inputs, cfg, setup, priors, 0, 0);
    assert ChampionGaps(states, inputs, 0, 0, setup) == ChallengerGaps(states, inputs, 0, 0, setup) == 0.0;
  }

  // ---------------------------------------------------------------------------------------------
  // Blending and teaching
  // ---------------------------------------------------------------------------------------------

  /** What the blend gives to the first `k` regimes together: nothing to one that is not listed, unless it is the
      range. */
  function TotalWeight(models: Models, weights: map<Regime, real>, k: nat): real
    requires k <= |REGIMES|
  {
    if k == 0 then 0.0
    else
      var r := REGIMES[k - 1];
      TotalWeight(models, weights, k - 1)
      + (if r !in models then 0.0
         else if r in weights then (if weights[r] > 0.0 then weights[r] else 0.0)
         else if r == Range then 1.0 else 0.0)
  }

  lemma {:induction false} SumBetween(models: Models, f: Features, weights: map<Regime, real>, setup: Setup,
                                      lo: real, hi: real, k: nat)
    requires k <= |REGIMES|
    requires forall r :: r in models ==> lo <= OnlineModel.Probability(models[r], f, setup) <= hi
    ensures Between(BlendSum(models, f, weights, setup, k), TotalWeight(models, weights, k), lo, hi)
  {
    hide OnlineModel.Probability, TotalWeight, BlendSum, ExpertWeight, Between;
    if k > 0 {
      BlendSteps(models, f, weights, setup, k);
      SumBetween(models, f, weights, setup, lo, hi, k - 1);
      var r := REGIMES[k - 1];
      var w := ExpertWeight(weights, r);
      if r in models && w > 0.0 {
        var rest, sum := TotalWeight(models, weights, k - 1), BlendSum(models, f, weights, setup, k - 1);
        var p := OnlineModel.Probability(models[r], f, setup);
        OneMoreBetween(rest, sum, p, w, lo, hi);
        assert BlendSum(models, f, weights, setup, k) == sum + p * w && TotalWeight(models, weights, k) == rest + w;
      }
    } else {
      NoWeight(models, f, weights, setup, lo, hi);
    }
  }

  lemma NoWeight(models: Models, f: Features, weights: map<Regime, real>, setup: Setup, lo: real, hi: real)
    ensures Between(BlendSum(models, f, weights, setup, 0), TotalWeight(models, weights, 0), lo, hi)
  {
  }

  lemma BlendSteps(models: Models, f: Features, weights: map<Regime, real>, setup: Setup, k: nat)
    requires 0 < k <= |REGIMES|
    ensures var r := REGIMES[k - 1];
            if r in models && ExpertWeight(weights, r) > 0.0 then
              && TotalWeight(models, weights, k) == TotalWeight(models, weights, k - 1) + ExpertWeight(weights, r)
              && BlendSum(models, f, weights, setup, k)
                 == BlendSum(models, f, weights, setup, k - 1)
                    + OnlineModel.Probability(models[r], f, setup) * ExpertWeight(weights, r)
            else
              && TotalWeight(models, weights, k) == TotalWeight(models, weights, k - 1)
              && BlendSum(models, f, weights, setup, k) == BlendSum(models, f, weights, setup, k - 1)
  {
    hide OnlineModel.Probability;
  }

  /** The sum lies between `lo` and `hi` times the weight. */
  ghost predicate Between(sum: real, weight: real, lo: real, hi: real) { lo * weight <= sum <= hi * weight }

  lemma OneMoreBetween(rest: real, sum: real, p: real, w: real, lo: real, hi: real)
    requires Between(sum, rest, lo, hi) && lo <= p <= hi && w > 0.0
    ensures Between(sum + p * w, rest + w, lo, hi)
  {
    Grow(lo, p, w);
    Grow(p, hi, w);
    Distribute(lo, rest, w);
    Distribute(hi, rest, w);
  }

  /** A blend lies between the experts' predictions, each times the sum of the positive weights, cut off at one. So it
      is a mean where these weights add up to one; weights that are not positive count for nothing. */
  lemma BlendIsMean(models: Models, f: Features, weights: map<Regime, real>, setup: Setup, lo: real, hi: real)
    requires 0.0 <= lo <= hi
    requires forall r :: r in models ==> lo <= OnlineModel.Probability(models[r], f, setup) <= hi
    ensures var weight, blend := TotalWeight(models, weights, |REGIMES|), Blended(models, f, weights, setup);
            && (if lo * weight <= 1.0 then lo * weight <= blend else blend == 1.0)
            && blend <= hi * weight && 0.0 <= blend <= 1.0
  {
    hide OnlineModel.Probability, BlendSum, TotalWeight;
    SumBetween(models, f, weights, setup, lo, hi, |REGIMES|);
    WeightIsNotNegative(models, weights, |REGIMES|);
    var weight := TotalWeight(models, weights, |REGIMES|);
    Grow(0.0, hi, weight);
  }

  lemma {:induction false} WeightIsNotNegative(models: Models, weights: map<Regime, real>, k: nat)
    requires k <= |REGIMES|
    ensures TotalWeight(models, weights, k) >= 0.0
  {
    if k > 0 {
      WeightIsNotNegative(models, weights, k - 1);
    }
  }

  lemma RangeDecides(models: Models, f: Features, setup: Setup)
    requires Range in models && 0.0 <= OnlineModel.Probability(models[Range], f, setup) <= 1.0
    ensures Blended(models, f, map[], setup) == OnlineModel.Probability(models[Range], f, setup)
  {
    hide OnlineModel.Probability;
    assert BlendSum(models, f, map[], setup, 1) == 0.0;
    assert BlendSum(models, f, map[], setup, 2) == OnlineModel.Probability(models[Range], f, setup);
    assert BlendSum(models, f, map[], setup, 3) == BlendSum(models, f, map[], setup, 2);
    assert BlendSum(models, f, map[], setup, 4) == BlendSum(models, f, map[], setup, 2);
  }

  /** One expert with all the weight decides alone. */
  lemma OneExpertDecides(models: Models, f: Features, r: Regime, setup: Setup)
    requires r in models && 0.0 <= OnlineModel.Probability(models[r], f, setup) <= 1.0 && r != Range
    ensures Blended(models, f, map[r := 1.0, Range := 0.0], setup) == OnlineModel.Probability(models[r], f, setup)
  {
    hide OnlineModel.Probability;
    var weights := map[r := 1.0, Range := 0.0];
    var p := OnlineModel.Probability(models[r], f, setup);
    assert BlendSum(models, f, weights, setup, 1) == if r == Trend then p else 0.0;
    assert BlendSum(models, f, weights, setup, 2) == if r == Trend then p else 0.0;
    assert BlendSum(models, f, weights, setup, 3) == if r in {Trend, Breakout} then p else 0.0;
    assert BlendSum(models, f, weights, setup, 4) == if r in {Trend, Breakout, HighVol} then p else 0.0;
    assert BlendSum(models, f, weights, setup, 5) == p;
  }

  /** Each side's regimes learn from the rounds meant for them, and no others change. */
  lemma TaughtMeaning(models: Models, rounds: map<Regime, ModelLaws.Round>, cfg: Config, setup: Setup, r: Regime)
    requires r in models
    ensures Taught(models, rounds, cfg, setup).Keys == models.Keys
    ensures r !in rounds ==> Taught(models, rounds, cfg, setup)[r] == models[r]
    ensures r in rounds ==>
              var round := rounds[r];
              Taught(models, rounds, cfg, setup)[r]
              == Learned(models[r], round.trade, round.rate, round.l2, cfg.sampleCap, setup)
  {
    hide Learned;
  }
}
