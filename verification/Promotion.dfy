/** Champion and challenger in src/ai/adaptiveModel.js: the shadow metrics of `updateFromTrade` and the
    promotion rule of `maybePromote`. */
module Promotion {
  import opened Common
  import opened OnlineModel
  import opened ModelLaws

  datatype Regime = Trend | Range | Breakout | HighVol | EventRisk

  const REGIMES := [Trend, Range, Breakout, HighVol, EventRisk]

  /** Squared errors of both models on one trade. */
  datatype Metric = Metric(championError: real, challengerError: real)

  datatype Config = Config(window: nat, minTrades: nat, minShadowTrades: Option<nat>, margin: real, sampleCap: real)

  /** The record of a promotion: when, and the mean errors that decided it. */
  datatype Promoted = Promoted(at: int, championError: real, challengerError: real)

  type Models = map<Regime, OnlineModel.State>

  datatype State = State(champion: Models, challenger: Models, shadow: seq<Metric>, promotions: seq<Promoted>)

  /** What one closed trade brings: its features, the expert weights and the label score, the learning rounds of
      the regimes that learn from it, and the promotion policy, if there is one. */
  datatype Input = Input(
    at: int,
    features: Features,
    expertWeights: map<Regime, real>,
    outcome: real,
    championRounds: map<Regime, Round>,
    challengerRounds: map<Regime, Round>,
    policy: Option<bool>)

  /** The weight of a regime in the blend; without weights the range model alone decides. */
  function ExpertWeight(weights: map<Regime, real>, r: Regime): real {
    if r in weights then weights[r] else if r.Range? then 1.0 else 0.0
  }

  /** The sum of `blendModelScores` over the first `k` regimes; weights that are not positive are skipped. */
  function BlendSum(models: Models, f: Features, weights: map<Regime, real>, setup: Setup, k: nat): real
    requires k <= |REGIMES|
  {
    if k == 0 then 0.0
    else
      var r := REGIMES[k - 1];
      BlendSum(models, f, weights, setup, k - 1)
      + (if r in models && ExpertWeight(weights, r) > 0.0 then
           OnlineModel.Probability(models[r], f, setup) * ExpertWeight(weights, r)
         else 0.0)
  }

  function Blended(models: Models, f: Features, weights: map<Regime, real>, setup: Setup): real {
    Clamp(BlendSum(models, f, weights, setup, |REGIMES|), 0.0, 1.0)
  }

  function SquaredError(models: Models, input: Input, setup: Setup): real {
    Square(Blended(models, input.features, input.expertWeights, setup) - input.outcome)
  }

  /** The errors that a trade records: those of the predictions made before anything is learned from it. */
  function MetricOf(st: State, input: Input, setup: Setup): Metric {
    Metric(SquaredError(st.champion, input, setup), SquaredError(st.challenger, input, setup))
  }

  /** `blendModelScores(...).probability`. */
  method Blend(models: Models, f: Features, weights: map<Regime, real>, setup: Setup) returns (probability: real)
    ensures probability == Blended(models, f, weights, setup)
  {
    probability := 0.0;
    for k := 0 to |REGIMES|
      invariant probability == BlendSum(models, f, weights, setup, k)
    {
      var r := REGIMES[k];
      var weight := ExpertWeight(weights, r);
      if weight > 0.0 && r in models {
        probability := probability + OnlineModel.Probability(models[r], f, setup) * weight;
      }
    }
    probability := Clamp(probability, 0.0, 1.0);
  }

  function Required(cfg: Config): nat {
    var shadow := cfg.minShadowTrades.GetOr(0);
    if cfg.minTrades > shadow then cfg.minTrades else shadow
  }

  /** `slice(-n)`: the last n elements, but all of them when n is zero. */
  function LastN<T>(s: seq<T>, n: nat): seq<T> {
    if n == 0 || |s| <= n then s else s[|s| - n..]
  }

  function ChampionErrors(ms: seq<Metric>): seq<real> {
    seq(|ms|, i requires 0 <= i < |ms| => ms[i].championError)
  }

  function ChallengerErrors(ms: seq<Metric>): seq<real> {
    seq(|ms|, i requires 0 <= i < |ms| => ms[i].challengerError)
  }

  function MeanOf(s: seq<real>): real
    requires s != []
  {
    Sum(s) / |s| as real
  }

  predicate Better(ms: seq<Metric>, margin: real)
    requires ms != []
  {
    MeanOf(ChallengerErrors(ms)) + margin < MeanOf(ChampionErrors(ms))
  }

  /** The decision of `maybePromote` on a recorded trade. */
  predicate Promotes(shadow: seq<Metric>, cfg: Config, policy: Option<bool>)
    requires shadow != []
  {
    var ms := LastN(shadow, cfg.window);
    |ms| >= Required(cfg) && policy != Some(false) && Better(ms, cfg.margin)
  }

  function RecordOf(shadow: seq<Metric>, cfg: Config, at: int): Promoted
    requires shadow != []
  {
    var ms := LastN(shadow, cfg.window);
    Promoted(at, MeanOf(ChampionErrors(ms)), MeanOf(ChallengerErrors(ms)))
  }

  function Taught(models: Models, rounds: map<Regime, Round>, cfg: Config, setup: Setup): Models {
    map r | r in models ::
      if r in rounds then Learned(models[r], rounds[r].trade, rounds[r].rate, rounds[r].l2, cfg.sampleCap, setup)
      else models[r]
  }

  function Recorded(shadow: seq<Metric>, metric: Metric, cfg: Config): seq<Metric> {
    var pushed := shadow + [metric];
    if |pushed| > cfg.window * 2 then LastN(pushed, cfg.window * 2) else pushed
  }

  function Rebuilt(models: Models, setup: Setup, priors: map<string, real>): Models {
    map r | r in models :: Constructed(setup, models[r], priors)
  }

  /** One closed trade. */
  function Next(st: State, input: Input, cfg: Config, setup: Setup, priors: map<string, real>): State {
    var champion := Taught(st.champion, input.championRounds, cfg, setup);
    var challenger := Taught(st.challenger, input.challengerRounds, cfg, setup);
    var shadow := Recorded(st.shadow, MetricOf(st, input, setup), cfg);
    if Promotes(shadow, cfg, input.policy) then
      State.State(challenger, Rebuilt(champion, setup, priors), [], st.promotions + [RecordOf(shadow, cfg, input.at)])
    else State.State(champion, challenger, shadow, st.promotions)
  }

  predicate PromotesNext(st: State, input: Input, cfg: Config, setup: Setup) {
    Promotes(Recorded(st.shadow, MetricOf(st, input, setup), cfg), cfg, input.policy)
  }

  class AdaptiveModel {
    const cfg: Config
    const setup: Setup
    const priors: map<string, real>
    var champion: Models
    var challenger: Models
    var shadow: seq<Metric>
    var promotions: seq<Promoted>

    constructor (cfg: Config, setup: Setup, priors: map<string, real>, st: State)
      ensures View() == st && this.cfg == cfg && this.setup == setup && this.priors == priors
    {
      this.cfg, this.setup, this.priors := cfg, setup, priors;
      champion, challenger, shadow, promotions := st.champion, st.challenger, st.shadow, st.promotions;
    }

    function View(): State
      reads this
    {
      State.State(champion, challenger, shadow, promotions)
    }

    method MaybePromote(at: int, policy: Option<bool>) returns (promoted: bool)
      requires shadow != []
      modifies this
      ensures promoted == Promotes(old(shadow), cfg, policy)
      ensures View() == if promoted then
                          State.State(old(challenger), Rebuilt(old(champion), setup, priors), [],
                                      old(promotions) + [RecordOf(old(shadow), cfg, at)])
                        else old(View())
    {
      hide Better, Rebuilt;
      var ms := LastN(shadow, cfg.window);
      promoted := false;
      if |ms| < Required(cfg) {
        return;
      }
      if policy == Some(false) {
        return;
      }
      if !Better(ms, cfg.margin) {
        return;
      }
      var oldChampion := champion;
      champion := challenger;
      challenger := Rebuilt(oldChampion, setup, priors);
      promotions := promotions + [Promoted(at, MeanOf(ChampionErrors(ms)), MeanOf(ChallengerErrors(ms)))];
      shadow := [];
      promoted := true;
    }

    method Record(metric: Metric)
      modifies this`shadow
      ensures shadow == Recorded(old(shadow), metric, cfg) && shadow != []
    {
      shadow := shadow + [metric];
      if |shadow| > cfg.window * 2 {
        shadow := LastN(shadow, cfg.window * 2);
      }
    }

    method UpdateFromTrade(input: Input) returns (promoted: bool)
      modifies this
      ensures View() == Next(old(View()), input, cfg, setup, priors)
      ensures promoted == PromotesNext(old(View()), input, cfg, setup)
    {
      hide Better, Rebuilt, Taught, Promotes, Blended, RecordOf, Square, LastN;
      var p := Blend(champion, input.features, input.expertWeights, setup);
      var q := Blend(challenger, input.features, input.expertWeights, setup);
      champion := Taught(champion, input.championRounds, cfg, setup);
      challenger := Taught(challenger, input.challengerRounds, cfg, setup);
      Record(Metric(Square(p - input.outcome), Square(q - input.outcome)));
      promoted := MaybePromote(input.at, input.policy);
    }
  }

  // ---------------------------------------------------------------------------------------------
  // Shadow history and spacing
  // ---------------------------------------------------------------------------------------------

  /** Whatever the next trade brings, the shadow history stays within twice the window exactly when the
      window is positive: with a window of zero, `slice(-0)` keeps everything. */
  lemma ShadowIsBounded(st: State, cfg: Config, setup: Setup, priors: map<string, real>)
    ensures (forall input :: |Next(st, input, cfg, setup, priors).shadow| <= 2 * cfg.window) <==> cfg.window >= 1
  {
    hide Next;
    if cfg.window >= 1 {
      forall input
        ensures |Next(st, input, cfg, setup, priors).shadow| <= 2 * cfg.window
      {
        NextShadow(st, input, cfg, setup, priors);
      }
    } else {
      NextShadow(st, VETOED, cfg, setup, priors);
    }
  }

  /** A trade whose promotion policy forbids a promotion. */
  const VETOED := Input(0, Features([], map[]), map[], 0.0, map[], map[], Some(false))

  lemma NextShadow(st: State, input: Input, cfg: Config, setup: Setup, priors: map<string, real>)
    ensures var shadow := Next(st, input, cfg, setup, priors).shadow;
            if PromotesNext(st, input, cfg, setup) then shadow == []
            else if cfg.window == 0 then |shadow| == |st.shadow| + 1
            else |shadow| <= 2 * cfg.window
    ensures input.policy == Some(false) ==> !PromotesNext(st, input, cfg, setup)
  {
    hide Better, Taught, Rebuilt, MetricOf, RecordOf;
  }

  ghost predicate IsRun(states: seq<State>, inputs: seq<Input>, cfg: Config, setup: Setup, priors: map<string, real>) {
    |states| == |inputs| + 1
    && forall k :: 0 <= k < |inputs| ==> states[k + 1] == Next(states[k], inputs[k], cfg, setup, priors)
  }

  lemma RecordedGrowsByOne(shadow: seq<Metric>, metric: Metric, cfg: Config)
    ensures 1 <= |Recorded(shadow, metric, cfg)| <= |shadow| + 1
  {
  }

  lemma {:induction false} ShadowSincePromotion(states: seq<State>, inputs: seq<Input>, cfg: Config, setup: Setup,
                                                priors: map<string, real>, i: nat, k: nat)
    requires IsRun(states, inputs, cfg, setup, priors) && i < k <= |inputs|
    requires PromotesNext(states[i], inputs[i], cfg, setup)
    ensures |states[k].shadow| <= k - (i + 1)
  {
    hide Promotes, Taught, Rebuilt, Recorded, MetricOf, RecordOf;
    assert states[k - 1 + 1] == Next(states[k - 1], inputs[k - 1], cfg, setup, priors);
    if k > i + 1 {
      ShadowSincePromotion(states, inputs, cfg, setup, priors, i, k - 1);
      RecordedGrowsByOne(states[k - 1].shadow, MetricOf(states[k - 1], inputs[k - 1], setup), cfg);
    }
  }

  /** Promotion discipline: any two promotions of a run are at least the required number of shadow trades
      apart. */
  lemma PromotionsAreSpaced(states: seq<State>, inputs: seq<Input>, cfg: Config, setup: Setup,
                            priors: map<string, real>, i: nat, j: nat)
    requires IsRun(states, inputs, cfg, setup, priors) && i < j < |inputs|
    requires PromotesNext(states[i], inputs[i], cfg, setup) && PromotesNext(states[j], inputs[j], cfg, setup)
    ensures j - i >= Required(cfg)
  {
    hide Better, Taught, Rebuilt, Recorded, MetricOf, RecordOf;
    ShadowSincePromotion(states, inputs, cfg, setup, priors, i, j);
    RecordedGrowsByOne(states[j].shadow, MetricOf(states[j], inputs[j], setup), cfg);
  }

  // ---------------------------------------------------------------------------------------------
  // What the decision is based on
  // ---------------------------------------------------------------------------------------------

  /** Every metric recorded since the last promotion, given those before the run. */
  function Since(before: seq<Metric>, st: State, inputs: seq<Input>, cfg: Config,
                 setup: Setup, priors: map<string, real>)
    : seq<Metric>
    decreases inputs
  {
    if inputs == [] then before
    else
      var next := Next(st, inputs[0], cfg, setup, priors);
      Since(if PromotesNext(st, inputs[0], cfg, setup) then [] else before + [MetricOf(st, inputs[0], setup)],
            next, inputs[1..], cfg, setup, priors)
  }

  function After(st: State, inputs: seq<Input>, cfg: Config, setup: Setup, priors: map<string, real>): State
    decreases inputs
  {
    if inputs == [] then st else After(Next(st, inputs[0], cfg, setup, priors), inputs[1..], cfg, setup, priors)
  }

  lemma TruncationKeepsRecent(all: seq<Metric>, metric: Metric, cfg: Config)
    ensures Recorded(LastN(all, 2 * cfg.window), metric, cfg) == LastN(all + [metric], 2 * cfg.window)
    ensures LastN(LastN(all, 2 * cfg.window), cfg.window) == LastN(all, cfg.window)
  {
  }

  lemma {:induction false} ShadowIsRecent(before: seq<Metric>, st: State, inputs: seq<Input>, cfg: Config, setup: Setup,
                                          priors: map<string, real>)
    requires st.shadow == LastN(before, 2 * cfg.window)
    ensures After(st, inputs, cfg, setup, priors).shadow
            == LastN(Since(before, st, inputs, cfg, setup, priors), 2 * cfg.window)
    decreases inputs
  {
    hide Promotes, Taught, Rebuilt, Recorded, MetricOf, RecordOf;
    if inputs != [] {
      TruncationKeepsRecent(before, MetricOf(st, inputs[0], setup), cfg);
      var next := Next(st, inputs[0], cfg, setup, priors);
      var more := if PromotesNext(st, inputs[0], cfg, setup) then [] else before + [MetricOf(st, inputs[0], setup)];
      ShadowIsRecent(more, next, inputs[1..], cfg, setup, priors);
    }
  }

  /** With a window of zero it grows by one with every such trade. */
  lemma {:induction false} ShadowGrowsWithoutWindow(st: State, n: nat, cfg: Config, setup: Setup,
                                                   priors: map<string, real>)
    requires cfg.window == 0
    ensures |After(st, seq(n, _ => VETOED), cfg, setup, priors).shadow| == |st.shadow| + n
    decreases n
  {
    hide Next;
    if n > 0 {
      assert seq(n, _ => VETOED)[1..] == seq(n - 1, _ => VETOED);
      NextShadow(st, VETOED, cfg, setup, priors);
      ShadowGrowsWithoutWindow(Next(st, VETOED, cfg, setup, priors), n - 1, cfg, setup, priors);
    }
  }

  /** Truncating the history never changes a decision: after any run, the next trade promotes exactly when
      the policy allows it, enough trades were recorded, and over the last `window` metrics since the last
      promotion the challenger's mean error plus the margin is below the champion's. */
  lemma DecisionUsesRecentMetrics(st: State, inputs: seq<Input>, input: Input, cfg: Config, setup: Setup,
                                  priors: map<string, real>)
    requires st.shadow == []
    ensures var all := Since([], st, inputs, cfg, setup, priors)
                       + [MetricOf(After(st, inputs, cfg, setup, priors), input, setup)];
            var recent := LastN(all, cfg.window);
            recent != []
            && (PromotesNext(After(st, inputs, cfg, setup, priors), input, cfg, setup) <==>
                |recent| >= Required(cfg) && input.policy != Some(false) && Better(recent, cfg.margin))
  {
    hide Taught, Rebuilt, Recorded, Better, MetricOf, RecordOf;
    var since := Since([], st, inputs, cfg, setup, priors);
    var metric := MetricOf(After(st, inputs, cfg, setup, priors), input, setup);
    ShadowIsRecent([], st, inputs, cfg, setup, priors);
    TruncationKeepsRecent(since, metric, cfg);
    TruncationKeepsRecent(since + [metric], metric, cfg);
  }

  /** Every promotion is recorded with the errors that justify it, and nothing else changes the record. */
  lemma PromotionsAreRecorded(st: State, input: Input, cfg: Config, setup: Setup, priors: map<string, real>)
    ensures var next := Next(st, input, cfg, setup, priors);
            if PromotesNext(st, input, cfg, setup) then
              && |next.promotions| == |st.promotions| + 1 && next.promotions[..|st.promotions|] == st.promotions
              && var last := next.promotions[|st.promotions|];
                 last.at == input.at && last.challengerError + cfg.margin < last.championError
            else next.promotions == st.promotions
  {
    hide Taught, Rebuilt, MetricOf, MeanOf, Recorded;
    RecordedGrowsByOne(st.shadow, MetricOf(st, input, setup), cfg);
  }

  // ---------------------------------------------------------------------------------------------
  // The exchange of weights
  // ---------------------------------------------------------------------------------------------

  /** Models as the learner leaves them: never empty, every bound respected. */
  ghost predicate Proper(models: Models, setup: Setup) {
    forall r :: r in models ==> models[r].weights != map[] && AllRespect(setup.monotonic, models[r].weights)
  }

  lemma RespectfulIsNotEmpty(setup: Setup, weights: map<string, real>)
    requires setup.monotonic != [] && AllRespect(setup.monotonic, weights)
    ensures weights != map[]
  {
    assert Respects(setup.monotonic[0], weights);
  }

  lemma TaughtIsProper(models: Models, rounds: map<Regime, Round>, cfg: Config, setup: Setup)
    requires setup.monotonic != [] && GoodTable(setup.monotonic) && Proper(models, setup)
    ensures Proper(Taught(models, rounds, cfg, setup), setup)
  {
    hide GoodTable, AllRespect, Learned;
    forall r | r in models && r in rounds
      ensures var st := Learned(models[r], rounds[r].trade, rounds[r].rate, rounds[r].l2, cfg.sampleCap, setup);
              st.weights != map[] && AllRespect(setup.monotonic, st.weights)
    {
      LearnedRespects(models[r], rounds[r].trade, rounds[r].rate, rounds[r].l2, cfg.sampleCap, setup);
      RespectfulIsNotEmpty(setup, Learned(models[r], rounds[r].trade, rounds[r].rate, rounds[r].l2,
                                          cfg.sampleCap, setup).weights);
    }
  }

  lemma RebuiltIsSame(models: Models, setup: Setup, priors: map<string, real>)
    requires Proper(models, setup)
    ensures Rebuilt(models, setup, priors) == models
  {
    hide AllRespect;
    forall r | r in models
      ensures Constructed(setup, models[r], priors) == models[r]
    {
      ProjectionIsIdempotent(setup.monotonic, models[r].weights);
    }
  }

  /** A promotion exactly exchanges the two weight sets, and every trade leaves proper models. */
  lemma PromotionSwaps(st: State, input: Input, cfg: Config, setup: Setup, priors: map<string, real>)
    requires setup.monotonic != [] && GoodTable(setup.monotonic)
    requires Proper(st.champion, setup) && Proper(st.challenger, setup)
    ensures var next := Next(st, input, cfg, setup, priors);
            var champion := Taught(st.champion, input.championRounds, cfg, setup);
            var challenger := Taught(st.challenger, input.challengerRounds, cfg, setup);
            && (if PromotesNext(st, input, cfg, setup) then next.champion == challenger && next.challenger == champion
                else next.champion == champion && next.challenger == challenger)
            && Proper(next.champion, setup) && Proper(next.challenger, setup)
  {
    hide GoodTable, Proper, Taught, Rebuilt, Promotes, MetricOf, RecordOf;
    TaughtIsProper(st.champion, input.championRounds, cfg, setup);
    TaughtIsProper(st.challenger, input.challengerRounds, cfg, setup);
    RebuiltIsSame(Taught(st.champion, input.championRounds, cfg, setup), setup, priors);
  }

  /** Construction makes any saved models proper. */
  lemma ConstructedAreProper(saved: Models, setup: Setup, priors: map<string, real>)
    requires setup.monotonic != [] && GoodTable(setup.monotonic)
    ensures Proper(Rebuilt(saved, setup, priors), setup)
  {
    hide GoodTable, AllRespect, Constructed;
    forall r | r in saved
      ensures var st := Constructed(setup, saved[r], priors);
              st.weights != map[] && AllRespect(setup.monotonic, st.weights)
    {
      ConstructedRespects(setup, saved[r], priors);
      RespectfulIsNotEmpty(setup, Constructed(setup, saved[r], priors).weights);
    }
  }

  lemma {:induction false} RunIsProper(st: State, inputs: seq<Input>, cfg: Config, setup: Setup,
                                       priors: map<string, real>)
    requires setup.monotonic != [] && GoodTable(setup.monotonic)
    requires Proper(st.champion, setup) && Proper(st.challenger, setup)
    ensures Proper(After(st, inputs, cfg, setup, priors).champion, setup)
    ensures Proper(After(st, inputs, cfg, setup, priors).challenger, setup)
    decreases inputs
  {
    hide GoodTable, Proper, Next;
    if inputs != [] {
      PromotionSwaps(st, inputs[0], cfg, setup, priors);
      RunIsProper(Next(st, inputs[0], cfg, setup, priors), inputs[1..], cfg, setup, priors);
    }
  }

  /** In every deployment: whatever was saved, and whatever trades came before, a promotion exactly
      exchanges the two weight sets. */
  lemma EveryPromotionSwaps(champion: Models, challenger: Models, shadow: seq<Metric>, promotions: seq<Promoted>,
                            inputs: seq<Input>, input: Input, cfg: Config, setup: Setup, priors: map<string, real>)
    requires setup.monotonic != [] && GoodTable(setup.monotonic)
    ensures var start := State.State(Rebuilt(champion, setup, priors), Rebuilt(challenger, setup, priors),
                                     shadow, promotions);
            var st := After(start, inputs, cfg, setup, priors);
            var next := Next(st, input, cfg, setup, priors);
            PromotesNext(st, input, cfg, setup) ==>
              && next.champion == Taught(st.challenger, input.challengerRounds, cfg, setup)
              && next.challenger == Taught(st.champion, input.championRounds, cfg, setup)
  {
    hide GoodTable, Proper, Next, After, Rebuilt, Taught, PromotesNext;
    var start := State.State(Rebuilt(champion, setup, priors), Rebuilt(challenger, setup, priors), shadow, promotions);
    ConstructedAreProper(champion, setup, priors);
    ConstructedAreProper(challenger, setup, priors);
    RunIsProper(start, inputs, cfg, setup, priors);
    PromotionSwaps(After(start, inputs, cfg, setup, priors), input, cfg, setup, priors);
  }
}
