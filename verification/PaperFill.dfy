/** The paper-fill simulator of src/execution/executionEngine.js (`simulatePaperFill`). Each field of
    `Market` and `Order` is the value the source arrives at after its fallbacks for missing inputs. */
module PaperFill {
  import opened Arithmetic
  import opened Common

  datatype Side = Buy | Sell

  datatype Style = MarketOrder | LimitMaker | PeggedLimitMaker

  datatype Market = Market(
    bid: Option<real>,
    ask: Option<real>,
    mid: real,
    spreadBps: real,
    depthConfidence: real,
    queueImbalance: real,
    queueRefresh: real,
    tradeFlow: real,
    volatility: real,
    impactBps: real,
    midSlippageBps: real)

  datatype Calibration = Calibration(
    slippageBiasBps: real,
    makerFillBias: real,
    latencyMultiplier: real,
    queueDecayBiasBps: real,
    spreadShockBiasBps: real)

  datatype Order = Order(
    side: Side,
    quote: real,
    quantity: real,
    style: Style,
    plannedSlippageBps: real,
    expectedMakerFill: real,
    makerPatienceMs: real,
    cancelReplaceMarket: bool,
    thinLiquidity: bool,
    latencyMs: real,
    sessionLatencyBias: real,
    makerFillFloor: real,
    minPartialFill: real)

  datatype Fill = Fill(
    referencePrice: real,
    price: real,
    completion: real,
    makerShare: real,
    takerShare: real,
    executionBps: real,
    quote: real,
    quantity: real)

  predicate IsMaker(o: Order) { !o.style.MarketOrder? }

  function Positive(x: real): real { Max(0.0, x) }

  function ReferencePrice(m: Market, o: Order): real {
    if o.side.Buy? then m.ask.GetOr(m.mid) else m.bid.GetOr(m.mid)
  }

  function LatencyFactor(c: Calibration): real { Clamp(c.latencyMultiplier, 0.65, 1.75) }

  function AdjustedLatencyMs(o: Order, c: Calibration): int {
    Round(o.latencyMs * LatencyFactor(c) * Clamp(o.sessionLatencyBias, 0.85, 1.35))
  }

  function WorkingTimeMs(m: Market, o: Order, c: Calibration): int {
    if IsMaker(o) then
      Round(o.makerPatienceMs * Clamp(0.72 + m.depthConfidence * 0.45 - m.queueImbalance * 0.14, 0.45, 1.2)
            * LatencyFactor(c))
    else AdjustedLatencyMs(o, c)
  }

  function LatencyBps(m: Market, o: Order, c: Calibration): real {
    Clamp((AdjustedLatencyMs(o, c) as real / 1000.0)
          * (m.volatility * 520.0 + m.spreadBps * 0.05 + Abs(m.tradeFlow) * 1.6), 0.0, 18.0)
  }

  function QueueDecayBps(m: Market, o: Order, c: Calibration): real {
    if IsMaker(o) then
      Clamp((WorkingTimeMs(m, o, c) as real / 1000.0)
            * (Positive(0.46 - m.queueRefresh) * 0.34 + Positive(-m.queueImbalance) * 0.28
               + m.volatility * 7.5), 0.0, 8.0)
      + c.queueDecayBiasBps
    else 0.0
  }

  function SpreadShockBps(m: Market, o: Order, c: Calibration): real {
    Clamp(Positive(m.spreadBps - Max(o.plannedSlippageBps, m.spreadBps * 0.35)) * 0.14
          + Positive(m.volatility - 0.018) * 160.0
          + Positive(0.5 - m.depthConfidence) * 2.2, 0.0, 10.0)
    + c.spreadShockBiasBps
  }

  function LiquidityShockBps(m: Market): real {
    Clamp((1.0 - m.depthConfidence) * 1.6 + Positive(0.28 - m.queueRefresh) * 3.2
          + Positive(Abs(m.tradeFlow) - 0.12) * 2.4, 0.0, 6.5)
  }

  function MakerMissRate(m: Market, o: Order): real {
    if IsMaker(o) then
      Clamp((1.0 - m.depthConfidence) * 0.44 + Positive(0.2 - m.queueRefresh) * 0.48
            + Positive(m.volatility - 0.02) * 4.5 + (if o.thinLiquidity then 0.12 else 0.0), 0.0, 0.85)
    else 0.0
  }

  function QueueRefillBps(m: Market, o: Order): real {
    if IsMaker(o) then
      Clamp(Positive(m.queueRefresh - 0.52) * 1.6 + Positive(m.depthConfidence - 0.55) * 1.1, 0.0, 3.2)
    else 0.0
  }

  function CancellationShockBps(m: Market, o: Order): real {
    if IsMaker(o) then
      Clamp(Positive(0.48 - m.queueRefresh) * 2.4 + Positive(0.12 - m.queueImbalance) * 2.1, 0.0, 4.5)
    else 0.0
  }

  function MakerCompletion(m: Market, o: Order, c: Calibration): real {
    if IsMaker(o) then
      Clamp(o.expectedMakerFill
            + m.depthConfidence * 0.18
            + m.queueRefresh * 0.12
            + m.queueImbalance * 0.08
            - m.volatility * 2.4
            - m.spreadBps / 180.0
            + c.makerFillBias
            + QueueDecayBps(m, o, c) / -18.0
            - SpreadShockBps(m, o, c) / 28.0
            - c.slippageBiasBps / 42.0
            - MakerMissRate(m, o) * -0.35
            + QueueRefillBps(m, o) / 20.0
            - CancellationShockBps(m, o) / 18.0
            - (if o.style.PeggedLimitMaker? then 0.08 else 0.0),
            o.makerFillFloor, 0.98)
    else 0.0
  }

  function CompletionRatio(m: Market, o: Order, c: Calibration): real {
    var maker := MakerCompletion(m, o, c);
    if IsMaker(o) then
      Clamp(maker + (if o.cancelReplaceMarket then (1.0 - maker) * 0.96 else 0.0), o.minPartialFill, 1.0)
    else 1.0
  }

  function MakerShare(m: Market, o: Order, c: Calibration): real {
    if IsMaker(o) then Clamp(Min(MakerCompletion(m, o, c), CompletionRatio(m, o, c)), 0.0, 1.0) else 0.0
  }

  function TakerShare(m: Market, o: Order, c: Calibration): real {
    Clamp(CompletionRatio(m, o, c) - MakerShare(m, o, c), 0.0, 1.0)
  }

  function RecoveryBps(m: Market, o: Order, c: Calibration): real {
    if TakerShare(m, o, c) > 0.0 && MakerShare(m, o, c) > 0.0 then
      Clamp((1.0 - MakerShare(m, o, c)) * 1.8 + CancellationShockBps(m, o) * 0.25, 0.0, 3.8)
    else 0.0
  }

  function QueuePenaltyBps(m: Market, o: Order): real {
    if IsMaker(o) then Clamp((1.0 - m.depthConfidence) * 1.4 + Positive(-m.queueImbalance) * 1.2, 0.0, 4.5) else 0.0
  }

  function ExecutionBps(m: Market, o: Order, c: Calibration): real {
    Max(0.01,
        m.impactBps * (if !IsMaker(o) then 1.0 else if o.style.PeggedLimitMaker? then 0.22 else 0.38)
        + m.midSlippageBps * 0.25
        + c.slippageBiasBps
        + LatencyBps(m, o, c) * (if IsMaker(o) then 0.55 else 1.0)
        + QueuePenaltyBps(m, o)
        + QueueDecayBps(m, o, c) * 0.35
        + SpreadShockBps(m, o, c) * 0.55
        + LiquidityShockBps(m) * 0.45
        + CancellationShockBps(m, o) * 0.3
        + RecoveryBps(m, o, c) * 0.45
        - QueueRefillBps(m, o) * 0.18)
  }

  function FillPrice(m: Market, o: Order, c: Calibration): real {
    var bps := ExecutionBps(m, o, c);
    ReferencePrice(m, o) * (if o.side.Buy? then 1.0 + bps / 10000.0 else 1.0 - bps / 10000.0)
  }

  /** `simulatePaperFill`. */
  function Simulate(m: Market, o: Order, c: Calibration): Fill {
    var ratio := CompletionRatio(m, o, c);
    var price := FillPrice(m, o, c);
    var quote := if o.quote > 0.0 then o.quote * ratio else o.quantity * price * ratio;
    var quantity := if o.quantity > 0.0 then o.quantity * ratio else if price > 0.0 then quote / price else 0.0;
    Fill(ReferencePrice(m, o), price, ratio, MakerShare(m, o, c), TakerShare(m, o, c),
         ExecutionBps(m, o, c), quote, quantity)
  }

  // ---------------------------------------------------------------------------------------------
  // Shares and sizes
  // ---------------------------------------------------------------------------------------------

  /** The completion ratio is a fraction, provided the configured minimum is not negative. */
  lemma CompletionIsFraction(m: Market, o: Order, c: Calibration)
    ensures CompletionRatio(m, o, c) <= 1.0
    ensures o.minPartialFill >= 0.0 ==> CompletionRatio(m, o, c) >= 0.0
    ensures MakerCompletion(m, o, c) <= 0.98
    ensures ExecutionBps(m, o, c) >= 0.01
  {
    hide MakerCompletion;
    MakerCompletionCap(m, o, c);
  }

  lemma MakerCompletionCap(m: Market, o: Order, c: Calibration)
    ensures MakerCompletion(m, o, c) <= 0.98
  {
    hide QueueDecayBps, SpreadShockBps, MakerMissRate, QueueRefillBps, CancellationShockBps;
  }

  /** Maker share and taker share make up the completion ratio, exactly when that ratio is not negative. */
  lemma SharesAddUp(m: Market, o: Order, c: Calibration)
    ensures MakerShare(m, o, c) + TakerShare(m, o, c) == CompletionRatio(m, o, c) <==> CompletionRatio(m, o, c) >= 0.0
  {
    hide MakerCompletion, CompletionRatio;
    CompletionIsFraction(m, o, c);
    TakersComplete(m, o, c);
  }

  lemma TakersComplete(m: Market, o: Order, c: Calibration)
    ensures !IsMaker(o) ==> CompletionRatio(m, o, c) == 1.0
  {
  }

  /** An order asks for an amount of quote currency or for a quantity, not both. */
  predicate OneSided(o: Order) { (o.quote > 0.0 && o.quantity == 0.0) || (o.quantity > 0.0 && o.quote == 0.0) }

  /** The one case the source cannot price: selling for a quote amount at a price that is not positive. */
  predicate Priceable(f: Fill, o: Order) { o.quantity > 0.0 || f.price > 0.0 }

  /** No fill exceeds its request, and what is paid is what is received times the price. */
  lemma FillSizes(m: Market, o: Order, c: Calibration)
    requires OneSided(o) && o.minPartialFill >= 0.0
    ensures var f := Simulate(m, o, c);
            && (o.quote > 0.0 ==> 0.0 <= f.quote <= o.quote)
            && (o.quantity > 0.0 ==> 0.0 <= f.quantity <= o.quantity)
            && (Priceable(f, o) ==> f.quantity >= 0.0 && f.quote == f.quantity * f.price)
  {
    hide CompletionRatio, FillPrice, MakerShare, TakerShare, ExecutionBps, ReferencePrice;
    CompletionIsFraction(m, o, c);
    var ratio, price := CompletionRatio(m, o, c), FillPrice(m, o, c);
    var f := Simulate(m, o, c);
    if o.quote > 0.0 {
      var quote := Scaled(o.quote, ratio);
      assert f.quote == quote;
      if price > 0.0 {
        Quotient(quote, price);
      }
    } else {
      var quantity := Scaled(o.quantity, ratio);
      assert f.quantity == quantity;
      Reorder(o.quantity, price, ratio);
    }
  }

  lemma Reorder(x: real, y: real, z: real)
    ensures x * y * z == (x * z) * y
  {
  }

  lemma Scaled(x: real, ratio: real) returns (y: real)
    requires x > 0.0 && 0.0 <= ratio <= 1.0
    ensures y == x * ratio && 0.0 <= y <= x
  {
    y := x * ratio;
  }

  lemma Quotient(x: real, y: real)
    requires x >= 0.0 && y > 0.0
    ensures x / y >= 0.0 && x == (x / y) * y
  {
  }

  // ---------------------------------------------------------------------------------------------
  // No free money
  // ---------------------------------------------------------------------------------------------

  datatype Portfolio = Portfolio(cash: real, units: real)

  function Worth(p: Portfolio, mark: real): real { p.cash + p.units * mark }

  function Settle(p: Portfolio, o: Order, f: Fill): Portfolio {
    if o.side.Buy? then Portfolio(p.cash - f.quote, p.units + f.quantity)
    else Portfolio(p.cash + f.quote, p.units - f.quantity)
  }

  /** A buy is priced above the ask and a sell below the bid. */
  lemma PriceIsWorseThanBook(m: Market, o: Order, c: Calibration, mark: real)
    requires m.bid.Some? && m.ask.Some? && 0.0 < m.bid.value <= mark <= m.ask.value
    ensures o.side.Buy? ==> FillPrice(m, o, c) > mark
    ensures o.side.Sell? ==> FillPrice(m, o, c) < mark
    ensures o.side.Sell? ==> (FillPrice(m, o, c) > 0.0 <==> ExecutionBps(m, o, c) < 10000.0)
  {
    hide ExecutionBps;
    CompletionIsFraction(m, o, c);
    var bps := ExecutionBps(m, o, c);
    if o.side.Buy? {
      var price := Markup(m.ask.value, bps);
      assert FillPrice(m, o, c) == price;
    } else {
      var price := Markdown(m.bid.value, bps);
      assert FillPrice(m, o, c) == price;
    }
  }

  lemma Markup(x: real, bps: real) returns (price: real)
    requires x > 0.0 && bps >= 0.01
    ensures price == x * (1.0 + bps / 10000.0) && price > x
  {
    price := x * (1.0 + bps / 10000.0);
  }

  lemma Markdown(x: real, bps: real) returns (price: real)
    requires x > 0.0 && bps >= 0.01
    ensures price == x * (1.0 - bps / 10000.0) && price < x
    ensures price > 0.0 <==> bps < 10000.0
  {
    var d := 1.0 - bps / 10000.0;
    price := x * d;
    if bps >= 10000.0 {
      Product(x, -d);
    }
  }

  /** One fill never raises the worth of the portfolio at any mark inside the book. */
  lemma FillNeverGains(p: Portfolio, m: Market, o: Order, c: Calibration, mark: real)
    requires OneSided(o) && o.minPartialFill >= 0.0
    requires m.bid.Some? && m.ask.Some? && 0.0 < m.bid.value <= mark <= m.ask.value
    requires o.side.Sell? && o.quote > 0.0 ==> ExecutionBps(m, o, c) < 10000.0
    ensures Worth(Settle(p, o, Simulate(m, o, c)), mark) <= Worth(p, mark)
  {
    hide ExecutionBps, FillPrice, CompletionRatio, MakerShare, TakerShare, Worth;
    var f := Simulate(m, o, c);
    FillSizes(m, o, c);
    PriceIsWorseThanBook(m, o, c, mark);
    assert f.price == FillPrice(m, o, c) && Priceable(f, o);
    Exchange(p, f.quote, f.quantity, f.price, mark);
    if o.side.Buy? {
      Product(f.quantity, f.price - mark);
    } else {
      Product(f.quantity, mark - f.price);
    }
  }

  /** Trading `quantity` at `price` loses what the price is worse than the mark. */
  lemma Exchange(p: Portfolio, quote: real, quantity: real, price: real, mark: real)
    requires quote == quantity * price
    ensures Worth(Portfolio(p.cash - quote, p.units + quantity), mark) == Worth(p, mark) - quantity * (price - mark)
    ensures Worth(Portfolio(p.cash + quote, p.units - quantity), mark) == Worth(p, mark) - quantity * (mark - price)
  {
    assert (p.units + quantity) * mark == p.units * mark + quantity * mark;
    assert (p.units - quantity) * mark == p.units * mark - quantity * mark;
    assert quantity * (price - mark) == quantity * price - quantity * mark;
    assert quantity * (mark - price) == quantity * mark - quantity * price;
  }

  /** A sale for a quote amount makes money exactly when its cost reaches 10000 bps (the price is then not
      positive, so nothing is handed over) and any of it is filled. */
  lemma SellForQuoteGainsIff(p: Portfolio, m: Market, o: Order, c: Calibration, mark: real)
    requires o.side.Sell? && o.quote > 0.0 && o.quantity == 0.0 && o.minPartialFill >= 0.0
    requires m.bid.Some? && m.ask.Some? && 0.0 < m.bid.value <= mark <= m.ask.value
    ensures Worth(Settle(p, o, Simulate(m, o, c)), mark) > Worth(p, mark) <==>
            ExecutionBps(m, o, c) >= 10000.0 && CompletionRatio(m, o, c) > 0.0
  {
    hide ExecutionBps, FillPrice, CompletionRatio, MakerShare, TakerShare;
    var ratio := CompletionRatio(m, o, c);
    CompletionIsFraction(m, o, c);
    PriceIsWorseThanBook(m, o, c, mark);
    if ExecutionBps(m, o, c) < 10000.0 {
      FillNeverGains(p, m, o, c, mark);
    } else if ratio > 0.0 {
      PositiveProduct(o.quote, ratio);
    }
  }

  /** A trade under market conditions of its own, on the common book. */
  datatype Trade = Trade(market: Market, order: Order, calibration: Calibration)

  ghost predicate Fair(t: Trade, bid: real, ask: real) {
    && t.market.bid == Some(bid) && t.market.ask == Some(ask)
    && OneSided(t.order) && t.order.minPartialFill >= 0.0
    && (t.order.side.Sell? && t.order.quote > 0.0 ==> ExecutionBps(t.market, t.order, t.calibration) < 10000.0)
  }

  function AfterTrades(p: Portfolio, trades: seq<Trade>): Portfolio
    decreases trades
  {
    if trades == [] then p
    else
      var t := trades[0];
      AfterTrades(Settle(p, t.order, Simulate(t.market, t.order, t.calibration)), trades[1..])
  }

  /** No free money: no sequence of simulated fills on a fixed book raises cash plus holdings marked at
      any price between bid and ask. */
  lemma {:induction false} NoFreeMoney(p: Portfolio, trades: seq<Trade>, bid: real, ask: real, mark: real)
    requires 0.0 < bid <= mark <= ask
    requires forall t :: t in trades ==> Fair(t, bid, ask)
    ensures Worth(AfterTrades(p, trades), mark) <= Worth(p, mark)
    decreases trades
  {
    hide Simulate, Settle, Worth, ExecutionBps;
    if trades != [] {
      var t := trades[0];
      assert t in trades;
      FillNeverGains(p, t.market, t.order, t.calibration, mark);
      NoFreeMoney(Settle(p, t.order, Simulate(t.market, t.order, t.calibration)), trades[1..], bid, ask, mark);
    }
  }

  /** An order with both a quote amount and a quantity is filled for each of them separately: it gains
      exactly when it fills at all and exchanges the two amounts at better than the mark. */
  lemma BothAmountsGainIff(p: Portfolio, m: Market, o: Order, c: Calibration, mark: real)
    requires o.quote > 0.0 && o.quantity > 0.0 && o.minPartialFill >= 0.0
    ensures Worth(Settle(p, o, Simulate(m, o, c)), mark) > Worth(p, mark) <==>
            CompletionRatio(m, o, c) > 0.0
            && if o.side.Buy? then o.quantity * mark > o.quote else o.quote > o.quantity * mark
  {
    hide ExecutionBps, FillPrice, CompletionRatio, MakerShare, TakerShare;
    CompletionIsFraction(m, o, c);
    var ratio := CompletionRatio(m, o, c);
    var gain := o.quantity * mark - o.quote;
    BothAmountsWorth(p.cash, p.units, o.quote, o.quantity, ratio, mark);
    SignOfProduct(gain, ratio);
  }

  lemma BothAmountsWorth(cash: real, units: real, quote: real, quantity: real, ratio: real, mark: real)
    ensures (cash - quote * ratio) + (units + quantity * ratio) * mark
            == cash + units * mark + (quantity * mark - quote) * ratio
    ensures (cash + quote * ratio) + (units - quantity * ratio) * mark
            == cash + units * mark - (quantity * mark - quote) * ratio
  {
    assert (units + quantity * ratio) * mark == units * mark + quantity * ratio * mark;
    assert (units - quantity * ratio) * mark == units * mark - quantity * ratio * mark;
    assert (quantity * mark - quote) * ratio == quantity * mark * ratio - quote * ratio;
    assert quantity * ratio * mark == quantity * mark * ratio;
  }

  const CALM := Market(Some(1.0), Some(1.0), 1.0, 0.0, 1.0, 0.0, 1.0, 0.0, 0.0, 0.0, 0.0)
  const COSTLY := Calibration(10000.0, 0.0, 1.0, 0.0, 0.0)
  const SELL_FOR_ONE := Order(Sell, 1.0, 0.0, MarketOrder, 0.0, 0.32, 0.0, false, false, 0.0, 1.0, 0.22, 0.35)

  /** A sale for one unit of quote at a cost of exactly 10000 bps pays that unit and takes nothing for it. */
  lemma FullCostSaleGains()
    ensures ExecutionBps(CALM, SELL_FOR_ONE, COSTLY) == 10000.0
    ensures Settle(Portfolio(0.0, 1.0), SELL_FOR_ONE, Simulate(CALM, SELL_FOR_ONE, COSTLY)) == Portfolio(1.0, 1.0)
  {
    FullCost();
    hide ExecutionBps;
    assert CompletionRatio(CALM, SELL_FOR_ONE, COSTLY) == 1.0;
    assert FillPrice(CALM, SELL_FOR_ONE, COSTLY) == 0.0;
  }

  lemma FullCost()
    ensures ExecutionBps(CALM, SELL_FOR_ONE, COSTLY) == 10000.0
  {
    CalmShocks();
    CalmLatency();
    hide SpreadShockBps, LiquidityShockBps, LatencyBps, MakerShare, TakerShare, Clamp;
    assert RecoveryBps(CALM, SELL_FOR_ONE, COSTLY) == 0.0;
  }

  lemma CalmShocks()
    ensures SpreadShockBps(CALM, SELL_FOR_ONE, COSTLY) == 0.0
    ensures LiquidityShockBps(CALM) == 0.0
    ensures MakerShare(CALM, SELL_FOR_ONE, COSTLY) == 0.0
  {
    hide MakerCompletion, CompletionRatio;
    assert MakerShare(CALM, SELL_FOR_ONE, COSTLY) == 0.0;
    assert Positive(0.0) == 0.0 && Positive(-0.018) == 0.0 && Positive(-0.5) == 0.0;
    assert Positive(0.28 - 1.0) == 0.0 && Positive(0.0 - 0.12) == 0.0 && Max(0.0, 0.0) == 0.0 && Abs(0.0) == 0.0;
    hide Positive, Max, Abs, MakerShare;
    assert SpreadShockBps(CALM, SELL_FOR_ONE, COSTLY) == Clamp(0.0, 0.0, 10.0) + 0.0;
    assert LiquidityShockBps(CALM) == Clamp(0.0, 0.0, 6.5);
  }

  lemma CalmLatency()
    ensures LatencyBps(CALM, SELL_FOR_ONE, COSTLY) == 0.0
  {
    var ms := AdjustedLatencyMs(SELL_FOR_ONE, COSTLY) as real / 1000.0;
    assert ms * 0.0 == 0.0;
    hide AdjustedLatencyMs;
    assert CALM.volatility * 520.0 + CALM.spreadBps * 0.05 + Abs(CALM.tradeFlow) * 1.6 == 0.0;
  }

  const BUY_BOTH := SELL_FOR_ONE.(side := Buy, quantity := 2.0)

  /** An order for one unit of quote and two of quantity, at a mark of one: both are filled, one doubles. */
  lemma BothAmountsGain()
    ensures Settle(Portfolio(1.0, 0.0), BUY_BOTH, Simulate(CALM, BUY_BOTH, COSTLY)) == Portfolio(0.0, 2.0)
    ensures Worth(Portfolio(1.0, 0.0), 1.0) == 1.0 && Worth(Portfolio(0.0, 2.0), 1.0) == 2.0
  {
    hide ExecutionBps;
    assert CompletionRatio(CALM, BUY_BOTH, COSTLY) == 1.0;
  }
}
