/** What a simulated fill reports, and how market conditions and the order move it. */
module FillMeaning {
  import opened Arithmetic
  import opened Common
  import opened PaperFill

  /** A market order is filled at once and in full, all of it by taking. */
  lemma MarketOrderMeaning(m: Market, o: Order, c: Calibration)
    requires o.style == MarketOrder
    ensures var f := Simulate(m, o, c); f.completion == 1.0 && f.makerShare == 0.0 && f.takerShare == 1.0
  {
    hide FillPrice, ExecutionBps;
  }

  /** A resting order makes what the maker side completes and takes the rest of what is filled: with a fallback to the
      market at least 96 per cent of what is missing, and otherwise only what the configured minimum asks for. */
  lemma RestingOrderMeaning(m: Market, o: Order, c: Calibration)
    requires o.style != MarketOrder && 0.0 <= o.minPartialFill <= 1.0
    ensures var f, made := Simulate(m, o, c), MakerCompletion(m, o, c);
            && f.completion == f.makerShare + f.takerShare && 0.0 <= f.makerShare && 0.0 <= f.takerShare
            && f.completion >= o.minPartialFill
            && (made >= 0.0 ==> f.makerShare == made)
            && (made < 0.0 ==> f.makerShare == 0.0)
            && (!o.cancelReplaceMarket && made >= o.minPartialFill ==> f.takerShare == 0.0)
            && (o.cancelReplaceMarket && made >= 0.0 ==> 1.0 - f.completion <= (1.0 - made) * 0.04)
  {
    hide FillPrice, ExecutionBps, MakerCompletion;
    MakerCompletionCap(m, o, c);
    SharesAddUp(m, o, c);
    CompletionIsFraction(m, o, c);
  }

  /** The price is the book's own side, or the middle where it is missing, worsened by the cost in hundredths of a per
      cent; and the amounts on the report are what is paid and received. */
  lemma PriceMeaning(m: Market, o: Order, c: Calibration)
    ensures var f := Simulate(m, o, c);
            && f.referencePrice == (match (o.side, m.ask, m.bid)
                                    case (Buy, Some(ask), _) => ask
                                    case (Sell, _, Some(bid)) => bid
                                    case _ => m.mid)
            && f.price - f.referencePrice
               == (if o.side == Buy then f.referencePrice else -f.referencePrice) * f.executionBps / 10000.0
            && f.executionBps >= 0.01
  {
    hide CompletionRatio, MakerShare, TakerShare;
    CompletionIsFraction(m, o, c);
    hide ExecutionBps;
    Worsened(ReferencePrice(m, o), ExecutionBps(m, o, c));
  }

  lemma Worsened(x: real, bps: real)
    ensures x * (1.0 + bps / 10000.0) - x == x * bps / 10000.0
    ensures x * (1.0 - bps / 10000.0) - x == -x * bps / 10000.0
  {
    assert x * (bps / 10000.0) == x * bps / 10000.0;
  }

  // ---------------------------------------------------------------------------------------------
  // Market orders cost more in worse markets
  // ---------------------------------------------------------------------------------------------

  /** A market that is worse for a market order in every respect: more impact, slippage, spread, flow and volatility,
      less depth and slower refreshes. */
  ghost predicate Worse(m: Market, n: Market) {
    && m.impactBps <= n.impactBps && m.midSlippageBps <= n.midSlippageBps && 0.0 <= m.spreadBps <= n.spreadBps
    && Abs(m.tradeFlow) <= Abs(n.tradeFlow) && 0.0 <= m.volatility <= n.volatility
    && m.depthConfidence >= n.depthConfidence && m.queueRefresh >= n.queueRefresh
  }

  lemma LatencyGrows(m: Market, n: Market, o: Order, c: Calibration)
    requires Worse(m, n) && AdjustedLatencyMs(o, c) >= 0
    ensures LatencyBps(m, o, c) <= LatencyBps(n, o, c)
  {
    var seconds := AdjustedLatencyMs(o, c) as real / 1000.0;
    var a := m.volatility * 520.0 + m.spreadBps * 0.05 + Abs(m.tradeFlow) * 1.6;
    var b := n.volatility * 520.0 + n.spreadBps * 0.05 + Abs(n.tradeFlow) * 1.6;
    assert a <= b && seconds >= 0.0;
    Grow(a, b, seconds);
    hide AdjustedLatencyMs;
    assert seconds * a == a * seconds && seconds * b == b * seconds;
    ClampGrows(seconds * a, seconds * b, 18.0);
  }

  lemma ClampGrows(x: real, y: real, cap: real)
    requires x <= y
    ensures Clamp(x, 0.0, cap) <= Clamp(y, 0.0, cap)
  {
  }

  lemma ShocksGrow(m: Market, n: Market, o: Order, c: Calibration)
    requires Worse(m, n) && o.plannedSlippageBps >= 0.0
    ensures SpreadShockBps(m, o, c) <= SpreadShockBps(n, o, c)
    ensures LiquidityShockBps(m) <= LiquidityShockBps(n)
  {
    var a := Positive(m.spreadBps - Max(o.plannedSlippageBps, m.spreadBps * 0.35));
    var b := Positive(n.spreadBps - Max(o.plannedSlippageBps, n.spreadBps * 0.35));
    assert a <= b;
    assert Positive(m.volatility - 0.018) <= Positive(n.volatility - 0.018);
    assert Positive(0.5 - m.depthConfidence) <= Positive(0.5 - n.depthConfidence);
    assert Positive(0.28 - m.queueRefresh) <= Positive(0.28 - n.queueRefresh);
    assert Positive(Abs(m.tradeFlow) - 0.12) <= Positive(Abs(n.tradeFlow) - 0.12);
    hide Positive, Max, Abs;
    ClampGrows(a * 0.14 + Positive(m.volatility - 0.018) * 160.0 + Positive(0.5 - m.depthConfidence) * 2.2,
               b * 0.14 + Positive(n.volatility - 0.018) * 160.0 + Positive(0.5 - n.depthConfidence) * 2.2, 10.0);
    ClampGrows((1.0 - m.depthConfidence) * 1.6 + Positive(0.28 - m.queueRefresh) * 3.2
               + Positive(Abs(m.tradeFlow) - 0.12) * 2.4,
               (1.0 - n.depthConfidence) * 1.6 + Positive(0.28 - n.queueRefresh) * 3.2
               + Positive(Abs(n.tradeFlow) - 0.12) * 2.4, 6.5);
  }

  /** A worse market, or a larger learned slippage or spread bias, never makes a market order cheaper. */
  lemma MarketCostGrows(m: Market, n: Market, o: Order, c: Calibration, d: Calibration)
    requires o.style == MarketOrder && Worse(m, n) && o.plannedSlippageBps >= 0.0 && AdjustedLatencyMs(o, c) >= 0
    requires c.slippageBiasBps <= d.slippageBiasBps && c.spreadShockBiasBps <= d.spreadShockBiasBps
    requires c.latencyMultiplier == d.latencyMultiplier
    ensures Simulate(m, o, c).executionBps <= Simulate(n, o, d).executionBps
  {
    hide LatencyBps, SpreadShockBps, LiquidityShockBps, CompletionRatio, FillPrice, ReferencePrice, Worse;
    LatencyGrows(m, n, o, c);
    ShocksGrow(m, n, o, c);
    SameLatency(n, o, c, d);
    SameShock(n, o, c, d);
    MarketCost(m, o, c);
    MarketCost(n, o, d);
    hide ExecutionBps;
    CostsOrdered(m, n);
  }

  lemma CostsOrdered(m: Market, n: Market)
    requires Worse(m, n)
    ensures m.impactBps <= n.impactBps && m.midSlippageBps <= n.midSlippageBps
  {
  }

  lemma SameLatency(m: Market, o: Order, c: Calibration, d: Calibration)
    requires c.latencyMultiplier == d.latencyMultiplier
    ensures LatencyBps(m, o, c) == LatencyBps(m, o, d)
  {
  }

  lemma SameShock(m: Market, o: Order, c: Calibration, d: Calibration)
    ensures SpreadShockBps(m, o, d) - SpreadShockBps(m, o, c) == d.spreadShockBiasBps - c.spreadShockBiasBps
  {
  }

  /** What makes up the cost of a market order. */
  lemma MarketCost(m: Market, o: Order, c: Calibration)
    requires o.style == MarketOrder
    ensures ExecutionBps(m, o, c)
            == Max(0.01, m.impactBps + m.midSlippageBps * 0.25 + c.slippageBiasBps + LatencyBps(m, o, c)
                         + SpreadShockBps(m, o, c) * 0.55 + LiquidityShockBps(m) * 0.45)
  {
    hide LatencyBps, SpreadShockBps, LiquidityShockBps, CompletionRatio;
    assert MakerShare(m, o, c) == 0.0;
    assert RecoveryBps(m, o, c) == 0.0;
  }

  // ---------------------------------------------------------------------------------------------
  // Thin liquidity
  // ---------------------------------------------------------------------------------------------

  /** What the order, the book and the calibration say about the completion of a resting order. */
  function Expected(m: Market, o: Order, c: Calibration): real {
    o.expectedMakerFill + m.depthConfidence * 0.18 + m.queueRefresh * 0.12 + m.queueImbalance * 0.08
    - m.volatility * 2.4 - m.spreadBps / 180.0 + c.makerFillBias - c.slippageBiasBps / 42.0
    - (if o.style == PeggedLimitMaker then 0.08 else 0.0)
  }

  /** What queue, shocks, misses, refills and cancellations make of it, before it is cut off at the floor and at
      0.98. */
  function Uncut(m: Market, o: Order, c: Calibration): real {
    Expected(m, o, c) + QueueDecayBps(m, o, c) / -18.0 - SpreadShockBps(m, o, c) / 28.0
    + MakerMissRate(m, o) * 0.35 + QueueRefillBps(m, o) / 20.0 - CancellationShockBps(m, o) / 18.0
  }

  lemma CompletionIsCut(m: Market, o: Order, c: Calibration)
    requires o.style != MarketOrder
    ensures MakerCompletion(m, o, c) == Min(0.98, Max(o.makerFillFloor, Uncut(m, o, c)))
  {
    hide QueueDecayBps, SpreadShockBps, MakerMissRate, QueueRefillBps, CancellationShockBps;
  }

  lemma OnlyMissesDiffer(m: Market, o: Order, thin: Order, c: Calibration)
    requires o.style != MarketOrder && !o.thinLiquidity && thin == o.(thinLiquidity := true)
    ensures Uncut(m, thin, c) - Uncut(m, o, c) == (MakerMissRate(m, thin) - MakerMissRate(m, o)) * 0.35
  {
    hide SpreadShockBps, QueueDecayBps, MakerMissRate, QueueRefillBps, CancellationShockBps;
    SameOtherwise(m, o, thin, c);
  }

  lemma SameOtherwise(m: Market, o: Order, thin: Order, c: Calibration)
    requires thin == o.(thinLiquidity := true)
    ensures QueueDecayBps(m, thin, c) == QueueDecayBps(m, o, c)
    ensures SpreadShockBps(m, thin, c) == SpreadShockBps(m, o, c)
    ensures QueueRefillBps(m, thin) == QueueRefillBps(m, o)
    ensures CancellationShockBps(m, thin) == CancellationShockBps(m, o)
  {
    assert WorkingTimeMs(m, thin, c) == WorkingTimeMs(m, o, c);
    hide WorkingTimeMs;
  }

  /** The miss rate is subtracted with a negative factor, so it raises the completion: an order for a thinly traded
      symbol is never filled less for it than the same order for another symbol. It is filled more exactly when the
      miss rate is not yet at its cap and the completion is not cut off. */
  lemma ThinLiquidityFillsMore(m: Market, o: Order, thin: Order, c: Calibration)
    requires o.style != MarketOrder && !o.thinLiquidity && thin == o.(thinLiquidity := true)
    ensures MakerCompletion(m, thin, c) >= MakerCompletion(m, o, c)
    ensures MakerCompletion(m, thin, c) > MakerCompletion(m, o, c) <==>
            && MakerMissRate(m, thin) > MakerMissRate(m, o)
            && o.makerFillFloor < 0.98 && Uncut(m, thin, c) > o.makerFillFloor && Uncut(m, o, c) < 0.98
  {
    MissRateRises(m, o, thin);
    hide MakerMissRate, Uncut, MakerCompletion;
    CompletionIsCut(m, o, c);
    CompletionIsCut(m, thin, c);
    OnlyMissesDiffer(m, o, thin, c);
  }

  lemma MissRateRises(m: Market, o: Order, thin: Order)
    requires o.style != MarketOrder && !o.thinLiquidity && thin == o.(thinLiquidity := true)
    ensures MakerMissRate(m, thin) >= MakerMissRate(m, o)
  {
    hide Positive;
  }

  const SHALLOW := CALM.(depthConfidence := 0.5)
  const PLAIN := Calibration(0.0, 0.0, 1.0, 0.0, 0.0)
  const RESTING := SELL_FOR_ONE.(style := LimitMaker)
  const THIN := RESTING.(thinLiquidity := true)

  lemma ShallowParts(o: Order)
    requires o in {RESTING, THIN}
    ensures QueueDecayBps(SHALLOW, o, PLAIN) == 0.0 && SpreadShockBps(SHALLOW, o, PLAIN) == 0.0
    ensures QueueRefillBps(SHALLOW, o) == 0.768 && CancellationShockBps(SHALLOW, o) == 0.252
    ensures MakerMissRate(SHALLOW, o) == if o.thinLiquidity then 0.34 else 0.22
  {
    assert WorkingTimeMs(SHALLOW, o, PLAIN) == 0 by {
      var x := 0.72 + 0.5 * 0.45 - 0.0 * 0.14;
      assert 0.0 * Clamp(x, 0.45, 1.2) * 1.0 == 0.0;
    }
    hide WorkingTimeMs;
  }

  lemma ShallowExpected(o: Order)
    requires o in {RESTING, THIN}
    ensures Expected(SHALLOW, o, PLAIN) == 0.53
  {
    assert SHALLOW.depthConfidence * 0.18 == 0.09 && SHALLOW.queueRefresh * 0.12 == 0.12;
  }

  lemma ShallowUncut(o: Order)
    requires o in {RESTING, THIN}
    ensures Uncut(SHALLOW, o, PLAIN) == if o.thinLiquidity then 0.6734 else 0.6314
  {
    hide Expected, QueueDecayBps, SpreadShockBps, MakerMissRate, QueueRefillBps, CancellationShockBps;
    ShallowParts(o);
    ShallowExpected(o);
  }

  /** In a calm market of middling depth a resting sale completes 0.6314 of itself, and 0.6734 when its symbol is
      thinly traded. */
  lemma ThinExample()
    ensures MakerCompletion(SHALLOW, RESTING, PLAIN) == 0.6314 && MakerCompletion(SHALLOW, THIN, PLAIN) == 0.6734
  {
    hide Uncut, MakerCompletion;
    ShallowUncut(RESTING);
    ShallowUncut(THIN);
    CompletionIsCut(SHALLOW, RESTING, PLAIN);
    CompletionIsCut(SHALLOW, THIN, PLAIN);
  }
}
