/** Fills worked through term by term, and where the terms are cut off. */
module FillExample {
  import opened Common
  import opened PaperFill
  import opened FillMeaning

  const BUSY := Market(Some(99.0), Some(100.0), 99.5, 18.0, 0.4, -0.5, 0.1, 0.5, 0.03, 2.0, 4.0)
  const LEARNED := Calibration(4.2, 0.02, 1.0, 0.808888, 0.422)
  const PATIENT :=
    Order(Buy, 0.0, 10.0, LimitMaker, 3.0, 0.9, 4000.0, true, false, 500.0, 1.0, 0.22, 0.35)

  /** Half a second of latency and 3.88 of working time. */
  lemma Times()
    ensures AdjustedLatencyMs(PATIENT, LEARNED) == 500 && WorkingTimeMs(BUSY, PATIENT, LEARNED) == 3880
  {
    assert LatencyFactor(LEARNED) == 1.0;
    assert 0.72 + BUSY.depthConfidence * 0.45 - BUSY.queueImbalance * 0.14 == 0.97;
    assert 4000.0 * 0.97 * 1.0 == 3880.0;
  }

  lemma LatencyCost()
    ensures LatencyBps(BUSY, PATIENT, LEARNED) == 8.65
  {
    Times();
    hide AdjustedLatencyMs;
    assert BUSY.volatility * 520.0 + BUSY.spreadBps * 0.05 + Abs(BUSY.tradeFlow) * 1.6 == 17.3;
  }

  lemma QueueDecay()
    ensures QueueDecayBps(BUSY, PATIENT, LEARNED) == 2.7
  {
    Times();
    hide WorkingTimeMs;
    assert Positive(0.46 - BUSY.queueRefresh) * 0.34 + Positive(-BUSY.queueImbalance) * 0.28 + BUSY.volatility * 7.5
           == 0.4874;
  }

  lemma SpreadShock()
    ensures SpreadShockBps(BUSY, PATIENT, LEARNED) == 4.2
  {
    assert BUSY.spreadBps * 0.35 == 6.3;
    assert Positive(18.0 - 6.3) == 11.7 && Positive(0.03 - 0.018) == 0.012 && Positive(0.5 - 0.4) == 0.1;
  }

  lemma LiquidityShock()
    ensures LiquidityShockBps(BUSY) == 2.448
  {
    assert Positive(0.28 - 0.1) == 0.18 && Positive(0.5 - 0.12) == 0.38;
  }

  lemma MissRate()
    ensures MakerMissRate(BUSY, PATIENT) == 0.357
  {
    assert Positive(0.2 - 0.1) == 0.1 && Positive(0.03 - 0.02) == 0.01;
  }

  lemma Cancellation()
    ensures CancellationShockBps(BUSY, PATIENT) == 2.214 && QueueRefillBps(BUSY, PATIENT) == 0.0
    ensures QueuePenaltyBps(BUSY, PATIENT) == 1.44
  {
    assert Positive(0.48 - 0.1) == 0.38 && Positive(0.12 + 0.5) == 0.62 && Positive(0.5) == 0.5;
    assert Positive(0.1 - 0.52) == 0.0 && Positive(0.4 - 0.55) == 0.0;
  }

  lemma ExpectedFill()
    ensures Expected(BUSY, PATIENT, LEARNED) == 0.692
  {
    assert BUSY.depthConfidence * 0.18 == 0.072 && BUSY.queueRefresh * 0.12 == 0.012;
    assert BUSY.queueImbalance * 0.08 == -0.04 && BUSY.volatility * 2.4 == 0.072;
    assert BUSY.spreadBps / 180.0 == 0.1 && LEARNED.slippageBiasBps / 42.0 == 0.1;
  }

  lemma UncutFill()
    ensures Uncut(BUSY, PATIENT, LEARNED) == 0.39395
  {
    hide Expected, QueueDecayBps, SpreadShockBps, MakerMissRate, QueueRefillBps, CancellationShockBps;
    ExpectedFill();
    QueueDecay();
    SpreadShock();
    MissRate();
    Cancellation();
  }

  lemma Completion()
    ensures MakerCompletion(BUSY, PATIENT, LEARNED) == 0.39395
    ensures CompletionRatio(BUSY, PATIENT, LEARNED) == 0.975758
    ensures MakerShare(BUSY, PATIENT, LEARNED) == 0.39395 && TakerShare(BUSY, PATIENT, LEARNED) == 0.581808
  {
    hide Uncut, MakerCompletion;
    UncutFill();
    CompletionIsCut(BUSY, PATIENT, LEARNED);
  }

  lemma Recovery()
    ensures RecoveryBps(BUSY, PATIENT, LEARNED) == 1.64439
  {
    hide MakerShare, TakerShare, CancellationShockBps;
    Completion();
    Cancellation();
  }

  lemma Cost()
    ensures ExecutionBps(BUSY, PATIENT, LEARNED) == 17.9182755
  {
    hide LatencyBps, QueuePenaltyBps, QueueDecayBps, SpreadShockBps, LiquidityShockBps, CancellationShockBps;
    hide RecoveryBps, QueueRefillBps;
    LatencyCost();
    Cancellation();
    QueueDecay();
    SpreadShock();
    LiquidityShock();
    Recovery();
    assert BUSY.impactBps * 0.38 == 0.76;
  }

  /** The purchase is filled to 97.5758 per cent, 39.395 of it by making and the rest by taking, at 17.9182755
      hundredths of a per cent above the ask. */
  lemma BusyPurchase()
    ensures var f := Simulate(BUSY, PATIENT, LEARNED);
            && f.referencePrice == 100.0 && f.completion == 0.975758
            && f.makerShare == 0.39395 && f.takerShare == 0.581808 && f.executionBps == 17.9182755
            && f.price == 100.179182755 && f.quantity == 9.75758
            && f.quote == 9.75758 * f.price
  {
    hide CompletionRatio, MakerShare, TakerShare, ExecutionBps;
    Completion();
    Cost();
    assert 1.0 + 17.9182755 / 10000.0 == 1.00179182755;
    assert FillPrice(BUSY, PATIENT, LEARNED) == 100.179182755;
    hide FillPrice;
    assert 10.0 * 100.179182755 * 0.975758 == 9.75758 * 100.179182755;
  }

  // ---------------------------------------------------------------------------------------------
  // A pegged sale in a deep market
  // ---------------------------------------------------------------------------------------------

  const DEEP := Market(Some(99.0), Some(101.0), 100.0, 0.0, 0.95, 0.5, 0.82, 0.0, 0.0, 10.0, 8.0)
  const PEGGED := Order(Sell, 0.0, 10.0, PeggedLimitMaker, 0.0, 0.5, 0.0, false, false, 0.0, 1.0, 0.22, 0.35)

  lemma DeepTimes()
    ensures AdjustedLatencyMs(PEGGED, PLAIN) == 0 && WorkingTimeMs(DEEP, PEGGED, PLAIN) == 0
  {
    var x := Clamp(0.72 + 0.95 * 0.45 - 0.5 * 0.14, 0.45, 1.2);
    assert 0.0 * x * 1.0 == 0.0;
  }

  lemma DeepTimeCosts()
    ensures LatencyBps(DEEP, PEGGED, PLAIN) == 0.0 && QueueDecayBps(DEEP, PEGGED, PLAIN) == 0.0
  {
    DeepTimes();
    hide AdjustedLatencyMs, WorkingTimeMs, Positive;
  }

  lemma DeepShocks()
    ensures SpreadShockBps(DEEP, PEGGED, PLAIN) == 0.0 && LiquidityShockBps(DEEP) == 0.08
  {
    assert Positive(0.0 - Max(0.0, 0.0 * 0.35)) == 0.0 && Positive(0.0 - 0.018) == 0.0 && Positive(0.5 - 0.95) == 0.0;
    assert Positive(0.28 - 0.82) == 0.0 && Positive(Abs(0.0) - 0.12) == 0.0;
    hide Positive, Max, Abs;
  }

  lemma DeepQueue()
    ensures QueueRefillBps(DEEP, PEGGED) == 0.92 && CancellationShockBps(DEEP, PEGGED) == 0.0
    ensures MakerMissRate(DEEP, PEGGED) == 0.022 && QueuePenaltyBps(DEEP, PEGGED) == 0.07
  {
    assert Positive(0.82 - 0.52) == 0.3 && Positive(0.95 - 0.55) == 0.4;
    assert Positive(0.48 - 0.82) == 0.0 && Positive(0.12 - 0.5) == 0.0;
    assert Positive(0.2 - 0.82) == 0.0 && Positive(0.0 - 0.02) == 0.0 && Positive(-0.5) == 0.0;
    hide Positive;
  }

  lemma DeepExpected()
    ensures Expected(DEEP, PEGGED, PLAIN) == 0.7294
  {
    assert DEEP.depthConfidence * 0.18 == 0.171 && DEEP.queueRefresh * 0.12 == 0.0984;
  }

  lemma DeepUncut()
    ensures Uncut(DEEP, PEGGED, PLAIN) == 0.7831
  {
    hide Expected, QueueDecayBps, SpreadShockBps, MakerMissRate, QueueRefillBps, CancellationShockBps;
    DeepExpected();
    DeepTimeCosts();
    DeepShocks();
    DeepQueue();
  }

  lemma DeepCompletion()
    ensures MakerCompletion(DEEP, PEGGED, PLAIN) == 0.7831
  {
    hide Uncut, MakerCompletion;
    DeepUncut();
    CompletionIsCut(DEEP, PEGGED, PLAIN);
  }

  /** A pegged order pays 22 per cent of the impact, and refills of the queue lower its cost. */
  lemma PeggedSale()
    ensures var f := Simulate(DEEP, PEGGED, PLAIN);
            && f.referencePrice == 99.0 && f.completion == f.makerShare == 0.7831 && f.takerShare == 0.0
            && f.executionBps == 4.1404 && f.quantity == 7.831
  {
    DeepCompletion();
    hide MakerCompletion, LatencyBps, QueueDecayBps, SpreadShockBps, CancellationShockBps, QueueRefillBps;
    hide LiquidityShockBps, QueuePenaltyBps, FillPrice;
    DeepTimeCosts();
    DeepShocks();
    DeepQueue();
    assert RecoveryBps(DEEP, PEGGED, PLAIN) == 0.0;
    assert DEEP.impactBps * 0.22 == 2.2 && DEEP.midSlippageBps * 0.25 == 2.0;
    assert ExecutionBps(DEEP, PEGGED, PLAIN) == 4.1404;
  }

  // ---------------------------------------------------------------------------------------------
  // The caps
  // ---------------------------------------------------------------------------------------------

  /** Whatever the market, no part of a fill is negative or beyond its cap, but for the learned biases. */
  lemma PartsAreCapped(m: Market, o: Order, c: Calibration)
    ensures 0.0 <= LatencyBps(m, o, c) <= 18.0 && 0.0 <= LiquidityShockBps(m) <= 6.5
    ensures o.style != MarketOrder ==> 0.0 <= QueueDecayBps(m, o, c) - c.queueDecayBiasBps <= 8.0
    ensures 0.0 <= SpreadShockBps(m, o, c) - c.spreadShockBiasBps <= 10.0
    ensures 0.0 <= MakerMissRate(m, o) <= 0.85 && 0.0 <= QueueRefillBps(m, o) <= 3.2
    ensures 0.0 <= CancellationShockBps(m, o) <= 4.5 && 0.0 <= QueuePenaltyBps(m, o) <= 4.5
    ensures 0.0 <= RecoveryBps(m, o, c) <= 3.8 && 0.65 <= LatencyFactor(c) <= 1.75
  {
    hide AdjustedLatencyMs, WorkingTimeMs, MakerShare, TakerShare, Positive;
  }

  const STORM := Market(Some(99.0), Some(100.0), 99.5, 500.0, 0.0, -9.0, -9.0, 9.0, 0.9, 2.0, 4.0)
  const SLOW := PLAIN.(latencyMultiplier := 2.0)
  const STUBBORN := PATIENT.(latencyMs := 2000.0, sessionLatencyBias := 2.0, makerPatienceMs := 10000.0)

  /** Both latency factors are cut off, and so is the part of its patience that an order works. */
  lemma StormTimes()
    ensures AdjustedLatencyMs(STUBBORN, SLOW) == 4725 && WorkingTimeMs(STORM, STUBBORN, SLOW) == 21000
  {
    assert LatencyFactor(SLOW) == 1.75;
    assert Clamp(0.72 + 0.0 * 0.45 - -9.0 * 0.14, 0.45, 1.2) == 1.2;
    assert 2000.0 * 1.75 * 1.35 == 4725.0 && 10000.0 * 1.2 * 1.75 == 21000.0;
  }

  lemma StormTimeCosts()
    ensures LatencyBps(STORM, STUBBORN, SLOW) == 18.0 && QueueDecayBps(STORM, STUBBORN, SLOW) == 8.0
  {
    StormTimes();
    hide AdjustedLatencyMs, WorkingTimeMs;
    assert Positive(0.46 + 9.0) == 9.46 && Positive(9.0) == 9.0;
  }

  lemma StormShocks()
    ensures SpreadShockBps(STORM, STUBBORN, SLOW) == 10.0 && LiquidityShockBps(STORM) == 6.5
  {
    assert Positive(500.0 - Max(3.0, 500.0 * 0.35)) == 325.0 && Positive(0.9 - 0.018) == 0.882 && Positive(0.5) == 0.5;
    assert Positive(0.28 + 9.0) == 9.28 && Positive(Abs(9.0) - 0.12) == 8.88;
  }

  lemma StormQueue()
    ensures MakerMissRate(STORM, STUBBORN) == 0.85 && CancellationShockBps(STORM, STUBBORN) == 4.5
    ensures QueuePenaltyBps(STORM, STUBBORN) == 4.5 && QueueRefillBps(STORM, STUBBORN) == 0.0
  {
    assert Positive(0.2 + 9.0) == 9.2 && Positive(0.9 - 0.02) == 0.88;
    assert Positive(0.48 + 9.0) == 9.48 && Positive(0.12 + 9.0) == 9.12 && Positive(9.0) == 9.0;
    assert Positive(-9.0 - 0.52) == 0.0 && Positive(0.0 - 0.55) == 0.0;
  }

  /** In a storm every part is at its cap. */
  lemma StormParts()
    ensures LatencyBps(STORM, STUBBORN, SLOW) == 18.0 && QueueDecayBps(STORM, STUBBORN, SLOW) == 8.0
    ensures SpreadShockBps(STORM, STUBBORN, SLOW) == 10.0 && LiquidityShockBps(STORM) == 6.5
    ensures MakerMissRate(STORM, STUBBORN) == 0.85 && CancellationShockBps(STORM, STUBBORN) == 4.5
    ensures QueuePenaltyBps(STORM, STUBBORN) == 4.5 && QueueRefillBps(STORM, STUBBORN) == 0.0
  {
    StormTimeCosts();
    StormShocks();
    StormQueue();
  }

  const FLOOD := STORM.(depthConfidence := -9.0, queueImbalance := 9.0, queueRefresh := 9.0)
  const QUICK := PLAIN.(latencyMultiplier := 0.1)
  const EAGER := STUBBORN.(sessionLatencyBias := 0.1)

  /** In a flood of refreshes the refill is at its cap, and the factors of time at their floors. */
  lemma FloodParts()
    ensures AdjustedLatencyMs(EAGER, QUICK) == 1105 && WorkingTimeMs(FLOOD, EAGER, QUICK) == 2925
    ensures QueueRefillBps(FLOOD, EAGER) == 3.2 && CancellationShockBps(FLOOD, EAGER) == 0.0
  {
    assert LatencyFactor(QUICK) == 0.65;
    assert Clamp(0.72 + -9.0 * 0.45 - 9.0 * 0.14, 0.45, 1.2) == 0.45;
    assert 2000.0 * 0.65 * 0.85 == 1105.0 && 10000.0 * 0.45 * 0.65 == 2925.0;
  }
}
