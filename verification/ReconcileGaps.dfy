/** Inputs on which the coordinator does less, or more, than one might expect; the exact conditions are the
    lemmas of the neighbouring modules that are named beside each of them. */
module ReconcileGaps {
  import opened Common
  import opened Reconcile
  import opened ReconcileRun
  import opened UnlockEligibility
  import opened Convergence
  import IntentLedger
  import LedgerLaws
  import SafetyGate

  const DEFAULTS := Config(None, None, true, true, true, 0.78, 5.0, 0.0, true)
  const QUIET_ACCOUNT := Snapshot(true, true, true, false, false, map[])
  const NO_EVIDENCE := Evidence(QUIET_ACCOUNT, QUIET_ACCOUNT, [], [], [], map[], map[], {})

  function PositionOf(id: nat, symbol: string): Position {
    Position(id, symbol, 1.0, false, false, OpenState, 0, 0, false)
  }

  /** The planner accepts an unprotected local position that the exchange does not hold at all, as long
      as it is not flagged and no sale is on record (compare the last clause of `SafeAt`). */
  lemma MissingHoldingsStillUnlock() returns (p: Position)
    ensures LocalOpen(NO_EVIDENCE, p) && !ExchangeOpen(NO_EVIDENCE, p) && !IsProtected(p)
    ensures WellFormed([p]) && PlanFor(DEFAULTS, NO_EVIDENCE, [p], true).eligible
  {
    hide PlanFor;
    p := PositionOf(1, "BTCUSDT");
    SafeWithoutHoldings(p);
    assert [p][..0] == [];
    assert CountClearings(NO_EVIDENCE, [p]) == 0;
    SafePlanIsEligible(DEFAULTS, NO_EVIDENCE, [p], true);
  }

  lemma SafeWithoutHoldings(p: Position)
    requires p == PositionOf(1, "BTCUSDT")
    ensures SafeAt(DEFAULTS, NO_EVIDENCE, p) && LocalOpen(NO_EVIDENCE, p) && !ExchangeOpen(NO_EVIDENCE, p)
    ensures !IsProtected(p)
  {
  }

  const FROZEN := State([], false, true, false, Blocked, Probation(false, 0), [], [])
  const PENDING_ENTRY := IntentLedger.NewIntent(1, "symbol:entry:btcusdt:1", IntentLedger.Entry, None, 0)

  /** Without positions, and with one entry intent pending, the gate refuses and the run lifts the freeze
      (`SafetyGate.GateIsBypassedIff` gives the exact condition). */
  lemma PendingEntryIsBypassed(broker: Broker)
    ensures var ledger := IntentLedger.Pruned([PENDING_ENTRY]);
            var plan := PlanFor(DEFAULTS, NO_EVIDENCE, FROZEN.positions, true);
            && Frozen(FROZEN) && ledger.intents == [PENDING_ENTRY]
            && !SafetyGate.Evaluate(plan, FROZEN.positions, [], IntentLedger.ListUnresolved(ledger)).canUnlock
            && !Frozen(RunActions(FROZEN, plan.actions, broker))
  {
    hide PlanFor, RunActions, SafetyGate.Evaluate;
    assert CountClearings(NO_EVIDENCE, []) == 0 && UnlockCondition(DEFAULTS, NO_EVIDENCE, FROZEN.positions);
    OnePending();
    SafetyGate.RunIgnoresGate(DEFAULTS, NO_EVIDENCE, FROZEN, broker, [], IntentLedger.Pruned([PENDING_ENTRY]),
                          PENDING_ENTRY);
  }

  lemma OnePending()
    ensures IntentLedger.Pruned([PENDING_ENTRY]).intents == [PENDING_ENTRY]
    ensures IntentLedger.Unresolved(PENDING_ENTRY) && SafetyGate.HoldsEntries(PENDING_ENTRY)
  {
    LedgerLaws.PruneSmall([PENDING_ENTRY]);
  }

  const ONE_ACTION := DEFAULTS.(maxActionsPerRun := 1.0)

  const STUCK_ORDER := Order("AAAUSDT", Buy, New)

  const HELD_AND_PROTECTED := NO_EVIDENCE.(
    account := QUIET_ACCOUNT.(balances := map["BBBUSDT" := 1.0]),
    lists := [OrderList("BBBUSDT", 7, New)],
    orders := [STUCK_ORDER])

  /** A position with an unexpected order, then one whose flag could be cleared. */
  ghost predicate StuckFirst(ps: seq<Position>) {
    ps == [PositionOf(1, "AAAUSDT"), PositionOf(2, "BBBUSDT").(reconcileRequired := true)]
  }

  /** With one action per run, a first position that needs manual review keeps a clearable second one
      waiting for ever (`Starvation.AppliedInSomeRoundIff` gives the exact condition). */
  lemma {:induction false} ReviewStarvesLaterPositions(st: State, broker: Broker, n: nat)
    requires StuckFirst(st.positions)
    ensures Examine(ONE_ACTION, HELD_AND_PROTECTED, st.positions[1]).Clearable?
    ensures Rounds(ONE_ACTION, HELD_AND_PROTECTED, st, broker, n).positions == st.positions
  {
    hide Examine, OneRound, StuckFirst;
    if n > 0 {
      ReviewStarvesLaterPositions(st, broker, n - 1);
      StarvedRound(Rounds(ONE_ACTION, HELD_AND_PROTECTED, st, broker, n - 1), broker);
    }
    ClearableSecond(st.positions);
  }

  lemma ClearableSecond(ps: seq<Position>)
    requires StuckFirst(ps)
    ensures |ps| == 2 && Examine(ONE_ACTION, HELD_AND_PROTECTED, ps[1]).Clearable?
  {
    hide Examine;
    StarvationFindings(ps[0], ps[1]);
  }

  lemma StarvedRound(st: State, broker: Broker)
    requires StuckFirst(st.positions)
    ensures OneRound(ONE_ACTION, HELD_AND_PROTECTED, st, broker).positions == st.positions
  {
    hide Examine, OneRound, PlannedCount, Proposed;
    DistinctKeys(st.positions);
    StarvedPlan(st.positions);
    RoundStarves(ONE_ACTION, HELD_AND_PROTECTED, st, broker);
  }

  lemma DistinctKeys(ps: seq<Position>)
    requires StuckFirst(ps)
    ensures WellFormed(ps)
  {
    assert ps[0].symbol[0] != ps[1].symbol[0];
  }

  lemma StarvationFindings(p: Position, q: Position)
    requires p == PositionOf(1, "AAAUSDT") && q == PositionOf(2, "BBBUSDT").(reconcileRequired := true)
    ensures Examine(ONE_ACTION, HELD_AND_PROTECTED, p).Conflicting?
    ensures Examine(ONE_ACTION, HELD_AND_PROTECTED, q).Clearable?
  {
    var ev := HELD_AND_PROTECTED;
    assert ActiveOrder(STUCK_ORDER, p.symbol) && STUCK_ORDER in ev.orders;
    assert HasUnexpectedSide(ev, p.symbol);
    assert p.symbol != q.symbol by {
      assert p.symbol[0] != q.symbol[0];
    }
    assert ActiveList(ev.lists[0], q.symbol) && ev.lists[0] in ev.lists;
    assert HasLists(ev, q.symbol);
  }

  lemma StarvedPlan(ps: seq<Position>)
    requires StuckFirst(ps)
    ensures var planned := PlannedCount(ONE_ACTION, HELD_AND_PROTECTED, ps);
            CountFixes(Proposed(ONE_ACTION, HELD_AND_PROTECTED, ps)[..planned]) == 0
  {
    var cfg, ev := ONE_ACTION, HELD_AND_PROTECTED;
    hide Examine;
    StarvationFindings(ps[0], ps[1]);
    assert ps[..1] == [ps[0]] && [ps[0]][..0] == [];
    assert Proposed(cfg, ev, [ps[0]]) == Proposed(cfg, ev, []) + ActionsFor(ps[0], Examine(cfg, ev, ps[0]));
    assert Proposed(cfg, ev, ps) == Proposed(cfg, ev, ps[..1]) + ActionsFor(ps[1], Examine(cfg, ev, ps[1]));
    var owed := Proposed(cfg, ev, ps);
    assert MaxActions(cfg) == 1;
    assert owed[..1] == [owed[0]] && [owed[0]][1..] == [];
  }

  /** The option that waives fresh evidence has no effect: it changes no plan, and on evidence that is not
      fresh no plan is eligible, although the check itself would honour the option. */
  lemma FreshnessOptionIsIgnored(cfg: Config, ev: Evidence, ps: seq<Position>, frozen: bool)
    ensures var waived := cfg.(requireFreshStreamOrRest := false);
            && PlanFor(waived, ev, ps, frozen) == PlanFor(cfg.(requireFreshStreamOrRest := true), ev, ps, frozen)
            && (!SufficientlyFresh(None, ev) ==> !PlanFor(waived, ev, ps, frozen).eligible)
    ensures SufficientlyFresh(Some(false), ev)
  {
    hide Examine, PlanFor, FreshEvidence;
    SamePlan(cfg, ev, ps, frozen);
    var waived := cfg.(requireFreshStreamOrRest := false);
    FreshEvidenceIsRequired(waived, ev);
    NoObjections(waived, ev, ps);
    if PlanFor(waived, ev, ps, frozen).eligible {
      EligibleParts(waived, ev, ps, frozen);
    }
  }

  lemma SamePlan(cfg: Config, ev: Evidence, ps: seq<Position>, frozen: bool)
    ensures PlanFor(cfg.(requireFreshStreamOrRest := false), ev, ps, frozen)
            == PlanFor(cfg.(requireFreshStreamOrRest := true), ev, ps, frozen)
  {
    hide Examine, Proposed, Objections, Trust, ReviewNeeded, Conclude;
    var waived, required := cfg.(requireFreshStreamOrRest := false), cfg.(requireFreshStreamOrRest := true);
    SameParts(cfg, ev, ps);
    SameReview(cfg, ev, ps);
    assert MaxActions(waived) == MaxActions(required) && MinConfidence(waived) == MinConfidence(required);
  }

  lemma SameReview(cfg: Config, ev: Evidence, ps: seq<Position>)
    ensures ReviewNeeded(cfg.(requireFreshStreamOrRest := false), ev, ps)
            == ReviewNeeded(cfg.(requireFreshStreamOrRest := true), ev, ps)
  {
    hide Examine, NeedsReview;
    forall p | p in ps
      ensures Examine(cfg.(requireFreshStreamOrRest := false), ev, p)
              == Examine(cfg.(requireFreshStreamOrRest := true), ev, p)
    {
      SameFinding(cfg, ev, p);
    }
  }

  lemma SameFinding(cfg: Config, ev: Evidence, p: Position)
    ensures Examine(cfg.(requireFreshStreamOrRest := false), ev, p)
            == Examine(cfg.(requireFreshStreamOrRest := true), ev, p)
  {
    var waived, required := cfg.(requireFreshStreamOrRest := false), cfg.(requireFreshStreamOrRest := true);
    FreshEvidenceIsRequired(waived, ev);
    FreshEvidenceIsRequired(required, ev);
    hide FreshEvidence;
    assert Problems(waived, ev, p) == Problems(required, ev, p);
    hide Problems, ProtectiveEvidence, OpenBoth;
  }

  lemma {:induction false} SameParts(cfg: Config, ev: Evidence, ps: seq<Position>)
    ensures var waived, required := cfg.(requireFreshStreamOrRest := false), cfg.(requireFreshStreamOrRest := true);
            && Proposed(waived, ev, ps) == Proposed(required, ev, ps)
            && Objections(waived, ev, ps) == Objections(required, ev, ps)
            && Trust(waived, ev, ps) == Trust(required, ev, ps)
  {
    FreshEvidenceIsRequired(cfg.(requireFreshStreamOrRest := false), ev);
    FreshEvidenceIsRequired(cfg.(requireFreshStreamOrRest := true), ev);
    hide Examine, ActionsFor, ReasonsFor, CapFor, FreshEvidence;
    if ps != [] {
      SameParts(cfg, ev, ps[..|ps| - 1]);
      SameFinding(cfg, ev, ps[|ps| - 1]);
    }
  }
}
