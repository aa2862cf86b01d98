/** `evaluateExchangeSafetyUnlock` and `explainExchangeSafetyBlock` of
    src/execution/autoReconcileCoordinator.js, over a plan, the runtime and the intent ledger. */
module SafetyGate {
  import opened Common
  import opened Reconcile
  import opened ReconcileRun
  import opened UnlockEligibility
  import opened UnlockSafety
  import IntentLedger
  import LedgerLaws

  datatype Severity = Critical | OtherSeverity

  datatype PositionIssue = ManualReviewIssue | ReconcileIssue | UnprotectedIssue

  datatype BlockReason =
    | PlanNotEligible
    | FromPlan(reason: Reason)
    | CriticalAlert
    | UnresolvedIntent
    | PositionBlocks(symbol: string, issue: PositionIssue)
    | ExchangeBlocked

  datatype Unlock = Unlock(canUnlock: bool, reasons: seq<BlockReason>, requiresManualReview: bool)

  predicate Blocks(p: Position) { HasBlockingState(p) || !IsProtected(p) }

  predicate HoldsEntries(x: IntentLedger.Intent) { x.kind.Entry? || x.kind.Protection? }

  predicate AnyCritical(alerts: seq<Severity>) { Critical in alerts }

  predicate AnyHolding(intents: seq<IntentLedger.Intent>) { exists x | x in intents :: HoldsEntries(x) }

  function IssueOf(p: Position): PositionIssue {
    if p.manualReviewRequired then ManualReviewIssue
    else if p.reconcileRequired then ReconcileIssue
    else UnprotectedIssue
  }

  function PositionReasons(ps: seq<Position>): seq<BlockReason> {
    if ps == [] then []
    else if Blocks(ps[0]) then [PositionBlocks(ps[0].symbol, IssueOf(ps[0]))] + PositionReasons(ps[1..])
    else PositionReasons(ps[1..])
  }

  function PlanReasons(reasons: seq<Reason>): seq<BlockReason> {
    seq(|reasons|, i requires 0 <= i < |reasons| => FromPlan(reasons[i]))
  }

  function Evaluate(plan: Plan, ps: seq<Position>, alerts: seq<Severity>, intents: seq<IntentLedger.Intent>): Unlock {
    var reasons :=
      (if plan.eligible then [] else [PlanNotEligible])
      + PlanReasons(plan.reasons)
      + (if AnyCritical(alerts) then [CriticalAlert] else [])
      + (if AnyHolding(intents) then [UnresolvedIntent] else [])
      + PositionReasons(ps);
    var review := plan.manualReview || AnyCritical(alerts) || exists p | p in ps :: Blocks(p) && p.manualReviewRequired;
    Unlock(reasons == [] && !review, Dedup(reasons), review)
  }

  /** The flags of the exchange summary that `explainExchangeSafetyBlock` reads beside the runtime's own. */
  datatype Summary = Summary(frozen: bool, hasReasons: bool, manualReviewRequired: bool, reconcileRequired: bool)

  datatype NextAction =
    | EntriesCanResume | ConfirmStaleBlocker | ResolveIntents | ResolveAlerts | RestoreProtection | ReconcileOrReview

  datatype Explanation = Explanation(
    entryBlocked: bool, reasons: seq<BlockReason>, staleBlockerSuspected: bool, nextAction: NextAction)

  function Explain(st: State, summary: Summary, alerts: seq<Severity>, intents: seq<IntentLedger.Intent>): Explanation {
    var exchangeBlocked := Frozen(st) || summary.frozen;
    var reasons := Dedup(
                     (if exchangeBlocked then [ExchangeBlocked] else [])
                     + (if AnyCritical(alerts) then [CriticalAlert] else [])
                     + (if AnyHolding(intents) then [UnresolvedIntent] else [])
                     + PositionReasons(st.positions));
    var anyBlocks := exists p | p in st.positions :: Blocks(p);
    var stale := exchangeBlocked && |reasons| == 1 && !anyBlocks && !AnyCritical(alerts) && !AnyHolding(intents)
                 && !summary.hasReasons && !summary.manualReviewRequired && !summary.reconcileRequired;
    Explanation(
      reasons != [], reasons, stale,
      if reasons == [] then EntriesCanResume
      else if stale then ConfirmStaleBlocker
      else if AnyHolding(intents) then ResolveIntents
      else if AnyCritical(alerts) then ResolveAlerts
      else if exists p | p in st.positions :: !IsProtected(p) && !p.reconcileRequired && !p.manualReviewRequired
      then RestoreProtection
      else ReconcileOrReview)
  }

  /** Nothing outside the plan stands in the way of entries. */
  ghost predicate Clear(ps: seq<Position>, alerts: seq<Severity>, intents: seq<IntentLedger.Intent>) {
    && Critical !in alerts
    && (forall x :: x in intents ==> !HoldsEntries(x))
    && (forall p :: p in ps ==> !HasBlockingState(p) && IsProtected(p))
  }

  lemma {:induction false} NoPositionReasons(ps: seq<Position>)
    ensures PositionReasons(ps) == [] <==> forall p :: p in ps ==> !Blocks(p)
    ensures forall r :: r in PositionReasons(ps) ==> r.PositionBlocks?
  {
    if ps != [] {
      NoPositionReasons(ps[1..]);
    }
  }

  lemma PlanFlags(cfg: Config, ev: Evidence, ps: seq<Position>, frozen: bool)
    ensures var plan := PlanFor(cfg, ev, ps, frozen);
            plan.eligible ==> plan.reasons == [] && !plan.manualReview
  {
    hide Objections, Proposed, Trust, ReviewNeeded, MinConfidence, MaxActions, Covered, UnlockKind, StatusOf;
  }

  /** For every plan, whoever made it: the gate opens exactly when the plan is eligible, objects to nothing
      and asks for no review, and nothing else stands in the way. */
  lemma CanUnlockIff(plan: Plan, ps: seq<Position>, alerts: seq<Severity>, intents: seq<IntentLedger.Intent>)
    ensures var verdict, clear := Evaluate(plan, ps, alerts, intents), Clear(ps, alerts, intents);
            && (verdict.canUnlock <==> plan.eligible && plan.reasons == [] && !plan.manualReview && clear)
            && (verdict.reasons == [] <==> plan.eligible && plan.reasons == [] && clear)
  {
    hide HasBlockingState, IsProtected, HoldsEntries;
    NoPositionReasons(ps);
    DedupEmpty(
      (if plan.eligible then [] else [PlanNotEligible]) + PlanReasons(plan.reasons)
      + (if AnyCritical(alerts) then [CriticalAlert] else [])
      + (if AnyHolding(intents) then [UnresolvedIntent] else []) + PositionReasons(ps));
  }

  /** For the planner's plan eligibility says it all. */
  lemma PlannedCanUnlockIff(cfg: Config, ev: Evidence, planned: seq<Position>, frozen: bool, ps: seq<Position>,
                            alerts: seq<Severity>, intents: seq<IntentLedger.Intent>)
    ensures var plan := PlanFor(cfg, ev, planned, frozen);
            && (Evaluate(plan, ps, alerts, intents).canUnlock <==> plan.eligible && Clear(ps, alerts, intents))
            && (Evaluate(plan, ps, alerts, intents).reasons == [] <==> plan.eligible && Clear(ps, alerts, intents))
  {
    hide PlanFor, Evaluate, Clear;
    PlanFlags(cfg, ev, planned, frozen);
    CanUnlockIff(PlanFor(cfg, ev, planned, frozen), ps, alerts, intents);
  }

  lemma ExplanationIff(st: State, summary: Summary, alerts: seq<Severity>, intents: seq<IntentLedger.Intent>)
    ensures var reasons := Explain(st, summary, alerts, intents).reasons;
            && (Clear(st.positions, alerts, intents) <==> forall r :: r in reasons ==> r == ExchangeBlocked)
            && (ExchangeBlocked in reasons <==> Frozen(st) || summary.frozen)
  {
    hide HasBlockingState, IsProtected, HoldsEntries, Frozen;
    NoPositionReasons(st.positions);
    var all := (if Frozen(st) || summary.frozen then [ExchangeBlocked] else [])
               + (if AnyCritical(alerts) then [CriticalAlert] else [])
               + (if AnyHolding(intents) then [UnresolvedIntent] else [])
               + PositionReasons(st.positions);
    assert Explain(st, summary, alerts, intents).reasons == Dedup(all);
    DedupKeepsElements(all);
    hide Explain, Dedup, PositionReasons;
    if AnyCritical(alerts) {
      assert CriticalAlert in all;
    }
    if AnyHolding(intents) {
      assert UnresolvedIntent in all;
    }
    if PositionReasons(st.positions) != [] {
      assert PositionReasons(st.positions)[0] in all;
    }
  }

  /** When a blocker is suspected to be stale, and what the operator is told to do first. */
  lemma AdviceIff(st: State, summary: Summary, alerts: seq<Severity>, intents: seq<IntentLedger.Intent>)
    ensures var e := Explain(st, summary, alerts, intents);
            var clear := Clear(st.positions, alerts, intents);
            && (e.entryBlocked <==> Frozen(st) || summary.frozen || !clear)
            && (e.staleBlockerSuspected <==>
                (Frozen(st) || summary.frozen) && clear
                && !summary.hasReasons && !summary.manualReviewRequired && !summary.reconcileRequired)
            && (e.nextAction.EntriesCanResume? <==> !e.entryBlocked)
            && (e.nextAction.ConfirmStaleBlocker? <==> e.staleBlockerSuspected)
            && (e.nextAction.ResolveIntents? <==> AnyHolding(intents))
            && (e.nextAction.ResolveAlerts? <==> AnyCritical(alerts) && !AnyHolding(intents))
            && (e.nextAction.RestoreProtection? <==>
                !AnyCritical(alerts) && !AnyHolding(intents)
                && exists p :: p in st.positions && !IsProtected(p) && !p.reconcileRequired && !p.manualReviewRequired)
            && (e.nextAction.ReconcileOrReview? <==>
                e.entryBlocked && !e.staleBlockerSuspected && !AnyCritical(alerts) && !AnyHolding(intents)
                && forall p :: p in st.positions && !IsProtected(p) ==> p.reconcileRequired || p.manualReviewRequired)
  {
    hide HasBlockingState, IsProtected, HoldsEntries, Frozen;
    NoPositionReasons(st.positions);
    ExplanationIff(st, summary, alerts, intents);
    if Frozen(st) || summary.frozen {
      if Clear(st.positions, alerts, intents) {
        assert [ExchangeBlocked] + [] + [] + [] == [ExchangeBlocked] && [ExchangeBlocked][..0] == [];
        assert Dedup([ExchangeBlocked]) == [ExchangeBlocked];
      }
    }
    AdviceWhenHeld(st, summary, alerts, intents);
  }

  lemma AdviceWhenHeld(st: State, summary: Summary, alerts: seq<Severity>, intents: seq<IntentLedger.Intent>)
    ensures AnyHolding(intents) || AnyCritical(alerts) ==> Explain(st, summary, alerts, intents).reasons != []
  {
    hide HasBlockingState, IsProtected, HoldsEntries, Frozen, PositionReasons;
    ExplanationIff(st, summary, alerts, intents);
  }

  /** The two functions agree, for every plan: when the gate opens, the explanation on the same inputs
      reports nothing but the exchange block itself; and when it reports nothing else, only the plan can
      keep it shut. */
  lemma GateAgreesWithExplanation(plan: Plan, st: State, summary: Summary, alerts: seq<Severity>,
                                  intents: seq<IntentLedger.Intent>)
    ensures Evaluate(plan, st.positions, alerts, intents).canUnlock <==>
            && plan.eligible && plan.reasons == [] && !plan.manualReview
            && forall r :: r in Explain(st, summary, alerts, intents).reasons ==> r == ExchangeBlocked
  {
    hide Evaluate, Explain, Clear, Frozen;
    CanUnlockIff(plan, st.positions, alerts, intents);
    ExplanationIff(st, summary, alerts, intents);
  }

  lemma PlannedGateAgrees(cfg: Config, ev: Evidence, st: State, summary: Summary,
                          alerts: seq<Severity>, intents: seq<IntentLedger.Intent>)
    ensures var plan := PlanFor(cfg, ev, st.positions, Frozen(st));
            Evaluate(plan, st.positions, alerts, intents).canUnlock <==>
            plan.eligible && forall r :: r in Explain(st, summary, alerts, intents).reasons ==> r == ExchangeBlocked
  {
    hide PlanFor, Evaluate, Explain, Frozen;
    PlanFlags(cfg, ev, st.positions, Frozen(st));
    GateAgreesWithExplanation(PlanFor(cfg, ev, st.positions, Frozen(st)), st, summary, alerts, intents);
  }

  /** While an entry or protection intent is unresolved the gate stays shut, whatever the plan. */
  lemma UnresolvedIntentHoldsGate(plan: Plan, ps: seq<Position>, alerts: seq<Severity>,
                                  ledger: IntentLedger.State, x: IntentLedger.Intent)
    requires x in ledger.intents && IntentLedger.Unresolved(x) && HoldsEntries(x)
    ensures !Evaluate(plan, ps, alerts, IntentLedger.ListUnresolved(ledger)).canUnlock
    ensures UnresolvedIntent in Evaluate(plan, ps, alerts, IntentLedger.ListUnresolved(ledger)).reasons
  {
    var intents := IntentLedger.ListUnresolved(ledger);
    LedgerLaws.SortFacts(ledger.intents);
    LedgerLaws.OnlyUnresolvedMembers(IntentLedger.SortRecent(ledger.intents));
    assert x in intents && AnyHolding(intents);
    EvaluateReports(plan, ps, alerts, intents);
  }

  lemma EvaluateReports(plan: Plan, ps: seq<Position>, alerts: seq<Severity>, intents: seq<IntentLedger.Intent>)
    requires AnyHolding(intents)
    ensures !Evaluate(plan, ps, alerts, intents).canUnlock
    ensures UnresolvedIntent in Evaluate(plan, ps, alerts, intents).reasons
  {
    hide AnyHolding, AnyCritical, Blocks;
    var all := (if plan.eligible then [] else [PlanNotEligible]) + PlanReasons(plan.reasons)
               + (if AnyCritical(alerts) then [CriticalAlert] else [])
               + (if AnyHolding(intents) then [UnresolvedIntent] else []) + PositionReasons(ps);
    assert UnresolvedIntent in all;
    DedupKeepsElements(all);
  }

  /** Crash recovery and the gate agree: on any ledger of at most 160 intents the gate decides after
      recovery what it decided before, with the same reasons. */
  lemma RecoveryKeepsGate(plan: Plan, ps: seq<Position>, alerts: seq<Severity>, ledger: IntentLedger.State,
                          reason: string, at: int, clock: nat -> int)
    requires IntentLedger.DistinctIds(ledger.intents) && |ledger.intents| <= IntentLedger.LEDGER_LIMIT
    ensures var before := IntentLedger.ListUnresolved(ledger);
            var after := IntentLedger.ListUnresolved(IntentLedger.Recovered(ledger, reason, at, clock));
            && (AnyHolding(after) <==> AnyHolding(before))
            && Evaluate(plan, ps, alerts, after) == Evaluate(plan, ps, alerts, before)
  {
    hide IntentLedger.Recovered, IntentLedger.DistinctIds, LedgerLaws.Valid, LedgerLaws.OnePerKey;
    hide AnyHolding, HoldsEntries, Blocks;
    var recovered := IntentLedger.Recovered(ledger, reason, at, clock);
    LedgerLaws.RecoveryPointwise(ledger, reason, at, clock);
    HeldBySome(ledger);
    HeldBySome(recovered);
    if AnyHolding(IntentLedger.ListUnresolved(ledger)) {
      var x :| x in ledger.intents && IntentLedger.Unresolved(x) && HoldsEntries(x);
      var k :| 0 <= k < |ledger.intents| && ledger.intents[k] == x;
      RecoveredHolds(x, recovered.intents[k], reason, at);
      assert recovered.intents[k] in recovered.intents;
    }
    if AnyHolding(IntentLedger.ListUnresolved(recovered)) {
      var y :| y in recovered.intents && IntentLedger.Unresolved(y) && HoldsEntries(y);
      var k :| 0 <= k < |recovered.intents| && recovered.intents[k] == y;
      RecoveredHolds(ledger.intents[k], y, reason, at);
      assert ledger.intents[k] in ledger.intents;
    }
  }

  lemma RecoveredHolds(x: IntentLedger.Intent, y: IntentLedger.Intent, reason: string, at: int)
    requires LedgerLaws.RecoveredFrom(x, y, reason, at)
    ensures HoldsEntries(y) <==> HoldsEntries(x)
    ensures IntentLedger.Unresolved(y) <==> IntentLedger.Unresolved(x)
  {
  }

  /** The listed intents hold entries exactly when some unresolved intent of the ledger does. */
  lemma HeldBySome(ledger: IntentLedger.State)
    ensures AnyHolding(IntentLedger.ListUnresolved(ledger)) <==>
            exists x :: x in ledger.intents && IntentLedger.Unresolved(x) && HoldsEntries(x)
  {
    LedgerLaws.SortFacts(ledger.intents);
    LedgerLaws.OnlyUnresolvedMembers(IntentLedger.SortRecent(ledger.intents));
  }

  /** In particular it stays shut while an entry or protection intent is unresolved. */
  lemma RecoveryKeepsGateShut(plan: Plan, ps: seq<Position>, alerts: seq<Severity>,
                              ledger: IntentLedger.State, x: IntentLedger.Intent,
                              reason: string, at: int, clock: nat -> int)
    requires IntentLedger.DistinctIds(ledger.intents) && |ledger.intents| <= IntentLedger.LEDGER_LIMIT
    requires x in ledger.intents && IntentLedger.Unresolved(x) && HoldsEntries(x)
    ensures var after := IntentLedger.Recovered(ledger, reason, at, clock);
            !Evaluate(plan, ps, alerts, IntentLedger.ListUnresolved(after)).canUnlock
  {
    hide Evaluate, IntentLedger.Recovered, IntentLedger.DistinctIds;
    RecoveryKeepsGate(plan, ps, alerts, ledger, reason, at, clock);
    UnresolvedIntentHoldsGate(plan, ps, alerts, ledger, x);
  }

  /** Running a plan does not consult the gate: the run lifts the freeze although the gate refuses exactly
      when the evidence supports the unlock and an alert, an intent or a position outside the plan does not. */
  lemma GateIsBypassedIff(cfg: Config, ev: Evidence, st: State, broker: Broker, alerts: seq<Severity>,
                          intents: seq<IntentLedger.Intent>)
    requires WellFormed(st.positions) && Frozen(st)
    ensures var plan := PlanFor(cfg, ev, st.positions, true);
            !Frozen(RunActions(st, plan.actions, broker)) && !Evaluate(plan, st.positions, alerts, intents).canUnlock
            <==> UnlockCondition(cfg, ev, st.positions) && !Clear(st.positions, alerts, intents)
  {
    hide PlanFor, Evaluate, WellFormed, UnlockCondition, Clear, Frozen, RunActions;
    EligibleIffSafe(cfg, ev, st.positions, true);
    LiftsIffEligible(cfg, ev, st, broker);
    PlannedCanUnlockIff(cfg, ev, st.positions, true, st.positions, alerts, intents);
  }

  /** In particular while an unresolved entry intent makes the gate refuse. */
  lemma RunIgnoresGate(cfg: Config, ev: Evidence, st: State, broker: Broker, alerts: seq<Severity>,
                       ledger: IntentLedger.State, x: IntentLedger.Intent)
    requires WellFormed(st.positions) && Frozen(st) && UnlockCondition(cfg, ev, st.positions)
    requires x in ledger.intents && IntentLedger.Unresolved(x) && HoldsEntries(x)
    ensures var plan := PlanFor(cfg, ev, st.positions, true);
            && !Evaluate(plan, st.positions, alerts, IntentLedger.ListUnresolved(ledger)).canUnlock
            && !Frozen(RunActions(st, plan.actions, broker))
  {
    hide PlanFor, Evaluate, WellFormed, UnlockCondition;
    UnresolvedIntentHoldsGate(PlanFor(cfg, ev, st.positions, true), st.positions, alerts, ledger, x);
    EligibleIffSafe(cfg, ev, st.positions, true);
    LiftsIffEligible(cfg, ev, st, broker);
  }
}
