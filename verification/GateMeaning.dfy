/** The unlock gate, said of the intents in the ledger and of the fields of the positions. */
module GateMeaning {
  import opened Common
  import opened Reconcile
  import opened ReconcileRun
  import opened SafetyGate
  import IntentMeaning

  /** An entry or protection intent without an outcome. */
  ghost predicate Holding(x: IntentLedger.Intent) {
    && x.kind in {IntentLedger.Entry, IntentLedger.Protection}
    && x.status in {IntentLedger.Pending, IntentLedger.Submitted, IntentLedger.Ambiguous}
  }

  ghost predicate Marked(p: Position) {
    p.reconcileRequired || p.manualReviewRequired || p.lifecycle in {ManualReviewState, ReconcileRequiredState}
  }

  /** Held, with no order list of its own, and not left alone on purpose. */
  ghost predicate Exposed(p: Position) {
    && p.quantity > 0.0 && p.protectiveListId == 0 && p.ocoListId == 0
    && p.lifecycle != IntentionallyUnmanaged && !p.intentionalUnmanaged
  }

  lemma BlocksIff(p: Position)
    ensures Blocks(p) <==> Marked(p) || Exposed(p)
    ensures HasBlockingState(p) <==> Marked(p)
    ensures IsProtected(p) <==> !Exposed(p)
  {
  }

  lemma HoldingIff(ledger: IntentLedger.State)
    ensures AnyHolding(IntentLedger.ListUnresolved(ledger)) <==> exists x :: x in ledger.intents && Holding(x)
  {
    hide IntentLedger.ListUnresolved;
    var listed := IntentLedger.ListUnresolved(ledger);
    forall x
      ensures x in listed <==> x in ledger.intents && IntentMeaning.Awaiting(x)
    {
      IntentMeaning.ListedIff(ledger, x);
    }
    if x :| x in ledger.intents && Holding(x) {
      assert x in listed && HoldsEntries(x);
    }
  }

  /** The gate opens for a plan exactly when the plan is eligible, objects to nothing and asks for no review, no
      alert is critical, no entry or protection intent awaits its outcome, and no position is marked or exposed. */
  lemma OpensIff(plan: Plan, ps: seq<Position>, alerts: seq<Severity>, ledger: IntentLedger.State)
    ensures Evaluate(plan, ps, alerts, IntentLedger.ListUnresolved(ledger)).canUnlock <==>
            && plan.eligible && plan.reasons == [] && !plan.manualReview && Critical !in alerts
            && (forall x :: x in ledger.intents ==> !Holding(x))
            && forall p :: p in ps ==> !Marked(p) && !Exposed(p)
  {
    hide Evaluate, Holding, Marked, Exposed, HasBlockingState, IsProtected, IntentLedger.ListUnresolved, HoldsEntries;
    CanUnlockIff(plan, ps, alerts, IntentLedger.ListUnresolved(ledger));
    HoldingIff(ledger);
    forall p | p in ps
      ensures HasBlockingState(p) <==> Marked(p)
      ensures IsProtected(p) <==> !Exposed(p)
    {
      BlocksIff(p);
    }
  }

  lemma {:induction false} PositionReasonsIff(ps: seq<Position>, r: BlockReason)
    ensures r in PositionReasons(ps) <==>
            exists p :: p in ps && (Marked(p) || Exposed(p)) && r == PositionBlocks(p.symbol, IssueOf(p))
  {
    hide Blocks, Marked, Exposed, IssueOf;
    if ps != [] {
      PositionReasonsIff(ps[1..], r);
      BlocksIff(ps[0]);
      assert ps == [ps[0]] + ps[1..];
    }
  }

  lemma IssueMeaning(p: Position)
    ensures IssueOf(p) == ManualReviewIssue <==> p.manualReviewRequired
    ensures IssueOf(p) == ReconcileIssue <==> p.reconcileRequired && !p.manualReviewRequired
  {
  }

  /** Each reason of the verdict is there exactly for its cause. */
  lemma ReasonsIff(plan: Plan, ps: seq<Position>, alerts: seq<Severity>, ledger: IntentLedger.State)
    ensures var verdict := Evaluate(plan, ps, alerts, IntentLedger.ListUnresolved(ledger));
            && (PlanNotEligible in verdict.reasons <==> !plan.eligible)
            && (forall r :: FromPlan(r) in verdict.reasons <==> r in plan.reasons)
            && (CriticalAlert in verdict.reasons <==> Critical in alerts)
            && (UnresolvedIntent in verdict.reasons <==> exists x :: x in ledger.intents && Holding(x))
            && (forall symbol, issue :: PositionBlocks(symbol, issue) in verdict.reasons <==>
                  exists p :: p in ps && (Marked(p) || Exposed(p)) && p.symbol == symbol && IssueOf(p) == issue)
            && (verdict.requiresManualReview <==>
                plan.manualReview || Critical in alerts || exists p :: p in ps && p.manualReviewRequired)
  {
    hide Holding, Marked, Exposed, IntentLedger.ListUnresolved, HoldsEntries, AnyHolding, Dedup, PositionReasons;
    hide Blocks, IssueOf;
    HoldingIff(ledger);
    var intents := IntentLedger.ListUnresolved(ledger);
    var all := (if plan.eligible then [] else [PlanNotEligible]) + PlanReasons(plan.reasons)
               + (if AnyCritical(alerts) then [CriticalAlert] else [])
               + (if AnyHolding(intents) then [UnresolvedIntent] else []) + PositionReasons(ps);
    assert Evaluate(plan, ps, alerts, intents).reasons == Dedup(all);
    DedupKeepsElements(all);
    Parts(plan, ps, alerts, intents, all);
    forall p | p in ps && p.manualReviewRequired
      ensures Blocks(p)
    {
      ReviewBlocks(p);
    }
  }

  lemma ReviewBlocks(p: Position)
    requires p.manualReviewRequired
    ensures Blocks(p)
  {
  }

  lemma Parts(plan: Plan, ps: seq<Position>, alerts: seq<Severity>, intents: seq<IntentLedger.Intent>,
              all: seq<BlockReason>)
    requires all == (if plan.eligible then [] else [PlanNotEligible]) + PlanReasons(plan.reasons)
                    + (if AnyCritical(alerts) then [CriticalAlert] else [])
                    + (if AnyHolding(intents) then [UnresolvedIntent] else []) + PositionReasons(ps)
    ensures PlanNotEligible in all <==> !plan.eligible
    ensures forall r :: FromPlan(r) in all <==> r in plan.reasons
    ensures CriticalAlert in all <==> Critical in alerts
    ensures UnresolvedIntent in all <==> AnyHolding(intents)
    ensures forall symbol, issue :: PositionBlocks(symbol, issue) in all <==>
              exists p :: p in ps && (Marked(p) || Exposed(p)) && p.symbol == symbol && IssueOf(p) == issue
  {
    hide AnyHolding, PositionReasons, Marked, Exposed, IssueOf;
    forall r {
      PositionReasonsIff(ps, r);
    }
    forall r
      ensures FromPlan(r) in PlanReasons(plan.reasons) <==> r in plan.reasons
    {
      if r in plan.reasons {
        var i :| 0 <= i < |plan.reasons| && plan.reasons[i] == r;
        assert PlanReasons(plan.reasons)[i] == FromPlan(r);
      }
    }
  }

  /** Each reason of the explanation is there exactly for its cause, and entries are blocked exactly when there is
      one. */
  lemma ExplainedIff(st: State, summary: Summary, alerts: seq<Severity>, ledger: IntentLedger.State)
    ensures var e := Explain(st, summary, alerts, IntentLedger.ListUnresolved(ledger));
            && (ExchangeBlocked in e.reasons <==>
                st.truthFreeze || st.safetyFreeze || st.globalFreeze || st.status == Blocked || summary.frozen)
            && (CriticalAlert in e.reasons <==> Critical in alerts)
            && (UnresolvedIntent in e.reasons <==> exists x :: x in ledger.intents && Holding(x))
            && (forall symbol, issue :: PositionBlocks(symbol, issue) in e.reasons <==>
                  exists p :: p in st.positions && (Marked(p) || Exposed(p))
                      && p.symbol == symbol && IssueOf(p) == issue)
            && (e.entryBlocked <==> e.reasons != [])
  {
    hide Holding, Marked, Exposed, IntentLedger.ListUnresolved, HoldsEntries, AnyHolding, Dedup, PositionReasons;
    hide Blocks, IssueOf;
    HoldingIff(ledger);
    var intents := IntentLedger.ListUnresolved(ledger);
    var all := (if Frozen(st) || summary.frozen then [ExchangeBlocked] else [])
               + (if AnyCritical(alerts) then [CriticalAlert] else [])
               + (if AnyHolding(intents) then [UnresolvedIntent] else []) + PositionReasons(st.positions);
    assert Explain(st, summary, alerts, intents).reasons == Dedup(all);
    DedupKeepsElements(all);
    forall r {
      PositionReasonsIff(st.positions, r);
    }
  }
}
