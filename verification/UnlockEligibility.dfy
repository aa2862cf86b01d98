/** When a plan of the reconcile coordinator allows entries to resume, stated about the evidence. */
module UnlockEligibility {
  import opened Common
  import opened Reconcile

  /** What the evidence must say about one position for the unlock to be allowed. */
  ghost predicate SafeAt(cfg: Config, ev: Evidence, p: Position) {
    if p.symbol == "" then !HasBlockingState(p)
    else
      && !ContradictoryTrade(ev, p.symbol)
      && !HasPartialFill(ev, p.symbol)
      && !HasUnexpectedSide(ev, p.symbol)
      && (OpenBoth(ev, p) ==> WithinTolerance(cfg, ev, p) && ProtectiveEvidence(ev, p))
      && (HasBlockingState(p) ==> p.reconcileRequired && OpenBoth(ev, p))
      && !(cfg.allowFlatClose && LocalOpen(ev, p) && !ExchangeOpen(ev, p) && !HasOrders(ev, p.symbol)
           && !HasLists(ev, p.symbol) && RecentSell(ev, p.symbol))
  }

  predicate NeedsClearing(ev: Evidence, p: Position) {
    p.symbol != "" && p.reconcileRequired && OpenBoth(ev, p)
  }

  function CountClearings(ev: Evidence, ps: seq<Position>): nat {
    if ps == [] then 0
    else CountClearings(ev, ps[..|ps| - 1]) + (if NeedsClearing(ev, ps[|ps| - 1]) then 1 else 0)
  }

  /** The unlock condition, with no reference to the plan. What counts as fresh is `SufficientlyFresh` with
      no option set, whatever the configuration says (`FreshEvidenceIsRequired`). */
  ghost predicate UnlockCondition(cfg: Config, ev: Evidence, ps: seq<Position>) {
    && Enabled(cfg)
    && FreshEvidence(cfg, ev)
    && !StreamConflict(ev)
    && MinConfidence(cfg) <= BASE_CONFIDENCE
    && (forall p :: p in ps ==> SafeAt(cfg, ev, p))
    && CountClearings(ev, ps) <= MaxActions(cfg)
  }

  lemma FindingMeaning(cfg: Config, ev: Evidence, p: Position)
    requires FreshEvidence(cfg, ev)
    ensures var f := Examine(cfg, ev, p);
            && (SafeAt(cfg, ev, p) <==> f.Quiet? || f.Clearable? || (f.Skipped? && !HasBlockingState(p)))
            && (SafeAt(cfg, ev, p) ==> (f.Clearable? <==> NeedsClearing(ev, p)))
            && (f.Quiet? ==> !HasBlockingState(p))
  {
  }

  predicate Unobjectionable(f: Finding) { f.Skipped? || f.Clearable? || f.Flat? || f.Rebuildable? || f.Quiet? }

  lemma FindingEffects(cfg: Config, ev: Evidence, p: Position)
    ensures var f := Examine(cfg, ev, p);
            && (ReasonsFor(p, f) == [] <==> Unobjectionable(f))
            && (Unobjectionable(f) ==> CapFor(f) == 1.0 && !NeedsReview(f))
            && |ActionsFor(p, f)| <= 1
            && (forall a :: a in ActionsFor(p, f) ==> a.positionId == p.id && a.symbol == p.symbol && p.symbol != "")
            && (f.Flat? || f.Rebuildable? ==> exists a :: a in ActionsFor(p, f) && !UnlockKind(a))
  {
    var f := Examine(cfg, ev, p);
    if f.Flat? || f.Rebuildable? {
      assert !UnlockKind(ActionsFor(p, f)[0]);
    }
  }

  /** No objection was raised exactly when the evidence is fresh and consistent and no position objects;
      the confidence is then the full one and nobody asked for a review. */
  lemma {:induction false} NoObjections(cfg: Config, ev: Evidence, ps: seq<Position>)
    ensures Objections(cfg, ev, ps) == [] <==>
            FreshEvidence(cfg, ev) && !StreamConflict(ev)
            && forall p :: p in ps ==> Unobjectionable(Examine(cfg, ev, p))
    ensures Objections(cfg, ev, ps) == [] ==>
              Trust(cfg, ev, ps) == BASE_CONFIDENCE && !ReviewNeeded(cfg, ev, ps)
    ensures Trust(cfg, ev, ps) <= BASE_CONFIDENCE
  {
    hide Examine, ActionsFor, ReasonsFor, CapFor, NeedsReview, Unobjectionable;
    if ps != [] {
      var n := |ps| - 1;
      NoObjections(cfg, ev, ps[..n]);
      FindingEffects(cfg, ev, ps[n]);
      assert ps == ps[..n] + [ps[n]];
      assert ps[..n + 1] == ps;
      OneMorePosition(cfg, ev, ps, n);
    }
  }

  lemma {:induction false} ProposedMembers(cfg: Config, ev: Evidence, ps: seq<Position>)
    ensures forall a :: a in Proposed(cfg, ev, ps) <==>
                        exists p :: p in ps && a in ActionsFor(p, Examine(cfg, ev, p))
  {
    if ps != [] {
      ProposedMembers(cfg, ev, ps[..|ps| - 1]);
      assert ps == ps[..|ps| - 1] + [ps[|ps| - 1]];
    }
  }

  lemma {:induction false} ProposedClearings(cfg: Config, ev: Evidence, ps: seq<Position>)
    requires FreshEvidence(cfg, ev)
    requires forall p :: p in ps ==> SafeAt(cfg, ev, p)
    ensures |Proposed(cfg, ev, ps)| == CountClearings(ev, ps)
    ensures forall a :: a in Proposed(cfg, ev, ps) ==> a.kind.ClearLocalFlag?
  {
    hide Examine, SafeAt, NeedsClearing, FreshEvidence;
    if ps != [] {
      var n := |ps| - 1;
      ProposedClearings(cfg, ev, ps[..n]);
      assert ps[n] in ps;
      FindingMeaning(cfg, ev, ps[n]);
    }
  }

  lemma SafePlanIsEligible(cfg: Config, ev: Evidence, ps: seq<Position>, frozen: bool)
    requires WellFormed(ps)
    requires UnlockCondition(cfg, ev, ps)
    ensures PlanFor(cfg, ev, ps, frozen).eligible
  {
    hide Examine, SafeAt, Proposed, Objections, ReasonsFor, FreshEvidence, StreamConflict;
    ProposedClearings(cfg, ev, ps);
    var proposed := Proposed(cfg, ev, ps);
    forall p | p in ps
      ensures Unobjectionable(Examine(cfg, ev, p)) && Covered(p, proposed)
    {
      FindingMeaning(cfg, ev, p);
      ProposedMembers(cfg, ev, ps);
      var f := Examine(cfg, ev, p);
      if f.Clearable? {
        assert ActionsFor(p, f)[0] in ActionsFor(p, f);
      }
    }
    NoObjections(cfg, ev, ps);
  }

  /** What eligibility says about the accumulated parts of the plan. */
  lemma EligibleParts(cfg: Config, ev: Evidence, ps: seq<Position>, frozen: bool)
    requires PlanFor(cfg, ev, ps, frozen).eligible
    ensures Enabled(cfg)
    ensures Objections(cfg, ev, ps) == []
    ensures MinConfidence(cfg) <= Trust(cfg, ev, ps)
    ensures |Proposed(cfg, ev, ps)| <= MaxActions(cfg)
    ensures forall a :: a in Proposed(cfg, ev, ps) ==> UnlockKind(a)
    ensures forall p :: p in ps ==> Covered(p, Proposed(cfg, ev, ps))
  {
    hide Objections, Proposed, Trust, ReviewNeeded, MinConfidence, MaxActions, Covered, UnlockKind, StatusOf, Dedup;
  }

  lemma EligiblePlanIsSafe(cfg: Config, ev: Evidence, ps: seq<Position>, frozen: bool)
    requires WellFormed(ps)
    requires PlanFor(cfg, ev, ps, frozen).eligible
    ensures UnlockCondition(cfg, ev, ps)
  {
    hide Examine, ActionsFor, PlanFor, Proposed, SafeAt, MaxActions, HasBlockingState, UnlockKind, Unobjectionable;
    EligibleParts(cfg, ev, ps, frozen);
    NoObjections(cfg, ev, ps);
    ProposedMembers(cfg, ev, ps);
    var proposed := Proposed(cfg, ev, ps);
    forall p | p in ps
      ensures SafeAt(cfg, ev, p)
    {
      SafeIfCovered(cfg, ev, ps, p);
    }
    ProposedClearings(cfg, ev, ps);
  }

  lemma SafeIfCovered(cfg: Config, ev: Evidence, ps: seq<Position>, p: Position)
    requires WellFormed(ps) && p in ps
    requires FreshEvidence(cfg, ev)
    requires Unobjectionable(Examine(cfg, ev, p))
    requires Covered(p, Proposed(cfg, ev, ps))
    requires forall a :: a in Proposed(cfg, ev, ps) ==> UnlockKind(a)
    ensures SafeAt(cfg, ev, p)
  {
    hide Examine, ActionsFor, Proposed, SafeAt, HasBlockingState, UnlockKind;
    FindingMeaning(cfg, ev, p);
    FindingEffects(cfg, ev, p);
    ProposedMembers(cfg, ev, ps);
    var f := Examine(cfg, ev, p);
    if f.Skipped? && HasBlockingState(p) {
      var a :| a in Proposed(cfg, ev, ps) && a.kind.ClearLocalFlag? && a.positionId == p.id && p.id != 0;
      var q :| q in ps && a in ActionsFor(q, Examine(cfg, ev, q));
      FindingEffects(cfg, ev, q);
      assert q == p;
      SkippedHasNoActions(cfg, ev, p);
    }
  }

  lemma SkippedHasNoActions(cfg: Config, ev: Evidence, p: Position)
    ensures Examine(cfg, ev, p).Skipped? ==> ActionsFor(p, Examine(cfg, ev, p)) == []
  {
  }

  /** Unlock safety for one plan: a plan allows the unlock exactly when every condition holds. */
  lemma EligibleIffSafe(cfg: Config, ev: Evidence, ps: seq<Position>, frozen: bool)
    requires WellFormed(ps)
    ensures PlanFor(cfg, ev, ps, frozen).eligible <==> UnlockCondition(cfg, ev, ps)
  {
    if UnlockCondition(cfg, ev, ps) {
      SafePlanIsEligible(cfg, ev, ps, frozen);
    }
    if PlanFor(cfg, ev, ps, frozen).eligible {
      EligiblePlanIsSafe(cfg, ev, ps, frozen);
    }
  }

  lemma FindingTrust(cfg: Config, ev: Evidence, p: Position)
    ensures var f := Examine(cfg, ev, p); Unobjectionable(f) || NeedsReview(f) || CapFor(f) <= 0.6
  {
  }

  lemma {:induction false} ObjectionsCost(cfg: Config, ev: Evidence, ps: seq<Position>)
    ensures Objections(cfg, ev, ps) == [] || ReviewNeeded(cfg, ev, ps) || Trust(cfg, ev, ps) <= 0.6
  {
    if ps != [] {
      hide Examine, ActionsFor, ReasonsFor, CapFor, NeedsReview, Unobjectionable, Trust;
      var n := |ps| - 1;
      ObjectionsCost(cfg, ev, ps[..n]);
      assert ps[..n + 1] == ps;
      OneMorePosition(cfg, ev, ps, n);
      FindingEffects(cfg, ev, ps[n]);
      FindingTrust(cfg, ev, ps[n]);
    }
  }

  /** A plan asks for manual review exactly when reconciliation is disabled, anything at all was objected
      to, or the configured minimum is out of reach: every lowered confidence is below every minimum. */
  lemma ReviewIff(cfg: Config, ev: Evidence, ps: seq<Position>, frozen: bool)
    ensures PlanFor(cfg, ev, ps, frozen).manualReview <==>
            !Enabled(cfg) || Objections(cfg, ev, ps) != [] || MinConfidence(cfg) > BASE_CONFIDENCE
  {
    hide Objections, Proposed, Trust, ReviewNeeded, MaxActions, Covered, UnlockKind, StatusOf, Dedup, Enabled;
    NoObjections(cfg, ev, ps);
    ObjectionsCost(cfg, ev, ps);
  }

  /** A plan is reported as blocked only when reconciliation is disabled, or when nothing is wrong and
      nothing is to be done and yet a position is flagged; objections lead to manual review instead. */
  lemma BlockedIff(cfg: Config, ev: Evidence, ps: seq<Position>, frozen: bool)
    ensures PlanFor(cfg, ev, ps, frozen).status == BlockedPlan <==>
            || !Enabled(cfg)
            || (Objections(cfg, ev, ps) == [] && MinConfidence(cfg) <= BASE_CONFIDENCE && Proposed(cfg, ev, ps) == []
                && exists p :: p in ps && HasBlockingState(p))
  {
    assert MaxActions(cfg) >= 1;
    hide Examine, Proposed, Objections, Trust, ReviewNeeded, HasBlockingState, MaxActions, MinConfidence, Conclude;
    ReviewIff(cfg, ev, ps, frozen);
    NoObjections(cfg, ev, ps);
    var proposed, objections := Proposed(cfg, ev, ps), Objections(cfg, ev, ps);
    ReviewedIsNotBlocked(MaxActions(cfg), MinConfidence(cfg), ps, frozen, proposed, objections, Trust(cfg, ev, ps),
                         ReviewNeeded(cfg, ev, ps));
    if Enabled(cfg) && objections == [] && MinConfidence(cfg) <= BASE_CONFIDENCE {
      UnobjectedIsBlockedIff(MaxActions(cfg), MinConfidence(cfg), ps, frozen, proposed);
    }
  }

  lemma ReviewedIsNotBlocked(limit: nat, floor: real, ps: seq<Position>, frozen: bool,
                             proposed: seq<Action>, objections: seq<Reason>, confidence: real, review: bool)
    ensures var plan := Conclude(limit, floor, ps, frozen, proposed, objections, confidence, review);
            plan.manualReview ==> plan.status == NeedsManualReview
  {
    hide Covered, UnlockKind, Dedup;
  }

  lemma UnobjectedIsBlockedIff(limit: nat, floor: real, ps: seq<Position>, frozen: bool, proposed: seq<Action>)
    requires limit >= 1 && floor <= BASE_CONFIDENCE
    ensures Conclude(limit, floor, ps, frozen, proposed, [], BASE_CONFIDENCE, false).status == BlockedPlan <==>
            proposed == [] && exists p :: p in ps && HasBlockingState(p)
  {
    hide HasBlockingState, Dedup;
    if proposed != [] {
      hide Covered, UnlockKind;
      assert Conclude(limit, floor, ps, frozen, proposed, [], BASE_CONFIDENCE, false).actions != [];
    }
  }
}
