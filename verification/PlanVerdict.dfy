/** The whole plan, said of the raw evidence: when it allows the unlock, what it objects to, what it proposes
    and how sure it is. */
module PlanVerdict {
  import opened Common
  import opened Reconcile
  import opened UnlockEligibility
  import opened PlanMeaning

  // ---------------------------------------------------------------------------------------------
  // Reasons
  // ---------------------------------------------------------------------------------------------

  lemma {:induction false} ObjectionMembers(cfg: Config, ev: Evidence, ps: seq<Position>, r: Reason)
    ensures r in Objections(cfg, ev, ps) <==>
            || (r == FreshEvidenceRequired && !FreshEvidence(cfg, ev))
            || (r == RestStreamConflict && StreamConflict(ev))
            || exists p :: p in ps && r in ReasonsFor(p, Examine(cfg, ev, p))
  {
    hide Examine, ReasonsFor, FreshEvidence, StreamConflict;
    if ps != [] {
      var n := |ps| - 1;
      ObjectionMembers(cfg, ev, ps[..n], r);
      assert ps == ps[..n] + [ps[n]] && ps[..n + 1] == ps;
      OneMorePosition(cfg, ev, ps, n);
    }
  }

  lemma PlanReasons(cfg: Config, ev: Evidence, ps: seq<Position>, frozen: bool, r: Reason)
    ensures r in PlanFor(cfg, ev, ps, frozen).reasons <==>
            if !Enabled(cfg) then r == Disabled
            else
              || r in Objections(cfg, ev, ps)
              || (r == ActionLimitReached && |Proposed(cfg, ev, ps)| > MaxActions(cfg))
              || (r == ConfidenceBelowMinimum && Trust(cfg, ev, ps) < MinConfidence(cfg))
  {
    hide Objections, Proposed, Trust, ReviewNeeded, MinConfidence, MaxActions, Covered, UnlockKind, StatusOf, Dedup;
    var limited := |Proposed(cfg, ev, ps)| > MaxActions(cfg);
    var reasons1 := if limited then Objections(cfg, ev, ps) + [ActionLimitReached] else Objections(cfg, ev, ps);
    var reasons2 := if Trust(cfg, ev, ps) < MinConfidence(cfg) then reasons1 + [ConfidenceBelowMinimum] else reasons1;
    DedupKeepsElements(reasons2);
    assert Enabled(cfg) ==> PlanFor(cfg, ev, ps, frozen).reasons == Dedup(reasons2);
  }

  lemma ReasonForMembers(p: Position, f: Finding, symbol: string, problem: Problem)
    ensures At(symbol, problem) in ReasonsFor(p, f) <==>
            p.symbol == symbol
            && match f
               case Conflicting(problems) => problem in problems
               case NoProtectionAllowed => problem == ProtectionDisabled
               case NoRebuildAllowed => problem == RebuildDisabled
               case InvalidGeometry => problem == BadGeometry
               case StillFlagged => problem == StateNeedsReview
               case _ => false
  {
    if f.Conflicting? && problem in f.problems && p.symbol == symbol {
      var i :| 0 <= i < |f.problems| && f.problems[i] == problem;
      assert AtSymbol(symbol, f.problems)[i] == At(symbol, problem);
    }
  }

  /** What the planner objects to in a position, in the words of the evidence. */
  ghost predicate Blames(cfg: Config, ev: Evidence, p: Position, total: real, problem: Problem) {
    && p.symbol != ""
    && var naked := !Troubled(cfg, ev, p, total) && Naked(ev, p, total);
       match problem
       case AmbiguousTrade => DoubtfulTrade(ev, p.symbol)
       case PartialFill => HalfFilled(ev, p.symbol)
       case UnexpectedSide => WrongSide(ev, p.symbol)
       case BalanceMismatch => Mismatched(cfg, ev, p, total)
       case ProtectionDisabled => naked && !cfg.enableExchangeProtection
       case RebuildDisabled => naked && cfg.enableExchangeProtection && !cfg.allowProtectiveRebuild
       case BadGeometry => naked && cfg.enableExchangeProtection && cfg.allowProtectiveRebuild
                           && p.symbol !in ev.validGeometry
       case StateNeedsReview =>
         && !Troubled(cfg, ev, p, total) && Flagged(p) && !Naked(ev, p, total)
         && !(p.reconcileRequired && BothOpen(ev, p, total) && Shielded(ev, p) && Fresh(ev))
         && !(cfg.allowFlatClose && SoldOut(ev, p, total) && Fresh(ev))
  }

  lemma BlamedAt(cfg: Config, ev: Evidence, p: Position, total: real, problem: Problem)
    requires Held(ev, p.symbol, total)
    ensures At(p.symbol, problem) in ReasonsFor(p, Examine(cfg, ev, p)) <==> Blames(cfg, ev, p, total, problem)
  {
    hide ContradictoryTrade, HasPartialFill, HasUnexpectedSide, HasOrders, HasLists, HasSellOrder, RecentSell;
    hide LocalOpen, ExchangeOpen, WithinTolerance, FreshEvidence, Held, AboveDust, Mismatched, Fresh;
    hide DoubtfulTrade, Sold, HalfFilled, WrongSide, OpenOrder, OpenList, ReasonsFor, Examine, Flagged, BothOpen;
    ReasonForMembers(p, Examine(cfg, ev, p), p.symbol, problem);
    FindingIff(cfg, ev, p, total);
    ProblemsNamed(cfg, ev, p, total);
  }

  lemma ProblemsNamed(cfg: Config, ev: Evidence, p: Position, total: real)
    requires Held(ev, p.symbol, total)
    ensures var f := Examine(cfg, ev, p);
            f.Conflicting? ==>
              && (AmbiguousTrade in f.problems <==> DoubtfulTrade(ev, p.symbol))
              && (PartialFill in f.problems <==> HalfFilled(ev, p.symbol))
              && (UnexpectedSide in f.problems <==> WrongSide(ev, p.symbol))
              && (BalanceMismatch in f.problems <==> Mismatched(cfg, ev, p, total))
              && (forall x :: x in f.problems ==> x in {AmbiguousTrade, PartialFill, UnexpectedSide, BalanceMismatch})
  {
    hide ContradictoryTrade, HasPartialFill, HasUnexpectedSide, OpenBoth, WithinTolerance, FreshEvidence, Held;
    hide DoubtfulTrade, HalfFilled, WrongSide, Mismatched, Problems;
    ToleranceMeaning(cfg, ev, p, total);
    OrdersMeaning(ev, p.symbol);
    TradesMeaning(ev, p.symbol);
    ProblemMembers(cfg, ev, p);
  }

  lemma ProblemMembers(cfg: Config, ev: Evidence, p: Position)
    ensures var problems := Problems(cfg, ev, p);
            && (AmbiguousTrade in problems <==> ContradictoryTrade(ev, p.symbol))
            && (PartialFill in problems <==> HasPartialFill(ev, p.symbol))
            && (UnexpectedSide in problems <==> HasUnexpectedSide(ev, p.symbol))
            && (BalanceMismatch in problems <==> OpenBoth(ev, p) && !WithinTolerance(cfg, ev, p))
            && (forall x :: x in problems ==> x in {AmbiguousTrade, PartialFill, UnexpectedSide, BalanceMismatch})
  {
    hide ContradictoryTrade, HasPartialFill, HasUnexpectedSide, OpenBoth, WithinTolerance;
  }

  /** An objection to a symbol is in the plan exactly when some position of that symbol gives cause for it. */
  lemma BlamedIff(cfg: Config, ev: Evidence, ps: seq<Position>, frozen: bool, symbol: string, problem: Problem)
    ensures At(symbol, problem) in PlanFor(cfg, ev, ps, frozen).reasons <==>
            SwitchedOn(cfg)
            && exists p, total :: p in ps && p.symbol == symbol && Held(ev, symbol, total)
                                  && Blames(cfg, ev, p, total, problem)
  {
    hide PlanFor, Objections, Examine, ReasonsFor, Enabled, SwitchedOn, Blames, Held, ExchangeTotal;
    var r := At(symbol, problem);
    ConfigMeaning(cfg, 1);
    PlanReasons(cfg, ev, ps, frozen, r);
    ObjectionMembers(cfg, ev, ps, r);
    var total := ExchangeTotal(ev, symbol);
    HeldIsTotal(ev, symbol, total);
    forall p | p in ps
      ensures r in ReasonsFor(p, Examine(cfg, ev, p)) <==> p.symbol == symbol && Blames(cfg, ev, p, total, problem)
    {
      if p.symbol == symbol {
        BlamedAt(cfg, ev, p, total, problem);
      } else {
        ReasonForMembers(p, Examine(cfg, ev, p), symbol, problem);
      }
    }
    forall p, t | p in ps && Held(ev, symbol, t) && Blames(cfg, ev, p, t, problem)
      ensures t == total
    {
      HeldIsTotal(ev, symbol, t);
    }
  }

  /** The largest of minimum quantity, dust or step quantity, 1e-9 and the configured tolerance. */
  ghost predicate IsTolerance(cfg: Config, ev: Evidence, symbol: string, tol: real) {
    && tol >= 0.000000001 && tol >= cfg.qtyMismatchTolerance
    && (symbol in ev.rules ==> tol >= ev.rules[symbol].minQty && tol >= DustOrStep(ev.rules[symbol]))
    && Tolerated(cfg, ev, symbol, tol)
  }

  lemma ToleratedIff(cfg: Config, ev: Evidence, symbol: string, tol: real, gap: real)
    requires IsTolerance(cfg, ev, symbol, tol)
    ensures Tolerated(cfg, ev, symbol, gap) <==> gap <= tol
  {
  }

  /** A balance that differs from an open position by more than that, in either direction, is reported and
      blocks the unlock. */
  lemma MismatchBlocks(cfg: Config, ev: Evidence, ps: seq<Position>, frozen: bool, p: Position, total: real, tol: real)
    requires SwitchedOn(cfg) && p in ps && p.symbol != "" && Held(ev, p.symbol, total) && BothOpen(ev, p, total)
    requires IsTolerance(cfg, ev, p.symbol, tol) && (p.quantity - total > tol || total - p.quantity > tol)
    ensures At(p.symbol, BalanceMismatch) in PlanFor(cfg, ev, ps, frozen).reasons
    ensures !PlanFor(cfg, ev, ps, frozen).eligible
  {
    hide PlanFor, AboveDust, Tolerated, Held, IsTolerance;
    ToleratedIff(cfg, ev, p.symbol, tol, p.quantity - total);
    ToleratedIff(cfg, ev, p.symbol, tol, total - p.quantity);
    BlamedIff(cfg, ev, ps, frozen, p.symbol, BalanceMismatch);
    assert Blames(cfg, ev, p, total, BalanceMismatch);
    PlanObjects(cfg, ev, ps, frozen);
  }

  lemma PlanObjects(cfg: Config, ev: Evidence, ps: seq<Position>, frozen: bool)
    ensures var plan := PlanFor(cfg, ev, ps, frozen); plan.eligible ==> plan.reasons == []
  {
    hide Objections, Proposed, Trust, ReviewNeeded, MinConfidence, MaxActions, Covered, UnlockKind, StatusOf;
  }

  /** The objections that concern no position. */
  lemma GeneralReasonsIff(cfg: Config, ev: Evidence, ps: seq<Position>, frozen: bool)
    ensures var reasons := PlanFor(cfg, ev, ps, frozen).reasons;
            && (Disabled in reasons <==> !SwitchedOn(cfg))
            && (FreshEvidenceRequired in reasons <==> SwitchedOn(cfg) && !Fresh(ev))
            && (RestStreamConflict in reasons <==> SwitchedOn(cfg) && Contradicting(ev))
            && (forall n :: LimitIs(cfg, n) ==>
                  (ActionLimitReached in reasons <==> SwitchedOn(cfg) && |Proposed(cfg, ev, ps)| > n))
  {
    hide PlanFor, Objections, Examine, ReasonsFor, Enabled, SwitchedOn, FreshEvidence, StreamConflict, Fresh;
    hide Contradicting, Proposed, MaxActions, LimitIs;
    EvidenceMeaning(cfg, ev);
    forall n
      ensures LimitIs(cfg, n) <==> n == MaxActions(cfg)
      ensures Enabled(cfg) <==> SwitchedOn(cfg)
    {
      ConfigMeaning(cfg, n);
    }
    ConfigMeaning(cfg, 1);
    GeneralReason(cfg, ev, ps, frozen, Disabled);
    GeneralReason(cfg, ev, ps, frozen, FreshEvidenceRequired);
    GeneralReason(cfg, ev, ps, frozen, RestStreamConflict);
    GeneralReason(cfg, ev, ps, frozen, ActionLimitReached);
  }

  lemma GeneralReason(cfg: Config, ev: Evidence, ps: seq<Position>, frozen: bool, r: Reason)
    requires !r.At?
    ensures r in PlanFor(cfg, ev, ps, frozen).reasons <==>
            if !Enabled(cfg) then r == Disabled
            else
              || (r == FreshEvidenceRequired && !FreshEvidence(cfg, ev))
              || (r == RestStreamConflict && StreamConflict(ev))
              || (r == ActionLimitReached && |Proposed(cfg, ev, ps)| > MaxActions(cfg))
              || (r == ConfidenceBelowMinimum && Trust(cfg, ev, ps) < MinConfidence(cfg))
  {
    hide PlanFor, Objections, Examine, Enabled, FreshEvidence, StreamConflict, Proposed, MaxActions, Trust;
    hide MinConfidence;
    PlanReasons(cfg, ev, ps, frozen, r);
    ObjectionMembers(cfg, ev, ps, r);
    forall p | p in ps
      ensures r !in ReasonsFor(p, Examine(cfg, ev, p))
    {
    }
  }

  // ---------------------------------------------------------------------------------------------
  // The unlock
  // ---------------------------------------------------------------------------------------------

  /** A position that keeps no plan from being eligible. */
  ghost predicate Sound(cfg: Config, ev: Evidence, p: Position, total: real) {
    if p.symbol == "" then !Flagged(p)
    else
      && !Troubled(cfg, ev, p, total)
      && !Naked(ev, p, total)
      && (Flagged(p) ==> p.reconcileRequired && BothOpen(ev, p, total))
      && !(cfg.allowFlatClose && SoldOut(ev, p, total))
  }

  /** A position with a reconcile flag to clear. */
  ghost predicate ToClear(ev: Evidence, p: Position) {
    p.symbol != "" && p.reconcileRequired && exists total :: Held(ev, p.symbol, total) && BothOpen(ev, p, total)
  }

  lemma SoundIff(cfg: Config, ev: Evidence, p: Position, total: real)
    requires Held(ev, p.symbol, total)
    ensures SafeAt(cfg, ev, p) <==> Sound(cfg, ev, p, total)
  {
    hide ContradictoryTrade, HasPartialFill, HasUnexpectedSide, HasOrders, HasLists, HasSellOrder, RecentSell;
    hide LocalOpen, ExchangeOpen, WithinTolerance, Held, AboveDust, DoubtfulTrade, Sold, HalfFilled, WrongSide;
    hide OpenOrder, OpenList, Tolerated, ExchangeTotal;
    ToleranceMeaning(cfg, ev, p, total);
    OrdersMeaning(ev, p.symbol);
    ListsMeaning(ev, p.symbol);
    TradesMeaning(ev, p.symbol);
  }

  lemma ToClearIff(ev: Evidence, p: Position)
    ensures NeedsClearing(ev, p) <==> ToClear(ev, p)
  {
    hide Held, AboveDust, LocalOpen, ExchangeOpen, ExchangeTotal;
    var total := ExchangeTotal(ev, p.symbol);
    HeldIsTotal(ev, p.symbol, total);
    OpenMeaning(ev, p, total);
    forall t | Held(ev, p.symbol, t)
      ensures t == total
    {
      HeldIsTotal(ev, p.symbol, t);
    }
  }

  lemma {:induction false} ClearingsCounted(ev: Evidence, ps: seq<Position>)
    ensures CountClearings(ev, ps) == |set i | 0 <= i < |ps| && ToClear(ev, ps[i])|
  {
    hide ToClear, NeedsClearing, ExchangeTotal;
    var all := set i | 0 <= i < |ps| && ToClear(ev, ps[i]);
    if ps == [] {
      assert all == {};
    } else {
      var n := |ps| - 1;
      ClearingsCounted(ev, ps[..n]);
      var front := set i | 0 <= i < n && ToClear(ev, ps[..n][i]);
      ToClearIff(ev, ps[n]);
      assert all == front + (if ToClear(ev, ps[n]) then {n} else {});
    }
  }

  /** A plan is eligible exactly when reconciliation is on, the evidence is fresh and consistent, the
      required confidence is within reach, every position is sound, and there are no more flags to clear than
      the limit allows; all of it said of the raw evidence. */
  lemma EligibleMeaning(cfg: Config, ev: Evidence, ps: seq<Position>, frozen: bool, limit: nat)
    requires WellFormed(ps) && LimitIs(cfg, limit)
    ensures PlanFor(cfg, ev, ps, frozen).eligible <==>
            && SwitchedOn(cfg) && Fresh(ev) && !Contradicting(ev) && cfg.minConfidence <= 0.96
            && (forall p, total :: p in ps && Held(ev, p.symbol, total) ==> Sound(cfg, ev, p, total))
            && |set i | 0 <= i < |ps| && ToClear(ev, ps[i])| <= limit
  {
    hide PlanFor, SafeAt, Sound, Held, WellFormed, Enabled, SwitchedOn, FreshEvidence, Fresh, StreamConflict;
    hide Contradicting, CountClearings, MaxActions, LimitIs, ToClear, ExchangeTotal, MinConfidence;
    EligibleIffSafe(cfg, ev, ps, frozen);
    EvidenceMeaning(cfg, ev);
    ConfigMeaning(cfg, limit);
    ClearingsCounted(ev, ps);
    forall p | p in ps
      ensures SafeAt(cfg, ev, p) <==> forall total :: Held(ev, p.symbol, total) ==> Sound(cfg, ev, p, total)
    {
      HeldIsTotal(ev, p.symbol, ExchangeTotal(ev, p.symbol));
      forall total | Held(ev, p.symbol, total)
        ensures SafeAt(cfg, ev, p) <==> Sound(cfg, ev, p, total)
      {
        SoundIff(cfg, ev, p, total);
      }
    }
  }

  /** In particular, the two quantities of every open position are that close together, and it is protected. */
  lemma EligibleQuantities(cfg: Config, ev: Evidence, ps: seq<Position>, frozen: bool,
                           p: Position, total: real, tol: real)
    requires WellFormed(ps) && PlanFor(cfg, ev, ps, frozen).eligible
    requires p in ps && p.symbol != "" && Held(ev, p.symbol, total) && BothOpen(ev, p, total)
    requires IsTolerance(cfg, ev, p.symbol, tol)
    ensures p.quantity - total <= tol && total - p.quantity <= tol && Shielded(ev, p)
  {
    hide PlanFor, Held, AboveDust, IsTolerance, MaxActions, Contradicting, Fresh;
    ConfigMeaning(cfg, MaxActions(cfg));
    EligibleMeaning(cfg, ev, ps, frozen, MaxActions(cfg));
    PlanEnabled(cfg, ev, ps, frozen);
    if p.quantity - total > tol || total - p.quantity > tol {
      MismatchBlocks(cfg, ev, ps, frozen, p, total, tol);
    }
    assert Sound(cfg, ev, p, total);
  }

  lemma PlanEnabled(cfg: Config, ev: Evidence, ps: seq<Position>, frozen: bool)
    requires PlanFor(cfg, ev, ps, frozen).eligible
    ensures SwitchedOn(cfg)
  {
    hide Conclude, Proposed, Objections, Trust, ReviewNeeded;
  }

  // ---------------------------------------------------------------------------------------------
  // Proposed actions
  // ---------------------------------------------------------------------------------------------

  /** What the planner proposes to do about a position, in the words of the evidence. */
  ghost predicate Demands(cfg: Config, ev: Evidence, p: Position, total: real, kind: ActionType) {
    && p.symbol != ""
    && var calm := !Troubled(cfg, ev, p, total);
       var naked := calm && Naked(ev, p, total);
       match kind
       case ManualReview =>
         || !calm
         || (naked && (!cfg.enableExchangeProtection
                       || (cfg.allowProtectiveRebuild && p.symbol !in ev.validGeometry)))
       case ClearLocalFlag => calm && p.reconcileRequired && BothOpen(ev, p, total) && Shielded(ev, p) && Fresh(ev)
       case MarkFlat => calm && cfg.allowFlatClose && SoldOut(ev, p, total) && Fresh(ev)
       case RebuildProtection =>
         naked && cfg.enableExchangeProtection && cfg.allowProtectiveRebuild && p.symbol in ev.validGeometry
       case ClearSafetyBlock => false
  }

  lemma DemandedAt(cfg: Config, ev: Evidence, p: Position, total: real, kind: ActionType)
    requires Held(ev, p.symbol, total)
    ensures (exists a :: a in ActionsFor(p, Examine(cfg, ev, p)) && a.kind == kind)
            <==> Demands(cfg, ev, p, total, kind)
    ensures forall a :: a in ActionsFor(p, Examine(cfg, ev, p)) ==>
                          && a.symbol == p.symbol && a.positionId == p.id
                          && a.adoptListId == if a.kind == ClearLocalFlag then Examine(cfg, ev, p).adoptListId else 0
  {
    hide Examine, Troubled, Held, BothOpen, Shielded, Fresh, SoldOut, Flagged;
    FindingIff(cfg, ev, p, total);
    var f := Examine(cfg, ev, p);
    var actions := ActionsFor(p, f);
    assert |actions| <= 1;
    assert actions != [] ==> actions[0] in actions;
  }

  /** A position's action is proposed exactly when the evidence demands it. */
  lemma ProposedIff(cfg: Config, ev: Evidence, ps: seq<Position>, p: Position, total: real, kind: ActionType)
    requires WellFormed(ps) && p in ps && Held(ev, p.symbol, total)
    ensures (exists a :: a in Proposed(cfg, ev, ps) && a.positionId == p.id && a.kind == kind) <==>
            Demands(cfg, ev, p, total, kind)
  {
    hide Examine, ActionsFor, Proposed, Held, Demands;
    ProposedMembers(cfg, ev, ps);
    DemandedAt(cfg, ev, p, total, kind);
    if a :| a in Proposed(cfg, ev, ps) && a.positionId == p.id && a.kind == kind {
      var q :| q in ps && a in ActionsFor(q, Examine(cfg, ev, q));
      FindingEffects(cfg, ev, q);
      assert q == p;
    }
  }

  // ---------------------------------------------------------------------------------------------
  // Confidence, actions and status
  // ---------------------------------------------------------------------------------------------

  /** The confidence that a position leaves. */
  ghost predicate Caps(cfg: Config, ev: Evidence, p: Position, total: real, cap: real) {
    && p.symbol != ""
    && ((cap == 0.4 && Troubled(cfg, ev, p, total))
        || (cap == 0.55 && Blames(cfg, ev, p, total, RebuildDisabled))
        || (cap == 0.42 && Blames(cfg, ev, p, total, BadGeometry))
        || (cap == 0.6 && Blames(cfg, ev, p, total, StateNeedsReview)))
  }

  /** Everything that limits the confidence of a plan. */
  ghost predicate Limits(cfg: Config, ev: Evidence, ps: seq<Position>, cap: real) {
    || cap == 0.96
    || (cap == 0.45 && !Fresh(ev))
    || (cap == 0.35 && Contradicting(ev))
    || exists p :: p in ps && CapsAt(cfg, ev, p, cap)
  }

  ghost predicate CapsAt(cfg: Config, ev: Evidence, p: Position, cap: real) {
    exists total :: Held(ev, p.symbol, total) && Caps(cfg, ev, p, total, cap)
  }

  lemma CapMeaning(cfg: Config, ev: Evidence, p: Position)
    ensures var cap := CapFor(Examine(cfg, ev, p));
            && (forall c :: CapsAt(cfg, ev, p, c) <==> c == cap && cap < 1.0)
            && 0.4 <= cap <= 1.0
  {
    hide Examine, Troubled, Held, BothOpen, Shielded, Fresh, SoldOut, Flagged, ExchangeTotal, Naked;
    var total := ExchangeTotal(ev, p.symbol);
    HeldIsTotal(ev, p.symbol, total);
    FindingIff(cfg, ev, p, total);
    forall t | Held(ev, p.symbol, t)
      ensures t == total
    {
      HeldIsTotal(ev, p.symbol, t);
    }
    assert Held(ev, p.symbol, total);
  }

  lemma {:induction false} TrustMeaning(cfg: Config, ev: Evidence, ps: seq<Position>)
    ensures Limits(cfg, ev, ps, Trust(cfg, ev, ps))
    ensures forall cap :: Limits(cfg, ev, ps, cap) ==> Trust(cfg, ev, ps) <= cap
    ensures 0.35 <= Trust(cfg, ev, ps) <= 0.96
  {
    hide Examine, CapFor, CapsAt, Limits, FreshEvidence, StreamConflict;
    if ps == [] {
      TrustAtFirst(cfg, ev);
    } else {
      var n := |ps| - 1;
      TrustMeaning(cfg, ev, ps[..n]);
      CapMeaning(cfg, ev, ps[n]);
      assert Trust(cfg, ev, ps) == Min(Trust(cfg, ev, ps[..n]), CapFor(Examine(cfg, ev, ps[n])));
      forall cap {
        LimitsStep(cfg, ev, ps, cap);
      }
    }
  }

  lemma LimitsStep(cfg: Config, ev: Evidence, ps: seq<Position>, cap: real)
    requires ps != []
    ensures var n := |ps| - 1;
            Limits(cfg, ev, ps, cap) <==> Limits(cfg, ev, ps[..n], cap) || CapsAt(cfg, ev, ps[n], cap)
  {
    hide CapsAt, Fresh, Contradicting;
    assert ps == ps[..|ps| - 1] + [ps[|ps| - 1]];
  }

  lemma TrustAtFirst(cfg: Config, ev: Evidence)
    ensures Limits(cfg, ev, [], Trust(cfg, ev, []))
    ensures forall cap :: Limits(cfg, ev, [], cap) ==> Trust(cfg, ev, []) <= cap
    ensures 0.35 <= Trust(cfg, ev, []) <= 0.96
  {
    hide CapsAt, Fresh, Contradicting, FreshEvidence, StreamConflict;
    EvidenceMeaning(cfg, ev);
    assert Trust(cfg, ev, []) == if Contradicting(ev) then 0.35 else if Fresh(ev) then 0.96 else 0.45;
  }

  /** The confidence of an enabled plan is the smallest of everything that limits it. */
  lemma ConfidenceMeaning(cfg: Config, ev: Evidence, ps: seq<Position>, frozen: bool)
    ensures var confidence := PlanFor(cfg, ev, ps, frozen).confidence;
            if !SwitchedOn(cfg) then confidence == 0.0
            else Limits(cfg, ev, ps, confidence) && forall cap :: Limits(cfg, ev, ps, cap) ==> confidence <= cap
  {
    hide Proposed, Objections, Trust, ReviewNeeded, Limits, SwitchedOn, Enabled, Covered, UnlockKind, Dedup;
    TrustMeaning(cfg, ev, ps);
    ConfigMeaning(cfg, 1);
  }

  /** A confidence below the minimum, which is 0.78 or more, is among the reasons and asks for review. */
  lemma UnsureIff(cfg: Config, ev: Evidence, ps: seq<Position>, frozen: bool)
    requires SwitchedOn(cfg)
    ensures var plan := PlanFor(cfg, ev, ps, frozen);
            && (ConfidenceBelowMinimum in plan.reasons <==>
                plan.confidence < 0.78 || plan.confidence < cfg.minConfidence)
            && (ConfidenceBelowMinimum in plan.reasons ==> plan.manualReview)
  {
    hide Proposed, Objections, Trust, ReviewNeeded, SwitchedOn, Enabled, Covered, UnlockKind, Dedup, StatusOf;
    ConfigMeaning(cfg, 1);
    TrustMeaning(cfg, ev, ps);
    GeneralReason(cfg, ev, ps, frozen, ConfidenceBelowMinimum);
  }

  /** The actions of a plan: of the proposed ones as many as the limit allows; then a review of no position in
      particular, when the confidence is below the minimum and none of these asks for review; then the lifting of the
      freeze, when the plan is eligible and there is something to lift or to clear. */
  lemma ActionsMeaning(cfg: Config, ev: Evidence, ps: seq<Position>, frozen: bool, limit: nat)
    requires LimitIs(cfg, limit) && SwitchedOn(cfg)
    ensures var plan, proposed := PlanFor(cfg, ev, ps, frozen), Proposed(cfg, ev, ps);
            var kept := if |proposed| <= limit then proposed else proposed[..limit];
            var unsure := plan.confidence < 0.78 || plan.confidence < cfg.minConfidence;
            plan.actions ==
            kept + (if unsure && forall a :: a in kept ==> a.kind != ManualReview then [Action(ManualReview, "", 0, 0)]
                    else [])
                 + (if plan.eligible && (frozen || kept != []) then [Action(ClearSafetyBlock, "", 0, 0)] else [])
  {
    hide Proposed, Objections, Trust, ReviewNeeded, SwitchedOn, Enabled, Covered, UnlockKind, Dedup, StatusOf, LimitIs;
    ConfigMeaning(cfg, limit);
    TrustMeaning(cfg, ev, ps);
  }

  /** The status of a plan, from its flags and actions. */
  lemma StatusMeaning(cfg: Config, ev: Evidence, ps: seq<Position>, frozen: bool)
    ensures var plan := PlanFor(cfg, ev, ps, frozen);
            && (plan.status == NeedsManualReview <==> SwitchedOn(cfg) && plan.manualReview)
            && (plan.status == NeedsRebuild <==>
                !plan.manualReview && exists a :: a in plan.actions && a.kind == RebuildProtection)
            && (plan.status == NothingToDo <==> plan.eligible && plan.actions == [])
            && (plan.status == CanAutoFix <==>
                !plan.manualReview && plan.actions != []
                && forall a :: a in plan.actions ==> a.kind != RebuildProtection)
  {
    hide Proposed, Trust, ReviewNeeded, SwitchedOn, Enabled, Covered, MinConfidence, MaxActions, Objections;
    ConfigMeaning(cfg, 1);
    ReviewIff(cfg, ev, ps, frozen);
    ConcludedStatus(MaxActions(cfg), MinConfidence(cfg), ps, frozen, Proposed(cfg, ev, ps), Objections(cfg, ev, ps),
                    Trust(cfg, ev, ps), ReviewNeeded(cfg, ev, ps));
  }

  lemma ConcludedStatus(limit: nat, floor: real, ps: seq<Position>, frozen: bool,
                        proposed: seq<Action>, objections: seq<Reason>, confidence: real, review: bool)
    ensures var plan := Conclude(limit, floor, ps, frozen, proposed, objections, confidence, review);
            plan.status == StatusOf(plan.actions, plan.manualReview, plan.reasons, plan.eligible)
    ensures var plan := Conclude(limit, floor, ps, frozen, proposed, objections, confidence, review);
            plan.eligible ==> !plan.manualReview && plan.reasons == []
  {
    hide Covered, UnlockKind;
    var limited := |proposed| > limit;
    var reasons1 := if limited then objections + [ActionLimitReached] else objections;
    var reasons2 := if confidence < floor then reasons1 + [ConfidenceBelowMinimum] else reasons1;
    DedupEmpty(reasons2);
    hide Dedup;
  }
}
