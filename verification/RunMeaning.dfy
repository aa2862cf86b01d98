/** What running an action or a whole round does to the runtime, field by field. */
module RunMeaning {
  import opened Common
  import opened Reconcile
  import opened ReconcileRun
  import opened UnlockEligibility
  import opened Convergence
  import opened UnlockSafety

  /** The action is about the `i`-th position: the first with its id or its symbol. */
  ghost predicate IsAbout(ps: seq<Position>, a: Action, i: nat) {
    && i < |ps| && ((a.positionId != 0 && ps[i].id == a.positionId) || ps[i].symbol == a.symbol)
    && forall j :: 0 <= j < i ==> !(a.positionId != 0 && ps[j].id == a.positionId) && ps[j].symbol != a.symbol
  }

  ghost predicate IsAboutNone(ps: seq<Position>, a: Action) {
    forall p :: p in ps ==> !(a.positionId != 0 && p.id == a.positionId) && p.symbol != a.symbol
  }

  lemma AboutIff(ps: seq<Position>, a: Action, i: nat)
    ensures IsAbout(ps, a, i) <==> i == FindPosition(ps, a) && i < |ps|
    ensures IsAboutNone(ps, a) <==> FindPosition(ps, a) == |ps|
  {
    var k := FindPosition(ps, a);
    assert k < |ps| ==> ps[k] in ps;
  }

  /** Clearing a flag: the position keeps what it is, loses both flags, takes the order list over if it has
      none, and gets the lifecycle that the protection it then has calls for. */
  lemma ClearMeaning(st: State, a: Action, broker: Broker, i: nat)
    requires a.kind == ClearLocalFlag && IsAbout(st.positions, a, i)
    ensures var p, after := st.positions[i], Step(st, a, broker).positions;
            && |after| == |st.positions| && (forall j :: 0 <= j < |after| && j != i ==> after[j] == st.positions[j])
            && var q := after[i];
               && q.id == p.id && q.symbol == p.symbol && q.quantity == p.quantity && q.ocoListId == p.ocoListId
               && q.intentionalUnmanaged == p.intentionalUnmanaged
               && !q.reconcileRequired && !q.manualReviewRequired
               && q.protectiveListId == (if p.protectiveListId != 0 then p.protectiveListId else a.adoptListId)
               && match broker
                  case NoBroker => q.lifecycle == if q.protectiveListId != 0 then Protected else OpenState
                  case FlagClearingBroker =>
                    q.lifecycle ==
                    if p.lifecycle !in {NoState, ReconcileRequiredState, ManualReviewState, ProtectOnly,
                                        ProtectionPending}
                    then p.lifecycle
                    else if q.protectiveListId != 0 || q.ocoListId != 0 then Protected else ProtectionPending
  {
    AboutIff(st.positions, a, i);
  }

  /** Confirming a position flat: it leaves the list with all of its id, and is recorded as closed. */
  lemma FlatMeaning(st: State, a: Action, broker: Broker, i: nat)
    requires a.kind == MarkFlat && IsAbout(st.positions, a, i)
    ensures var p, after := st.positions[i], Step(st, a, broker);
            && (forall q :: q in after.positions <==> q in st.positions && q.id != p.id)
            && |after.closures| >= 1 && after.closures[0] == Closure(p.symbol, p.id)
            && |after.closures| <= 50
            && after.closures[1..] == Take(st.closures, 49)
  {
    hide FindPosition;
    AboutIff(st.positions, a, i);
    WithoutMembers(st.positions, st.positions[i].id);
  }

  lemma {:induction false} WithoutMembers(ps: seq<Position>, id: nat)
    ensures forall q :: q in Without(ps, id) <==> q in ps && q.id != id
  {
    if ps != [] {
      WithoutMembers(ps[1..], id);
      assert ps == [ps[0]] + ps[1..];
    }
  }

  /** Whatever else an action is, it changes no position; and only the global clear touches the freeze. */
  lemma RestIsUntouched(st: State, a: Action, broker: Broker)
    ensures var after := Step(st, a, broker);
            && (a.kind !in {ClearLocalFlag, MarkFlat} || IsAboutNone(st.positions, a) ==>
                  after.positions == st.positions && after.closures == st.closures)
            && (a.kind != MarkFlat ==> after.closures == st.closures)
            && (a.kind != ClearSafetyBlock ==>
                  && after.truthFreeze == st.truthFreeze && after.safetyFreeze == st.safetyFreeze
                  && after.globalFreeze == st.globalFreeze && after.status == st.status
                  && after.probation == st.probation)
  {
    hide Cleared, Without;
    AboutIff(st.positions, a, 0);
  }

  /** The audit of an action: its kind and symbol, and a result that says whether it found its position. */
  lemma AuditMeaning(st: State, a: Action, broker: Broker)
    ensures var trail := Step(st, a, broker).trail;
            && trail != [] && trail[1..] == Take(st.trail, 49)
            && trail[0].kind == a.kind && trail[0].symbol == a.symbol
            && (trail[0].result == Applied <==>
                a.kind == ClearSafetyBlock || (a.kind in {ClearLocalFlag, MarkFlat} && !IsAboutNone(st.positions, a)))
            && (trail[0].result == BrokerUnavailable <==>
                a.kind == RebuildProtection && !IsAboutNone(st.positions, a))
            && (trail[0].result == ReviewRequired <==> a.kind == ManualReview)
            && ResultOf(st, a) == trail[0].result
  {
    hide Effect, FindPosition, IsAboutNone;
    AboutIff(st.positions, a, 0);
  }

  // ---------------------------------------------------------------------------------------------
  // The freeze over a round
  // ---------------------------------------------------------------------------------------------

  ghost predicate AnyFreeze(st: State) {
    st.truthFreeze || st.safetyFreeze || st.globalFreeze || st.status == Blocked
  }

  /** A round on evidence that supports the unlock, with any of the four freezes on, ends with all of them off,
      the status ready and probation with no entry counted. */
  lemma EveryFreezeIsLifted(cfg: Config, ev: Evidence, st: State, broker: Broker)
    requires WellFormed(st.positions) && AnyFreeze(st) && UnlockCondition(cfg, ev, st.positions)
    ensures var after := OneRound(cfg, ev, st, broker);
            && !after.truthFreeze && !after.safetyFreeze && !after.globalFreeze && after.status == Ready
            && after.probation.active && after.probation.entriesThisCycle == 0
  {
    hide PlanFor, RunActions, UnlockCondition, Proposed;
    var plan := PlanFor(cfg, ev, st.positions, Frozen(st));
    EligiblePlan(cfg, ev, st.positions, Frozen(st));
    assert plan.actions[|plan.actions| - 1] == GLOBAL_CLEAR;
    LiftedAfterRun(st, plan.actions, broker);
  }

  /** A round on other evidence changes none of the four, nor the probation. */
  lemma NoFreezeIsLifted(cfg: Config, ev: Evidence, st: State, broker: Broker)
    requires WellFormed(st.positions) && !UnlockCondition(cfg, ev, st.positions)
    ensures SameFreeze(OneRound(cfg, ev, st, broker), st)
  {
    hide PlanFor, RunActions, UnlockCondition;
    var plan := PlanFor(cfg, ev, st.positions, Frozen(st));
    EligibleIffSafe(cfg, ev, st.positions, Frozen(st));
    ClearsOnlyIfEligible(cfg, ev, st.positions, Frozen(st));
    FreezeKept(st, plan.actions, broker);
  }

  ghost predicate SameFreeze(a: State, b: State) {
    && a.truthFreeze == b.truthFreeze && a.safetyFreeze == b.safetyFreeze && a.globalFreeze == b.globalFreeze
    && a.status == b.status && a.probation == b.probation
  }

  lemma {:induction false} FreezeKept(st: State, actions: seq<Action>, broker: Broker)
    requires forall a :: a in actions ==> a.kind != ClearSafetyBlock
    ensures SameFreeze(RunActions(st, actions, broker), st)
    decreases actions
  {
    hide Step;
    if actions != [] {
      RestIsUntouched(st, actions[0], broker);
      FreezeKept(Step(st, actions[0], broker), actions[1..], broker);
    }
  }

  lemma ClearsOnlyIfEligible(cfg: Config, ev: Evidence, ps: seq<Position>, frozen: bool)
    ensures var plan := PlanFor(cfg, ev, ps, frozen);
            !plan.eligible ==> forall a :: a in plan.actions ==> a.kind != ClearSafetyBlock
  {
    hide Objections, Trust, ReviewNeeded, MinConfidence, MaxActions, Covered, UnlockKind, StatusOf, Dedup, Proposed;
    NoneProposed(cfg, ev, ps);
  }

  lemma NoneProposed(cfg: Config, ev: Evidence, ps: seq<Position>)
    ensures forall a :: a in Proposed(cfg, ev, ps) ==> a.kind != ClearSafetyBlock
  {
    hide Examine, Proposed;
    ProposedMembers(cfg, ev, ps);
  }
}
