/** What an unlock-eligible plan achieves when it is run, and what that means over whole runs of the bot. */
module UnlockSafety {
  import opened Common
  import opened Reconcile
  import opened ReconcileRun
  import opened UnlockEligibility
  import opened Convergence

  /** Every freeze is off, the status is ready and entries are on probation with a fresh count. */
  predicate Lifted(st: State) {
    !st.truthFreeze && !st.safetyFreeze && !st.globalFreeze && st.status.Ready? && st.probation == Probation(true, 0)
  }

  /** A run leaves the runtime lifted and on probation exactly when it clears the block or found it so. */
  lemma {:induction false} LiftedAfterRun(st: State, actions: seq<Action>, broker: Broker)
    ensures Lifted(RunActions(st, actions, broker)) <==>
            Lifted(st) || exists a :: a in actions && a.kind.ClearSafetyBlock?
    decreases actions
  {
    if actions != [] {
      hide FindPosition, Cleared, Without, ResultOf;
      var next := Step(st, actions[0], broker);
      assert Lifted(next) <==> Lifted(st) || actions[0].kind.ClearSafetyBlock?;
      LiftedAfterRun(next, actions[1..], broker);
      assert actions == [actions[0]] + actions[1..];
    }
  }

  lemma {:induction false} FreezeAfterRun(st: State, actions: seq<Action>, broker: Broker)
    ensures Frozen(RunActions(st, actions, broker)) <==>
            Frozen(st) && forall a :: a in actions ==> !a.kind.ClearSafetyBlock?
    decreases actions
  {
    if actions != [] {
      hide FindPosition, Cleared, Without, ResultOf;
      var next := Step(st, actions[0], broker);
      assert Frozen(next) <==> Frozen(st) && !actions[0].kind.ClearSafetyBlock?;
      FreezeAfterRun(next, actions[1..], broker);
      assert actions == [actions[0]] + actions[1..];
    }
  }

  lemma {:induction false} AllFixes(xs: seq<Action>)
    requires forall a :: a in xs ==> IsFix(a)
    ensures CountFixes(xs) == |xs|
  {
    if xs != [] {
      AllFixes(xs[1..]);
    }
  }

  /** An eligible plan in full: it clears every flagged position and then, when there is anything to
      lift or anything was cleared, the global block. */
  lemma EligiblePlan(cfg: Config, ev: Evidence, ps: seq<Position>, frozen: bool)
    requires WellFormed(ps)
    requires UnlockCondition(cfg, ev, ps)
    ensures var plan, proposed := PlanFor(cfg, ev, ps, frozen), Proposed(cfg, ev, ps);
            && plan.actions == proposed + (if frozen || proposed != [] then [GLOBAL_CLEAR] else [])
            && (forall a :: a in proposed ==> a.kind.ClearLocalFlag?)
            && plan.reasons == [] && plan.confidence == BASE_CONFIDENCE && !plan.manualReview
            && plan.status == (if plan.actions == [] then NothingToDo else CanAutoFix)
            && plan.eligible
  {
    hide Examine, ActionsFor, SafeAt, Proposed, Covered, MaxActions;
    ProposedClearings(cfg, ev, ps);
    SafePlanIsEligible(cfg, ev, ps, frozen);
    EligibleParts(cfg, ev, ps, frozen);
    NoObjections(cfg, ev, ps);
  }

  /** The condition survives its own plan: positions keep their identity, and none is still owed anything. */
  lemma {:induction false} SafeRun(cfg: Config, ev: Evidence, st: State, actions: seq<Action>, broker: Broker)
    requires WellFormed(st.positions) && FreshEvidence(cfg, ev)
    requires Justified(cfg, ev, st.positions, actions)
    requires forall a :: a in actions ==> UnlockKind(a)
    requires forall p :: p in st.positions ==> SafeAt(cfg, ev, p)
    ensures var after := RunActions(st, actions, broker).positions;
            && (forall p :: p in after ==> SafeAt(cfg, ev, p))
            && |after| == |st.positions|
            && (forall k :: 0 <= k < |after| ==> after[k].id == st.positions[k].id)
    decreases actions
  {
    hide Examine, ActionsFor, Step, Backlog, SafeAt, Owes, IsGlobal;
    if actions != [] {
      var a := actions[0];
      assert a in actions;
      var next := Step(st, a, broker);
      if IsGlobal(a) {
        GlobalStep(st, a, broker);
        assert Justified(cfg, ev, next.positions, actions[1..]);
      } else {
        JustifiedStep(cfg, ev, st, actions, broker);
        var i: nat :| i < |st.positions| && Owes(cfg, ev, st.positions[i], a);
        SafeStep(cfg, ev, st, i, a, broker);
      }
      SafeRun(cfg, ev, next, actions[1..], broker);
    }
  }

  lemma SafeStep(cfg: Config, ev: Evidence, st: State, i: nat, a: Action, broker: Broker)
    requires WellFormed(st.positions) && FreshEvidence(cfg, ev)
    requires i < |st.positions| && Owes(cfg, ev, st.positions[i], a) && UnlockKind(a)
    requires forall p :: p in st.positions ==> SafeAt(cfg, ev, p)
    ensures var after := Step(st, a, broker).positions;
            && (forall p :: p in after ==> SafeAt(cfg, ev, p))
            && |after| == |st.positions|
            && (forall k :: 0 <= k < |after| ==> after[k].id == st.positions[k].id)
  {
    hide Examine, SafeAt, WellFormed, Cleared, Owes;
    var p := st.positions[i];
    OwedActionFindsItsPosition(cfg, ev, st.positions, i, a);
    OwedStep(cfg, ev, st, i, a, broker);
    SameKey(p, a, broker);
    if a.kind.ClearLocalFlag? {
      OwedClearIsClearable(cfg, ev, p, a);
      ClearedIsQuiet(cfg, ev, p, a, broker);
      FindingMeaning(cfg, ev, Cleared(p, a, broker));
    }
  }

  lemma OwedClearIsClearable(cfg: Config, ev: Evidence, p: Position, a: Action)
    requires Owes(cfg, ev, p, a) && a.kind.ClearLocalFlag?
    ensures Examine(cfg, ev, p).Clearable?
  {
  }

  lemma NothingLeftToClear(cfg: Config, ev: Evidence, ps: seq<Position>)
    requires FreshEvidence(cfg, ev) && Backlog(cfg, ev, ps) == 0
    requires forall p :: p in ps ==> SafeAt(cfg, ev, p)
    ensures CountClearings(ev, ps) == 0
    ensures forall p :: p in ps ==> !HasBlockingState(p)
  {
    hide Examine, ActionsFor, Proposed, HasBlockingState;
    ProposedClearings(cfg, ev, ps);
    ProposedMembers(cfg, ev, ps);
    forall p | p in ps
      ensures !HasBlockingState(p)
    {
      FindingMeaning(cfg, ev, p);
      if Examine(cfg, ev, p).Clearable? {
        ClearableActs(cfg, ev, ps, p);
      }
    }
  }

  lemma ClearableActs(cfg: Config, ev: Evidence, ps: seq<Position>, p: Position)
    requires p in ps && Examine(cfg, ev, p).Clearable?
    ensures Backlog(cfg, ev, ps) > 0
  {
    hide Examine, Proposed;
    ProposedMembers(cfg, ev, ps);
    assert ActionsFor(p, Examine(cfg, ev, p))[0] in Proposed(cfg, ev, ps);
  }

  /** Reconcile convergence: running an unlock-eligible plan lifts the freeze, keeps every position,
      leaves none flagged, and planning again on the same evidence finds nothing to do. */
  lemma EligiblePlanSettles(cfg: Config, ev: Evidence, st: State, broker: Broker)
    requires WellFormed(st.positions)
    requires PlanFor(cfg, ev, st.positions, Frozen(st)).eligible
    ensures var after := RunActions(st, PlanFor(cfg, ev, st.positions, Frozen(st)).actions, broker);
            && !Frozen(after)
            && WellFormed(after.positions)
            && |after.positions| == |st.positions|
            && (forall k :: 0 <= k < |st.positions| ==> after.positions[k].id == st.positions[k].id)
            && (forall p :: p in after.positions ==> !HasBlockingState(p))
            && UnlockCondition(cfg, ev, after.positions)
            && PlanFor(cfg, ev, after.positions, Frozen(after))
               == Plan(NothingToDo, true, [], [], BASE_CONFIDENCE, false)
  {
    hide Examine, ActionsFor, PlanFor, SafeAt, Proposed, WellFormed, MaxActions,
         RunActions, HasBlockingState, Justified;
    var ps := st.positions;
    EligiblePlanIsSafe(cfg, ev, ps, Frozen(st));
    EligiblePlan(cfg, ev, ps, Frozen(st));
    var plan := PlanFor(cfg, ev, ps, Frozen(st));
    var after := RunActions(st, plan.actions, broker);
    PlanIsJustified(cfg, ev, ps, Frozen(st));
    SafeRun(cfg, ev, st, plan.actions, broker);
    RoundWorksBacklogOff(cfg, ev, st, broker);
    FreezeAfterRun(st, plan.actions, broker);
    AllFixes(Proposed(cfg, ev, ps));
    CountFixesConcat(Proposed(cfg, ev, ps), plan.actions[|Proposed(cfg, ev, ps)|..]);
    NothingLeftToClear(cfg, ev, after.positions);
    EligiblePlan(cfg, ev, after.positions, Frozen(after));
  }

  /** The freeze is lifted by running a plan exactly when that plan is eligible. */
  lemma LiftsIffEligible(cfg: Config, ev: Evidence, st: State, broker: Broker)
    requires WellFormed(st.positions) && Frozen(st)
    ensures var plan := PlanFor(cfg, ev, st.positions, true);
            !Frozen(RunActions(st, plan.actions, broker)) <==> plan.eligible
  {
    hide Examine, ActionsFor, RunActions, Proposed, Objections, Trust, ReviewNeeded,
         StatusOf, Dedup, Covered, MaxActions;
    FreezeAfterRun(st, PlanFor(cfg, ev, st.positions, true).actions, broker);
    ProposedKinds(cfg, ev, st.positions);
  }

  lemma ProposedKinds(cfg: Config, ev: Evidence, ps: seq<Position>)
    ensures forall a :: a in Proposed(cfg, ev, ps) ==> !a.kind.ClearSafetyBlock?
  {
    hide Examine, Proposed;
    ProposedMembers(cfg, ev, ps);
  }

  // ---------------------------------------------------------------------------------------------
  // Whole runs
  // ---------------------------------------------------------------------------------------------

  /** Either a reconcile round, or anything else the bot does. That may open, close, flag and change
      positions, freeze entries and lift the freeze: the refresh of the safety state and the exchange
      reconciler (src/runtime/tradingBot.js:16659-16703, src/runtime/exchangeSafetyReconciler.js:413) also
      write the flags. */
  datatype Event = ReconcileRound(cfg: Config, ev: Evidence, broker: Broker) | Elsewhere

  ghost predicate Next(st: State, e: Event, st': State) {
    match e
    case ReconcileRound(cfg, ev, broker) =>
      st' == RunActions(st, PlanFor(cfg, ev, st.positions, Frozen(st)).actions, broker)
    case Elsewhere => WellFormed(st'.positions)
  }

  ghost predicate IsRun(states: seq<State>, events: seq<Event>) {
    |states| == |events| + 1 && WellFormed(states[0].positions)
    && forall i :: 0 <= i < |events| ==> Next(states[i], events[i], states[i + 1])
  }

  /** A step that legitimately lifted the freeze, with what held before and after it. */
  ghost predicate EvidenceUnlock(st: State, e: Event, st': State) {
    && e.ReconcileRound?
    && UnlockCondition(e.cfg, e.ev, st.positions)
    && MinConfidence(e.cfg) <= PlanFor(e.cfg, e.ev, st.positions, true).confidence
    && |st'.positions| == |st.positions|
    && (forall k :: 0 <= k < |st.positions| ==> st'.positions[k].id == st.positions[k].id)
    && (forall p :: p in st'.positions ==> !HasBlockingState(p))
  }

  lemma NextStaysWellFormed(st: State, e: Event, st': State)
    requires WellFormed(st.positions) && Next(st, e, st')
    ensures WellFormed(st'.positions)
  {
    hide PlanFor, RunActions, WellFormed;
    if e.ReconcileRound? {
      RoundWorksBacklogOff(e.cfg, e.ev, st, e.broker);
    }
  }

  lemma {:induction false} RunStaysWellFormed(states: seq<State>, events: seq<Event>, i: nat)
    requires IsRun(states, events) && i <= |events|
    ensures WellFormed(states[i].positions)
  {
    hide Next, WellFormed;
    if i > 0 {
      RunStaysWellFormed(states, events, i - 1);
      NextStaysWellFormed(states[i - 1], events[i - 1], states[i]);
    }
  }

  /** Unlock safety at each step of a run: a step that lifts the freeze is one of another writer, or a
      reconcile round whose evidence supported it; and a round whose evidence does, lifts it. */
  lemma LiftNeedsEvidence(states: seq<State>, events: seq<Event>, i: nat)
    requires IsRun(states, events) && i < |events| && Frozen(states[i])
    ensures !Frozen(states[i + 1]) ==> events[i].Elsewhere? || EvidenceUnlock(states[i], events[i], states[i + 1])
    ensures events[i].ReconcileRound? ==>
              (!Frozen(states[i + 1]) <==> UnlockCondition(events[i].cfg, events[i].ev, states[i].positions))
  {
    hide PlanFor, RunActions, WellFormed, Frozen, UnlockCondition, HasBlockingState;
    RunStaysWellFormed(states, events, i);
    assert Next(states[i], events[i], states[i + 1]);
    var e := events[i];
    if e.ReconcileRound? {
      LiftsIffEligible(e.cfg, e.ev, states[i], e.broker);
      EligibleIffSafe(e.cfg, e.ev, states[i].positions, true);
      if !Frozen(states[i + 1]) {
        EligiblePlanSettles(e.cfg, e.ev, states[i], e.broker);
        EligibleConfidence(e.cfg, e.ev, states[i].positions);
      }
    }
  }

  lemma EligibleConfidence(cfg: Config, ev: Evidence, ps: seq<Position>)
    requires WellFormed(ps) && PlanFor(cfg, ev, ps, true).eligible
    ensures UnlockCondition(cfg, ev, ps)
    ensures MinConfidence(cfg) <= PlanFor(cfg, ev, ps, true).confidence
  {
    hide PlanFor, SafeAt, WellFormed;
    EligiblePlanIsSafe(cfg, ev, ps, true);
    EligiblePlan(cfg, ev, ps, true);
  }

  lemma {:induction false} FirstLift(states: seq<State>, from: nat, to: nat) returns (i: nat)
    requires from <= to < |states|
    requires Frozen(states[from]) && !Frozen(states[to])
    ensures from <= i < to && Frozen(states[i]) && !Frozen(states[i + 1])
    decreases |states| - from
  {
    if Frozen(states[from + 1]) {
      i := FirstLift(states, from + 1, to);
    } else {
      i := from;
    }
  }

  /** Unlock safety over every run: from frozen to not frozen only through such a step, so in a run where
      no other writer lifts the freeze it is lifted on evidence. */
  lemma FreezeLiftedOnlyOnEvidence(states: seq<State>, events: seq<Event>, from: nat, to: nat) returns (i: nat)
    requires IsRun(states, events) && from <= to <= |events|
    requires Frozen(states[from]) && !Frozen(states[to])
    ensures from <= i < to && Frozen(states[i]) && !Frozen(states[i + 1])
    ensures events[i].Elsewhere? || EvidenceUnlock(states[i], events[i], states[i + 1])
  {
    hide Next, EvidenceUnlock, Frozen, WellFormed;
    i := FirstLift(states, from, to);
    LiftNeedsEvidence(states, events, i);
  }
}
