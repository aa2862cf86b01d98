/** Running a reconcile plan works its own backlog off: each clear or flat action removes exactly one
    position from the list the planner would act on, and an unlock-eligible plan leaves nothing to do. */
module Convergence {
  import opened Common
  import opened Reconcile
  import opened ReconcileRun
  import opened UnlockEligibility

  predicate IsFix(a: Action) { a.kind.ClearLocalFlag? || a.kind.MarkFlat? }

  function CountFixes(actions: seq<Action>): nat {
    if actions == [] then 0 else (if IsFix(actions[0]) then 1 else 0) + CountFixes(actions[1..])
  }

  /** The number of positions the planner would act on if it had no action limit. */
  function Backlog(cfg: Config, ev: Evidence, ps: seq<Position>): nat { |Proposed(cfg, ev, ps)| }

  /** Action `a` is what the planner concludes about position `p` in its present state. */
  ghost predicate Owes(cfg: Config, ev: Evidence, p: Position, a: Action) {
    a in ActionsFor(p, Examine(cfg, ev, p))
  }

  ghost predicate IsGlobal(a: Action) { a == GLOBAL_REVIEW || a == GLOBAL_CLEAR }

  /** Every action is global or still owed by a position of its own. */
  ghost predicate Justified(cfg: Config, ev: Evidence, ps: seq<Position>, actions: seq<Action>) {
    (forall a :: a in actions && !IsGlobal(a) ==> exists p :: p in ps && Owes(cfg, ev, p, a))
    && (forall i, j :: 0 <= i < j < |actions| && !IsGlobal(actions[i]) && !IsGlobal(actions[j]) ==>
          actions[i].positionId != actions[j].positionId)
  }

  lemma {:induction false} ProposedConcat(cfg: Config, ev: Evidence, ps: seq<Position>, qs: seq<Position>)
    ensures Proposed(cfg, ev, ps + qs) == Proposed(cfg, ev, ps) + Proposed(cfg, ev, qs)
  {
    hide Examine, ActionsFor;
    if qs == [] {
      assert ps + qs == ps;
    } else {
      var n := |qs| - 1;
      assert (ps + qs)[..|ps + qs| - 1] == ps + qs[..n];
      ProposedConcat(cfg, ev, ps, qs[..n]);
    }
  }

  lemma BacklogAt(cfg: Config, ev: Evidence, ps: seq<Position>, i: nat)
    requires i < |ps|
    ensures Backlog(cfg, ev, ps) == Backlog(cfg, ev, ps[..i])
                                    + |ActionsFor(ps[i], Examine(cfg, ev, ps[i]))| + Backlog(cfg, ev, ps[i + 1..])
  {
    hide Examine, ActionsFor;
    assert ps == ps[..i] + [ps[i]] + ps[i + 1..];
    ProposedConcat(cfg, ev, ps[..i] + [ps[i]], ps[i + 1..]);
    ProposedConcat(cfg, ev, ps[..i], [ps[i]]);
    assert [ps[i]][..0] == [];
    assert Proposed(cfg, ev, [ps[i]]) == Proposed(cfg, ev, []) + ActionsFor(ps[i], Examine(cfg, ev, ps[i]));
  }

  /** `findPosition` reaches the position an action was planned for exactly when no earlier position
      shares its id or its symbol; otherwise the action lands on that earlier position. */
  lemma ActionReachesItsOwner(cfg: Config, ev: Evidence, ps: seq<Position>, i: nat, a: Action)
    requires i < |ps| && ps[i].id != 0
    requires Owes(cfg, ev, ps[i], a)
    ensures FindPosition(ps, a) == i <==>
            forall j :: 0 <= j < i ==> ps[j].id != ps[i].id && ps[j].symbol != ps[i].symbol
  {
    hide Examine, ActionsFor;
    FindingEffects(cfg, ev, ps[i]);
    assert Matches(ps[i], a);
  }

  lemma OwedActionFindsItsPosition(cfg: Config, ev: Evidence, ps: seq<Position>, i: nat, a: Action)
    requires WellFormed(ps) && i < |ps|
    requires Owes(cfg, ev, ps[i], a)
    ensures FindPosition(ps, a) == i && a.positionId == ps[i].id && a.positionId != 0
  {
    hide Examine, ActionsFor, FindPosition;
    FindingEffects(cfg, ev, ps[i]);
    ActionReachesItsOwner(cfg, ev, ps, i, a);
  }

  lemma ClearedIsQuiet(cfg: Config, ev: Evidence, p: Position, a: Action, broker: Broker)
    requires Examine(cfg, ev, p).Clearable?
    ensures Examine(cfg, ev, Cleared(p, a, broker)).Quiet?
    ensures !HasBlockingState(Cleared(p, a, broker))
  {
    var q := Cleared(p, a, broker);
    assert Problems(cfg, ev, q) == Problems(cfg, ev, p);
    assert ProtectiveEvidence(ev, q);
  }

  lemma {:induction false} WithoutOne(ps: seq<Position>, i: nat)
    requires WellFormed(ps) && i < |ps|
    ensures Without(ps, ps[i].id) == ps[..i] + ps[i + 1..]
  {
    if i == 0 {
      WithoutNone(ps[1..], ps[0].id);
    } else {
      assert ps[0].id != ps[i].id;
      WithoutOne(ps[1..], i - 1);
      assert ps[1..][..i - 1] == ps[1..i] && ps[1..][i..] == ps[i + 1..];
      assert ps[..i] == [ps[0]] + ps[1..i];
    }
  }

  lemma {:induction false} WithoutNone(ps: seq<Position>, id: nat)
    requires forall p :: p in ps ==> p.id != id
    ensures Without(ps, id) == ps
  {
    if ps != [] {
      WithoutNone(ps[1..], id);
    }
  }

  lemma OwedClear(cfg: Config, ev: Evidence, ps: seq<Position>, i: nat, a: Action, broker: Broker)
    requires WellFormed(ps) && i < |ps|
    requires Owes(cfg, ev, ps[i], a) && a.kind.ClearLocalFlag?
    ensures var after := ps[i := Cleared(ps[i], a, broker)];
            && WellFormed(after)
            && Backlog(cfg, ev, after) == Backlog(cfg, ev, ps) - 1
  {
    hide Examine, Cleared, Backlog;
    var q := Cleared(ps[i], a, broker);
    SameKey(ps[i], a, broker);
    var after := ps[i := q];
    ClearedIsQuiet(cfg, ev, ps[i], a, broker);
    BacklogAt(cfg, ev, ps, i);
    BacklogAt(cfg, ev, after, i);
    assert after[..i] == ps[..i] && after[i + 1..] == ps[i + 1..];
  }

  lemma DropKeepsWellFormed(ps: seq<Position>, i: nat)
    requires WellFormed(ps) && i < |ps|
    ensures WellFormed(ps[..i] + ps[i + 1..])
  {
    var after := ps[..i] + ps[i + 1..];
    forall x, y | 0 <= x < y < |after|
      ensures after[x].id != after[y].id && after[x].symbol != after[y].symbol
    {
      var x', y' := if x < i then x else x + 1, if y < i then y else y + 1;
      assert after[x] == ps[x'] && after[y] == ps[y'];
    }
  }

  lemma OwedFlat(cfg: Config, ev: Evidence, ps: seq<Position>, i: nat, a: Action)
    requires WellFormed(ps) && i < |ps|
    requires Owes(cfg, ev, ps[i], a) && a.kind.MarkFlat?
    ensures var after := Without(ps, ps[i].id);
            && WellFormed(after)
            && Backlog(cfg, ev, after) == Backlog(cfg, ev, ps) - 1
            && after == ps[..i] + ps[i + 1..]
  {
    hide Examine, ActionsFor, Backlog, WellFormed;
    WithoutOne(ps, i);
    DropKeepsWellFormed(ps, i);
    FindingEffects(cfg, ev, ps[i]);
    BacklogAt(cfg, ev, ps, i);
    BacklogConcat(cfg, ev, ps[..i], ps[i + 1..]);
  }

  /** One owed action: it touches its own position only; a fix lowers the backlog by one, anything else
      leaves every position as it was. */
  lemma OwedStep(cfg: Config, ev: Evidence, st: State, i: nat, a: Action, broker: Broker)
    requires WellFormed(st.positions) && i < |st.positions|
    requires Owes(cfg, ev, st.positions[i], a)
    ensures var ps, after := st.positions, Step(st, a, broker).positions;
            && WellFormed(after)
            && Backlog(cfg, ev, after) == Backlog(cfg, ev, ps) - (if IsFix(a) then 1 else 0)
            && (forall k :: 0 <= k < |ps| && k != i ==> ps[k] in after)
            && (forall q :: q in after ==> q in ps || (q == Cleared(ps[i], a, broker) && a.kind.ClearLocalFlag?))
            && (!IsFix(a) ==> after == ps)
            && (IsFix(a) ==> ResultOf(st, a).Applied?)
  {
    hide Examine, Cleared, Backlog, ActionsFor, Owes, WellFormed, Without;
    var ps := st.positions;
    OwedActionFindsItsPosition(cfg, ev, ps, i, a);
    if a.kind.ClearLocalFlag? {
      OwedClear(cfg, ev, ps, i, a, broker);
      var after := ps[i := Cleared(ps[i], a, broker)];
      forall k | 0 <= k < |ps| && k != i
        ensures ps[k] in after
      {
        assert after[k] == ps[k];
      }
    } else if a.kind.MarkFlat? {
      OwedFlat(cfg, ev, ps, i, a);
    }
  }

  lemma SameKey(p: Position, a: Action, broker: Broker)
    ensures Cleared(p, a, broker).id == p.id && Cleared(p, a, broker).symbol == p.symbol
  {
  }

  lemma BacklogConcat(cfg: Config, ev: Evidence, ps: seq<Position>, qs: seq<Position>)
    ensures Backlog(cfg, ev, ps + qs) == Backlog(cfg, ev, ps) + Backlog(cfg, ev, qs)
  {
    ProposedConcat(cfg, ev, ps, qs);
  }

  lemma GlobalStep(st: State, a: Action, broker: Broker)
    requires IsGlobal(a)
    ensures Step(st, a, broker).positions == st.positions
  {
  }

  lemma {:induction false} RunWorksBacklogOff(cfg: Config, ev: Evidence, st: State,
                                            actions: seq<Action>, broker: Broker)
    requires WellFormed(st.positions)
    requires Justified(cfg, ev, st.positions, actions)
    ensures var after := RunActions(st, actions, broker).positions;
            && WellFormed(after)
            && Backlog(cfg, ev, after) == Backlog(cfg, ev, st.positions) - CountFixes(actions)
            && (CountFixes(actions) == 0 ==> after == st.positions)
    decreases actions
  {
    hide Examine, ActionsFor, Step, Backlog, IsFix;
    if actions != [] {
      var a, rest, ps := actions[0], actions[1..], st.positions;
      var next := Step(st, a, broker);
      if IsGlobal(a) {
        GlobalStep(st, a, broker);
        GlobalIsNoFix(a);
      } else {
        JustifiedStep(cfg, ev, st, actions, broker);
      }
      assert Justified(cfg, ev, next.positions, rest);
      RunWorksBacklogOff(cfg, ev, next, rest, broker);
    }
  }

  lemma GlobalIsNoFix(a: Action)
    requires IsGlobal(a)
    ensures !IsFix(a)
  {
  }

  lemma JustifiedStep(cfg: Config, ev: Evidence, st: State, actions: seq<Action>, broker: Broker)
    requires WellFormed(st.positions)
    requires actions != [] && !IsGlobal(actions[0])
    requires Justified(cfg, ev, st.positions, actions)
    ensures var a, after := actions[0], Step(st, actions[0], broker).positions;
            && WellFormed(after)
            && Backlog(cfg, ev, after) == Backlog(cfg, ev, st.positions) - (if IsFix(a) then 1 else 0)
            && Justified(cfg, ev, after, actions[1..])
            && (!IsFix(a) ==> after == st.positions)
            && (IsFix(a) ==> ResultOf(st, a).Applied?)
  {
    hide Examine, ActionsFor, Step, Backlog, IsFix, Cleared, IsGlobal;
    var a, rest, ps := actions[0], actions[1..], st.positions;
    assert a in actions;
    var i: nat :| i < |ps| && Owes(cfg, ev, ps[i], a);
    OwedStep(cfg, ev, st, i, a, broker);
    OwedActionFindsItsPosition(cfg, ev, ps, i, a);
    var after := Step(st, a, broker).positions;
    forall b | b in rest && !IsGlobal(b)
      ensures exists p :: p in after && Owes(cfg, ev, p, b)
    {
      var j :| 0 <= j < |rest| && rest[j] == b;
      assert b == actions[j + 1] && a.positionId != b.positionId;
      var k: nat :| k < |ps| && Owes(cfg, ev, ps[k], b);
      OwedActionFindsItsPosition(cfg, ev, ps, k, b);
      assert ps[k] in after;
    }
    forall x, y | 0 <= x < y < |rest| && !IsGlobal(rest[x]) && !IsGlobal(rest[y])
      ensures rest[x].positionId != rest[y].positionId
    {
      assert rest[x] == actions[x + 1] && rest[y] == actions[y + 1];
    }
  }

  lemma {:induction false} ProposedIsJustified(cfg: Config, ev: Evidence, ps: seq<Position>)
    requires WellFormed(ps)
    ensures Justified(cfg, ev, ps, Proposed(cfg, ev, ps))
    ensures forall a :: a in Proposed(cfg, ev, ps) ==> exists p :: p in ps && a.positionId == p.id
  {
    hide Examine, ActionsFor, IsGlobal;
    if ps != [] {
      var n := |ps| - 1;
      ProposedIsJustified(cfg, ev, ps[..n]);
      FindingEffects(cfg, ev, ps[n]);
      assert ps == ps[..n] + [ps[n]];
      var last := ActionsFor(ps[n], Examine(cfg, ev, ps[n]));
      assert Proposed(cfg, ev, ps) == Proposed(cfg, ev, ps[..n]) + last;
      forall a | a in Proposed(cfg, ev, ps) && !IsGlobal(a)
        ensures exists p :: p in ps && Owes(cfg, ev, p, a)
      {
        if a in last {
          assert Owes(cfg, ev, ps[n], a);
        } else {
          var p :| p in ps[..n] && Owes(cfg, ev, p, a);
        }
      }
    }
  }

  /** How many of the owed actions fit in one plan. */
  function PlannedCount(cfg: Config, ev: Evidence, ps: seq<Position>): nat {
    if !Enabled(cfg) then 0
    else if Backlog(cfg, ev, ps) > MaxActions(cfg) then MaxActions(cfg)
    else Backlog(cfg, ev, ps)
  }

  /** A plan's actions are a prefix of what the positions call for, followed by global actions. */
  lemma PlanActions(cfg: Config, ev: Evidence, ps: seq<Position>, frozen: bool) returns (n: nat, globals: seq<Action>)
    ensures n <= Backlog(cfg, ev, ps)
    ensures forall a :: a in globals ==> IsGlobal(a)
    ensures PlanFor(cfg, ev, ps, frozen).actions == Proposed(cfg, ev, ps)[..n] + globals
    ensures n == PlannedCount(cfg, ev, ps)
  {
    hide Objections, Proposed, Trust, ReviewNeeded, MinConfidence, MaxActions, Covered, UnlockKind, StatusOf, Dedup,
      Enabled, Clamp;
    var proposed := Proposed(cfg, ev, ps);
    var plan := PlanFor(cfg, ev, ps, frozen);
    if !Enabled(cfg) {
      n, globals := 0, [];
    } else {
      n := if |proposed| > MaxActions(cfg) then MaxActions(cfg) else |proposed|;
      globals := plan.actions[n..];
    }
  }

  lemma PlanIsJustified(cfg: Config, ev: Evidence, ps: seq<Position>, frozen: bool)
    requires WellFormed(ps)
    ensures Justified(cfg, ev, ps, PlanFor(cfg, ev, ps, frozen).actions)
  {
    hide Examine, ActionsFor, Proposed, PlanFor, IsGlobal;
    ProposedIsJustified(cfg, ev, ps);
    var n, globals := PlanActions(cfg, ev, ps, frozen);
  }

  /** Reconcile convergence, one round: the backlog falls by exactly the number of clear and flat
      actions in the (possibly truncated) plan, and a plan without any leaves the positions alone. */
  lemma RoundWorksBacklogOff(cfg: Config, ev: Evidence, st: State, broker: Broker)
    requires WellFormed(st.positions)
    ensures var plan := PlanFor(cfg, ev, st.positions, Frozen(st));
            var after := RunActions(st, plan.actions, broker).positions;
            && WellFormed(after)
            && Backlog(cfg, ev, after) == Backlog(cfg, ev, st.positions) - CountFixes(plan.actions)
            && (CountFixes(plan.actions) == 0 ==> after == st.positions)
  {
    hide PlanFor;
    PlanIsJustified(cfg, ev, st.positions, Frozen(st));
    RunWorksBacklogOff(cfg, ev, st, PlanFor(cfg, ev, st.positions, Frozen(st)).actions, broker);
  }

  lemma {:induction false} CountFixesConcat(xs: seq<Action>, ys: seq<Action>)
    ensures CountFixes(xs + ys) == CountFixes(xs) + CountFixes(ys)
  {
    if xs == [] {
      assert xs + ys == ys;
    } else {
      assert (xs + ys)[1..] == xs[1..] + ys;
      CountFixesConcat(xs[1..], ys);
    }
  }

  lemma {:induction false} GlobalsFixNothing(globals: seq<Action>)
    requires forall a :: a in globals ==> IsGlobal(a)
    ensures CountFixes(globals) == 0
  {
    if globals != [] {
      assert globals[0] in globals;
      GlobalIsNoFix(globals[0]);
      GlobalsFixNothing(globals[1..]);
    }
  }

  /** A round can only fix what is among the first owed actions: it changes no position exactly when none
      of those is a fix. (`Starvation` says which fixes are ever applied over all rounds.) */
  lemma RoundStarves(cfg: Config, ev: Evidence, st: State, broker: Broker)
    requires WellFormed(st.positions)
    ensures var fixes := CountFixes(Proposed(cfg, ev, st.positions)[..PlannedCount(cfg, ev, st.positions)]);
            var after := OneRound(cfg, ev, st, broker).positions;
            && Backlog(cfg, ev, after) == Backlog(cfg, ev, st.positions) - fixes
            && (after == st.positions <==> fixes == 0)
  {
    hide PlanFor, Proposed, PlannedCount, RunActions;
    var n, globals := PlanActions(cfg, ev, st.positions, Frozen(st));
    RoundWorksBacklogOff(cfg, ev, st, broker);
    CountFixesConcat(Proposed(cfg, ev, st.positions)[..n], globals);
    GlobalsFixNothing(globals);
  }

  function OneRound(cfg: Config, ev: Evidence, st: State, broker: Broker): State {
    RunActions(st, PlanFor(cfg, ev, st.positions, Frozen(st)).actions, broker)
  }

  function Rounds(cfg: Config, ev: Evidence, st: State, broker: Broker, n: nat): State {
    if n == 0 then st else OneRound(cfg, ev, Rounds(cfg, ev, st, broker, n - 1), broker)
  }

  lemma {:induction false} StableOrProgress(cfg: Config, ev: Evidence, st: State, broker: Broker, n: nat)
    requires WellFormed(st.positions)
    ensures var now := Rounds(cfg, ev, st, broker, n);
            && WellFormed(now.positions)
            && (OneRound(cfg, ev, now, broker).positions == now.positions
                || Backlog(cfg, ev, now.positions) + n <= Backlog(cfg, ev, st.positions))
  {
    hide Proposed, OneRound, Backlog, PlannedCount;
    if n > 0 {
      StableOrProgress(cfg, ev, st, broker, n - 1);
      var before := Rounds(cfg, ev, st, broker, n - 1);
      RoundKeepsWellFormed(cfg, ev, before, broker);
      RoundStarves(cfg, ev, before, broker);
      RoundStarves(cfg, ev, OneRound(cfg, ev, before, broker), broker);
    }
  }

  lemma RoundKeepsWellFormed(cfg: Config, ev: Evidence, st: State, broker: Broker)
    requires WellFormed(st.positions)
    ensures WellFormed(OneRound(cfg, ev, st, broker).positions)
  {
    hide PlanFor;
    RoundWorksBacklogOff(cfg, ev, st, broker);
  }

  /** Reconcile convergence, all rounds: on fixed evidence the positions stop changing after at most as
      many rounds as there were positions to act on. */
  lemma RoundsConverge(cfg: Config, ev: Evidence, st: State, broker: Broker, n: nat)
    requires WellFormed(st.positions) && n >= Backlog(cfg, ev, st.positions)
    ensures Rounds(cfg, ev, st, broker, n + 1).positions == Rounds(cfg, ev, st, broker, n).positions
  {
    hide PlanFor, OneRound, PlannedCount;
    StableOrProgress(cfg, ev, st, broker, n);
    var now := Rounds(cfg, ev, st, broker, n);
    if Backlog(cfg, ev, now.positions) == 0 {
      NoBacklogNoChange(cfg, ev, now, broker);
    }
  }

  lemma NoBacklogNoChange(cfg: Config, ev: Evidence, st: State, broker: Broker)
    requires WellFormed(st.positions) && Backlog(cfg, ev, st.positions) == 0
    ensures OneRound(cfg, ev, st, broker).positions == st.positions
  {
    hide OneRound;
    RoundStarves(cfg, ev, st, broker);
  }

  /** Every fix of a plan finds its position and is applied. */
  lemma {:induction false} FixesAreApplied(cfg: Config, ev: Evidence, st: State, actions: seq<Action>, broker: Broker)
    requires WellFormed(st.positions) && Justified(cfg, ev, st.positions, actions)
    ensures var results := Results(st, actions, broker);
            && |results| == |actions|
            && forall i :: 0 <= i < |actions| && IsFix(actions[i]) ==> results[i].Applied?
    decreases actions
  {
    hide Examine, ActionsFor, Step, Backlog, IsFix, ResultOf;
    if actions != [] {
      var a := actions[0];
      var next := Step(st, a, broker);
      if IsGlobal(a) {
        GlobalStep(st, a, broker);
        GlobalIsNoFix(a);
        assert Justified(cfg, ev, next.positions, actions[1..]);
      } else {
        JustifiedStep(cfg, ev, st, actions, broker);
      }
      FixesAreApplied(cfg, ev, next, actions[1..], broker);
    }
  }

  lemma PlannedFixesAreApplied(cfg: Config, ev: Evidence, st: State, broker: Broker)
    requires WellFormed(st.positions)
    ensures var actions := PlanFor(cfg, ev, st.positions, Frozen(st)).actions;
            var results := Results(st, actions, broker);
            && |results| == |actions|
            && forall i :: 0 <= i < |actions| && IsFix(actions[i]) ==> results[i].Applied?
  {
    hide PlanFor, IsFix;
    PlanIsJustified(cfg, ev, st.positions, Frozen(st));
    FixesAreApplied(cfg, ev, st, PlanFor(cfg, ev, st.positions, Frozen(st)).actions, broker);
  }
}
