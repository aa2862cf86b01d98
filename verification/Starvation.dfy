/** Which fixes are ever applied when plans are limited: the limit state of any number of reconcile rounds,
    and the exact condition under which a position is starved for ever. */
module Starvation {
  import opened Common
  import opened Reconcile
  import opened ReconcileRun
  import opened UnlockEligibility
  import opened Convergence

  function NonFixes(actions: seq<Action>): seq<Action> {
    if actions == [] then []
    else (if IsFix(actions[0]) then [] else [actions[0]]) + NonFixes(actions[1..])
  }

  function CountNonFixes(actions: seq<Action>): nat { |NonFixes(actions)| }

  /** What a round leaves of the owed actions: the fixes among the first `limit` are gone. */
  function Survivors(actions: seq<Action>, limit: nat): seq<Action> {
    NonFixes(Take(actions, limit)) + actions[|Take(actions, limit)|..]
  }

  /** What any number of rounds leaves: once `limit` actions that are no fixes stand in front, nothing moves. */
  function Remaining(actions: seq<Action>, limit: nat): seq<Action> {
    if actions == [] || limit == 0 then actions
    else if IsFix(actions[0]) then Remaining(actions[1..], limit)
    else [actions[0]] + Remaining(actions[1..], limit - 1)
  }

  // ---------------------------------------------------------------------------------------------
  // One round
  // ---------------------------------------------------------------------------------------------

  lemma {:induction false} NonFixesConcat(xs: seq<Action>, ys: seq<Action>)
    ensures NonFixes(xs + ys) == NonFixes(xs) + NonFixes(ys)
  {
    if xs == [] {
      assert xs + ys == ys;
    } else {
      assert (xs + ys)[1..] == xs[1..] + ys;
      NonFixesConcat(xs[1..], ys);
    }
  }

  /** Each owed action belongs to one position, which owes nothing else. */
  lemma OwnerOf(cfg: Config, ev: Evidence, ps: seq<Position>, done: seq<Action>, a: Action, rest: seq<Action>)
    returns (i: nat)
    requires WellFormed(ps) && Proposed(cfg, ev, ps) == done + [a] + rest
    ensures i < |ps| && Owes(cfg, ev, ps[i], a)
    ensures Proposed(cfg, ev, ps[..i]) == done && Proposed(cfg, ev, ps[i + 1..]) == rest
  {
    hide Examine, ActionsFor, WellFormed, Proposed;
    var all := Proposed(cfg, ev, ps);
    assert all[|done|] == a && a in all;
    ProposedMembers(cfg, ev, ps);
    var p :| p in ps && a in ActionsFor(p, Examine(cfg, ev, p));
    i :| 0 <= i < |ps| && ps[i] == p;
    FindingEffects(cfg, ev, p);
    ProposedAround(cfg, ev, ps, i, a);
    var front := Proposed(cfg, ev, ps[..i]);
    ProposedIsJustified(cfg, ev, ps);
    SamePlace(cfg, ev, ps, all, |front|, |done|);
    assert front == all[..|front|] && done == all[..|done|];
    assert Proposed(cfg, ev, ps[i + 1..]) == all[|front| + 1..] && rest == all[|done| + 1..];
  }

  lemma ProposedAround(cfg: Config, ev: Evidence, ps: seq<Position>, i: nat, a: Action)
    requires i < |ps| && Owes(cfg, ev, ps[i], a)
    ensures Proposed(cfg, ev, ps) == Proposed(cfg, ev, ps[..i]) + [a] + Proposed(cfg, ev, ps[i + 1..])
    ensures Proposed(cfg, ev, ps)[|Proposed(cfg, ev, ps[..i])|] == a
  {
    hide Examine, ActionsFor;
    FindingEffects(cfg, ev, ps[i]);
    assert ActionsFor(ps[i], Examine(cfg, ev, ps[i])) == [a];
    assert ps == ps[..i] + [ps[i]] + ps[i + 1..];
    ProposedConcat(cfg, ev, ps[..i] + [ps[i]], ps[i + 1..]);
    ProposedConcat(cfg, ev, ps[..i], [ps[i]]);
    assert [ps[i]][..0] == [];
    assert Proposed(cfg, ev, [ps[i]]) == Proposed(cfg, ev, []) + ActionsFor(ps[i], Examine(cfg, ev, ps[i]));
  }

  lemma SamePlace(cfg: Config, ev: Evidence, ps: seq<Position>, all: seq<Action>, x: nat, y: nat)
    requires Justified(cfg, ev, ps, all) && x < |all| && y < |all| && all[x] == all[y]
    requires forall a :: a in all ==> exists p :: p in ps && Owes(cfg, ev, p, a)
    ensures x == y
  {
    hide Examine, ActionsFor;
    var a := all[x];
    assert a in all;
    var p :| p in ps && Owes(cfg, ev, p, a);
    FindingEffects(cfg, ev, p);
    assert !IsGlobal(a);
  }

  /** One action: a fix leaves the list of owed actions, anything else stays in it. */
  lemma StepProposes(cfg: Config, ev: Evidence, st: State, broker: Broker,
                     done: seq<Action>, a: Action, rest: seq<Action>)
    requires WellFormed(st.positions) && Proposed(cfg, ev, st.positions) == done + [a] + rest
    ensures WellFormed(Step(st, a, broker).positions)
    ensures Proposed(cfg, ev, Step(st, a, broker).positions) == done + NonFixes([a]) + rest
    ensures !IsFix(a) ==> Step(st, a, broker).positions == st.positions
  {
    hide Examine, ActionsFor, WellFormed, Proposed, Cleared, Without;
    var ps := st.positions;
    var i := OwnerOf(cfg, ev, ps, done, a, rest);
    OwedStep(cfg, ev, st, i, a, broker);
    OwedActionFindsItsPosition(cfg, ev, ps, i, a);
    assert [a][1..] == [];
    if a.kind.ClearLocalFlag? {
      OwedClear(cfg, ev, ps, i, a, broker);
      ClearedProposes(cfg, ev, ps, i, a, broker);
      assert done + [] + rest == done + rest;
    } else if a.kind.MarkFlat? {
      OwedFlat(cfg, ev, ps, i, a);
      ProposedConcat(cfg, ev, ps[..i], ps[i + 1..]);
      assert done + [] + rest == done + rest;
    }
  }

  lemma ClearedOwesNothing(cfg: Config, ev: Evidence, p: Position, a: Action, broker: Broker)
    requires Owes(cfg, ev, p, a) && a.kind.ClearLocalFlag?
    ensures var q := Cleared(p, a, broker); ActionsFor(q, Examine(cfg, ev, q)) == []
  {
    hide Examine, Cleared;
    ClearedIsQuiet(cfg, ev, p, a, broker);
  }

  lemma ClearedProposes(cfg: Config, ev: Evidence, ps: seq<Position>, i: nat, a: Action, broker: Broker)
    requires i < |ps| && Owes(cfg, ev, ps[i], a) && a.kind.ClearLocalFlag?
    ensures Proposed(cfg, ev, ps[i := Cleared(ps[i], a, broker)])
            == Proposed(cfg, ev, ps[..i]) + Proposed(cfg, ev, ps[i + 1..])
  {
    hide Examine, Cleared, ActionsFor;
    var q := Cleared(ps[i], a, broker);
    ClearedOwesNothing(cfg, ev, ps[i], a, broker);
    assert ps[i := q] == ps[..i] + [q] + ps[i + 1..];
    ProposedConcat(cfg, ev, ps[..i] + [q], ps[i + 1..]);
    ProposedConcat(cfg, ev, ps[..i], [q]);
    assert [q][..0] == [];
    assert Proposed(cfg, ev, [q]) == Proposed(cfg, ev, []) + ActionsFor(q, Examine(cfg, ev, q));
  }

  lemma {:induction false} RunProposes(cfg: Config, ev: Evidence, st: State, broker: Broker,
                                       done: seq<Action>, actions: seq<Action>, rest: seq<Action>)
    requires WellFormed(st.positions) && Proposed(cfg, ev, st.positions) == done + actions + rest
    ensures var after := RunActions(st, actions, broker).positions;
            WellFormed(after) && Proposed(cfg, ev, after) == done + NonFixes(actions) + rest
    decreases actions
  {
    hide Step, Proposed, WellFormed, IsFix;
    if actions != [] {
      var a, more := actions[0], actions[1..];
      assert actions == [a] + more;
      assert done + actions + rest == done + [a] + (more + rest);
      StepProposes(cfg, ev, st, broker, done, a, more + rest);
      NonFixesConcat([a], more);
      assert done + NonFixes([a]) + (more + rest) == done + NonFixes([a]) + more + rest;
      RunProposes(cfg, ev, Step(st, a, broker), broker, done + NonFixes([a]), more, rest);
      assert done + NonFixes([a]) + NonFixes(more) == done + (NonFixes([a]) + NonFixes(more));
    }
  }

  lemma {:induction false} GlobalsKeepPositions(st: State, actions: seq<Action>, broker: Broker)
    requires forall a :: a in actions ==> IsGlobal(a)
    ensures RunActions(st, actions, broker).positions == st.positions
    decreases actions
  {
    hide Step, IsGlobal;
    if actions != [] {
      assert actions[0] in actions;
      GlobalStep(st, actions[0], broker);
      GlobalsKeepPositions(Step(st, actions[0], broker), actions[1..], broker);
    }
  }

  lemma {:induction false} RunConcat(st: State, xs: seq<Action>, ys: seq<Action>, broker: Broker)
    ensures RunActions(st, xs + ys, broker) == RunActions(RunActions(st, xs, broker), ys, broker)
    decreases xs
  {
    hide Step;
    if xs == [] {
      assert xs + ys == ys;
    } else {
      assert (xs + ys)[1..] == xs[1..] + ys;
      RunConcat(Step(st, xs[0], broker), xs[1..], ys, broker);
    }
  }

  /** After a round the owed actions are those from before without the fixes of the planned prefix. */
  lemma RoundProposes(cfg: Config, ev: Evidence, st: State, broker: Broker)
    requires WellFormed(st.positions) && Enabled(cfg)
    ensures var after := OneRound(cfg, ev, st, broker).positions;
            WellFormed(after) && Proposed(cfg, ev, after) == Survivors(Proposed(cfg, ev, st.positions), MaxActions(cfg))
  {
    hide PlanFor, RunActions, Proposed, MaxActions, WellFormed;
    var n, globals := PlanActions(cfg, ev, st.positions, Frozen(st));
    var owed := Proposed(cfg, ev, st.positions);
    assert owed == [] + owed[..n] + owed[n..] && owed[..n] == Take(owed, MaxActions(cfg));
    RunProposes(cfg, ev, st, broker, [], owed[..n], owed[n..]);
    RunConcat(st, owed[..n], globals, broker);
    GlobalsKeepPositions(RunActions(st, owed[..n], broker), globals, broker);
    assert [] + NonFixes(owed[..n]) + owed[n..] == NonFixes(owed[..n]) + owed[n..];
  }

  // ---------------------------------------------------------------------------------------------
  // All rounds
  // ---------------------------------------------------------------------------------------------

  lemma {:induction false} NonFixesAreNoFixes(actions: seq<Action>)
    ensures |NonFixes(actions)| <= |actions|
    ensures |NonFixes(actions)| == |actions| ==> NonFixes(actions) == actions
    ensures |NonFixes(actions)| + CountFixes(actions) == |actions|
    ensures forall a :: a in NonFixes(actions) <==> a in actions && !IsFix(a)
  {
    if actions != [] {
      NonFixesAreNoFixes(actions[1..]);
    }
  }

  lemma SurvivorsStep(actions: seq<Action>, limit: nat)
    requires actions != [] && limit > 0
    ensures Survivors(actions, limit)
            == (if IsFix(actions[0]) then [] else [actions[0]]) + Survivors(actions[1..], limit - 1)
  {
    var rest := actions[1..];
    assert Take(actions, limit)[1..] == Take(rest, limit - 1);
    assert actions[|Take(actions, limit)|..] == rest[|Take(rest, limit - 1)|..];
  }

  lemma NothingSurvivesNothing(actions: seq<Action>, limit: nat)
    requires actions == [] || limit == 0
    ensures Survivors(actions, limit) == actions
  {
  }

  /** The limit state is that of what a round leaves. */
  lemma {:induction false} RemainingOfSurvivors(actions: seq<Action>, limit: nat, budget: nat)
    requires budget <= limit
    ensures Remaining(Survivors(actions, budget), limit) == Remaining(actions, limit)
    decreases actions
  {
    hide Survivors;
    if actions == [] || budget == 0 {
      NothingSurvivesNothing(actions, budget);
    } else {
      var a, rest := actions[0], actions[1..];
      SurvivorsStep(actions, budget);
      var kept := Survivors(rest, budget - 1);
      RemainingOfSurvivors(rest, if IsFix(a) then limit else limit - 1, budget - 1);
      assert ([a] + kept)[1..] == kept && [] + kept == kept;
    }
  }

  /** Nothing among the first `limit` is a fix: the limit state is reached. */
  lemma {:induction false} RemainingOfStuck(actions: seq<Action>, limit: nat)
    requires CountFixes(Take(actions, limit)) == 0
    ensures Remaining(actions, limit) == actions
  {
    if actions != [] && limit > 0 {
      assert Take(actions, limit)[1..] == Take(actions[1..], limit - 1);
      RemainingOfStuck(actions[1..], limit - 1);
    }
  }

  /** Every round keeps the limit state of the owed actions, and comes nearer to it or has reached it. */
  lemma {:induction false} RoundsRemain(cfg: Config, ev: Evidence, st: State, broker: Broker, n: nat)
    requires WellFormed(st.positions) && Enabled(cfg)
    ensures var owed, now := Proposed(cfg, ev, st.positions), Rounds(cfg, ev, st, broker, n).positions;
            && WellFormed(now)
            && Remaining(Proposed(cfg, ev, now), MaxActions(cfg)) == Remaining(owed, MaxActions(cfg))
  {
    hide OneRound, Proposed, MaxActions, WellFormed, Remaining;
    if n > 0 {
      RoundsRemain(cfg, ev, st, broker, n - 1);
      var before := Rounds(cfg, ev, st, broker, n - 1);
      RoundProposes(cfg, ev, before, broker);
      RemainingOfSurvivors(Proposed(cfg, ev, before.positions), MaxActions(cfg), MaxActions(cfg));
    }
  }

  /** The limit state of `RoundsConverge`: after as many rounds as there were owed actions, exactly the
      remaining ones are left. */
  lemma RoundsSettle(cfg: Config, ev: Evidence, st: State, broker: Broker, n: nat)
    requires WellFormed(st.positions) && Enabled(cfg) && n >= Backlog(cfg, ev, st.positions)
    ensures Proposed(cfg, ev, Rounds(cfg, ev, st, broker, n).positions)
            == Remaining(Proposed(cfg, ev, st.positions), MaxActions(cfg))
  {
    hide OneRound, Proposed, MaxActions, WellFormed, Remaining, Rounds;
    RoundsRemain(cfg, ev, st, broker, n);
    RoundsConverge(cfg, ev, st, broker, n);
    var now := Rounds(cfg, ev, st, broker, n);
    assert Rounds(cfg, ev, st, broker, n + 1) == OneRound(cfg, ev, now, broker) by {
      NextRound(cfg, ev, st, broker, n);
    }
    RoundStarves(cfg, ev, now, broker);
    PlannedPrefix(cfg, ev, now.positions);
    RemainingOfStuck(Proposed(cfg, ev, now.positions), MaxActions(cfg));
  }

  lemma NextRound(cfg: Config, ev: Evidence, st: State, broker: Broker, n: nat)
    ensures Rounds(cfg, ev, st, broker, n + 1) == OneRound(cfg, ev, Rounds(cfg, ev, st, broker, n), broker)
  {
  }

  lemma PlannedPrefix(cfg: Config, ev: Evidence, ps: seq<Position>)
    requires Enabled(cfg)
    ensures Proposed(cfg, ev, ps)[..PlannedCount(cfg, ev, ps)] == Take(Proposed(cfg, ev, ps), MaxActions(cfg))
  {
    hide Proposed, MaxActions;
  }

  // ---------------------------------------------------------------------------------------------
  // Which fixes are applied
  // ---------------------------------------------------------------------------------------------

  ghost predicate DistinctActions(actions: seq<Action>) {
    forall i, j :: 0 <= i < j < |actions| ==> actions[i] != actions[j]
  }

  /** An action is left in the limit state exactly when it is no fix or too many that are none precede it. */
  lemma {:induction false} RemainsIff(actions: seq<Action>, limit: nat, k: nat)
    requires DistinctActions(actions) && k < |actions|
    ensures actions[k] in Remaining(actions, limit) <==> !IsFix(actions[k]) || CountNonFixes(actions[..k]) >= limit
  {
    if limit > 0 {
      var a, rest := actions[0], actions[1..];
      RemainingMembers(rest, if IsFix(a) then limit else limit - 1);
      if k == 0 {
        assert a !in rest;
      } else {
        assert rest[k - 1] == actions[k] && actions[..k][1..] == rest[..k - 1];
        RemainsIff(rest, if IsFix(a) then limit else limit - 1, k - 1);
      }
    }
  }

  lemma {:induction false} RemainingMembers(actions: seq<Action>, limit: nat)
    ensures forall a :: a in Remaining(actions, limit) ==> a in actions
  {
    if actions != [] && limit > 0 {
      RemainingMembers(actions[1..], if IsFix(actions[0]) then limit else limit - 1);
    }
  }

  lemma ProposedAreDistinct(cfg: Config, ev: Evidence, ps: seq<Position>)
    requires WellFormed(ps)
    ensures DistinctActions(Proposed(cfg, ev, ps))
    ensures forall a :: a in Proposed(cfg, ev, ps) ==> !IsGlobal(a)
  {
    hide Examine, ActionsFor, Proposed, WellFormed;
    var all := Proposed(cfg, ev, ps);
    ProposedIsJustified(cfg, ev, ps);
    ProposedMembers(cfg, ev, ps);
    forall a | a in all
      ensures !IsGlobal(a)
    {
      var p :| p in ps && a in ActionsFor(p, Examine(cfg, ev, p));
      FindingEffects(cfg, ev, p);
    }
    forall i, j | 0 <= i < j < |all|
      ensures all[i] != all[j]
    {
      assert all[i] in all && all[j] in all;
    }
  }

  /** In round `r` the fix is part of the plan, which applies it. */
  ghost predicate AppliedIn(cfg: Config, ev: Evidence, st: State, broker: Broker, a: Action, r: nat) {
    var now := Rounds(cfg, ev, st, broker, r);
    var actions := PlanFor(cfg, ev, now.positions, Frozen(now)).actions;
    var results := Results(now, actions, broker);
    |results| == |actions| && exists i :: 0 <= i < |actions| && actions[i] == a && results[i].Applied?
  }

  /** Within a round, a fix is applied exactly when the round takes it off the owed actions. */
  lemma AppliedIffGone(cfg: Config, ev: Evidence, st: State, broker: Broker, a: Action, r: nat)
    requires WellFormed(st.positions) && Enabled(cfg) && IsFix(a)
    requires a in Proposed(cfg, ev, Rounds(cfg, ev, st, broker, r).positions)
    ensures AppliedIn(cfg, ev, st, broker, a, r) <==>
            a !in Proposed(cfg, ev, Rounds(cfg, ev, st, broker, r + 1).positions)
  {
    hide OneRound, Proposed, MaxActions, WellFormed, Rounds, PlanFor, IsFix;
    RoundsRemain(cfg, ev, st, broker, r);
    NextRound(cfg, ev, st, broker, r);
    var now := Rounds(cfg, ev, st, broker, r);
    var owed := Proposed(cfg, ev, now.positions);
    var actions := PlanFor(cfg, ev, now.positions, Frozen(now)).actions;
    RoundProposes(cfg, ev, now, broker);
    ProposedAreDistinct(cfg, ev, now.positions);
    var n, globals := PlanActions(cfg, ev, now.positions, Frozen(now));
    PlannedPrefix(cfg, ev, now.positions);
    PlannedFixesAreApplied(cfg, ev, now, broker);
    SurvivesIff(owed, MaxActions(cfg), a);
    assert owed[..n] == Take(owed, MaxActions(cfg));
    assert a !in globals && (a in actions <==> a in owed[..n]);
    if a in owed[..n] {
      var i :| 0 <= i < n && owed[..n][i] == a;
      assert actions[i] == a;
    }
  }

  lemma SurvivesIff(actions: seq<Action>, limit: nat, a: Action)
    requires DistinctActions(actions) && a in actions && IsFix(a)
    ensures a in Survivors(actions, limit) <==> a !in Take(actions, limit)
  {
    var head := Take(actions, limit);
    NonFixesAreNoFixes(head);
    var k :| 0 <= k < |actions| && actions[k] == a;
    if k < |head| {
      assert head[k] == a;
      assert a !in actions[|head|..];
    } else {
      assert actions[|head|..][k - |head|] == a;
      assert a !in head;
    }
  }

  /** An action that is not owed any more is never owed again. */
  lemma {:induction false} GoneStaysGone(cfg: Config, ev: Evidence, st: State, broker: Broker,
                                        a: Action, r: nat, n: nat)
    requires WellFormed(st.positions) && Enabled(cfg) && r <= n
    requires a !in Proposed(cfg, ev, Rounds(cfg, ev, st, broker, r).positions)
    ensures a !in Proposed(cfg, ev, Rounds(cfg, ev, st, broker, n).positions)
  {
    hide OneRound, Proposed, MaxActions, WellFormed;
    if r < n {
      GoneStaysGone(cfg, ev, st, broker, a, r, n - 1);
      RoundsRemain(cfg, ev, st, broker, n - 1);
      var before := Rounds(cfg, ev, st, broker, n - 1);
      RoundProposes(cfg, ev, before, broker);
      SurvivorsMembers(Proposed(cfg, ev, before.positions), MaxActions(cfg));
    }
  }

  lemma SurvivorsMembers(actions: seq<Action>, limit: nat)
    ensures forall a :: a in Survivors(actions, limit) ==> a in actions
  {
    NonFixesAreNoFixes(Take(actions, limit));
  }

  lemma {:induction false} LeavesInSomeRound(cfg: Config, ev: Evidence, st: State, broker: Broker, a: Action, n: nat)
    returns (r: nat)
    requires WellFormed(st.positions) && Enabled(cfg)
    requires a in Proposed(cfg, ev, st.positions)
    requires a !in Proposed(cfg, ev, Rounds(cfg, ev, st, broker, n).positions)
    ensures r < n && a in Proposed(cfg, ev, Rounds(cfg, ev, st, broker, r).positions)
    ensures a !in Proposed(cfg, ev, Rounds(cfg, ev, st, broker, r + 1).positions)
  {
    hide OneRound, Proposed;
    if a in Proposed(cfg, ev, Rounds(cfg, ev, st, broker, n - 1).positions) {
      r := n - 1;
    } else {
      r := LeavesInSomeRound(cfg, ev, st, broker, a, n - 1);
    }
  }

  /** A fix that is applied in some round was owed then and is not afterwards. */
  lemma AppliedIsGone(cfg: Config, ev: Evidence, st: State, broker: Broker, a: Action, r: nat)
    requires WellFormed(st.positions) && Enabled(cfg) && IsFix(a)
    requires AppliedIn(cfg, ev, st, broker, a, r)
    ensures a !in Proposed(cfg, ev, Rounds(cfg, ev, st, broker, r + 1).positions)
  {
    hide OneRound, Proposed, WellFormed, Rounds, PlanFor, IsFix, Results;
    RoundsRemain(cfg, ev, st, broker, r);
    var now := Rounds(cfg, ev, st, broker, r);
    var actions := PlanFor(cfg, ev, now.positions, Frozen(now)).actions;
    var n, globals := PlanActions(cfg, ev, now.positions, Frozen(now));
    var i :| 0 <= i < |actions| && actions[i] == a;
    var owed := Proposed(cfg, ev, now.positions);
    if i >= n {
      assert actions[i] in globals;
      GlobalIsNoFix(a);
    }
    assert owed[..n][i] == a && a in owed;
    AppliedIffGone(cfg, ev, st, broker, a, r);
  }

  /** Starvation, exactly: a fix is applied in some round if and only if fewer than the action limit of the
      owed actions before it are no fixes; otherwise it is starved for ever. */
  lemma AppliedInSomeRoundIff(cfg: Config, ev: Evidence, st: State, broker: Broker, k: nat)
    requires WellFormed(st.positions) && Enabled(cfg)
    requires k < Backlog(cfg, ev, st.positions) && IsFix(Proposed(cfg, ev, st.positions)[k])
    ensures (exists r :: AppliedIn(cfg, ev, st, broker, Proposed(cfg, ev, st.positions)[k], r)) <==>
            CountNonFixes(Proposed(cfg, ev, st.positions)[..k]) < MaxActions(cfg)
  {
    hide OneRound, Proposed, MaxActions, WellFormed, Rounds, Remaining, AppliedIn, IsFix, CountNonFixes;
    var owed := Proposed(cfg, ev, st.positions);
    var n := |owed|;
    var a := owed[k];
    ProposedAreDistinct(cfg, ev, st.positions);
    RemainsIff(owed, MaxActions(cfg), k);
    RoundsSettle(cfg, ev, st, broker, n);
    NoRound(cfg, ev, st, broker);
    if CountNonFixes(owed[..k]) < MaxActions(cfg) {
      var r := LeavesInSomeRound(cfg, ev, st, broker, a, n);
      AppliedIffGone(cfg, ev, st, broker, a, r);
    } else if r: nat :| AppliedIn(cfg, ev, st, broker, a, r) {
      AppliedIsGone(cfg, ev, st, broker, a, r);
      var m := if n > r + 1 then n else r + 1;
      GoneStaysGone(cfg, ev, st, broker, a, r + 1, m);
      RoundsSettle(cfg, ev, st, broker, m);
    }
  }

  lemma NoRound(cfg: Config, ev: Evidence, st: State, broker: Broker)
    ensures Rounds(cfg, ev, st, broker, 0) == st
  {
  }
}
