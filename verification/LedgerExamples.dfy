/** Ledger runs from the empty ledger on which something goes wrong: pruning drops an unresolved entry, and
    with it opens the gate; and reopening an exit breaks the one-per-key rule. */
module LedgerExamples {
  import opened Common
  import opened IntentLedger
  import opened LedgerLaws
  import opened LedgerPruning
  import GateRuns
  import Reconcile
  import SafetyGate

  const NO_INTENTS := State([], [], [])
  const ENTRY_KEY := "symbol:entry:btcusdt:1"
  const EXIT_KEY := "symbol:exit:btcusdt:1"

  const LOST := NewIntent(0, ENTRY_KEY, Entry, None, 0)

  function Later(n: nat): Intent {
    Intent(n, EXIT_KEY, Exit, Completed, n, Some(n), None, false, false, None, [StepRecord(n, "intent_completed")])
  }

  function BeginExit(n: nat): Op { Begin(n, EXIT_KEY, Exit, None, n) }

  /** What `resolveExecutionIntent` does without a patch of its own. */
  function CompleteExit(n: nat): Op { Update(n, COMPLETE, Some("intent_completed"), n) }

  /** The entry, and `n` exits that are begun and completed. */
  function Ops(n: nat): seq<Op> {
    if n == 0 then [Begin(0, ENTRY_KEY, Entry, None, 0)] else Ops(n - 1) + [BeginExit(n), CompleteExit(n)]
  }

  function Crowd(n: nat): seq<Intent> { [LOST] + seq(n, i requires i >= 0 => Later(i + 1)) }

  lemma {:induction false} AfterConcat(st: State, ops: seq<Op>, more: seq<Op>)
    ensures After(st, ops + more) == After(After(st, ops), more)
    ensures AllowedRun(st, ops + more) <==> AllowedRun(st, ops) && AllowedRun(After(st, ops), more)
    decreases ops
  {
    hide Apply, Allowed;
    if ops == [] {
      assert ops + more == more;
    } else {
      assert (ops + more)[1..] == ops[1..] + more;
      AfterConcat(Apply(st, ops[0]), ops[1..], more);
    }
  }

  lemma OneOp(st: State, op: Op)
    ensures After(st, [op]) == Apply(st, op)
    ensures AllowedRun(st, [op]) <==> Allowed(st, op)
  {
    hide Apply, Allowed;
    assert [op][1..] == [];
  }

  lemma TwoOps(st: State, op: Op, next: Op)
    ensures After(st, [op, next]) == Apply(Apply(st, op), next)
    ensures AllowedRun(st, [op, next]) <==> Allowed(st, op) && Allowed(Apply(st, op), next)
  {
    hide Apply, Allowed;
    OneOp(Apply(st, op), next);
    assert [op, next][1..] == [next];
  }

  lemma CrowdFacts(n: nat)
    ensures |Crowd(n)| == n + 1 && LOST in Crowd(n)
    ensures forall k :: 0 <= k <= n ==> Crowd(n)[k].id == k && Crowd(n)[k].updatedAt == k
    ensures forall k :: 0 <= k <= n && Unresolved(Crowd(n)[k]) ==> Crowd(n)[k] == LOST
    ensures DuplicateOf(Crowd(n), EXIT_KEY) == |Crowd(n)|
    ensures n > 0 ==> Crowd(n) == Crowd(n - 1) + [Later(n)]
  {
    assert Crowd(n)[0] == LOST;
    assert |ENTRY_KEY| == 22 && |EXIT_KEY| == 21;
  }

  lemma Opens()
    ensures Valid(After(NO_INTENTS, Ops(0))) && After(NO_INTENTS, Ops(0)).intents == Crowd(0)
    ensures AllowedRun(NO_INTENTS, Ops(0))
  {
    hide Pruned, Valid, After, AllowedRun, Apply, Allowed, Crowd;
    FirstEntry();
    OnlyEntry();
    OneOp(NO_INTENTS, Ops(0)[0]);
  }

  lemma FirstEntry()
    ensures Apply(NO_INTENTS, Ops(0)[0]) == Pruned([LOST]) && Allowed(NO_INTENTS, Ops(0)[0])
  {
    hide Pruned;
    assert [] + [LOST] == [LOST];
  }

  lemma OnlyEntry()
    ensures Valid(Pruned([LOST])) && Pruned([LOST]).intents == Crowd(0)
  {
    hide Pruned, Valid;
    assert Crowd(0) == [LOST];
    PrunedValid([LOST]);
    PruneSmall([LOST]);
  }

  /** One exit is begun and completed. */
  lemma Adds(st: State, n: nat)
    requires 0 < n < LEDGER_LIMIT && Valid(st) && st.intents == Crowd(n - 1)
    ensures var after := Apply(Apply(st, BeginExit(n)), CompleteExit(n));
            Valid(after) && after.intents == Crowd(n)
    ensures Allowed(st, BeginExit(n)) && Allowed(Apply(st, BeginExit(n)), CompleteExit(n))
  {
    hide Valid, Pruned, Crowd, Later;
    CrowdFacts(n - 1);
    CrowdFacts(n);
    Begins(st, n);
    var begun := Apply(st, BeginExit(n));
    StepKeepsValid(begun, CompleteExit(n));
    MutatedIntents(begun, n, COMPLETE, Some("intent_completed"), n);
    Completes(n);
  }

  lemma Begins(st: State, n: nat)
    requires 0 < n < LEDGER_LIMIT && Valid(st) && st.intents == Crowd(n - 1)
    ensures var begun := Apply(st, BeginExit(n));
            && Allowed(st, BeginExit(n)) && Valid(begun)
            && begun.intents == Crowd(n - 1) + [NewIntent(n, EXIT_KEY, Exit, None, n)]
            && IndexOf(begun.intents, n) == n
  {
    hide Valid, Pruned, Crowd, NewIntent, Unresolved;
    CrowdFacts(n - 1);
    StepKeepsValid(st, BeginExit(n));
    var all := Crowd(n - 1) + [NewIntent(n, EXIT_KEY, Exit, None, n)];
    assert all[n].id == n by {
      NewId(n);
    }
    assert forall k :: 0 <= k < n ==> all[k].id == k;
    PruneSmall(all);
  }

  lemma NewId(n: nat)
    ensures NewIntent(n, EXIT_KEY, Exit, None, n).id == n
  {
  }

  lemma Completes(n: nat)
    ensures Patched(NewIntent(n, EXIT_KEY, Exit, None, n), COMPLETE, Some("intent_completed"), n) == Later(n)
  {
    assert [] + [StepRecord(n, "intent_completed")] == [StepRecord(n, "intent_completed")];
  }

  lemma {:induction false} Fills(n: nat)
    requires n < LEDGER_LIMIT
    ensures Valid(After(NO_INTENTS, Ops(n))) && After(NO_INTENTS, Ops(n)).intents == Crowd(n)
    ensures AllowedRun(NO_INTENTS, Ops(n))
  {
    hide Valid, After, AllowedRun, Apply, Allowed, Crowd;
    if n == 0 {
      Opens();
    } else {
      Fills(n - 1);
      var st := After(NO_INTENTS, Ops(n - 1));
      AfterConcat(NO_INTENTS, Ops(n - 1), [BeginExit(n), CompleteExit(n)]);
      TwoOps(st, BeginExit(n), CompleteExit(n));
      Adds(st, n);
    }
  }

  const FULL: State := After(NO_INTENTS, Ops(LEDGER_LIMIT - 1))

  lemma {:induction false} AllAbove(s: seq<Intent>, time: int)
    requires forall y :: y in s ==> y.updatedAt > time
    ensures CountAbove(s, time) == |s|
  {
    if s != [] {
      AllAbove(s[1..], time);
    }
  }

  /** A reachable ledger of 160 intents, and a begin with a free key that drops the pending entry. */
  lemma UnresolvedIsDropped()
    ensures AllowedRun(NO_INTENTS, Ops(LEDGER_LIMIT - 1)) && Valid(FULL) && Allowed(FULL, BeginExit(LEDGER_LIMIT))
    ensures |FULL.intents| == LEDGER_LIMIT && LOST in FULL.intents && Unresolved(LOST)
    ensures DuplicateOf(FULL.intents, EXIT_KEY) == |FULL.intents|
    ensures LOST !in Apply(FULL, BeginExit(LEDGER_LIMIT)).intents
  {
    hide Valid, Pruned, Crowd, After, AllowedRun;
    Fills(LEDGER_LIMIT - 1);
    CrowdFacts(LEDGER_LIMIT - 1);
    var all := FULL.intents + [NewIntent(LEDGER_LIMIT, EXIT_KEY, Exit, None, LEDGER_LIMIT)];
    assert all[0] == LOST && all[..0] == [];
    AllAbove(all[1..], LOST.updatedAt);
    SurvivesIff(all, 0);
  }

  /** With it the gate opens for a plan that nothing else holds up, although the entry was never settled. */
  lemma HeldGateOpens(plan: Reconcile.Plan, ps: seq<Reconcile.Position>, alerts: seq<SafetyGate.Severity>)
    requires plan.eligible && plan.reasons == [] && !plan.manualReview && SafetyGate.Clear(ps, alerts, [])
    ensures var next := Apply(FULL, BeginExit(LEDGER_LIMIT));
            && GateRuns.Holds(FULL, LOST.id)
            && GateRuns.SettledOrDisplaced(FULL, [BeginExit(LEDGER_LIMIT)], LOST.id)
            && !SafetyGate.Evaluate(plan, ps, alerts, ListUnresolved(FULL)).canUnlock
            && SafetyGate.Evaluate(plan, ps, alerts, ListUnresolved(next)).canUnlock
  {
    hide Valid, Apply, After, Pruned, Crowd, SafetyGate.Evaluate, SafetyGate.Blocks;
    UnresolvedIsDropped();
    SafetyGate.UnresolvedIntentHoldsGate(plan, ps, alerts, FULL, LOST);
    IsDisplaced();
    NothingHolds();
    SafetyGate.CanUnlockIff(plan, ps, alerts, ListUnresolved(Apply(FULL, BeginExit(LEDGER_LIMIT))));
  }

  lemma IsDisplaced()
    ensures GateRuns.Displaces(FULL, BeginExit(LEDGER_LIMIT), LOST.id)
  {
    hide Valid, After, AllowedRun, Apply, Crowd;
    UnresolvedIsDropped();
    Fills(LEDGER_LIMIT - 1);
    CrowdFacts(LEDGER_LIMIT - 1);
    var all := FULL.intents + [NewIntent(LEDGER_LIMIT, EXIT_KEY, Exit, None, LEDGER_LIMIT)];
    assert all[0] == LOST && all[..0] == [];
    AllAbove(all[1..], LOST.updatedAt);
  }

  lemma NothingHolds()
    ensures forall x :: x in ListUnresolved(Apply(FULL, BeginExit(LEDGER_LIMIT))) ==> !SafetyGate.HoldsEntries(x)
  {
    hide Valid, After, AllowedRun, Crowd, Pruned;
    UnresolvedIsDropped();
    Fills(LEDGER_LIMIT - 1);
    CrowdFacts(LEDGER_LIMIT - 1);
    var next := Apply(FULL, BeginExit(LEDGER_LIMIT));
    var all := FULL.intents + [NewIntent(LEDGER_LIMIT, EXIT_KEY, Exit, None, LEDGER_LIMIT)];
    PrunedFacts(all);
    SortFacts(next.intents);
    OnlyUnresolvedMembers(SortRecent(next.intents));
  }

  const REOPEN := Patch(Some(Pending), None, None, None, None, None)

  /** An exit is completed, another one begun under its key, and the first set back to pending. */
  lemma ReopeningBreaksKeys()
    ensures var st := Apply(After(NO_INTENTS, Ops(1)), BeginExit(2));
            && Valid(st) && ReopensTaken(st, 1, REOPEN)
            && !Valid(Apply(st, Update(1, REOPEN, None, 3)))
  {
    hide Valid, After, AllowedRun, Pruned, Apply;
    Fills(1);
    CrowdFacts(1);
    var was := After(NO_INTENTS, Ops(1));
    Begins(was, 2);
    var st := Apply(was, BeginExit(2));
    ReopensFirst(st);
    MutateKeepsValid(st, 1, REOPEN, None, 3);
    Updates(st);
  }

  lemma Updates(st: State)
    ensures Apply(st, Update(1, REOPEN, None, 3)) == Mutated(st, 1, REOPEN, None, 3)
  {
  }

  lemma ReopensFirst(st: State)
    requires st.intents == Crowd(1) + [NewIntent(2, EXIT_KEY, Exit, None, 2)]
    ensures ReopensTaken(st, 1, REOPEN)
  {
    var x, y := Later(1), NewIntent(2, EXIT_KEY, Exit, None, 2);
    assert st.intents[1] == x && st.intents[2] == y;
    assert x in st.intents && y in st.intents;
  }
}
