/** The unlock gate over whole ledger runs: what an intent holds, it holds until it is settled or pruned. */
module GateRuns {
  import opened IntentLedger
  import opened LedgerLaws
  import opened LedgerPruning
  import Reconcile
  import SafetyGate

  /** The intent with this id is unresolved and of a kind that holds entries. */
  ghost predicate Holds(st: State, id: nat) {
    exists y :: y in st.intents && y.id == id && Unresolved(y) && SafetyGate.HoldsEntries(y)
  }

  /** The operation gives the intent a resolved status. */
  predicate Settles(op: Op, id: nat) {
    op.Update? && op.target == id && op.patch.status.Some? && IsResolved(op.patch.status.value)
  }

  /** The operation begins a new intent, and 160 intents then precede this one in the recency order. */
  predicate Displaces(st: State, op: Op, id: nat) {
    && op.Begin? && DuplicateOf(st.intents, op.key) == |st.intents| && IndexOf(st.intents, id) < |st.intents|
    && Rank(st.intents + [NewIntent(op.id, op.key, op.kind, op.detail, op.now)],
            IndexOf(st.intents, id)) >= LEDGER_LIMIT
  }

  predicate SettledOrDisplaced(st: State, ops: seq<Op>, id: nat)
    decreases ops
  {
    ops != []
    && (Settles(ops[0], id) || Displaces(st, ops[0], id) || SettledOrDisplaced(Apply(st, ops[0]), ops[1..], id))
  }

  ghost predicate NeverBegins(ops: seq<Op>, id: nat) {
    forall op :: op in ops && op.Begin? ==> op.id != id
  }

  lemma BeginHolds(st: State, op: Op, id: nat)
    requires Valid(st) && Allowed(st, op) && op.Begin? && op.id != id
    ensures Holds(st, id) && !Displaces(st, op, id) ==> Holds(Apply(st, op), id)
    ensures !Holds(st, id) || Displaces(st, op, id) ==> !Holds(Apply(st, op), id)
  {
    if DuplicateOf(st.intents, op.key) == |st.intents| {
      hide Valid, Rank, Pruned, Unresolved, SafetyGate.HoldsEntries;
      ValidParts(st);
      var x := NewIntent(op.id, op.key, op.kind, op.detail, op.now);
      var all := st.intents + [x];
      PrunedFacts(all);
      var k := IndexOf(st.intents, id);
      if k < |st.intents| {
        SurvivesIff(all, k);
        assert all[k] == st.intents[k] && st.intents[k] in st.intents;
        forall y | y in all && y.id == id
          ensures y == all[k]
        {
          SameIntent(all, y, all[k]);
        }
      } else {
        NoSuchId(st.intents, id);
      }
    }
  }

  lemma NoSuchId(s: seq<Intent>, id: nat)
    requires IndexOf(s, id) == |s|
    ensures forall y :: y in s ==> y.id != id
  {
  }

  lemma UpdateHolds(st: State, op: Op, id: nat)
    requires Valid(st) && Allowed(st, op) && op.Update?
    ensures Holds(Apply(st, op), id) <==> Holds(st, id) && !Settles(op, id)
  {
    hide Valid, Mutated;
    ValidParts(st);
    MutatedIntents(st, op.target, op.patch, op.step, op.now);
    var s, t := st.intents, Apply(st, op).intents;
    var i := IndexOf(s, op.target);
    if i < |s| {
      assert s[i] in s && t[i] in t;
      forall k | 0 <= k < |s|
        ensures t[k].id == s[k].id && t[k].kind == s[k].kind
        ensures s[k].id == id ==> (Unresolved(t[k]) <==> Unresolved(s[k]) && !Settles(op, id))
      {
        assert s[k] in s;
        if s[k].id == op.target {
          SameIntent(s, s[k], s[i]);
        }
      }
      hide Unresolved, Settles, Patched;
      CarriesOver(st, Apply(st, op), op, id);
    } else {
      NoSuchId(s, op.target);
    }
  }

  lemma CarriesOver(st: State, st': State, op: Op, id: nat)
    requires |st'.intents| == |st.intents|
    requires forall k :: 0 <= k < |st.intents| ==>
                           st'.intents[k].id == st.intents[k].id && st'.intents[k].kind == st.intents[k].kind
    requires forall k :: 0 <= k < |st.intents| && st.intents[k].id == id ==>
                           (Unresolved(st'.intents[k]) <==> Unresolved(st.intents[k]) && !Settles(op, id))
    ensures Holds(st', id) <==> Holds(st, id) && !Settles(op, id)
  {
    hide Unresolved, Settles, Holds;
    HoldsAt(st, id);
    HoldsAt(st', id);
  }

  lemma HoldsAt(st: State, id: nat)
    ensures Holds(st, id) <==> exists k :: 0 <= k < |st.intents| && st.intents[k].id == id
                                           && Unresolved(st.intents[k]) && SafetyGate.HoldsEntries(st.intents[k])
  {
    hide Unresolved, SafetyGate.HoldsEntries;
    forall k | 0 <= k < |st.intents|
      ensures st.intents[k] in st.intents
    {
    }
  }

  lemma CrashHolds(st: State, op: Op, id: nat)
    requires Valid(st) && op.Crash?
    ensures Holds(Apply(st, op), id) <==> Holds(st, id)
  {
    hide Valid, Recovered, RecoveredFrom;
    ValidParts(st);
    RecoveryPointwise(st, op.reason, op.at, op.clock);
    var s, t := st.intents, Apply(st, op).intents;
    forall k | 0 <= k < |s|
      ensures t[k].id == s[k].id && t[k].kind == s[k].kind && (Unresolved(t[k]) <==> Unresolved(s[k]))
    {
      SafetyGate.RecoveredHolds(s[k], t[k], op.reason, op.at);
      RecoveredKeeps(s[k], t[k], op.reason, op.at);
    }
    CarriesOver(st, Apply(st, op), op, id);
  }

  lemma RecoveredKeeps(x: Intent, y: Intent, reason: string, at: int)
    requires RecoveredFrom(x, y, reason, at)
    ensures y.id == x.id && y.kind == x.kind
  {
  }

  /** One operation: what held still holds exactly unless it is settled or displaced; nothing comes to hold. */
  lemma StepHolds(st: State, op: Op, id: nat)
    requires Valid(st) && Allowed(st, op) && (op.Begin? ==> op.id != id)
    ensures Holds(st, id) ==> (Holds(Apply(st, op), id) <==> !Settles(op, id) && !Displaces(st, op, id))
    ensures !Holds(st, id) ==> !Holds(Apply(st, op), id)
  {
    hide Valid, Apply, Allowed, Holds;
    match op
    case Begin(_, _, _, _, _) => BeginHolds(st, op, id);
    case Update(_, _, _, _) => UpdateHolds(st, op, id);
    case Crash(_, _, _) => CrashHolds(st, op, id);
  }

  lemma {:induction false} NothingComesToHold(st: State, ops: seq<Op>, id: nat)
    requires Valid(st) && AllowedRun(st, ops) && NeverBegins(ops, id) && !Holds(st, id)
    ensures !Holds(After(st, ops), id)
    decreases ops
  {
    hide Valid, Apply, Allowed, Holds;
    if ops != [] {
      assert ops[0] in ops;
      StepHolds(st, ops[0], id);
      StepKeepsValid(st, ops[0]);
      NothingComesToHold(Apply(st, ops[0]), ops[1..], id);
    }
  }

  /** Over every run an entry or protection intent holds until it is settled or displaced by newer ones. */
  lemma {:induction false} HoldsUntilSettled(st: State, ops: seq<Op>, id: nat)
    requires Valid(st) && AllowedRun(st, ops) && NeverBegins(ops, id) && Holds(st, id)
    ensures Holds(After(st, ops), id) <==> !SettledOrDisplaced(st, ops, id)
    decreases ops
  {
    hide Valid, Apply, Allowed, Holds, Settles, Displaces;
    if ops != [] {
      assert ops[0] in ops;
      StepHolds(st, ops[0], id);
      StepKeepsValid(st, ops[0]);
      if Holds(Apply(st, ops[0]), id) {
        HoldsUntilSettled(Apply(st, ops[0]), ops[1..], id);
      } else {
        NothingComesToHold(Apply(st, ops[0]), ops[1..], id);
      }
    }
  }

  /** Until then the gate is shut, whatever the plan, the positions and the alerts. */
  lemma GateShutUntilSettled(plan: Reconcile.Plan, ps: seq<Reconcile.Position>, alerts: seq<SafetyGate.Severity>,
                             st: State, ops: seq<Op>, id: nat)
    requires Valid(st) && AllowedRun(st, ops) && NeverBegins(ops, id) && Holds(st, id)
    requires !SettledOrDisplaced(st, ops, id)
    ensures !SafetyGate.Evaluate(plan, ps, alerts, ListUnresolved(After(st, ops))).canUnlock
  {
    hide Valid, AllowedRun, SettledOrDisplaced, SafetyGate.Evaluate, After;
    HoldsUntilSettled(st, ops, id);
    var now := After(st, ops);
    var y :| y in now.intents && y.id == id && Unresolved(y) && SafetyGate.HoldsEntries(y);
    SafetyGate.UnresolvedIntentHoldsGate(plan, ps, alerts, now, y);
  }
}
