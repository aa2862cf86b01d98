/** The execution-intent ledger of src/execution/executionIntentLedger.js. The source's `intents` object is
    a dictionary that keeps insertion order, so it is a sequence of records with distinct ids here. */
module IntentLedger {
  import opened Common

  datatype Status = Pending | Submitted | Completed | Failed | Ambiguous | SkippedStatus | OtherStatus

  predicate IsResolved(s: Status) { !s.Pending? && !s.Submitted? && !s.Ambiguous? }

  datatype Kind = Entry | Protection | Exit | ExchangeAction

  datatype StepRecord = StepRecord(at: int, what: string)

  datatype Intent = Intent(
    id: nat,
    dedupeKey: string,
    kind: Kind,
    status: Status,
    updatedAt: int,
    resolvedAt: Option<int>,
    ambiguityReason: Option<string>,
    blocked: bool,
    resumeRequired: bool,
    recoveredAt: Option<int>,
    steps: seq<StepRecord>)

  datatype State = State(intents: seq<Intent>, recentIds: seq<nat>, unresolvedIds: seq<nat>)

  /** The fields a caller may overwrite; `None` leaves a field as it is. */
  datatype Patch = Patch(
    status: Option<Status>,
    blocked: Option<bool>,
    resumeRequired: Option<bool>,
    ambiguityReason: Option<Option<string>>,
    recoveredAt: Option<int>,
    updatedAt: Option<int>)

  const LEDGER_LIMIT: nat := 160
  const STEP_LIMIT: nat := 20

  predicate Unresolved(x: Intent) { !IsResolved(x.status) }

  ghost predicate DistinctIds(s: seq<Intent>) {
    forall i, j :: 0 <= i < j < |s| ==> s[i].id != s[j].id
  }

  function Ids(s: seq<Intent>): seq<nat> { seq(|s|, i requires 0 <= i < |s| => s[i].id) }

  function IdSet(s: seq<Intent>): set<nat> { set x | x in s :: x.id }

  function OnlyUnresolved(s: seq<Intent>): seq<Intent> {
    if s == [] then []
    else if Unresolved(s[0]) then [s[0]] + OnlyUnresolved(s[1..])
    else OnlyUnresolved(s[1..])
  }

  function Keep(s: seq<Intent>, ids: set<nat>): seq<Intent> {
    if s == [] then []
    else if s[0].id in ids then [s[0]] + Keep(s[1..], ids)
    else Keep(s[1..], ids)
  }

  // `Array.prototype.sort` by descending update time; it is stable, so ties keep insertion order.

  function Insert(x: Intent, s: seq<Intent>): seq<Intent> {
    if s == [] || s[0].updatedAt <= x.updatedAt then [x] + s else [s[0]] + Insert(x, s[1..])
  }

  function SortRecent(s: seq<Intent>): seq<Intent> {
    if s == [] then [] else Insert(s[0], SortRecent(s[1..]))
  }

  function Recent(s: seq<Intent>): seq<Intent> { Take(SortRecent(s), LEDGER_LIMIT) }

  /** `pruneLedger`: keep the 160 most recent intents and rebuild both id lists. */
  function Pruned(intents: seq<Intent>): State {
    var recent := Recent(intents);
    State(Keep(intents, IdSet(recent)), Ids(recent), Ids(OnlyUnresolved(recent)))
  }

  /** Index of an intent by id; the length when it is not in the ledger. */
  function IndexOf(s: seq<Intent>, id: nat): (i: nat)
    ensures i <= |s|
    ensures i < |s| ==> s[i].id == id
    ensures forall j :: 0 <= j < i ==> s[j].id != id
  {
    if s == [] || s[0].id == id then 0 else 1 + IndexOf(s[1..], id)
  }

  /** Index of the unresolved intent with a dedupe key; the length when there is none. */
  function DuplicateOf(s: seq<Intent>, key: string): (i: nat)
    ensures i <= |s|
    ensures i < |s| ==> s[i].dedupeKey == key && Unresolved(s[i])
    ensures forall j :: 0 <= j < i ==> !(s[j].dedupeKey == key && Unresolved(s[j]))
  {
    if s == [] || (s[0].dedupeKey == key && Unresolved(s[0])) then 0 else 1 + DuplicateOf(s[1..], key)
  }

  function NewIntent(id: nat, key: string, kind: Kind, detail: Option<string>, now: int): Intent {
    Intent(id, key, kind, Pending, now, None, None, false, false, None,
           if detail.Some? then [StepRecord(now, "intent_opened")] else [])
  }

  function LastSteps(s: seq<StepRecord>): seq<StepRecord> {
    if |s| <= STEP_LIMIT then s else s[|s| - STEP_LIMIT..]
  }

  /** `mutateIntent` on one record. */
  function Patched(x: Intent, patch: Patch, step: Option<string>, now: int): Intent {
    var updatedAt := patch.updatedAt.GetOr(now);
    var y := x.(status := patch.status.GetOr(x.status),
                blocked := patch.blocked.GetOr(x.blocked),
                resumeRequired := patch.resumeRequired.GetOr(x.resumeRequired),
                ambiguityReason := patch.ambiguityReason.GetOr(x.ambiguityReason),
                recoveredAt := if patch.recoveredAt.Some? then patch.recoveredAt else x.recoveredAt,
                updatedAt := updatedAt,
                steps := if step.Some? then LastSteps(x.steps + [StepRecord(updatedAt, step.value)]) else x.steps);
    if patch.status.Some? && IsResolved(patch.status.value) && y.resolvedAt.None? then
      y.(resolvedAt := Some(updatedAt))
    else y
  }

  function Mutated(st: State, id: nat, patch: Patch, step: Option<string>, now: int): State {
    var i := IndexOf(st.intents, id);
    if i == |st.intents| then st else Pruned(st.intents[i := Patched(st.intents[i], patch, step, now)])
  }

  /** The record that `mutateIntent` returns, if the ledger has the id: the patched one, even if it is pruned. */
  function MutatedRecord(st: State, id: nat, patch: Patch, step: Option<string>, now: int): Option<Intent> {
    var i := IndexOf(st.intents, id);
    if i == |st.intents| then None else Some(Patched(st.intents[i], patch, step, now))
  }

  /** `beginExecutionIntent` with a fresh id. */
  function Begun(st: State, id: nat, key: string, kind: Kind, detail: Option<string>, now: int): State {
    if DuplicateOf(st.intents, key) < |st.intents| then st
    else Pruned(st.intents + [NewIntent(id, key, kind, detail, now)])
  }

  function RecoveryPatch(x: Intent, reason: string, at: int): Patch {
    Patch(Some(Ambiguous), Some(true), Some(true),
          Some(if x.ambiguityReason.Some? then x.ambiguityReason else Some(reason)), Some(at), None)
  }

  /** The loop of `recoverStaleExecutionIntents` over a snapshot of the intents; `clock` gives the time
      that each successive call of `nowIso` reads. The source hands `mutateIntent` a bare step where an
      options object with `appendStep` is expected, so no step is appended. */
  function RecoverEach(st: State, snapshot: seq<Intent>, reason: string, at: int, clock: nat -> int, tick: nat): State
    decreases snapshot
  {
    if snapshot == [] then st
    else
      var x := snapshot[0];
      if Unresolved(x) then
        RecoverEach(Mutated(st, x.id, RecoveryPatch(x, reason, at), None, clock(tick)),
                    snapshot[1..], reason, at, clock, tick + 1)
      else RecoverEach(st, snapshot[1..], reason, at, clock, tick)
  }

  function Recovered(st: State, reason: string, at: int, clock: nat -> int): State {
    Pruned(RecoverEach(st, st.intents, reason, at, clock, 0).intents)
  }

  function CountUnresolved(s: seq<Intent>): nat {
    if s == [] then 0 else (if Unresolved(s[0]) then 1 else 0) + CountUnresolved(s[1..])
  }

  const COMPLETE := Patch(Some(Completed), Some(false), Some(false), Some(None), None, None)
  const FAIL := Patch(Some(Failed), Some(false), Some(false), None, None, None)
  const MARK_AMBIGUOUS := Patch(Some(Ambiguous), Some(true), Some(true), None, None, None)

  /** `{ ...base, ...patch }`: the caller's fields win. */
  function Over(base: Patch, patch: Patch): Patch {
    Patch(if patch.status.Some? then patch.status else base.status,
          if patch.blocked.Some? then patch.blocked else base.blocked,
          if patch.resumeRequired.Some? then patch.resumeRequired else base.resumeRequired,
          if patch.ambiguityReason.Some? then patch.ambiguityReason else base.ambiguityReason,
          if patch.recoveredAt.Some? then patch.recoveredAt else base.recoveredAt,
          if patch.updatedAt.Some? then patch.updatedAt else base.updatedAt)
  }

  class Ledger {
    var intents: seq<Intent>
    var recentIds: seq<nat>
    var unresolvedIds: seq<nat>
    var lastRecoveryAt: Option<int>

    constructor ()
      ensures View() == State([], [], []) && lastRecoveryAt == None
    {
      intents, recentIds, unresolvedIds, lastRecoveryAt := [], [], [], None;
    }

    function View(): State
      reads this
    {
      State(intents, recentIds, unresolvedIds)
    }

    method Prune()
      modifies this`intents, this`recentIds, this`unresolvedIds
      ensures View() == Pruned(old(intents))
    {
      var recent := Recent(intents);
      var kept: seq<Intent> := [];
      for i := 0 to |intents|
        invariant intents == old(intents)
        invariant kept + Keep(intents[i..], IdSet(recent)) == Keep(intents, IdSet(recent))
      {
        if intents[i].id in IdSet(recent) {
          kept := kept + [intents[i]];
        }
      }
      intents := kept;
      recentIds := Ids(recent);
      unresolvedIds := Ids(OnlyUnresolved(recent));
    }

    method Begin(id: nat, key: string, kind: Kind, detail: Option<string>, now: int)
      returns (intent: Intent, duplicateUnresolved: bool)
      requires forall x :: x in intents ==> x.id != id
      modifies this`intents, this`recentIds, this`unresolvedIds
      ensures View() == Begun(old(View()), id, key, kind, detail, now)
      ensures duplicateUnresolved <==>
              exists x :: x in old(intents) && x.dedupeKey == key && x.status in {Pending, Submitted, Ambiguous}
      ensures duplicateUnresolved ==> intent in old(intents) && intent.dedupeKey == key
      ensures intent.status in {Pending, Submitted, Ambiguous}
      ensures !duplicateUnresolved ==> intent == NewIntent(id, key, kind, detail, now)
    {
      var i := 0;
      while i < |intents|
        invariant i <= |intents| && View() == old(View())
        invariant forall j :: 0 <= j < i ==> !(intents[j].dedupeKey == key && Unresolved(intents[j]))
      {
        if intents[i].dedupeKey == key && Unresolved(intents[i]) {
          return intents[i], true;
        }
        i := i + 1;
      }
      intent, duplicateUnresolved := NewIntent(id, key, kind, detail, now), false;
      intents := intents + [intent];
      Prune();
    }

    method Mutate(id: nat, patch: Patch, step: Option<string>, now: int) returns (next: Option<Intent>)
      modifies this`intents, this`recentIds, this`unresolvedIds
      ensures View() == Mutated(old(View()), id, patch, step, now)
      ensures next == MutatedRecord(old(View()), id, patch, step, now)
      ensures next.Some? <==> exists x :: x in old(intents) && x.id == id
    {
      var i := IndexOf(intents, id);
      if i == |intents| {
        return None;
      }
      assert intents[i] in intents;
      next := Some(Patched(intents[i], patch, step, now));
      intents := intents[i := next.value];
      Prune();
    }

    method Resolve(id: nat, patch: Patch, step: Option<string>, now: int) returns (next: Option<Intent>)
      modifies this`intents, this`recentIds, this`unresolvedIds
      ensures View() == Mutated(old(View()), id, Over(COMPLETE, patch), Some(step.GetOr("intent_completed")), now)
      ensures next == MutatedRecord(old(View()), id, Over(COMPLETE, patch), Some(step.GetOr("intent_completed")), now)
    {
      next := Mutate(id, Over(COMPLETE, patch), Some(step.GetOr("intent_completed")), now);
    }

    method Fail(id: nat, patch: Patch, step: Option<string>, now: int) returns (next: Option<Intent>)
      modifies this`intents, this`recentIds, this`unresolvedIds
      ensures View() == Mutated(old(View()), id, Over(FAIL, patch), Some(step.GetOr("intent_failed")), now)
      ensures next == MutatedRecord(old(View()), id, Over(FAIL, patch), Some(step.GetOr("intent_failed")), now)
    {
      next := Mutate(id, Over(FAIL, patch), Some(step.GetOr("intent_failed")), now);
    }

    method MarkAmbiguous(id: nat, patch: Patch, step: Option<string>, now: int) returns (next: Option<Intent>)
      modifies this`intents, this`recentIds, this`unresolvedIds
      ensures View() == Mutated(old(View()), id, Over(MARK_AMBIGUOUS, patch), Some(step.GetOr("intent_ambiguous")), now)
      ensures next == MutatedRecord(old(View()), id, Over(MARK_AMBIGUOUS, patch),
                                    Some(step.GetOr("intent_ambiguous")), now)
    {
      next := Mutate(id, Over(MARK_AMBIGUOUS, patch), Some(step.GetOr("intent_ambiguous")), now);
    }

    method Recover(reason: string, at: int, clock: nat -> int) returns (recovered: nat)
      modifies this
      ensures View() == Recovered(old(View()), reason, at, clock)
      ensures recovered == CountUnresolved(old(intents))
      ensures lastRecoveryAt == if recovered > 0 then Some(at) else old(lastRecoveryAt)
    {
      recovered := 0;
      var snapshot := intents;
      for i := 0 to |snapshot|
        invariant recovered + CountUnresolved(snapshot[i..]) == CountUnresolved(snapshot)
        invariant RecoverEach(View(), snapshot[i..], reason, at, clock, recovered)
                  == RecoverEach(old(View()), snapshot, reason, at, clock, 0)
        invariant lastRecoveryAt == old(lastRecoveryAt)
      {
        var x := snapshot[i];
        if Unresolved(x) {
          var _ := Mutate(x.id, RecoveryPatch(x, reason, at), None, clock(recovered));
          recovered := recovered + 1;
        }
      }
      if recovered > 0 {
        lastRecoveryAt := Some(at);
      }
      Prune();
    }
  }

  /** `listExecutionIntents` with `unresolvedOnly`. */
  function ListUnresolved(st: State): seq<Intent> { OnlyUnresolved(SortRecent(st.intents)) }

  function OnlyAmbiguous(s: seq<Intent>): seq<Intent> {
    if s == [] then []
    else if s[0].status.Ambiguous? then [s[0]] + OnlyAmbiguous(s[1..])
    else OnlyAmbiguous(s[1..])
  }

  /** The intents that `buildExecutionIntentBlockers` reports by default. */
  function Blockers(st: State): seq<Intent> { OnlyAmbiguous(ListUnresolved(st)) }
}
