/** What the intent ledger does, said of the statuses an intent can have. */
module IntentMeaning {
  import opened Common
  import opened IntentLedger
  import opened LedgerLaws

  /** Pending, submitted and ambiguous intents await their outcome; all others have one. */
  ghost predicate Awaiting(x: Intent) { x.status in {Pending, Submitted, Ambiguous} }

  lemma AwaitingOrSettled(x: Intent)
    ensures !Awaiting(x) <==> x.status in {Completed, Failed, SkippedStatus, OtherStatus}
  {
    match x.status
    case Pending => case Submitted => case Completed => case Failed => case Ambiguous =>
    case SkippedStatus => case OtherStatus =>
  }

  /** The ledger lists exactly the intents that await their outcome. */
  lemma ListedIff(st: State, x: Intent)
    ensures x in ListUnresolved(st) <==> x in st.intents && Awaiting(x)
  {
    SortFacts(st.intents);
    OnlyUnresolvedMembers(SortRecent(st.intents));
  }

  /** A begin returns an open intent exactly when one with the key awaits its outcome. It is then the first such,
      and the ledger stays as it is; otherwise the ledger is that of a new pending intent, pruned. */
  lemma BeginFindsIff(st: State, id: nat, key: string, kind: Kind, detail: Option<string>, now: int)
    ensures var i, after := DuplicateOf(st.intents, key), Begun(st, id, key, kind, detail, now);
            if exists x :: x in st.intents && x.dedupeKey == key && Awaiting(x) then
              && i < |st.intents| && st.intents[i].dedupeKey == key && Awaiting(st.intents[i]) && after == st
              && forall j :: 0 <= j < i ==> !(st.intents[j].dedupeKey == key && Awaiting(st.intents[j]))
            else i == |st.intents| && after == Pruned(st.intents + [NewIntent(id, key, kind, detail, now)])
  {
    var i := DuplicateOf(st.intents, key);
    assert i < |st.intents| ==> st.intents[i] in st.intents;
  }

  lemma NewIntentMeaning(id: nat, key: string, kind: Kind, detail: Option<string>, now: int)
    ensures var x := NewIntent(id, key, kind, detail, now);
            && x.id == id && x.dedupeKey == key && x.kind == kind && x.status == Pending && x.updatedAt == now
            && x.resolvedAt == None && x.ambiguityReason == None && !x.blocked && !x.resumeRequired
            && x.recoveredAt == None && |x.steps| == (if detail == None then 0 else 1)
  {
  }

  lemma {:induction false} CountAppend(s: seq<Intent>, x: Intent)
    ensures CountUnresolved(s + [x]) == CountUnresolved(s) + (if Awaiting(x) then 1 else 0)
  {
    if s == [] {
      assert s + [x] == [x] && [x][1..] == [];
    } else {
      assert (s + [x])[1..] == s[1..] + [x];
      CountAppend(s[1..], x);
    }
  }

  /** The places of the intents that await their outcome. */
  ghost function Places(s: seq<Intent>): set<int> { set i | 0 <= i < |s| && Awaiting(s[i]) }

  lemma PlacesStep(s: seq<Intent>)
    requires s != []
    ensures var n := |s| - 1;
            Places(s) == Places(s[..n]) + (if Awaiting(s[n]) then {n} else {}) && n !in Places(s[..n])
  {
    hide Awaiting;
    assert forall i :: 0 <= i < |s| - 1 ==> s[..|s| - 1][i] == s[i];
  }

  lemma {:induction false} AwaitingCounted(s: seq<Intent>)
    ensures CountUnresolved(s) == |Places(s)|
  {
    hide Awaiting;
    if s != [] {
      var n := |s| - 1;
      assert s == s[..n] + [s[n]];
      AwaitingCounted(s[..n]);
      CountAppend(s[..n], s[n]);
      PlacesStep(s);
      hide Places;
    }
  }

  /** Recovery makes exactly the awaiting intents ambiguous, blocked and to be resumed, keeping an earlier reason,
      and leaves the others as they are; and it counts them. */
  lemma RecoveryMeaning(st: State, reason: string, at: int, clock: nat -> int)
    requires DistinctIds(st.intents) && |st.intents| <= 160
    ensures var after := Recovered(st, reason, at, clock).intents;
            && |after| == |st.intents|
            && (forall k :: 0 <= k < |after| ==>
                  var x, y := st.intents[k], after[k];
                  && (!Awaiting(x) ==> y == x)
                  && (Awaiting(x) ==>
                        && y.status == Ambiguous && y.blocked && y.resumeRequired && y.recoveredAt == Some(at)
                        && y.ambiguityReason == Some(x.ambiguityReason.GetOr(reason))
                        && y.id == x.id && y.dedupeKey == x.dedupeKey && y.kind == x.kind && y.steps == x.steps))
    ensures CountUnresolved(st.intents) == |Places(st.intents)|
  {
    hide Recovered, Valid, DistinctIds, OnePerKey;
    RecoveryPointwise(st, reason, at, clock);
    AwaitingCounted(st.intents);
    var after := Recovered(st, reason, at, clock).intents;
    forall k | 0 <= k < |after|
      ensures RecoveredFrom(st.intents[k], after[k], reason, at)
    {
    }
  }

  /** A ledger keeps everything while it has no more than 160 intents, and the 160 most recent when it has more. */
  lemma PruneCounts(intents: seq<Intent>)
    requires DistinctIds(intents)
    ensures |intents| <= 160 ==> Pruned(intents).intents == intents
    ensures |intents| > 160 ==> |Pruned(intents).intents| == 160
  {
    SortFacts(intents);
    PrunedFacts(intents);
    if |intents| <= 160 {
      PruneSmall(intents);
    }
  }

  // ---------------------------------------------------------------------------------------------
  // Settling and marking
  // ---------------------------------------------------------------------------------------------

  /** What `mutateIntent` keeps and stamps, whatever the patch. */
  ghost predicate Merged(x: Intent, y: Intent, step: string, at: int) {
    && y.id == x.id && y.dedupeKey == x.dedupeKey && y.kind == x.kind && y.updatedAt == at
    && y.steps != [] && y.steps[|y.steps| - 1] == StepRecord(at, step)
    && |y.steps| == (if |x.steps| < 20 then |x.steps| + 1 else 20)
    && y.steps[..|y.steps| - 1] == x.steps[|x.steps| + 1 - |y.steps|..]
  }

  const NO_PATCH := Patch(None, None, None, None, None, None)

  lemma PatchedMeaning(x: Intent, patch: Patch, step: string, now: int)
    requires |x.steps| <= 20
    ensures Merged(x, Patched(x, patch, Some(step), now), step, patch.updatedAt.GetOr(now))
  {
  }

  lemma RecordOf(st: State, x: Intent, patch: Patch, step: string, now: int)
    requires DistinctIds(st.intents) && x in st.intents
    ensures MutatedRecord(st, x.id, patch, Some(step), now) == Some(Patched(x, patch, Some(step), now))
  {
    hide Patched;
    SameIntent(st.intents, x, st.intents[IndexOf(st.intents, x.id)]);
  }

  lemma ResolveFields(x: Intent, now: int)
    ensures var y := Patched(x, Over(COMPLETE, NO_PATCH), Some("intent_completed"), now);
            && y.status == Completed && y.blocked == false && y.resumeRequired == false
            && y.ambiguityReason == None
            && y.resolvedAt == (if x.resolvedAt == None then Some(now) else x.resolvedAt)
    ensures Over(COMPLETE, NO_PATCH).updatedAt == None
  {
    hide LastSteps;
  }

  /** An intent that is resolved without a patch of one's own is completed, needs nothing, and has its time. */
  lemma ResolveMeaning(st: State, x: Intent, now: int)
    requires DistinctIds(st.intents) && x in st.intents && |x.steps| <= 20
    ensures var y := MutatedRecord(st, x.id, Over(COMPLETE, NO_PATCH), Some("intent_completed"), now);
            && y.Some? && Merged(x, y.value, "intent_completed", now)
            && y.value.status == Completed && y.value.blocked == false && y.value.resumeRequired == false
            && y.value.ambiguityReason == None
            && y.value.resolvedAt == (if x.resolvedAt == None then Some(now) else x.resolvedAt)
  {
    hide Patched, Over, Merged, MutatedRecord;
    RecordOf(st, x, Over(COMPLETE, NO_PATCH), "intent_completed", now);
    PatchedMeaning(x, Over(COMPLETE, NO_PATCH), "intent_completed", now);
    ResolveFields(x, now);
  }

  lemma FailFields(x: Intent, now: int)
    ensures var y := Patched(x, Over(FAIL, NO_PATCH), Some("intent_failed"), now);
            && y.status == Failed && y.blocked == false && y.resumeRequired == false
            && y.ambiguityReason == x.ambiguityReason
            && y.resolvedAt == (if x.resolvedAt == None then Some(now) else x.resolvedAt)
    ensures Over(FAIL, NO_PATCH).updatedAt == None
  {
    hide LastSteps;
  }

  /** A failed one likewise, but it keeps its ambiguity reason. */
  lemma FailMeaning(st: State, x: Intent, now: int)
    requires DistinctIds(st.intents) && x in st.intents && |x.steps| <= 20
    ensures var y := MutatedRecord(st, x.id, Over(FAIL, NO_PATCH), Some("intent_failed"), now);
            && y.Some? && Merged(x, y.value, "intent_failed", now)
            && y.value.status == Failed && y.value.blocked == false && y.value.resumeRequired == false
            && y.value.ambiguityReason == x.ambiguityReason
            && y.value.resolvedAt == (if x.resolvedAt == None then Some(now) else x.resolvedAt)
  {
    hide Patched, Over, Merged, MutatedRecord;
    RecordOf(st, x, Over(FAIL, NO_PATCH), "intent_failed", now);
    PatchedMeaning(x, Over(FAIL, NO_PATCH), "intent_failed", now);
    FailFields(x, now);
  }

  lemma MarkFields(x: Intent, now: int)
    ensures var y := Patched(x, Over(MARK_AMBIGUOUS, NO_PATCH), Some("intent_ambiguous"), now);
            && y.status == Ambiguous && y.blocked == true && y.resumeRequired == true
            && y.ambiguityReason == x.ambiguityReason
            && y.resolvedAt == x.resolvedAt
    ensures Over(MARK_AMBIGUOUS, NO_PATCH).updatedAt == None
  {
    hide LastSteps;
  }

  /** One that is marked ambiguous is blocked, is to be resumed, and counts as open again. */
  lemma MarkMeaning(st: State, x: Intent, now: int)
    requires DistinctIds(st.intents) && x in st.intents && |x.steps| <= 20
    ensures var y := MutatedRecord(st, x.id, Over(MARK_AMBIGUOUS, NO_PATCH), Some("intent_ambiguous"), now);
            && y.Some? && Merged(x, y.value, "intent_ambiguous", now)
            && y.value.status == Ambiguous && y.value.blocked == true && y.value.resumeRequired == true
            && y.value.ambiguityReason == x.ambiguityReason
            && y.value.resolvedAt == x.resolvedAt
  {
    hide Patched, Over, Merged, MutatedRecord;
    RecordOf(st, x, Over(MARK_AMBIGUOUS, NO_PATCH), "intent_ambiguous", now);
    PatchedMeaning(x, Over(MARK_AMBIGUOUS, NO_PATCH), "intent_ambiguous", now);
    MarkFields(x, now);
  }

  /** Fields that the caller patches win over the defaults, and a status that is an outcome is stamped. */
  lemma CallerWins(x: Intent, base: Patch, patch: Patch, step: Option<string>, now: int)
    ensures var y := Patched(x, Over(base, patch), step, now);
            && (patch.status.Some? ==> y.status == patch.status.value)
            && (patch.blocked.Some? ==> y.blocked == patch.blocked.value)
            && (patch.resumeRequired.Some? ==> y.resumeRequired == patch.resumeRequired.value)
            && (patch.ambiguityReason.Some? ==> y.ambiguityReason == patch.ambiguityReason.value)
            && (patch.updatedAt.Some? ==> y.updatedAt == patch.updatedAt.value)
            && (patch.updatedAt == None && base.updatedAt.Some? ==> y.updatedAt == base.updatedAt.value)
            && (patch.recoveredAt.Some? ==> y.recoveredAt == patch.recoveredAt)
            && (patch.recoveredAt == None && base.recoveredAt.Some? ==> y.recoveredAt == base.recoveredAt)
            && (patch.status.Some? && patch.status.value in {Completed, Failed, SkippedStatus, OtherStatus} ==>
                  y.resolvedAt.Some? && (x.resolvedAt.Some? ==> y.resolvedAt == x.resolvedAt))
            && (patch.status.Some? && patch.status.value in {Pending, Submitted, Ambiguous} ==>
                  y.resolvedAt == x.resolvedAt)
  {
    hide LastSteps;
  }
}
