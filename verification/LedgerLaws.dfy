/** What every operation of the execution-intent ledger keeps, over whole runs and across a crash. */
module LedgerLaws {
  import opened Common
  import opened IntentLedger

  // ---------------------------------------------------------------------------------------------
  // The recency order
  // ---------------------------------------------------------------------------------------------

  ghost predicate Descending(s: seq<Intent>) {
    forall i, j :: 0 <= i < j < |s| ==> s[i].updatedAt >= s[j].updatedAt
  }

  lemma {:induction false} InsertMembers(x: Intent, s: seq<Intent>)
    ensures multiset(Insert(x, s)) == multiset(s) + multiset{x}
    ensures |Insert(x, s)| == |s| + 1
    ensures forall y :: y in Insert(x, s) <==> y == x || y in s
  {
    if s != [] {
      assert s == [s[0]] + s[1..];
      if s[0].updatedAt > x.updatedAt {
        InsertMembers(x, s[1..]);
      }
    }
  }

  lemma PrependDescending(x: Intent, s: seq<Intent>)
    requires Descending(s)
    requires forall y :: y in s ==> y.updatedAt <= x.updatedAt
    ensures Descending([x] + s)
  {
  }

  lemma PrependDistinct(x: Intent, s: seq<Intent>)
    requires DistinctIds(s)
    requires forall y :: y in s ==> y.id != x.id
    ensures DistinctIds([x] + s)
  {
  }

  lemma {:induction false} InsertFacts(x: Intent, s: seq<Intent>)
    requires Descending(s)
    ensures Descending(Insert(x, s))
    ensures multiset(Insert(x, s)) == multiset(s) + multiset{x}
    ensures |Insert(x, s)| == |s| + 1
    ensures forall y :: y in Insert(x, s) <==> y == x || y in s
  {
    InsertMembers(x, s);
    if s == [] || s[0].updatedAt <= x.updatedAt {
      PrependDescending(x, s);
    } else {
      InsertFacts(x, s[1..]);
      PrependDescending(s[0], Insert(x, s[1..]));
    }
  }

  lemma {:induction false} SortFacts(s: seq<Intent>)
    ensures Descending(SortRecent(s))
    ensures multiset(SortRecent(s)) == multiset(s)
    ensures |SortRecent(s)| == |s|
    ensures forall y :: y in SortRecent(s) <==> y in s
  {
    if s != [] {
      assert s == [s[0]] + s[1..];
      SortFacts(s[1..]);
      InsertFacts(s[0], SortRecent(s[1..]));
    }
  }

  lemma {:induction false} InsertDistinct(x: Intent, s: seq<Intent>)
    requires DistinctIds(s) && forall y :: y in s ==> y.id != x.id
    ensures DistinctIds(Insert(x, s))
  {
    if s == [] || s[0].updatedAt <= x.updatedAt {
      PrependDistinct(x, s);
    } else {
      InsertDistinct(x, s[1..]);
      InsertMembers(x, s[1..]);
      PrependDistinct(s[0], Insert(x, s[1..]));
    }
  }

  lemma {:induction false} SortDistinct(s: seq<Intent>)
    requires DistinctIds(s)
    ensures DistinctIds(SortRecent(s))
  {
    if s != [] {
      SortDistinct(s[1..]);
      SortFacts(s[1..]);
      InsertDistinct(s[0], SortRecent(s[1..]));
    }
  }

  lemma {:induction false} KeepInsert(x: Intent, s: seq<Intent>, ids: set<nat>)
    requires Descending(s)
    ensures Keep(Insert(x, s), ids) == if x.id in ids then Insert(x, Keep(s, ids)) else Keep(s, ids)
  {
    if s == [] || s[0].updatedAt <= x.updatedAt {
      assert ([x] + s)[1..] == s;
      KeepMembers(s, ids);
      assert Keep(s, ids) != [] ==> Keep(s, ids)[0] in Keep(s, ids);
    } else {
      KeepInsert(x, s[1..], ids);
      var rest := Keep(s[1..], ids);
      var inserted := Insert(x, s[1..]);
      assert ([s[0]] + inserted)[1..] == inserted;
      if s[0].id in ids {
        assert ([s[0]] + rest)[1..] == rest;
      }
    }
  }

  lemma {:induction false} KeepMembers(s: seq<Intent>, ids: set<nat>)
    ensures forall y :: y in Keep(s, ids) <==> y in s && y.id in ids
    ensures |Keep(s, ids)| <= |s|
  {
    if s != [] {
      KeepMembers(s[1..], ids);
    }
  }

  /** Sorting and filtering commute, because the sort is stable. */
  lemma {:induction false} SortKeep(s: seq<Intent>, ids: set<nat>)
    ensures SortRecent(Keep(s, ids)) == Keep(SortRecent(s), ids)
  {
    if s != [] {
      SortKeep(s[1..], ids);
      SortFacts(s[1..]);
      KeepInsert(s[0], SortRecent(s[1..]), ids);
      if s[0].id in ids {
        assert ([s[0]] + Keep(s[1..], ids))[1..] == Keep(s[1..], ids);
      }
    }
  }

  lemma {:induction false} KeepConcat(s: seq<Intent>, t: seq<Intent>, ids: set<nat>)
    ensures Keep(s + t, ids) == Keep(s, ids) + Keep(t, ids)
  {
    if s == [] {
      assert s + t == t;
    } else {
      assert (s + t)[1..] == s[1..] + t;
      KeepConcat(s[1..], t, ids);
    }
  }

  lemma {:induction false} KeepAll(s: seq<Intent>, ids: set<nat>)
    requires forall y :: y in s ==> y.id in ids
    ensures Keep(s, ids) == s
  {
    if s != [] {
      KeepAll(s[1..], ids);
    }
  }

  lemma {:induction false} KeepNone(s: seq<Intent>, ids: set<nat>)
    requires forall y :: y in s ==> y.id !in ids
    ensures Keep(s, ids) == []
  {
    if s != [] {
      KeepNone(s[1..], ids);
    }
  }

  lemma TailAvoidsPrefix(s: seq<Intent>, n: nat, j: nat)
    requires DistinctIds(s) && n <= j < |s|
    ensures s[j].id !in IdSet(s[..n])
  {
  }

  lemma KeepPrefix(s: seq<Intent>, n: nat)
    requires DistinctIds(s) && n <= |s|
    ensures Keep(s, IdSet(s[..n])) == s[..n]
  {
    hide DistinctIds, Keep;
    var front, back, ids := s[..n], s[n..], IdSet(s[..n]);
    assert s == front + back;
    KeepConcat(front, back, ids);
    KeepAll(front, ids);
    forall y | y in back
      ensures y.id !in ids
    {
      var j :| 0 <= j < |back| && y == back[j];
      TailAvoidsPrefix(s, n, n + j);
    }
    KeepNone(back, ids);
  }

  lemma {:induction false} KeepDistinct(s: seq<Intent>, ids: set<nat>)
    requires DistinctIds(s)
    ensures DistinctIds(Keep(s, ids))
  {
    if s != [] {
      KeepDistinct(s[1..], ids);
      KeepMembers(s[1..], ids);
    }
  }

  // ---------------------------------------------------------------------------------------------
  // The ledger invariant
  // ---------------------------------------------------------------------------------------------

  ghost predicate OnePerKey(s: seq<Intent>) {
    forall x, y :: x in s && y in s && Unresolved(x) && Unresolved(y) && x.dedupeKey == y.dedupeKey ==> x == y
  }

  /** At most 160 intents; the recent list is the keys in descending update order; the unresolved list
      is its unresolved subsequence; no two unresolved intents share a dedupe key. */
  ghost predicate Valid(st: State) {
    && DistinctIds(st.intents)
    && |st.intents| <= LEDGER_LIMIT
    && st.recentIds == Ids(SortRecent(st.intents))
    && st.unresolvedIds == Ids(OnlyUnresolved(SortRecent(st.intents)))
    && OnePerKey(st.intents)
  }

  function UpdatedAt(s: seq<Intent>, id: nat): int {
    var i := IndexOf(s, id);
    if i < |s| then s[i].updatedAt else 0
  }

  /** The recent list holds exactly the keys. */
  lemma RecentIdsAreTheKeys(st: State, id: nat)
    requires Valid(st)
    ensures |st.recentIds| == |st.intents|
    ensures id in st.recentIds <==> exists x :: x in st.intents && x.id == id
  {
    hide DistinctIds, OnePerKey;
    var sorted := SortRecent(st.intents);
    SortFacts(st.intents);
    if x :| x in st.intents && x.id == id {
      var k :| 0 <= k < |sorted| && sorted[k] == x;
      assert st.recentIds[k] == id;
    }
    if id in st.recentIds {
      var k :| 0 <= k < |sorted| && st.recentIds[k] == id;
      assert sorted[k] in sorted;
    }
  }

  /** It holds each of them once, the most recently updated first. */
  lemma RecentIdsDescend(st: State, i: nat, j: nat)
    requires Valid(st) && i < j < |st.recentIds|
    ensures st.recentIds[i] != st.recentIds[j]
    ensures UpdatedAt(st.intents, st.recentIds[i]) >= UpdatedAt(st.intents, st.recentIds[j])
  {
    var sorted := SortRecent(st.intents);
    SortFacts(st.intents);
    SortDistinct(st.intents);
    UpdatedAtOf(st.intents, sorted[i]);
    UpdatedAtOf(st.intents, sorted[j]);
  }

  lemma UpdatedAtOf(s: seq<Intent>, x: Intent)
    requires DistinctIds(s) && x in s
    ensures UpdatedAt(s, x.id) == x.updatedAt
  {
    SameIntent(s, x, s[IndexOf(s, x.id)]);
  }

  /** The unresolved list holds exactly the unresolved intents. */
  lemma UnresolvedIdsMeaning(st: State, x: Intent)
    requires Valid(st) && x in st.intents
    ensures x.id in st.unresolvedIds <==> Unresolved(x)
  {
    var sorted := SortRecent(st.intents);
    var kept := OnlyUnresolved(sorted);
    SortFacts(st.intents);
    OnlyUnresolvedMembers(sorted);
    if Unresolved(x) {
      var k :| 0 <= k < |kept| && kept[k] == x;
      assert st.unresolvedIds[k] == x.id;
    }
    if x.id in st.unresolvedIds {
      var k :| 0 <= k < |kept| && st.unresolvedIds[k] == x.id;
      assert kept[k] in st.intents;
      SameIntent(st.intents, x, kept[k]);
    }
  }

  lemma SameIntent(s: seq<Intent>, x: Intent, y: Intent)
    requires DistinctIds(s) && x in s && y in s && x.id == y.id
    ensures x == y
  {
  }

  lemma {:induction false} OnlyUnresolvedMembers(s: seq<Intent>)
    ensures forall y :: y in OnlyUnresolved(s) <==> y in s && Unresolved(y)
  {
    if s != [] {
      OnlyUnresolvedMembers(s[1..]);
    }
  }

  lemma PrunedFacts(intents: seq<Intent>)
    requires DistinctIds(intents)
    ensures var st := Pruned(intents);
            && DistinctIds(st.intents)
            && SortRecent(st.intents) == Recent(intents)
            && |st.intents| == |Recent(intents)| <= LEDGER_LIMIT
            && (forall x :: x in st.intents <==> x in Recent(intents))
            && (forall x :: x in st.intents ==> x in intents)
  {
    var sorted := SortRecent(intents);
    var recent := Recent(intents);
    SortFacts(intents);
    SortDistinct(intents);
    KeepPrefix(sorted, |recent|);
    assert sorted[..|recent|] == recent;
    SortKeep(intents, IdSet(recent));
    SortFacts(Keep(intents, IdSet(recent)));
    KeepMembers(intents, IdSet(recent));
    KeepDistinct(intents, IdSet(recent));
  }

  lemma PrunedValid(intents: seq<Intent>)
    requires DistinctIds(intents) && OnePerKey(intents)
    ensures Valid(Pruned(intents))
  {
    PrunedFacts(intents);
  }

  /** Pruning looks at recency only: whatever it drops, resolved or not, is no newer than what it keeps. */
  lemma PruneDropsTheOldest(intents: seq<Intent>, kept: Intent, dropped: Intent)
    requires DistinctIds(intents)
    requires kept in Pruned(intents).intents
    requires dropped in intents && dropped !in Pruned(intents).intents
    ensures kept.updatedAt >= dropped.updatedAt
    ensures |Pruned(intents).intents| == LEDGER_LIMIT
  {
    hide DistinctIds, Pruned;
    var sorted := SortRecent(intents);
    PrunedFacts(intents);
    SortFacts(intents);
    var i :| 0 <= i < |Recent(intents)| && Recent(intents)[i] == kept;
    var j :| 0 <= j < |sorted| && sorted[j] == dropped;
    InPrefix(sorted, LEDGER_LIMIT, j);
  }

  lemma InPrefix(s: seq<Intent>, n: nat, j: nat)
    requires j < |s|
    ensures j < |Take(s, n)| ==> s[j] in Take(s, n)
  {
    if j < |Take(s, n)| {
      assert Take(s, n)[j] == s[j];
    }
  }

  lemma PruneSmall(intents: seq<Intent>)
    requires DistinctIds(intents) && |intents| <= LEDGER_LIMIT
    ensures Pruned(intents).intents == intents
  {
    SortFacts(intents);
    KeepAll(intents, IdSet(Recent(intents)));
  }

  // ---------------------------------------------------------------------------------------------
  // Begin
  // ---------------------------------------------------------------------------------------------

  ghost predicate FreshId(st: State, id: nat) { forall x :: x in st.intents ==> x.id != id }

  lemma BeginKeepsValid(st: State, id: nat, key: string, kind: Kind, detail: Option<string>, now: int)
    requires Valid(st) && FreshId(st, id)
    ensures Valid(Begun(st, id, key, kind, detail, now))
  {
    if DuplicateOf(st.intents, key) == |st.intents| {
      PrunedValid(st.intents + [NewIntent(id, key, kind, detail, now)]);
    }
  }

  /** A repeated begin is a no-op: it changes nothing, whatever its id, time and detail are. */
  lemma RepeatedBegin(st: State, x: Intent, id: nat, key: string, kind: Kind, detail: Option<string>, now: int)
    requires Valid(st)
    requires x in st.intents && Unresolved(x) && x.dedupeKey == key
    ensures Begun(st, id, key, kind, detail, now) == st
    ensures DuplicateOf(st.intents, key) < |st.intents| && st.intents[DuplicateOf(st.intents, key)] == x
  {
  }

  function CountAtLeast(s: seq<Intent>, time: int): nat {
    if s == [] then 0 else (if s[0].updatedAt >= time then 1 else 0) + CountAtLeast(s[1..], time)
  }

  lemma {:induction false} InsertShifts(y: Intent, s: seq<Intent>, k: nat)
    requires Descending(s) && k < |s|
    ensures var k' := if y.updatedAt >= s[k].updatedAt then k + 1 else k;
            k' < |Insert(y, s)| && Insert(y, s)[k'] == s[k]
  {
    InsertFacts(y, s);
    if s[0].updatedAt > y.updatedAt && k > 0 {
      InsertShifts(y, s[1..], k - 1);
    }
  }

  /** The last intent of a ledger comes right after those that are at least as recent as it is. */
  lemma {:induction false} RankOfLast(s: seq<Intent>, x: Intent)
    ensures CountAtLeast(s, x.updatedAt) <= |s|
    ensures |SortRecent(s + [x])| == |s| + 1
    ensures SortRecent(s + [x])[CountAtLeast(s, x.updatedAt)] == x
  {
    SortFacts(s + [x]);
    if s == [] {
      assert s + [x] == [x] && [x][1..] == [];
    } else {
      assert (s + [x])[1..] == s[1..] + [x];
      RankOfLast(s[1..], x);
      SortFacts(s[1..] + [x]);
      InsertShifts(s[0], SortRecent(s[1..] + [x]), CountAtLeast(s[1..], x.updatedAt));
    }
  }

  /** A new intent survives its own pruning exactly when fewer than 160 others are at least as recent:
      with 160 others stamped at or after the same millisecond it is dropped at once. */
  lemma NewIntentSurvives(st: State, id: nat, key: string, kind: Kind, detail: Option<string>, now: int)
    requires Valid(st) && FreshId(st, id)
    requires DuplicateOf(st.intents, key) == |st.intents|
    ensures NewIntent(id, key, kind, detail, now) in Begun(st, id, key, kind, detail, now).intents
            <==> CountAtLeast(st.intents, now) < LEDGER_LIMIT
  {
    var x := NewIntent(id, key, kind, detail, now);
    var all := st.intents + [x];
    PrunedFacts(all);
    RankOfLast(st.intents, x);
    SortDistinct(all);
    var k := CountAtLeast(st.intents, now);
    if k < LEDGER_LIMIT {
      assert Recent(all)[k] == x;
    } else {
      forall j | 0 <= j < |Recent(all)|
        ensures Recent(all)[j] != x
      {
        assert Recent(all)[j] == SortRecent(all)[j];
      }
    }
  }

  /** Hence, with a clock that does not run backwards past 160 records, beginning twice returns the
      first intent. */
  lemma BeginTwice(st: State, id: nat, key: string, kind: Kind, detail: Option<string>, now: int,
                   id2: nat, kind2: Kind, detail2: Option<string>, now2: int)
    requires Valid(st) && FreshId(st, id) && CountAtLeast(st.intents, now) < LEDGER_LIMIT
    ensures var once := Begun(st, id, key, kind, detail, now);
            && Begun(once, id2, key, kind2, detail2, now2) == once
            && DuplicateOf(once.intents, key) < |once.intents|
  {
    if DuplicateOf(st.intents, key) == |st.intents| {
      BeginKeepsValid(st, id, key, kind, detail, now);
      NewIntentSurvives(st, id, key, kind, detail, now);
      RepeatedBegin(Begun(st, id, key, kind, detail, now), NewIntent(id, key, kind, detail, now),
                    id2, key, kind2, detail2, now2);
    }
  }

  // ---------------------------------------------------------------------------------------------
  // Mutate
  // ---------------------------------------------------------------------------------------------

  /** The update would bring a resolved intent back while another one with its key is still open. */
  ghost predicate ReopensTaken(st: State, id: nat, patch: Patch) {
    exists x, y :: x in st.intents && y in st.intents && x.id == id && y.id != id
                   && IsResolved(x.status) && !IsResolved(patch.status.GetOr(x.status))
                   && Unresolved(y) && x.dedupeKey == y.dedupeKey
  }

  lemma MutatedIntents(st: State, id: nat, patch: Patch, step: Option<string>, now: int)
    requires Valid(st)
    ensures var i := IndexOf(st.intents, id);
            Mutated(st, id, patch, step, now).intents
            == if i < |st.intents| then st.intents[i := Patched(st.intents[i], patch, step, now)] else st.intents
  {
    var i := IndexOf(st.intents, id);
    if i < |st.intents| {
      PruneSmall(st.intents[i := Patched(st.intents[i], patch, step, now)]);
    }
  }

  lemma PatchKeepsOnePerKey(st: State, i: nat, patch: Patch, step: Option<string>, now: int)
    requires Valid(st) && i < |st.intents|
    requires !ReopensTaken(st, st.intents[i].id, patch)
    ensures OnePerKey(st.intents[i := Patched(st.intents[i], patch, step, now)])
  {
    var x := st.intents[i];
    var intents' := st.intents[i := Patched(x, patch, step, now)];
    forall a, b | a in intents' && b in intents' && Unresolved(a) && Unresolved(b) && a.dedupeKey == b.dedupeKey
      ensures a == b
    {
      var j :| 0 <= j < |intents'| && intents'[j] == a;
      var k :| 0 <= k < |intents'| && intents'[k] == b;
      assert x in st.intents && st.intents[j] in st.intents && st.intents[k] in st.intents;
    }
  }

  lemma PatchBreaksOnePerKey(st: State, i: nat, patch: Patch, step: Option<string>, now: int)
    requires Valid(st) && i < |st.intents|
    requires ReopensTaken(st, st.intents[i].id, patch)
    ensures !OnePerKey(st.intents[i := Patched(st.intents[i], patch, step, now)])
  {
    var id := st.intents[i].id;
    var z, y :| z in st.intents && y in st.intents && z.id == id && y.id != id
                && IsResolved(z.status) && !IsResolved(patch.status.GetOr(z.status))
                && Unresolved(y) && z.dedupeKey == y.dedupeKey;
    SameIntent(st.intents, st.intents[i], z);
    var x' := Patched(z, patch, step, now);
    var intents' := st.intents[i := x'];
    var k :| 0 <= k < |st.intents| && st.intents[k] == y;
    assert intents'[k] in intents' && intents'[i] in intents';
  }

  lemma PatchKeepsIds(s: seq<Intent>, i: nat, patch: Patch, step: Option<string>, now: int)
    requires DistinctIds(s) && i < |s|
    ensures DistinctIds(s[i := Patched(s[i], patch, step, now)])
  {
  }

  /** An update keeps the ledger valid exactly when it does not reopen an intent whose key is taken. */
  lemma MutateKeepsValid(st: State, id: nat, patch: Patch, step: Option<string>, now: int)
    requires Valid(st)
    ensures Valid(Mutated(st, id, patch, step, now)) <==> !ReopensTaken(st, id, patch)
  {
    hide Patched, DistinctIds, OnePerKey, Pruned;
    var i := IndexOf(st.intents, id);
    if i < |st.intents| {
      MutatedIntents(st, id, patch, step, now);
      if ReopensTaken(st, id, patch) {
        PatchBreaksOnePerKey(st, i, patch, step, now);
      } else {
        PatchKeepsIds(st.intents, i, patch, step, now);
        PatchKeepsOnePerKey(st, i, patch, step, now);
        PrunedValid(st.intents[i := Patched(st.intents[i], patch, step, now)]);
      }
    }
  }

  // ---------------------------------------------------------------------------------------------
  // Recovery after a crash
  // ---------------------------------------------------------------------------------------------

  /** What recovery makes of one intent. */
  ghost predicate RecoveredFrom(x: Intent, y: Intent, reason: string, at: int) {
    if IsResolved(x.status) then y == x
    else
      && y.id == x.id && y.dedupeKey == x.dedupeKey && y.kind == x.kind && y.resolvedAt == x.resolvedAt
      && y.steps == x.steps
      && y.status.Ambiguous? && y.blocked && y.resumeRequired && y.recoveredAt == Some(at)
      && y.ambiguityReason == (if x.ambiguityReason.Some? then x.ambiguityReason else Some(reason))
  }

  lemma {:induction false} RecoverEachPointwise(st: State, done: nat, reason: string, at: int,
                                                 clock: nat -> int, tick: nat)
    requires DistinctIds(st.intents) && |st.intents| <= LEDGER_LIMIT && done <= |st.intents|
    ensures var after := RecoverEach(st, st.intents[done..], reason, at, clock, tick).intents;
            && |after| == |st.intents|
            && (forall k :: 0 <= k < done ==> after[k] == st.intents[k])
            && (forall k :: done <= k < |after| ==> RecoveredFrom(st.intents[k], after[k], reason, at))
    decreases |st.intents| - done
  {
    if done < |st.intents| {
      hide DistinctIds, RecoveredFrom, Mutated, RecoveryPatch;
      var x := st.intents[done];
      assert st.intents[done..][1..] == st.intents[done + 1..];
      if Unresolved(x) {
        var next := Mutated(st, x.id, RecoveryPatch(x, reason, at), None, clock(tick));
        RecoverOne(st, done, reason, at, clock(tick));
        assert next.intents[done + 1..] == st.intents[done + 1..];
        RecoverEachPointwise(next, done + 1, reason, at, clock, tick + 1);
      } else {
        RecoverEachPointwise(st, done + 1, reason, at, clock, tick);
        UntouchedByRecovery(x, reason, at);
      }
    }
  }

  lemma UntouchedByRecovery(x: Intent, reason: string, at: int)
    requires !Unresolved(x)
    ensures RecoveredFrom(x, x, reason, at)
  {
  }

  lemma RecoverOne(st: State, i: nat, reason: string, at: int, now: int)
    requires DistinctIds(st.intents) && |st.intents| <= LEDGER_LIMIT && i < |st.intents|
    requires Unresolved(st.intents[i])
    ensures var x := st.intents[i];
            var next := Mutated(st, x.id, RecoveryPatch(x, reason, at), None, now);
            && DistinctIds(next.intents)
            && |next.intents| == |st.intents|
            && next.intents == st.intents[i := next.intents[i]]
            && RecoveredFrom(x, next.intents[i], reason, at)
  {
    var x := st.intents[i];
    var patch := RecoveryPatch(x, reason, at);
    assert IndexOf(st.intents, x.id) == i;
    PatchKeepsIds(st.intents, i, patch, None, now);
    PruneSmall(st.intents[i := Patched(x, patch, None, now)]);
  }

  /** Crash recovery of any ledger of at most 160 intents, whatever its id lists say: exactly the
      unresolved intents become ambiguous and blocked (an earlier ambiguity reason is kept), resolved ones
      are untouched and nothing is lost. The ledger is valid afterwards exactly when no two unresolved
      intents shared a key. */
  lemma RecoveryPointwise(st: State, reason: string, at: int, clock: nat -> int)
    requires DistinctIds(st.intents) && |st.intents| <= LEDGER_LIMIT
    ensures var after := Recovered(st, reason, at, clock);
            && |after.intents| == |st.intents|
            && (forall k :: 0 <= k < |st.intents| ==> RecoveredFrom(st.intents[k], after.intents[k], reason, at))
            && (Valid(after) <==> OnePerKey(st.intents))
  {
    hide RecoveredFrom, DistinctIds, OnePerKey;
    assert st.intents[0..] == st.intents;
    RecoverEachPointwise(st, 0, reason, at, clock, 0);
    var intents' := RecoverEach(st, st.intents, reason, at, clock, 0).intents;
    RecoveryKeepsKeys(st.intents, intents', reason, at);
    PruneSmall(intents');
    PrunedFacts(intents');
  }

  lemma RecoveryKeepsKeys(s: seq<Intent>, t: seq<Intent>, reason: string, at: int)
    requires |s| == |t| && DistinctIds(s)
    requires forall k :: 0 <= k < |s| ==> RecoveredFrom(s[k], t[k], reason, at)
    ensures DistinctIds(t) && (OnePerKey(t) <==> OnePerKey(s))
  {
    hide OnePerKey;
    forall k | 0 <= k < |s|
      ensures t[k].id == s[k].id && t[k].dedupeKey == s[k].dedupeKey && (Unresolved(t[k]) <==> Unresolved(s[k]))
    {
      assert RecoveredFrom(s[k], t[k], reason, at);
    }
    hide RecoveredFrom;
    if OnePerKey(s) {
      SameKeysSameRule(s, t);
    }
    if OnePerKey(t) {
      SameKeysSameRule(t, s);
    }
  }

  lemma SameKeysSameRule(s: seq<Intent>, t: seq<Intent>)
    requires |s| == |t| && DistinctIds(s) && OnePerKey(s)
    requires forall k :: 0 <= k < |s| ==>
                           t[k].id == s[k].id && t[k].dedupeKey == s[k].dedupeKey
                           && (Unresolved(t[k]) <==> Unresolved(s[k]))
    ensures OnePerKey(t)
  {
    forall a, b | a in t && b in t && Unresolved(a) && Unresolved(b) && a.dedupeKey == b.dedupeKey
      ensures a == b
    {
      var j :| 0 <= j < |t| && t[j] == a;
      var k :| 0 <= k < |t| && t[k] == b;
      assert s[j] in s && s[k] in s;
    }
  }

  lemma {:induction false} InsertUnresolvedCount(x: Intent, s: seq<Intent>)
    ensures |OnlyUnresolved(Insert(x, s))| == |OnlyUnresolved(s)| + (if Unresolved(x) then 1 else 0)
  {
    if s == [] || s[0].updatedAt <= x.updatedAt {
      assert ([x] + s)[1..] == s;
    } else {
      InsertUnresolvedCount(x, s[1..]);
      assert ([s[0]] + Insert(x, s[1..]))[1..] == Insert(x, s[1..]);
    }
  }

  lemma {:induction false} UnresolvedCount(s: seq<Intent>)
    ensures |OnlyUnresolved(SortRecent(s))| == CountUnresolved(s)
  {
    if s != [] {
      UnresolvedCount(s[1..]);
      InsertUnresolvedCount(s[0], SortRecent(s[1..]));
    }
  }

  lemma {:induction false} AllAmbiguous(s: seq<Intent>)
    requires forall x :: x in s ==> x.status.Ambiguous?
    ensures OnlyAmbiguous(s) == s
  {
    if s != [] {
      AllAmbiguous(s[1..]);
    }
  }

  lemma {:induction false} SameCount(s: seq<Intent>, t: seq<Intent>)
    requires |s| == |t| && forall k :: 0 <= k < |s| ==> (Unresolved(s[k]) <==> Unresolved(t[k]))
    ensures CountUnresolved(s) == CountUnresolved(t)
  {
    if s != [] {
      SameCount(s[1..], t[1..]);
    }
  }

  ghost predicate BlocksFor(x: Intent, s: seq<Intent>) {
    x.status.Ambiguous? && x.blocked && x.resumeRequired && x.ambiguityReason.Some?
    && exists y :: y in s && Unresolved(y) && y.id == x.id
  }

  lemma RecoveredBlocks(s: seq<Intent>, t: seq<Intent>, reason: string, at: int)
    requires |s| == |t| && forall k :: 0 <= k < |s| ==> RecoveredFrom(s[k], t[k], reason, at)
    ensures forall x :: x in t && Unresolved(x) ==> BlocksFor(x, s)
    ensures CountUnresolved(t) == CountUnresolved(s)
  {
    forall k | 0 <= k < |s|
      ensures Unresolved(s[k]) <==> Unresolved(t[k])
    {
      assert RecoveredFrom(s[k], t[k], reason, at);
    }
    SameCount(s, t);
    forall x | x in t && Unresolved(x)
      ensures BlocksFor(x, s)
    {
      var k :| 0 <= k < |t| && t[k] == x;
      assert RecoveredFrom(s[k], x, reason, at);
      assert s[k] in s;
    }
  }

  /** After recovery the reported blockers are all of the unresolved intents: as many as recovery
      returned, and for the ids that were unresolved before the crash. */
  lemma BlockersAfterRecovery(st: State, reason: string, at: int, clock: nat -> int)
    requires DistinctIds(st.intents) && |st.intents| <= LEDGER_LIMIT
    ensures var after := Recovered(st, reason, at, clock);
            && Blockers(after) == ListUnresolved(after)
            && |Blockers(after)| == CountUnresolved(st.intents)
            && forall x :: x in Blockers(after) ==> BlocksFor(x, st.intents)
  {
    hide Valid, DistinctIds, Recovered, RecoveredFrom, Unresolved, OnePerKey;
    var after := Recovered(st, reason, at, clock);
    RecoveryPointwise(st, reason, at, clock);
    RecoveredBlocks(st.intents, after.intents, reason, at);
    SortFacts(after.intents);
    OnlyUnresolvedMembers(SortRecent(after.intents));
    forall x | x in ListUnresolved(after)
      ensures BlocksFor(x, st.intents)
    {
      assert x in after.intents;
    }
    AllAmbiguous(ListUnresolved(after));
    UnresolvedCount(after.intents);
  }

  // ---------------------------------------------------------------------------------------------
  // Whole runs
  // ---------------------------------------------------------------------------------------------

  datatype Op =
    | Begin(id: nat, key: string, kind: Kind, detail: Option<string>, now: int)
    | Update(target: nat, patch: Patch, step: Option<string>, now: int)
    | Crash(reason: string, at: int, clock: nat -> int)

  function Apply(st: State, op: Op): State {
    match op
    case Begin(id, key, kind, detail, now) => Begun(st, id, key, kind, detail, now)
    case Update(target, patch, step, now) => Mutated(st, target, patch, step, now)
    case Crash(reason, at, clock) => Recovered(st, reason, at, clock)
  }

  /** Ids are fresh, and a status that counts as unresolved is given to unresolved intents only. */
  ghost predicate Allowed(st: State, op: Op) {
    match op
    case Begin(id, _, _, _, _) => FreshId(st, id)
    case Update(target, patch, _, _) =>
      (patch.status.Some? && !IsResolved(patch.status.value)) ==>
        forall x :: x in st.intents && x.id == target ==> Unresolved(x)
    case Crash(_, _, _) => true
  }

  function After(st: State, ops: seq<Op>): State
    decreases ops
  {
    if ops == [] then st else After(Apply(st, ops[0]), ops[1..])
  }

  ghost predicate AllowedRun(st: State, ops: seq<Op>)
    decreases ops
  {
    ops == [] || (Allowed(st, ops[0]) && AllowedRun(Apply(st, ops[0]), ops[1..]))
  }

  lemma ValidParts(st: State)
    requires Valid(st)
    ensures DistinctIds(st.intents) && |st.intents| <= LEDGER_LIMIT && OnePerKey(st.intents)
  {
  }

  lemma StepKeepsValid(st: State, op: Op)
    requires Valid(st) && Allowed(st, op)
    ensures Valid(Apply(st, op))
  {
    hide Valid;
    match op
    case Begin(id, key, kind, detail, now) => BeginKeepsValid(st, id, key, kind, detail, now);
    case Update(target, patch, step, now) => MutateKeepsValid(st, target, patch, step, now);
    case Crash(reason, at, clock) =>
      ValidParts(st);
      RecoveryPointwise(st, reason, at, clock);
  }

  /** The ledger invariant over every run. */
  lemma {:induction false} RunKeepsValid(st: State, ops: seq<Op>)
    requires Valid(st) && AllowedRun(st, ops)
    ensures Valid(After(st, ops))
    decreases ops
  {
    hide Valid, Allowed, Apply;
    if ops != [] {
      StepKeepsValid(st, ops[0]);
      RunKeepsValid(Apply(st, ops[0]), ops[1..]);
    }
  }

  /** Resolving or failing an unresolved intent frees its key: it leaves the unresolved list, and the next
      begin with that key opens a new intent. */
  lemma SettlingFreesTheKey(st: State, x: Intent, patch: Patch, step: Option<string>, now: int)
    requires Valid(st) && x in st.intents && Unresolved(x)
    requires patch.status.Some? && IsResolved(patch.status.value)
    ensures var after := Mutated(st, x.id, patch, step, now);
            && Valid(after)
            && x.id !in after.unresolvedIds
            && DuplicateOf(after.intents, x.dedupeKey) == |after.intents|
            && (forall y :: y in st.intents && y != x ==> y in after.intents)
  {
    hide DistinctIds, Pruned;
    MutateKeepsValid(st, x.id, patch, step, now);
    MutatedIntents(st, x.id, patch, step, now);
    var i := IndexOf(st.intents, x.id);
    SameIntent(st.intents, x, st.intents[i]);
    var after := Mutated(st, x.id, patch, step, now);
    var x' := Patched(x, patch, step, now);
    assert after.intents[i] == x' && x' in after.intents;
    UnresolvedIdsMeaning(after, x');
    forall y | y in st.intents && y != x
      ensures y in after.intents
    {
      var k :| 0 <= k < |st.intents| && st.intents[k] == y;
      assert after.intents[k] == y;
    }
    forall k | 0 <= k < |after.intents|
      ensures !(after.intents[k].dedupeKey == x.dedupeKey && Unresolved(after.intents[k]))
    {
      if k != i {
        assert after.intents[k] == st.intents[k] && st.intents[k] in st.intents;
        KeyIsTaken(st, x, i, k);
      }
    }
  }

  lemma KeyIsTaken(st: State, x: Intent, i: nat, k: nat)
    requires Valid(st) && i < |st.intents| && k < |st.intents| && i != k && st.intents[i] == x && Unresolved(x)
    ensures !(st.intents[k].dedupeKey == x.dedupeKey && Unresolved(st.intents[k]))
  {
    assert st.intents[k] in st.intents && x in st.intents;
    assert st.intents[k].id != x.id;
  }

  /** Records keep their form: a resolved intent carries its resolution time and no step history is
      longer than 20. */
  ghost predicate RecordsKept(s: seq<Intent>) {
    forall x :: x in s ==> (IsResolved(x.status) ==> x.resolvedAt.Some?) && |x.steps| <= STEP_LIMIT
  }

  lemma StepKeepsRecords(st: State, op: Op)
    requires Valid(st) && RecordsKept(st.intents)
    ensures RecordsKept(Apply(st, op).intents)
  {
    hide Valid;
    match op
    case Begin(id, key, kind, detail, now) =>
      if DuplicateOf(st.intents, key) == |st.intents| {
        KeepMembers(st.intents + [NewIntent(id, key, kind, detail, now)],
                    IdSet(Recent(st.intents + [NewIntent(id, key, kind, detail, now)])));
      }
    case Update(target, patch, step, now) =>
      MutatedIntents(st, target, patch, step, now);
      var i := IndexOf(st.intents, target);
      if i < |st.intents| {
        assert st.intents[i] in st.intents;
      }
    case Crash(reason, at, clock) =>
      RecoveryKeepsRecords(st, reason, at, clock);
  }

  lemma RecoveryKeepsRecords(st: State, reason: string, at: int, clock: nat -> int)
    requires Valid(st) && RecordsKept(st.intents)
    ensures RecordsKept(Recovered(st, reason, at, clock).intents)
  {
    hide Valid, Recovered, RecoveredFrom;
    var after := Recovered(st, reason, at, clock).intents;
    ValidParts(st);
    RecoveryPointwise(st, reason, at, clock);
    forall x | x in after
      ensures (IsResolved(x.status) ==> x.resolvedAt.Some?) && |x.steps| <= STEP_LIMIT
    {
      var k :| 0 <= k < |after| && after[k] == x;
      assert st.intents[k] in st.intents;
      RecoveredRecord(st.intents[k], x, reason, at);
    }
  }

  lemma RecoveredRecord(x: Intent, y: Intent, reason: string, at: int)
    requires RecoveredFrom(x, y, reason, at)
    ensures y.steps == x.steps && (IsResolved(y.status) ==> y == x)
  {
  }

  /** The form of the records over every run, crashes included. */
  lemma {:induction false} RunKeepsRecords(st: State, ops: seq<Op>)
    requires Valid(st) && RecordsKept(st.intents) && AllowedRun(st, ops)
    ensures RecordsKept(After(st, ops).intents)
    decreases ops
  {
    hide Valid, Allowed, Apply, RecordsKept;
    if ops != [] {
      StepKeepsValid(st, ops[0]);
      StepKeepsRecords(st, ops[0]);
      RunKeepsRecords(Apply(st, ops[0]), ops[1..]);
    }
  }
}
