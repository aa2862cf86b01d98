/** Exactly which intents pruning keeps. */
module LedgerPruning {
  import opened IntentLedger
  import opened LedgerLaws

  function CountAbove(s: seq<Intent>, time: int): nat {
    if s == [] then 0 else (if s[0].updatedAt > time then 1 else 0) + CountAbove(s[1..], time)
  }

  /** How many intents come before the k-th in the recency order: the newer ones, and those of the same
      time that were inserted earlier. */
  function Rank(s: seq<Intent>, k: nat): nat
    requires k < |s|
  {
    CountAtLeast(s[..k], s[k].updatedAt) + CountAbove(s[k + 1..], s[k].updatedAt)
  }

  lemma {:induction false} CountAboveInsert(x: Intent, s: seq<Intent>, time: int)
    ensures CountAbove(Insert(x, s), time) == CountAbove(s, time) + (if x.updatedAt > time then 1 else 0)
  {
    if s == [] || s[0].updatedAt <= x.updatedAt {
      assert ([x] + s)[1..] == s;
    } else {
      CountAboveInsert(x, s[1..], time);
      assert ([s[0]] + Insert(x, s[1..]))[1..] == Insert(x, s[1..]);
    }
  }

  lemma {:induction false} CountAboveSorted(s: seq<Intent>, time: int)
    ensures CountAbove(SortRecent(s), time) == CountAbove(s, time) <= |s|
  {
    if s != [] {
      CountAboveSorted(s[1..], time);
      CountAboveInsert(s[0], SortRecent(s[1..]), time);
    }
  }

  lemma {:induction false} NoneAbove(s: seq<Intent>, time: int)
    requires forall y :: y in s ==> y.updatedAt <= time
    ensures CountAbove(s, time) == 0
  {
    if s != [] {
      NoneAbove(s[1..], time);
    }
  }

  /** An intent is inserted right after those that are newer. */
  lemma {:induction false} InsertPlace(x: Intent, s: seq<Intent>)
    requires Descending(s)
    ensures CountAbove(s, x.updatedAt) <= |s|
    ensures |Insert(x, s)| == |s| + 1 && Insert(x, s)[CountAbove(s, x.updatedAt)] == x
  {
    InsertFacts(x, s);
    if s == [] || s[0].updatedAt <= x.updatedAt {
      NoneAbove(s, x.updatedAt);
    } else {
      InsertPlace(x, s[1..]);
    }
  }

  /** The rank is the place in the recency order. */
  lemma {:induction false} RankIsPlace(s: seq<Intent>, k: nat)
    requires k < |s|
    ensures |SortRecent(s)| == |s| && Rank(s, k) < |s| && SortRecent(s)[Rank(s, k)] == s[k]
  {
    hide Rank, Insert, Descending;
    SortFacts(s);
    SortFacts(s[1..]);
    var rest := SortRecent(s[1..]);
    if k == 0 {
      FirstRank(s);
      CountAboveSorted(s[1..], s[0].updatedAt);
      InsertPlace(s[0], rest);
    } else {
      RankIsPlace(s[1..], k - 1);
      RankStep(s, k);
      InsertShifts(s[0], rest, Rank(s[1..], k - 1));
    }
  }

  lemma FirstRank(s: seq<Intent>)
    requires s != []
    ensures Rank(s, 0) == CountAbove(s[1..], s[0].updatedAt)
  {
    assert s[..0] == [];
  }

  lemma RankStep(s: seq<Intent>, k: nat)
    requires 0 < k < |s|
    ensures Rank(s, k) == Rank(s[1..], k - 1) + (if s[0].updatedAt >= s[k].updatedAt then 1 else 0)
  {
    assert s[..k][1..] == s[1..][..k - 1] && s[k + 1..] == s[1..][k..];
  }

  /** Pruning keeps an intent, resolved or not, exactly when fewer than 160 intents precede it in the
      recency order. */
  lemma SurvivesIff(s: seq<Intent>, k: nat)
    requires DistinctIds(s) && k < |s|
    ensures s[k] in Pruned(s).intents <==> Rank(s, k) < LEDGER_LIMIT
  {
    hide Rank, Pruned;
    PrunedFacts(s);
    RankIsPlace(s, k);
    SortDistinct(s);
    var r, sorted := Rank(s, k), SortRecent(s);
    if r < LEDGER_LIMIT {
      assert Recent(s)[r] == s[k];
    } else {
      forall j | 0 <= j < |Recent(s)|
        ensures Recent(s)[j] != s[k]
      {
        assert Recent(s)[j] == sorted[j];
      }
    }
  }
}
