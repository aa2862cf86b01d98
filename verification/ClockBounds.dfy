/** How far the measured clock offset can be from the true one. */
module ClockBounds {
  import opened Common
  import opened ClockSync

  function CountLe(s: seq<real>, v: real): nat {
    if s == [] then 0 else (if s[0] <= v then 1 else 0) + CountLe(s[1..], v)
  }

  function CountLt(s: seq<real>, v: real): nat {
    if s == [] then 0 else (if s[0] < v then 1 else 0) + CountLt(s[1..], v)
  }

  ghost predicate Ascending(s: seq<real>) {
    forall i, j :: 0 <= i < j < |s| ==> s[i] <= s[j]
  }

  lemma {:induction false} InsertCounts(x: real, s: seq<real>, v: real)
    ensures |Insert(x, s)| == |s| + 1
    ensures CountLe(Insert(x, s), v) == CountLe(s, v) + (if x <= v then 1 else 0)
    ensures CountLt(Insert(x, s), v) == CountLt(s, v) + (if x < v then 1 else 0)
  {
    if s == [] || x <= s[0] {
      assert ([x] + s)[1..] == s;
    } else {
      InsertCounts(x, s[1..], v);
      assert ([s[0]] + Insert(x, s[1..]))[1..] == Insert(x, s[1..]);
    }
  }

  /** Inserting keeps every element that was there and adds the new one. */
  lemma {:induction false} InsertAscending(x: real, s: seq<real>, lo: real, hi: real)
    requires Ascending(s)
    requires lo <= x <= hi && forall k :: 0 <= k < |s| ==> lo <= s[k] <= hi
    ensures Ascending(Insert(x, s))
    ensures forall k :: 0 <= k < |Insert(x, s)| ==> lo <= Insert(x, s)[k] <= hi
  {
    if s != [] && x > s[0] {
      InsertAscending(x, s[1..], s[0], hi);
    }
  }

  lemma {:induction false} SortedCounts(s: seq<real>, v: real)
    ensures |Sorted(s)| == |s|
    ensures CountLe(Sorted(s), v) == CountLe(s, v)
    ensures CountLt(Sorted(s), v) == CountLt(s, v)
  {
    if s != [] {
      SortedCounts(s[1..], v);
      InsertCounts(s[0], Sorted(s[1..]), v);
    }
  }

  lemma {:induction false} SortedWithin(s: seq<real>, lo: real, hi: real)
    requires forall k :: 0 <= k < |s| ==> lo <= s[k] <= hi
    ensures Ascending(Sorted(s))
    ensures forall k :: 0 <= k < |Sorted(s)| ==> lo <= Sorted(s)[k] <= hi
  {
    if s != [] {
      SortedWithin(s[1..], lo, hi);
      InsertAscending(s[0], Sorted(s[1..]), lo, hi);
    }
  }

  lemma SortedAscends(s: seq<real>)
    ensures Ascending(Sorted(s))
  {
    if s != [] {
      LeastFacts(s);
      GreatestFacts(s);
      SortedWithin(s, Least(s), Greatest(s));
    }
  }

  /** In an ascending list, the k-th value is characterised by counting. */
  lemma {:induction false} Rank(t: seq<real>, k: nat, v: real)
    requires Ascending(t) && k < |t|
    ensures t[k] <= v <==> CountLe(t, v) > k
    ensures t[k] < v <==> CountLt(t, v) > k
  {
    if k > 0 {
      Rank(t[1..], k - 1, v);
    }
    if t[0] > v {
      NoneBelow(t, v);
    } else if t[0] >= v {
      NoneStrictlyBelow(t, v);
    }
  }

  lemma {:induction false} NoneBelow(t: seq<real>, v: real)
    requires forall k :: 0 <= k < |t| ==> t[k] > v
    ensures CountLe(t, v) == CountLt(t, v) == 0
  {
    if t != [] {
      NoneBelow(t[1..], v);
    }
  }

  lemma {:induction false} NoneStrictlyBelow(t: seq<real>, v: real)
    requires forall k :: 0 <= k < |t| ==> t[k] >= v
    ensures CountLt(t, v) == 0
  {
    if t != [] {
      NoneStrictlyBelow(t[1..], v);
    }
  }

  /** Every offset is within half its round trip of `truth`. */
  ghost predicate HalfRttBounds(offsets: seq<real>, rtts: seq<real>, truth: real) {
    |offsets| == |rtts|
    && forall i :: 0 <= i < |offsets| ==> truth - rtts[i] / 2.0 <= offsets[i] <= truth + rtts[i] / 2.0
  }

  lemma {:induction false} CountUpper(offsets: seq<real>, rtts: seq<real>, truth: real, r: real)
    requires HalfRttBounds(offsets, rtts, truth)
    ensures CountLe(offsets, truth + r / 2.0) >= CountLe(rtts, r)
  {
    if offsets != [] {
      CountUpper(offsets[1..], rtts[1..], truth, r);
    }
  }

  lemma {:induction false} CountLower(offsets: seq<real>, rtts: seq<real>, truth: real, r: real)
    requires HalfRttBounds(offsets, rtts, truth)
    ensures CountLt(offsets, truth - r / 2.0) + CountLe(rtts, r) <= |offsets|
  {
    if offsets != [] {
      CountLower(offsets[1..], rtts[1..], truth, r);
    }
  }

  /** The order statistics of the offsets are bounded by those of the round trips. */
  lemma RankBounds(offsets: seq<real>, rtts: seq<real>, truth: real, j: nat)
    requires HalfRttBounds(offsets, rtts, truth) && j < |offsets|
    ensures |rtts| == |offsets| && |Sorted(offsets)| == |Sorted(rtts)| == |offsets|
    ensures Sorted(offsets)[j] <= truth + Sorted(rtts)[j] / 2.0
    ensures Sorted(offsets)[|offsets| - 1 - j] >= truth - Sorted(rtts)[j] / 2.0
  {
    hide CountLe, CountLt, Sorted, Ascending;
    SortedCounts(rtts, 0.0);
    SortedCounts(offsets, 0.0);
    var n, r := |offsets|, Sorted(rtts)[j];
    var upper, lower := truth + r / 2.0, truth - r / 2.0;
    SortedAscends(rtts);
    SortedAscends(offsets);
    SortedCounts(rtts, r);
    Rank(Sorted(rtts), j, r);
    SortedCounts(offsets, upper);
    CountUpper(offsets, rtts, truth, r);
    Rank(Sorted(offsets), j, upper);
    SortedCounts(offsets, lower);
    CountLower(offsets, rtts, truth, r);
    Rank(Sorted(offsets), n - 1 - j, lower);
  }

  lemma MedianBound(offsets: seq<real>, rtts: seq<real>, truth: real)
    requires HalfRttBounds(offsets, rtts, truth) && offsets != []
    ensures Abs(Median(offsets) - truth) <= Median(rtts) / 2.0
  {
    var n := |offsets|;
    RankBounds(offsets, rtts, truth, n / 2);
    if n % 2 == 0 {
      RankBounds(offsets, rtts, truth, n / 2 - 1);
    }
  }

  /** The server's clock is the local clock plus `truth`, and each stamp that yields a sample was taken
      while its exchange was under way. */
  ghost predicate Honest(readings: seq<Reading>, truth: real) {
    forall r :: r in readings && ServerTime(r).Some? ==> r.startedAt <= ServerTime(r).value - truth <= r.receivedAt
  }

  lemma {:induction false} HonestSamples(readings: seq<Reading>, truth: real)
    requires Honest(readings, truth)
    ensures forall x :: x in Samples(readings) ==>
                          Abs(x.offset - truth) <= x.roundTrip / 2.0 && x.roundTrip >= 0.0
  {
    if readings != [] {
      HonestSamples(readings[1..], truth);
    }
  }

  lemma ChosenBounds(readings: seq<Reading>, truth: real, maxRtt: real)
    requires Honest(readings, truth) && Samples(readings) != []
    ensures var chosen := Chosen(Samples(readings), maxRtt);
            chosen != [] && HalfRttBounds(Offsets(chosen), RoundTrips(chosen), truth)
  {
    hide Chosen, Honest, Samples;
    var chosen := Chosen(Samples(readings), maxRtt);
    HonestSamples(readings, truth);
    ChosenFacts(Samples(readings), maxRtt);
    forall i | 0 <= i < |chosen|
      ensures Abs(chosen[i].offset - truth) <= chosen[i].roundTrip / 2.0
    {
      assert chosen[i] in chosen;
    }
  }

  /** Clock error bound: the median offset of the chosen samples is within half the median round trip
      of the true offset, and within half a millisecond more after rounding. */
  lemma ClockErrorBound(readings: seq<Reading>, truth: real, maxRtt: real)
    requires Honest(readings, truth) && Samples(readings) != []
    ensures var chosen := Chosen(Samples(readings), maxRtt);
            && chosen != []
            && Abs(Median(Offsets(chosen)) - truth) <= Median(RoundTrips(chosen)) / 2.0
            && Abs(Round(Median(Offsets(chosen))) as real - truth) <= Median(RoundTrips(chosen)) / 2.0 + 0.5
  {
    hide Chosen, Honest, Samples, Median, HalfRttBounds;
    ChosenBounds(readings, truth, maxRtt);
    var chosen := Chosen(Samples(readings), maxRtt);
    MedianBound(Offsets(chosen), RoundTrips(chosen), truth);
  }

  lemma {:induction false} LeastFacts(s: seq<real>)
    requires s != []
    ensures exists k :: 0 <= k < |s| && s[k] == Least(s)
    ensures forall k :: 0 <= k < |s| ==> Least(s) <= s[k]
  {
    assert Least(s) == s[0] || |s| > 1;
    if |s| > 1 {
      LeastFacts(s[1..]);
      assert forall k :: 1 <= k < |s| ==> s[k] == s[1..][k - 1];
      var k :| 0 <= k < |s[1..]| && s[1..][k] == Least(s[1..]);
      assert s[k + 1] == Least(s[1..]);
    }
  }

  lemma {:induction false} GreatestFacts(s: seq<real>)
    requires s != []
    ensures exists k :: 0 <= k < |s| && s[k] == Greatest(s)
    ensures forall k :: 0 <= k < |s| ==> s[k] <= Greatest(s)
  {
    assert Greatest(s) == s[0] || |s| > 1;
    if |s| > 1 {
      GreatestFacts(s[1..]);
      assert forall k :: 1 <= k < |s| ==> s[k] == s[1..][k - 1];
      var k :| 0 <= k < |s[1..]| && s[1..][k] == Greatest(s[1..]);
      assert s[k + 1] == Greatest(s[1..]);
    }
  }

  lemma MedianBetween(s: seq<real>)
    requires s != []
    ensures Least(s) <= Median(s) <= Greatest(s)
  {
    hide Sorted;
    LeastFacts(s);
    GreatestFacts(s);
    SortedWithin(s, Least(s), Greatest(s));
    SortedCounts(s, 0.0);
  }

  /** The reported drift estimate is honest up to a factor of three. */
  lemma DriftBound(readings: seq<Reading>, truth: real, maxRtt: real)
    requires Honest(readings, truth) && Samples(readings) != []
    ensures var chosen := Chosen(Samples(readings), maxRtt);
            && chosen != []
            && Abs(Median(Offsets(chosen)) - truth)
               <= 3.0 * Measured(chosen, |Samples(readings)|).estimatedDrift
  {
    hide Chosen, Honest, Samples, Median, Sum, Least, Greatest;
    ChosenBounds(readings, truth, maxRtt);
    var chosen := Chosen(Samples(readings), maxRtt);
    var offsets, rtts := Offsets(chosen), RoundTrips(chosen);
    LeastFacts(rtts);
    LeastFacts(offsets);
    GreatestFacts(offsets);
    MedianBetween(offsets);
    var b :| 0 <= b < |rtts| && rtts[b] == Least(rtts);
    assert truth - rtts[b] / 2.0 <= offsets[b] <= truth + rtts[b] / 2.0;
  }

  /** The factor is needed: three honest readings, each requested after the one before was received, whose
      median error is three times the estimate. */
  lemma DriftBoundIsTight() returns (readings: seq<Reading>)
    ensures Honest(readings, 0.0) && |readings| == 3
    ensures readings[0].receivedAt <= readings[1].startedAt && readings[1].receivedAt <= readings[2].startedAt
    ensures var chosen := Chosen(Samples(readings), 1500.0);
            && chosen != []
            && Median(Offsets(chosen)) == 3.0 && Measured(chosen, 3).estimatedDrift == 1.0
  {
    var a := Reading(0.0, 2.0, Millis(2.0));
    var b := Reading(10.0, 16.0, Millis(16.0));
    var c := Reading(60.0, 66.0, Millis(66.0));
    readings := [a, b, c];
    TightSamples(a, b, c);
    TightMeasures();
    assert Offsets([TIGHT_A, TIGHT_B, TIGHT_C]) == [1.0, 3.0, 3.0];
    assert RoundTrips([TIGHT_A, TIGHT_B, TIGHT_C]) == [2.0, 6.0, 6.0];
  }

  const TIGHT_A := Sample(2.0, 1.0, 2.0)
  const TIGHT_B := Sample(6.0, 3.0, 16.0)
  const TIGHT_C := Sample(6.0, 3.0, 66.0)

  lemma TightSamples(a: Reading, b: Reading, c: Reading)
    requires a == Reading(0.0, 2.0, Millis(2.0)) && b == Reading(10.0, 16.0, Millis(16.0))
    requires c == Reading(60.0, 66.0, Millis(66.0))
    ensures Chosen(Samples([a, b, c]), 1500.0) == [TIGHT_A, TIGHT_B, TIGHT_C]
  {
    assert [a, b, c][1..] == [b, c] && [b, c][1..] == [c] && [c][1..] == [];
    assert Samples([c]) == [TIGHT_C];
    assert Samples([b, c]) == [TIGHT_B, TIGHT_C];
    var s := [TIGHT_A, TIGHT_B, TIGHT_C];
    assert Samples([a, b, c]) == s;
    assert s[1..] == [TIGHT_B, TIGHT_C] && s[1..][1..] == [TIGHT_C] && [TIGHT_C][1..] == [];
    assert Within([TIGHT_C], 1500.0) == [TIGHT_C];
    assert Within([TIGHT_B, TIGHT_C], 1500.0) == [TIGHT_B, TIGHT_C];
    assert Within(s, 1500.0) == s;
  }

  lemma TightMeasures()
    ensures Median([1.0, 3.0, 3.0]) == 3.0
    ensures Least([2.0, 6.0, 6.0]) == 2.0 && Least([1.0, 3.0, 3.0]) == 1.0 && Greatest([1.0, 3.0, 3.0]) == 3.0
  {
    assert [1.0, 3.0, 3.0][1..] == [3.0, 3.0] && [3.0, 3.0][1..] == [3.0] && [3.0][1..] == [];
    assert [2.0, 6.0, 6.0][1..] == [6.0, 6.0] && [6.0, 6.0][1..] == [6.0];
    assert Sorted([3.0]) == [3.0];
    assert Sorted([3.0, 3.0]) == [3.0, 3.0];
    assert Sorted([1.0, 3.0, 3.0]) == [1.0, 3.0, 3.0];
    assert Least([6.0, 6.0]) == 6.0 && Greatest([3.0, 3.0]) == 3.0 && Least([3.0, 3.0]) == 3.0;
  }

  /** A response without a stamp is honest only by accident: its sample meets the bound exactly when the
      server's clock showed zero while the exchange was under way. */
  lemma AbsentStampIff(r: Reading, truth: real)
    requires r.stamp.Absent? && r.startedAt <= r.receivedAt
    ensures var x := SampleOf(r);
            Abs(x.offset - truth) <= x.roundTrip / 2.0 <==> r.startedAt <= -truth <= r.receivedAt
  {
  }

  /** One such response among none: the offset is wrong by the whole local time. */
  lemma AbsentStampMisleads() returns (r: Reading)
    ensures r.stamp.Absent? && r.startedAt == 1000.0 && r.receivedAt == 1002.0
    ensures Chosen(Samples([r]), 1500.0) == [SampleOf(r)]
    ensures Median(Offsets([SampleOf(r)])) == -1001.0 && Median(RoundTrips([SampleOf(r)])) == 2.0
  {
    r := Reading(1000.0, 1002.0, Absent);
    var x := SampleOf(r);
    assert [r][1..] == [] && [x][1..] == [];
    assert Samples([r]) == [x] && Within([x], 1500.0) == [x];
    assert Offsets([x]) == [-1001.0] && RoundTrips([x]) == [2.0];
    assert [-1001.0][1..] == [] && [2.0][1..] == [];
    assert Sorted([-1001.0]) == [-1001.0] && Sorted([2.0]) == [2.0];
  }
}
