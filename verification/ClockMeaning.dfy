/** What a clock synchronisation measures, said of the readings. */
module ClockMeaning {
  import opened Common
  import opened ClockSync
  import opened ClockBounds

  /** The sample that a reading with this server time yields. */
  ghost predicate Yields(r: Reading, serverTime: real, x: Sample) {
    && x.receivedAt == r.receivedAt
    && x.roundTrip == (if r.receivedAt > r.startedAt then r.receivedAt - r.startedAt else 0.0)
    && r.startedAt + x.roundTrip / 2.0 + x.offset == serverTime
  }

  /** Every reading yields one sample, in order, except those with a malformed stamp. */
  lemma {:induction false} SamplesMeaning(rs: seq<Reading>)
    ensures rs == [] ==> Samples(rs) == []
    ensures rs != [] && rs[0].stamp == Malformed ==> Samples(rs) == Samples(rs[1..])
    ensures rs != [] && rs[0].stamp != Malformed ==>
              && Samples(rs) != [] && Samples(rs)[1..] == Samples(rs[1..])
              && Yields(rs[0], if rs[0].stamp == Absent then 0.0 else rs[0].stamp.value, Samples(rs)[0])
  {
  }

  /** `lo` and `hi` are the two middle values: of `s`, half lie at or below each, and half at or above. */
  ghost predicate Middle(s: seq<real>, k: nat, v: real) { CountLt(s, v) <= k < CountLe(s, v) }

  /** The median is the mean of the two middle values, which are one when there is an odd number of them. */
  lemma MedianMeaning(s: seq<real>) returns (lo: real, hi: real)
    requires s != []
    ensures Middle(s, (|s| - 1) / 2, lo) && Middle(s, |s| / 2, hi) && Median(s) == (lo + hi) / 2.0
  {
    hide Sorted, CountLe, CountLt;
    SortedCounts(s, 0.0);
    SortedAscends(s);
    var t := Sorted(s);
    lo, hi := t[(|s| - 1) / 2], t[|s| / 2];
    SortedCounts(s, lo);
    SortedCounts(s, hi);
    hide Ascending;
    Rank(t, (|s| - 1) / 2, lo);
    Rank(t, |s| / 2, hi);
  }

  /** What a synchronisation records about its samples. */
  lemma MeasuredMeaning(chosen: seq<Sample>, total: nat)
    requires chosen != []
    ensures var state := Measured(chosen, total);
            && (exists x :: x in chosen && x.roundTrip == state.bestRtt)
            && (forall x :: x in chosen ==> state.bestRtt <= x.roundTrip)
            && state.medianRtt == Median(RoundTrips(chosen))
            && state.averageRtt * |chosen| as real == Sum(RoundTrips(chosen))
            && (exists x, y :: x in chosen && y in chosen && state.offsetSpread == x.offset - y.offset)
            && (forall x, y :: x in chosen && y in chosen ==> x.offset - y.offset <= state.offsetSpread)
            && state.sampleCount == |chosen| && state.totalSampleCount == total
            && state.lastSyncAt.Some? && (exists x :: x in chosen && x.receivedAt == state.lastSyncAt.value)
            && (forall x :: x in chosen ==> x.receivedAt <= state.lastSyncAt.value)
            && state.estimatedDrift >= state.bestRtt / 2.0 && state.estimatedDrift >= state.offsetSpread / 2.0
            && state.estimatedDrift in {state.bestRtt / 2.0, state.offsetSpread / 2.0, 0.0}
  {
    hide Least, Greatest, Sum, Median;
    var rtts, offsets, arrivals := RoundTrips(chosen), Offsets(chosen), Arrivals(chosen);
    LeastFacts(rtts);
    LeastFacts(offsets);
    GreatestFacts(offsets);
    GreatestFacts(arrivals);
    SpreadFacts(chosen);
    var a :| 0 <= a < |rtts| && rtts[a] == Least(rtts);
    var b :| 0 <= b < |arrivals| && arrivals[b] == Greatest(arrivals);
    assert chosen[a] in chosen && chosen[b] in chosen;
    forall x | x in chosen
      ensures Least(rtts) <= x.roundTrip && x.receivedAt <= Greatest(arrivals)
    {
      var k :| 0 <= k < |chosen| && chosen[k] == x;
      assert rtts[k] == x.roundTrip && arrivals[k] == x.receivedAt;
    }
    MeanTimesCount(Sum(rtts), |chosen|);
  }

  lemma MeanTimesCount(total: real, n: nat)
    requires n > 0
    ensures total / n as real * n as real == total
  {
  }

  lemma SpreadFacts(chosen: seq<Sample>)
    requires chosen != []
    ensures exists x, y :: x in chosen && y in chosen && Spread(chosen) == x.offset - y.offset
    ensures forall x, y :: x in chosen && y in chosen ==> x.offset - y.offset <= Spread(chosen)
  {
    hide Least, Greatest;
    var offsets := Offsets(chosen);
    LeastFacts(offsets);
    GreatestFacts(offsets);
    var a :| 0 <= a < |offsets| && offsets[a] == Greatest(offsets);
    var b :| 0 <= b < |offsets| && offsets[b] == Least(offsets);
    assert chosen[a] in chosen && chosen[b] in chosen;
    if |chosen| == 1 {
      assert Spread(chosen) == chosen[0].offset - chosen[0].offset;
    } else {
      assert Spread(chosen) == chosen[a].offset - chosen[b].offset;
    }
    forall x, y | x in chosen && y in chosen
      ensures x.offset - y.offset <= Spread(chosen)
    {
      var i :| 0 <= i < |chosen| && chosen[i] == x;
      var j :| 0 <= j < |chosen| && chosen[j] == y;
      assert Least(offsets) <= offsets[j] && offsets[i] <= Greatest(offsets);
    }
  }

  /** Rounding goes to the nearest integer, and half-way cases go up. */
  lemma RoundMeaning(x: real, n: int)
    ensures Round(x) == n <==> n as real - 0.5 <= x < n as real + 0.5
  {
  }
}
