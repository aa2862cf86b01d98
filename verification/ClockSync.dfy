/** Server-clock synchronisation: `syncServerTime` and `median` of src/binance/client.js. With one server
    stamp per exchange, the offset of a sample is the clock offset formula of section 8 of RFC 5905. */
module ClockSync {
  import opened Common

  /** What the server put in the `serverTime` field of its answer. */
  datatype Stamp = Absent | Malformed | Millis(value: real)

  /** One exchange: local clock before and after, and the server's stamp. */
  datatype Reading = Reading(startedAt: real, receivedAt: real, stamp: Stamp)

  /** `Number(response.serverTime || 0)` when it is finite: an absent stamp counts as zero. */
  function ServerTime(r: Reading): Option<real> {
    match r.stamp
    case Absent => Some(0.0)
    case Malformed => None
    case Millis(value) => Some(value)
  }

  datatype Sample = Sample(roundTrip: real, offset: real, receivedAt: real)

  function SampleOf(r: Reading): Sample
    requires ServerTime(r).Some?
  {
    var roundTrip := Max(0.0, r.receivedAt - r.startedAt);
    Sample(roundTrip, ServerTime(r).value - (r.startedAt + roundTrip / 2.0), r.receivedAt)
  }

  function Samples(rs: seq<Reading>): seq<Sample> {
    if rs == [] then []
    else if ServerTime(rs[0]).Some? then [SampleOf(rs[0])] + Samples(rs[1..])
    else Samples(rs[1..])
  }

  function Insert(x: real, s: seq<real>): seq<real> {
    if s == [] || x <= s[0] then [x] + s else [s[0]] + Insert(x, s[1..])
  }

  function Sorted(s: seq<real>): seq<real> {
    if s == [] then [] else Insert(s[0], Sorted(s[1..]))
  }

  function Median(s: seq<real>): real {
    var t := Sorted(s);
    if |t| == 0 then 0.0
    else if |t| % 2 == 1 then t[|t| / 2]
    else (t[|t| / 2 - 1] + t[|t| / 2]) / 2.0
  }

  function Least(s: seq<real>): real
    requires s != []
  {
    if |s| == 1 then s[0] else Min(s[0], Least(s[1..]))
  }

  function Greatest(s: seq<real>): real
    requires s != []
  {
    if |s| == 1 then s[0] else Max(s[0], Greatest(s[1..]))
  }

  function InsertByRtt(x: Sample, s: seq<Sample>): seq<Sample> {
    if s == [] || x.roundTrip <= s[0].roundTrip then [x] + s else [s[0]] + InsertByRtt(x, s[1..])
  }

  function SortedByRtt(s: seq<Sample>): seq<Sample> {
    if s == [] then [] else InsertByRtt(s[0], SortedByRtt(s[1..]))
  }

  function Within(s: seq<Sample>, maxRtt: real): seq<Sample> {
    if s == [] then []
    else if s[0].roundTrip <= maxRtt then [s[0]] + Within(s[1..], maxRtt)
    else Within(s[1..], maxRtt)
  }

  /** The samples with an acceptable round trip or, failing that, the faster half. */
  function Chosen(s: seq<Sample>, maxRtt: real): seq<Sample> {
    if Within(s, maxRtt) != [] then Within(s, maxRtt) else Take(SortedByRtt(s), (|s| + 1) / 2)
  }

  function Offsets(s: seq<Sample>): seq<real> { seq(|s|, i requires 0 <= i < |s| => s[i].offset) }

  function RoundTrips(s: seq<Sample>): seq<real> { seq(|s|, i requires 0 <= i < |s| => s[i].roundTrip) }

  function Arrivals(s: seq<Sample>): seq<real> { seq(|s|, i requires 0 <= i < |s| => s[i].receivedAt) }

  datatype ClockState = ClockState(
    estimatedDrift: real,
    bestRtt: real,
    medianRtt: real,
    averageRtt: real,
    offsetSpread: real,
    sampleCount: nat,
    totalSampleCount: nat,
    lastSyncAt: Option<real>)

  function Spread(s: seq<Sample>): real
    requires s != []
  {
    if |s| > 1 then Greatest(Offsets(s)) - Least(Offsets(s)) else 0.0
  }

  function Measured(chosen: seq<Sample>, total: nat): ClockState
    requires chosen != []
  {
    var best := Least(RoundTrips(chosen));
    ClockState(Max(Max(best / 2.0, Spread(chosen) / 2.0), 0.0), best, Median(RoundTrips(chosen)),
               Sum(RoundTrips(chosen)) / |chosen| as real, Spread(chosen), |chosen|, total,
               Some(Greatest(Arrivals(chosen))))
  }

  lemma {:induction false} SortedByRttFacts(s: seq<Sample>)
    ensures |SortedByRtt(s)| == |s|
    ensures forall x :: x in SortedByRtt(s) <==> x in s
    ensures forall i, j :: 0 <= i < j < |s| ==> SortedByRtt(s)[i].roundTrip <= SortedByRtt(s)[j].roundTrip
  {
    if s != [] {
      SortedByRttFacts(s[1..]);
      InsertByRttFacts(s[0], SortedByRtt(s[1..]));
    }
  }

  lemma {:induction false} InsertByRttFacts(x: Sample, s: seq<Sample>)
    requires forall i, j :: 0 <= i < j < |s| ==> s[i].roundTrip <= s[j].roundTrip
    ensures |InsertByRtt(x, s)| == |s| + 1
    ensures forall y :: y in InsertByRtt(x, s) <==> y == x || y in s
    ensures forall i, j :: 0 <= i < j <= |s| ==> InsertByRtt(x, s)[i].roundTrip <= InsertByRtt(x, s)[j].roundTrip
  {
    if s != [] && s[0].roundTrip < x.roundTrip {
      InsertByRttFacts(x, s[1..]);
      assert forall y :: y in InsertByRtt(x, s[1..]) ==> s[0].roundTrip <= y.roundTrip;
    }
  }

  lemma {:induction false} WithinFacts(s: seq<Sample>, maxRtt: real)
    ensures forall x :: x in Within(s, maxRtt) <==> x in s && x.roundTrip <= maxRtt
  {
    if s != [] {
      WithinFacts(s[1..], maxRtt);
    }
  }

  /** The chosen samples are never empty, come from the measured ones, and either all respect the
      round-trip limit or, when no sample does, are the faster half. */
  lemma ChosenFacts(s: seq<Sample>, maxRtt: real)
    requires s != []
    ensures var chosen := Chosen(s, maxRtt);
            && chosen != []
            && (forall x :: x in chosen ==> x in s)
            && ((exists x :: x in s && x.roundTrip <= maxRtt) ==>
                  forall x :: x in chosen <==> x in s && x.roundTrip <= maxRtt)
            && ((forall x :: x in s ==> x.roundTrip > maxRtt) ==>
                  |chosen| == (|s| + 1) / 2 && chosen <= SortedByRtt(s))
  {
    WithinFacts(s, maxRtt);
    SortedByRttFacts(s);
    var fast := Take(SortedByRtt(s), (|s| + 1) / 2);
    if x :| x in s && x.roundTrip <= maxRtt {
      assert x in Within(s, maxRtt);
    } else {
      assert Within(s, maxRtt) == [] by {
        if Within(s, maxRtt) != [] {
          assert Within(s, maxRtt)[0] in Within(s, maxRtt);
        }
      }
    }
    assert forall x :: x in fast ==> x in SortedByRtt(s);
  }

  class Clock {
    const maxAge: real
    const maxRtt: real
    var offset: int
    var state: ClockState

    constructor (maxAge: real, maxRtt: real)
      ensures this.maxAge == maxAge && this.maxRtt == maxRtt
      ensures offset == 0 && state.sampleCount == 0 && state.lastSyncAt == None
    {
      this.maxAge := maxAge;
      this.maxRtt := maxRtt;
      offset := 0;
      state := ClockState(0.0, 0.0, 0.0, 0.0, 0.0, 0, 0, None);
    }

    /** `getClockSyncState`: synchronised, and not longer ago than the maximum age. */
    predicate Current(now: real)
      reads this
    {
      state.sampleCount > 0 && state.lastSyncAt.Some? && Max(0.0, now - state.lastSyncAt.value) <= maxAge
    }

    /** A clock that was synchronised at most the maximum age ago is left alone unless forced. Returns the
        offset, or nothing when no reading carried a usable server stamp. */
    method Sync(force: bool, now: real, readings: seq<Reading>) returns (result: Option<int>)
      modifies this
      ensures var recent := old(state.sampleCount > 0 && state.lastSyncAt.Some?
                                && now <= state.lastSyncAt.value + maxAge && maxAge >= 0.0);
              if !force && recent then unchanged(this) && result == Some(offset)
              else if Samples(readings) == [] then unchanged(this) && result == None
              else
                var chosen := Chosen(Samples(readings), maxRtt);
                && chosen != []
                && offset == Round(Median(Offsets(chosen)))
                && state == Measured(chosen, |Samples(readings)|)
                && result == Some(offset)
    {
      hide Median, Measured, Offsets, Chosen;
      if !force && Current(now) {
        return Some(offset);
      }
      var samples: seq<Sample> := [];
      for i := 0 to |readings|
        invariant samples + Samples(readings[i..]) == Samples(readings)
      {
        if ServerTime(readings[i]).Some? {
          samples := samples + [SampleOf(readings[i])];
        }
      }
      assert samples == Samples(readings);
      if samples == [] {
        return None;
      }
      ChosenFacts(samples, maxRtt);
      var chosen := Chosen(samples, maxRtt);
      offset := Round(Median(Offsets(chosen)));
      state := Measured(chosen, |samples|);
      result := Some(offset);
    }
  }
}
