/** The streaming calibrator of src/ai/probabilityCalibrator.js and its batch counterpart
    `buildConfidenceCalibrationSummary` of src/ai/confidenceCalibration.js. */
module Calibration {
  import opened Common

  /** A prediction and its outcome. */
  datatype Sample = Sample(p: real, y: real)

  datatype Bin = Bin(count: nat, predictionTotal: Option<real>, targetTotal: real, squaredErrorTotal: real)

  const EMPTY_BIN := Bin(0, None, 0.0, 0.0)

  function BinIndex(p: real, n: nat): (i: nat)
    requires n > 0
    ensures i < n
  {
    var k := (Clamp(p, 0.0, 0.999999) * n as real).Floor;
    if k < 0 then 0 else if k > n - 1 then n - 1 else k
  }

  function Added(bin: Bin, s: Sample): Bin {
    Bin(bin.count + 1,
        Some(bin.predictionTotal.GetOr(0.0) + Clamp(s.p, 0.0, 1.0)),
        bin.targetTotal + s.y,
        bin.squaredErrorTotal + (s.p - s.y) * (s.p - s.y))
  }

  /** The bin that results from the samples seen so far. */
  function BinOf(history: seq<Sample>, b: nat, n: nat): Bin
    requires n > 0
  {
    if history == [] then EMPTY_BIN
    else
      var last := history[|history| - 1];
      var before := BinOf(history[..|history| - 1], b, n);
      if BinIndex(last.p, n) == b then Added(before, last) else before
  }

  /** What one bin contributes to the expected calibration error. */
  function Term(bin: Bin, b: nat, n: nat, observations: nat): real
    requires n > 0
  {
    if bin.count > 0 then
      Abs((if bin.predictionTotal.Some? then bin.predictionTotal.value / bin.count as real
           else (b as real + 0.5) / n as real)
          - bin.targetTotal / bin.count as real)
      * (bin.count as real / Max(observations as real, 1.0))
    else 0.0
  }

  function StreamError(history: seq<Sample>, n: nat, m: nat): real
    requires n > 0
  {
    if m == 0 then 0.0
    else StreamError(history, n, m - 1) + Term(BinOf(history, m - 1, n), m - 1, n, |history|)
  }

  function SquaredTotal(history: seq<Sample>, n: nat, m: nat): real
    requires n > 0
  {
    if m == 0 then 0.0
    else
      var bin := BinOf(history, m - 1, n);
      SquaredTotal(history, n, m - 1) + (if bin.count > 0 then bin.squaredErrorTotal else 0.0)
  }

  class Calibrator {
    const binCount: nat
    const priorStrength: real
    var bins: array<Bin>
    var observations: nat
    ghost var history: seq<Sample>

    ghost predicate Valid()
      reads this, bins
    {
      && binCount > 0 && bins.Length == binCount
      && observations == |history|
      && forall b :: 0 <= b < binCount ==> bins[b] == BinOf(history, b, binCount)
    }

    constructor (binCount: nat, priorStrength: real)
      requires binCount > 0
      ensures Valid() && fresh(bins) && history == []
      ensures this.binCount == binCount && this.priorStrength == priorStrength
    {
      this.binCount, this.priorStrength := binCount, priorStrength;
      bins := new Bin[binCount](_ => EMPTY_BIN);
      observations, history := 0, [];
    }

    method Update(p: real, target: real)
      requires Valid()
      modifies this`observations, this`history, bins
      ensures Valid() && history == old(history) + [Sample(p, target)]
    {
      var i := BinIndex(p, binCount);
      bins[i] := Added(bins[i], Sample(p, target));
      observations := observations + 1;
      history := history + [Sample(p, target)];
      assert history[..|history| - 1] == old(history);
    }

    /** `getSummary().expectedCalibrationError`. */
    method ExpectedCalibrationError() returns (ece: real)
      requires Valid()
      ensures ece == Clamp(StreamError(history, binCount, binCount), 0.0, 1.0)
    {
      var total := 0.0;
      for b := 0 to binCount
        invariant total == StreamError(history, binCount, b)
      {
        total := total + Term(bins[b], b, binCount, observations);
      }
      ece := Clamp(total, 0.0, 1.0);
    }

    /** `getSummary().brierScore`. */
    method BrierScore() returns (brier: real)
      requires Valid()
      ensures brier == Clamp(SquaredTotal(history, binCount, binCount) / Max(|history| as real, 1.0), 0.0, 1.0)
    {
      var total := 0.0;
      for b := 0 to binCount
        invariant total == SquaredTotal(history, binCount, b)
      {
        total := total + (if bins[b].count > 0 then bins[b].squaredErrorTotal else 0.0);
      }
      brier := Clamp(total / Max(observations as real, 1.0), 0.0, 1.0);
    }

    /** `calibrate(probability).calibratedProbability`. */
    method Calibrate(p: real) returns (calibrated: real)
      requires Valid()
      ensures calibrated == Smoothed(BinOf(history, BinIndex(p, binCount), binCount),
                                    BinIndex(p, binCount), binCount, priorStrength)
    {
      var i := BinIndex(p, binCount);
      calibrated := Smoothed(bins[i], i, binCount, priorStrength);
    }
  }

  function Smoothed(bin: Bin, b: nat, n: nat, strength: real): real
    requires n > 0
  {
    var center := (b as real + 0.5) / n as real;
    var weight := bin.count as real + strength;
    Clamp((bin.targetTotal + center * strength) / (if weight == 0.0 then 1.0 else weight), 0.0, 1.0)
  }

  // ---------------------------------------------------------------------------------------------
  // The batch summary
  // ---------------------------------------------------------------------------------------------

  /** A sample whose confidence or outcome cannot be resolved is left out. */
  datatype RawSample = RawSample(confidence: Option<real>, outcome: Option<real>)

  function Normalized(raw: seq<RawSample>): seq<Sample> {
    if raw == [] then []
    else
      var before, last := Normalized(raw[..|raw| - 1]), raw[|raw| - 1];
      if last.confidence.Some? && last.outcome.Some? then
        before + [Sample(Clamp(last.confidence.value, 0.0, 1.0), Clamp(last.outcome.value, 0.0, 1.0))]
      else before
  }

  function BucketCount(requested: real): nat {
    var k := Round(requested);
    if k < 2 then 2 else if k > 20 then 20 else k
  }

  datatype Bucket = Bucket(count: nat, confidence: real, winRate: real)

  function BucketIndex(p: real, n: nat): int {
    var k := (p * n as real).Floor;
    if k > n - 1 then n - 1 else k
  }

  /** Count and totals of a bucket. */
  function TotalsOf(samples: seq<Sample>, b: nat, n: nat): Bucket {
    if samples == [] then Bucket(0, 0.0, 0.0)
    else
      var last := samples[|samples| - 1];
      var t := TotalsOf(samples[..|samples| - 1], b, n);
      if BucketIndex(last.p, n) == b then Bucket(t.count + 1, t.confidence + last.p, t.winRate + last.y) else t
  }

  function Averaged(t: Bucket): Bucket {
    if t.count > 0 then Bucket(t.count, t.confidence / t.count as real, t.winRate / t.count as real) else t
  }

  function BatchTerm(bucket: Bucket, total: nat): real {
    Abs(if bucket.count > 0 then bucket.confidence - bucket.winRate else 0.0)
    * (bucket.count as real / Max(total as real, 1.0))
  }

  function BatchError(samples: seq<Sample>, n: nat, m: nat): real {
    if m == 0 then 0.0
    else BatchError(samples, n, m - 1) + BatchTerm(Averaged(TotalsOf(samples, m - 1, n)), |samples|)
  }

  /** The buckets and expected calibration error of `buildConfidenceCalibrationSummary`. */
  method BuildSummary(raw: seq<RawSample>, requested: real) returns (buckets: array<Bucket>, ece: real)
    ensures buckets.Length == BucketCount(requested)
    ensures forall b :: 0 <= b < buckets.Length ==> buckets[b] == Averaged(TotalsOf(Normalized(raw), b, buckets.Length))
    ensures ece == BatchError(Normalized(raw), buckets.Length, buckets.Length)
  {
    var n := BucketCount(requested);
    buckets := new Bucket[n](_ => Bucket(0, 0.0, 0.0));
    var samples := Normalized(raw);
    NormalizedInRange(raw);
    for i := 0 to |samples|
      invariant forall b :: 0 <= b < n ==> buckets[b] == TotalsOf(samples[..i], b, n)
    {
      var s := samples[i];
      assert samples[..i + 1][..i] == samples[..i];
      IndexInRange(s.p, n);
      var k := BucketIndex(s.p, n);
      buckets[k] := Bucket(buckets[k].count + 1, buckets[k].confidence + s.p, buckets[k].winRate + s.y);
    }
    assert samples[..|samples|] == samples;
    for b := 0 to n
      invariant forall k :: 0 <= k < b ==> buckets[k] == Averaged(TotalsOf(samples, k, n))
      invariant forall k :: b <= k < n ==> buckets[k] == TotalsOf(samples, k, n)
    {
      buckets[b] := Averaged(buckets[b]);
    }
    ece := 0.0;
    for b := 0 to n
      invariant ece == BatchError(samples, n, b)
    {
      ece := ece + BatchTerm(buckets[b], |samples|);
    }
  }

  ghost predicate InRange(samples: seq<Sample>) {
    forall i :: 0 <= i < |samples| ==> 0.0 <= samples[i].p <= 1.0 && 0.0 <= samples[i].y <= 1.0
  }

  lemma {:induction false} NormalizedInRange(raw: seq<RawSample>)
    ensures InRange(Normalized(raw))
  {
    if raw != [] {
      NormalizedInRange(raw[..|raw| - 1]);
    }
  }

  lemma IndexInRange(p: real, n: nat)
    requires 0.0 <= p <= 1.0 && n > 0
    ensures 0 <= BucketIndex(p, n) < n
  {
  }
}
