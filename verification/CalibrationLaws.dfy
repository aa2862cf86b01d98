/** The streaming calibration error is the batch calibration error, and what it bounds. */
module CalibrationLaws {
  import opened Arithmetic
  import opened Common
  import opened Calibration

  /** The gap between summed predictions and summed outcomes in one bin. */
  function Gap(samples: seq<Sample>, b: nat, n: nat): real {
    TotalsOf(samples, b, n).confidence - TotalsOf(samples, b, n).winRate
  }

  /** For at most 20 bins, cutting predictions off at 0.999999 puts none in another bin. */
  lemma SameIndex(p: real, n: nat)
    requires 0.0 <= p <= 1.0 && 1 <= n <= 20
    ensures BinIndex(p, n) == BucketIndex(p, n)
  {
    if p > 0.999999 {
      TopBin(p, n);
      TopBin(0.999999, n);
    } else {
      assert Clamp(p, 0.0, 0.999999) == p;
      BelowTop(p, n);
    }
  }

  lemma TopBin(p: real, n: nat)
    requires 0.999999 <= p <= 1.0 && 1 <= n <= 20
    ensures n - 1 <= (p * n as real).Floor <= n
  {
    var d := 1.0 - p;
    assert p * n as real == n as real - d * n as real;
    assert 0.0 <= d * n as real <= 0.00002 by {
      Scale(d, n as real, 20.0);
    }
  }

  lemma Scale(x: real, v: real, hi: real)
    requires 0.0 <= x && 0.0 <= v <= hi
    ensures 0.0 <= x * v <= x * hi
  {
    Grow(0.0, x, v);
    Grow(0.0, hi - v, x);
    assert (hi - v) * x == x * hi - x * v;
  }

  lemma BelowTop(p: real, n: nat)
    requires 0.0 <= p <= 1.0
    ensures 0 <= (p * n as real).Floor <= n
  {
    if n > 0 {
      Grow(0.0, p, n as real);
      Grow(p, 1.0, n as real);
    }
  }

  /** Bin by bin, the streaming calibrator holds the totals of the batch summary. */
  lemma {:induction false} BinsAgree(samples: seq<Sample>, b: nat, n: nat)
    requires InRange(samples) && 1 <= n <= 20
    ensures var bin, t := BinOf(samples, b, n), TotalsOf(samples, b, n);
            && bin.count == t.count && bin.targetTotal == t.winRate
            && bin.predictionTotal == (if t.count == 0 then None else Some(t.confidence))
            && (t.count == 0 ==> t.confidence == t.winRate == 0.0)
  {
    hide BinIndex, BucketIndex;
    if samples != [] {
      var k := |samples| - 1;
      BinsAgree(samples[..k], b, n);
      SameIndex(samples[k].p, n);
      assert Clamp(samples[k].p, 0.0, 1.0) == samples[k].p;
    }
  }

  lemma Weighted(x: real, y: real, count: nat, total: nat)
    requires 0 < count && 0 < total
    ensures Abs(x / count as real - y / count as real) * (count as real / total as real) == Abs(x - y) / total as real
  {
    var c, t := count as real, total as real;
    assert x / c - y / c == (x - y) / c;
    AbsQuotient(x - y, c);
    Cancel(Abs(x - y), c, t);
  }

  lemma AbsQuotient(x: real, c: real)
    requires c > 0.0
    ensures Abs(x / c) == Abs(x) / c
  {
    assert x / c >= 0.0 <==> x >= 0.0;
  }

  lemma Cancel(x: real, c: real, t: real)
    requires c > 0.0 && t > 0.0
    ensures (x / c) * (c / t) == x / t
  {
    assert (x / c) * (c / t) == ((x / c) * c) / t;
  }

  lemma TermsAgree(samples: seq<Sample>, b: nat, n: nat)
    requires InRange(samples) && samples != [] && 1 <= n <= 20
    ensures Term(BinOf(samples, b, n), b, n, |samples|) == Abs(Gap(samples, b, n)) / |samples| as real
    ensures BatchTerm(Averaged(TotalsOf(samples, b, n)), |samples|) == Abs(Gap(samples, b, n)) / |samples| as real
  {
    hide BinOf, TotalsOf, Abs;
    BinsAgree(samples, b, n);
    var t := TotalsOf(samples, b, n);
    assert Max(|samples| as real, 1.0) == |samples| as real;
    if t.count > 0 {
      Weighted(t.confidence, t.winRate, t.count, |samples|);
    } else {
      NoGap(|samples| as real);
    }
  }

  lemma NoGap(total: real)
    requires total > 0.0
    ensures Abs(0.0 - 0.0) / total == 0.0
  {
  }

  function GapSum(samples: seq<Sample>, n: nat, m: nat): real {
    if m == 0 then 0.0 else GapSum(samples, n, m - 1) + Abs(Gap(samples, m - 1, n))
  }

  lemma {:induction false} ErrorsAreGaps(samples: seq<Sample>, n: nat, m: nat)
    requires InRange(samples) && samples != [] && 1 <= n <= 20
    ensures StreamError(samples, n, m) == BatchError(samples, n, m) == GapSum(samples, n, m) / |samples| as real
  {
    hide BinOf, TotalsOf, Term, BatchTerm, Averaged, Gap;
    if m > 0 {
      ErrorsAreGaps(samples, n, m - 1);
      TermsAgree(samples, m - 1, n);
      SplitQuotient(GapSum(samples, n, m - 1), Abs(Gap(samples, m - 1, n)), |samples| as real);
    }
  }

  lemma SplitQuotient(x: real, y: real, t: real)
    requires t > 0.0
    ensures x / t + y / t == (x + y) / t
  {
  }

  lemma {:induction false} NoSamplesNoError(n: nat, m: nat)
    requires n > 0
    ensures StreamError([], n, m) == BatchError([], n, m) == 0.0
  {
    if m > 0 {
      NoSamplesNoError(n, m - 1);
    }
  }

  // ---------------------------------------------------------------------------------------------
  // Sums over bins are sums over samples
  // ---------------------------------------------------------------------------------------------

  function CountSum(samples: seq<Sample>, n: nat, m: nat): nat {
    if m == 0 then 0 else CountSum(samples, n, m - 1) + TotalsOf(samples, m - 1, n).count
  }

  function SignedSum(samples: seq<Sample>, n: nat, m: nat): real {
    if m == 0 then 0.0 else SignedSum(samples, n, m - 1) + Gap(samples, m - 1, n)
  }

  function Predictions(samples: seq<Sample>): seq<real> {
    seq(|samples|, i requires 0 <= i < |samples| => samples[i].p)
  }

  function Outcomes(samples: seq<Sample>): seq<real> {
    seq(|samples|, i requires 0 <= i < |samples| => samples[i].y)
  }

  lemma {:induction false} SumsStep(samples: seq<Sample>, n: nat, m: nat)
    requires InRange(samples) && samples != [] && m <= n && n > 0
    ensures var k := |samples| - 1;
            var hit := BucketIndex(samples[k].p, n) < m;
            && CountSum(samples, n, m) == CountSum(samples[..k], n, m) + (if hit then 1 else 0)
            && SignedSum(samples, n, m) == SignedSum(samples[..k], n, m)
                                           + (if hit then samples[k].p - samples[k].y else 0.0)
  {
    hide BucketIndex;
    IndexInRange(samples[|samples| - 1].p, n);
    if m > 0 {
      SumsStep(samples, n, m - 1);
    }
  }

  lemma {:induction false} SumsOverBins(samples: seq<Sample>, n: nat)
    requires InRange(samples) && n > 0
    ensures CountSum(samples, n, n) == |samples|
    ensures SignedSum(samples, n, n) == Sum(Predictions(samples)) - Sum(Outcomes(samples))
  {
    hide BucketIndex;
    if samples == [] {
      EmptySums(n, n);
    } else {
      var k := |samples| - 1;
      SumsOverBins(samples[..k], n);
      SumsStep(samples, n, n);
      IndexInRange(samples[k].p, n);
      assert Predictions(samples)[..k] == Predictions(samples[..k]);
      assert Outcomes(samples)[..k] == Outcomes(samples[..k]);
    }
  }

  lemma {:induction false} EmptySums(n: nat, m: nat)
    ensures CountSum([], n, m) == 0 && SignedSum([], n, m) == 0.0
  {
    if m > 0 {
      EmptySums(n, m - 1);
    }
  }

  lemma {:induction false} GapAtMostCount(samples: seq<Sample>, b: nat, n: nat)
    requires InRange(samples)
    ensures Abs(Gap(samples, b, n)) <= TotalsOf(samples, b, n).count as real
  {
    if samples != [] {
      GapAtMostCount(samples[..|samples| - 1], b, n);
    }
  }

  lemma {:induction false} GapSumBounds(samples: seq<Sample>, n: nat, m: nat)
    requires InRange(samples)
    ensures Abs(SignedSum(samples, n, m)) <= GapSum(samples, n, m) <= CountSum(samples, n, m) as real
  {
    hide Gap;
    if m > 0 {
      GapSumBounds(samples, n, m - 1);
      GapAtMostCount(samples, m - 1, n);
    }
  }

  function Mean(s: seq<real>): real
    requires s != []
  {
    Sum(s) / |s| as real
  }

  /** Streaming equals batch: fed the same samples one by one, a fresh calibrator with 2 to 20 bins reports
      the expected calibration error of the batch summary; the final clamp never changes it. */
  lemma StreamEqualsBatch(samples: seq<Sample>, n: nat)
    requires InRange(samples) && 2 <= n <= 20
    ensures Clamp(StreamError(samples, n, n), 0.0, 1.0) == BatchError(samples, n, n)
  {
    if samples == [] {
      NoSamplesNoError(n, n);
    } else {
      ErrorsAreGaps(samples, n, n);
      ErrorBounds(samples, n);
    }
  }

  /** The error is at most 1 and at least the difference between mean prediction and mean outcome, and
      the bins share out all observations. */
  lemma ErrorBounds(samples: seq<Sample>, n: nat)
    requires InRange(samples) && samples != [] && 2 <= n <= 20
    ensures Abs(Mean(Predictions(samples)) - Mean(Outcomes(samples))) <= BatchError(samples, n, n) <= 1.0
    ensures CountSum(samples, n, n) == |samples|
  {
    hide Gap, Sum, GapSum, SignedSum, CountSum, StreamError, BatchError;
    ErrorsAreGaps(samples, n, n);
    SumsOverBins(samples, n);
    GapSumBounds(samples, n, n);
    Averages(Sum(Predictions(samples)), Sum(Outcomes(samples)), GapSum(samples, n, n), |samples|);
  }

  lemma Averages(x: real, y: real, gaps: real, total: nat)
    requires total > 0 && Abs(x - y) <= gaps <= total as real
    ensures Abs(x / total as real - y / total as real) <= gaps / total as real <= 1.0
  {
    var t := total as real;
    SplitQuotient(x - y, y, t);
    AbsQuotient(x - y, t);
    Divide(Abs(x - y), gaps, t);
    Divide(gaps, t, t);
    assert t / t == 1.0;
  }

  lemma SmoothedBin(bin: Bin, b: nat, n: nat, strength: real)
    requires bin.count > 0 && 0.0 <= bin.targetTotal <= bin.count as real
    requires b < n && strength > 0.0
    ensures var rate, center := bin.targetTotal / bin.count as real, (b as real + 0.5) / n as real;
            && 0.0 <= Min(rate, center) && Max(rate, center) <= 1.0
            && Min(rate, center) <= Smoothed(bin, b, n, strength) <= Max(rate, center)
  {
    hide Smoothed, Min, Max;
    var c, center := bin.count as real, (b as real + 0.5) / n as real;
    var rate := bin.targetTotal / c;
    UnitQuotient(bin.targetTotal, c);
    UnitQuotient(b as real + 0.5, n as real);
    assert rate * c == bin.targetTotal;
    var blend := Blend(rate, center, c, strength);
    SmoothedForm(bin, b, n, strength, blend);
    UnitClamp(rate, center, blend);
  }

  lemma SmoothedForm(bin: Bin, b: nat, n: nat, strength: real, blend: real)
    requires b < n && strength > 0.0
    requires blend == (bin.targetTotal + ((b as real + 0.5) / n as real) * strength) / (bin.count as real + strength)
    ensures Smoothed(bin, b, n, strength) == Clamp(blend, 0.0, 1.0)
  {
  }

  lemma UnitClamp(rate: real, center: real, v: real)
    requires 0.0 <= rate <= 1.0 && 0.0 <= center <= 1.0
    requires Min(rate, center) <= v <= Max(rate, center)
    ensures 0.0 <= Min(rate, center) && Max(rate, center) <= 1.0 && Clamp(v, 0.0, 1.0) == v
  {
  }

  lemma UnitQuotient(x: real, t: real)
    requires 0.0 <= x <= t && t > 0.0
    ensures 0.0 <= x / t <= 1.0
  {
  }

  /** Calibrated probabilities are a weighted mean of the bin's win rate and its centre: they lie between
      the two, and clamping them changes nothing. */
  lemma SmoothedIsBetween(samples: seq<Sample>, b: nat, n: nat, strength: real)
    requires InRange(samples) && b < n && strength > 0.0
    requires BinOf(samples, b, n).count > 0
    ensures var bin := BinOf(samples, b, n);
            var rate, center := bin.targetTotal / bin.count as real, (b as real + 0.5) / n as real;
            && 0.0 <= Min(rate, center) && Max(rate, center) <= 1.0
            && Min(rate, center) <= Smoothed(bin, b, n, strength) <= Max(rate, center)
  {
    hide BinOf, Smoothed;
    OutcomesBelowCount(samples, b, n);
    SmoothedBin(BinOf(samples, b, n), b, n, strength);
  }

  lemma {:induction false} OutcomesBelowCount(samples: seq<Sample>, b: nat, n: nat)
    requires InRange(samples) && n > 0
    ensures 0.0 <= BinOf(samples, b, n).targetTotal <= BinOf(samples, b, n).count as real
  {
    hide BinIndex;
    if samples != [] {
      OutcomesBelowCount(samples[..|samples| - 1], b, n);
    }
  }

  lemma Blend(x: real, y: real, v: real, w: real) returns (z: real)
    requires v > 0.0 && w > 0.0
    ensures z == (x * v + y * w) / (v + w) && Min(x, y) <= z <= Max(x, y)
  {
    var lo, hi, a, b, t := Min(x, y), Max(x, y), x * v, y * w, v + w;
    Grow(lo, x, v);
    Grow(lo, y, w);
    Grow(x, hi, v);
    Grow(y, hi, w);
    assert lo * v <= a <= hi * v && lo * w <= b <= hi * w;
    Distribute(lo, v, w);
    Distribute(hi, v, w);
    z := (a + b) / t;
    QuotientBetween(lo, hi, a + b, t);
  }

  lemma QuotientBetween(lo: real, hi: real, x: real, t: real)
    requires t > 0.0 && lo * t <= x <= hi * t
    ensures lo <= x / t <= hi
  {
    Divide(lo * t, x, t);
    Divide(x, hi * t, t);
    assert lo * t / t == lo && hi * t / t == hi;
  }

  // ---------------------------------------------------------------------------------------------
  // The Brier score
  // ---------------------------------------------------------------------------------------------

  function SquaredError(s: Sample): real { (s.p - s.y) * (s.p - s.y) }

  function SquaredErrors(samples: seq<Sample>): seq<real> {
    seq(|samples|, i requires 0 <= i < |samples| => SquaredError(samples[i]))
  }

  lemma {:induction false} EmptyBinsHoldNothing(samples: seq<Sample>, b: nat, n: nat)
    requires n > 0
    ensures BinOf(samples, b, n).count == 0 ==> BinOf(samples, b, n).squaredErrorTotal == 0.0
  {
    hide BinIndex;
    if samples != [] {
      EmptyBinsHoldNothing(samples[..|samples| - 1], b, n);
    }
  }

  lemma {:induction false} SquaredStep(samples: seq<Sample>, n: nat, m: nat)
    requires samples != [] && m <= n && n > 0
    ensures var k := |samples| - 1;
            SquaredTotal(samples, n, m) == SquaredTotal(samples[..k], n, m)
                                           + (if BinIndex(samples[k].p, n) < m then SquaredErrors(samples)[k] else 0.0)
  {
    hide BinIndex;
    if m > 0 {
      SquaredStep(samples, n, m - 1);
      EmptyBinsHoldNothing(samples[..|samples| - 1], m - 1, n);
    }
  }

  /** The streaming Brier total is the plain sum of squared errors, whatever the bins. */
  lemma {:induction false} BrierIsMeanSquaredError(samples: seq<Sample>, n: nat)
    requires n > 0
    ensures SquaredTotal(samples, n, n) == Sum(SquaredErrors(samples))
  {
    hide BinIndex, SquaredError;
    if samples == [] {
      NoSquares(n, n);
    } else {
      var k := |samples| - 1;
      BrierIsMeanSquaredError(samples[..k], n);
      SquaredStep(samples, n, n);
      assert SquaredErrors(samples)[..k] == SquaredErrors(samples[..k]);
    }
  }

  lemma {:induction false} NoSquares(n: nat, m: nat)
    requires n > 0
    ensures SquaredTotal([], n, m) == 0.0
  {
    if m > 0 {
      NoSquares(n, m - 1);
    }
  }
}
