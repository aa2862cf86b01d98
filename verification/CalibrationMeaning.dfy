/** What calibration keeps and reports, said of the samples. */
module CalibrationMeaning {
  import opened Arithmetic
  import opened Common
  import opened Calibration
  import opened CalibrationLaws

  /** The value, cut off at 0 and 1. */
  function Fraction(x: real): real { if x < 0.0 then 0.0 else if x > 1.0 then 1.0 else x }

  /** The resolved samples are those with both a confidence and an outcome, in order: each is its own confidence as
      the prediction and its own outcome as the result. */
  lemma {:induction false} ResolvedMeaning(raw: seq<RawSample>)
    ensures raw == [] ==> Normalized(raw) == []
    ensures raw != [] ==>
              var last, before := raw[|raw| - 1], Normalized(raw[..|raw| - 1]);
              Normalized(raw) == match (last.confidence, last.outcome)
                                 case (Some(c), Some(o)) => before + [Sample(Fraction(c), Fraction(o))]
                                 case _ => before
  {
  }

  lemma {:induction false} ResolvedIff(raw: seq<RawSample>, s: Sample)
    ensures s in Normalized(raw) <==>
            exists r :: r in raw && r.confidence.Some? && r.outcome.Some?
                        && s.p == Fraction(r.confidence.value) && s.y == Fraction(r.outcome.value)
    ensures |Normalized(raw)| <= |raw|
  {
    if raw != [] {
      var n := |raw| - 1;
      ResolvedIff(raw[..n], s);
      ResolvedMeaning(raw);
      assert raw == raw[..n] + [raw[n]];
    }
  }

  /** A prediction that is not above the cut-off is in the bin whose stretch of the unit interval holds it, and
      one above it in the last bin (for at most 20 bins). */
  lemma BinMeaning(p: real, n: nat, b: nat)
    requires 0.0 <= p <= 0.999999 && 0 < n
    ensures BinIndex(p, n) == b <==> b as real <= p * n as real < b as real + 1.0
  {
    assert Clamp(p, 0.0, 0.999999) == p;
    Grow(p, 0.999999, n as real);
    Grow(0.0, p, n as real);
    assert 0.0 <= p * n as real < n as real;
  }

  lemma BucketMeaning(p: real, n: nat, b: nat)
    requires 0.0 <= p < 1.0 && 0 < n
    ensures BucketIndex(p, n) == b <==> b as real <= p * n as real < b as real + 1.0
  {
    Grow(0.0, p, n as real);
    StrictlyBelow(p, n as real);
    assert (p * n as real).Floor < n;
  }

  /** A bin that is not empty contributes the distance between its mean prediction and its mean outcome, weighted with
      its part of the observations; where its predictions were not recorded, its centre stands in for their mean. */
  lemma TermMeaning(bin: Bin, b: nat, n: nat, observations: nat)
    requires 0 < n && 0 < bin.count <= observations
    ensures var outcome := bin.targetTotal / bin.count as real;
            var predicted := match bin.predictionTotal
                             case Some(total) => total / bin.count as real
                             case None => (b as real + b as real + 1.0) / 2.0 / n as real;
            Term(bin, b, n, observations)
            == (if predicted < outcome then outcome - predicted else predicted - outcome)
               * (bin.count as real / observations as real)
    ensures Term(bin.(count := 0), b, n, observations) == 0.0
  {
  }

  lemma FullConfidence(n: nat)
    requires 0 < n
    ensures BucketIndex(1.0, n) == n - 1
  {
    assert 1.0 * n as real == n as real;
  }

  lemma StrictlyBelow(p: real, n: real)
    requires p < 1.0 && n > 0.0
    ensures p * n < n
  {
    PositiveProduct(1.0 - p, n);
    assert (1.0 - p) * n == n - p * n;
  }

  /** Between two and twenty buckets, and the requested number when it lies there. */
  lemma BucketCountMeaning(requested: real, n: nat)
    ensures 2 <= BucketCount(requested) <= 20
    ensures 2 <= n <= 20 && n as real - 0.5 <= requested < n as real + 0.5 ==> BucketCount(requested) == n
    ensures requested < 2.0 ==> BucketCount(requested) == 2
    ensures requested > 20.0 ==> BucketCount(requested) == 20
  {
  }

  /** A sample adds one to its bin's count, its prediction and its outcome to the totals, and its squared error. */
  lemma AddedMeaning(bin: Bin, s: Sample)
    requires 0.0 <= s.p <= 1.0
    ensures var after := Added(bin, s);
            && after.count == bin.count + 1
            && after.predictionTotal == Some((match bin.predictionTotal case None => 0.0 case Some(t) => t) + s.p)
            && after.targetTotal - bin.targetTotal == s.y
            && after.squaredErrorTotal - bin.squaredErrorTotal == (s.y - s.p) * (s.y - s.p)
  {
    assert (s.p - s.y) * (s.p - s.y) == (s.y - s.p) * (s.y - s.p);
  }

  /** The calibrated value balances the bin's outcomes against the prior at its centre: its pulls towards the two,
      with the count and the strength as their weights, cancel. An empty bin gives its centre. */
  lemma SmoothedBalances(bin: Bin, b: nat, n: nat, strength: real)
    requires n > 0 && b < n && strength > 0.0 && 0.0 <= bin.targetTotal <= bin.count as real
    ensures var v, center := Smoothed(bin, b, n, strength), (b as real + 0.5) / n as real;
            && bin.targetTotal - v * bin.count as real == (v - center) * strength
            && (bin.count == 0 ==> v == center)
  {
    var center, count := (b as real + 0.5) / n as real, bin.count as real;
    Divide(b as real + 0.5, n as real, n as real);
    assert 0.0 < center <= 1.0;
    var pull := Pull(center, strength);
    var v := Quotient(bin.targetTotal + pull, count + strength);
    SmoothedIs(bin, b, n, strength, center, pull, v);
    hide *;
    Balanced(v, center, count, strength, bin.targetTotal, pull);
    if bin.count == 0 && v - center != 0.0 {
      NoZeroProduct(strength, v - center);
    }
  }

  lemma SmoothedIs(bin: Bin, b: nat, n: nat, strength: real, center: real, pull: real, v: real)
    requires b < n && strength > 0.0 && center == (b as real + 0.5) / n as real && pull == center * strength
    requires v == (bin.targetTotal + pull) / (bin.count as real + strength) && 0.0 <= v <= 1.0
    ensures Smoothed(bin, b, n, strength) == v
  {
    assert bin.targetTotal + ((b as real + 0.5) / n as real) * strength == bin.targetTotal + pull;
    var blend := (bin.targetTotal + ((b as real + 0.5) / n as real) * strength) / (bin.count as real + strength);
    SmoothedForm(bin, b, n, strength, blend);
  }

  lemma Pull(center: real, strength: real) returns (pull: real)
    requires 0.0 < center <= 1.0 && strength > 0.0
    ensures pull == center * strength && 0.0 <= pull <= strength
  {
    pull := center * strength;
    Product(center, strength);
    Grow(center, 1.0, strength);
  }

  lemma Quotient(x: real, t: real) returns (v: real)
    requires 0.0 <= x <= t && t > 0.0
    ensures v == x / t && 0.0 <= v <= 1.0 && v * t == x
  {
    v := x / t;
    Divide(x, t, t);
  }

  lemma Balanced(v: real, center: real, count: real, strength: real, total: real, pull: real)
    requires v * (count + strength) == total + pull && pull == center * strength
    ensures total - v * count == (v - center) * strength
  {
    Distribute(v, count, strength);
    assert (v - center) * strength == v * strength - center * strength;
  }
}
