/** How the learner prepares features, normalises them and keeps its weights in bounds, value by value. */
module LearnerMeaning {
  import opened Arithmetic
  import opened Common
  import opened OnlineModel
  import opened ModelLaws
  import opened ModelTables

  /** A composite damps by its size in thirds of the group's strength, but by no more than that strength; a missing
      one damps by nothing. */
  lemma DampingMeaning(g: Group, values: map<string, real>)
    requires g.strength >= 0.0
    ensures g.composite !in values ==> Damping(g, values) == 0.0
    ensures g.composite in values ==>
              var size := if values[g.composite] < 0.0 then -values[g.composite] else values[g.composite];
              && (size >= 3.0 ==> Damping(g, values) == g.strength)
              && (size <= 3.0 ==> 3.0 * Damping(g, values) == size * g.strength)
  {
    var size := Abs(ValueOf(values, g.composite));
    var part := DampedSize(size, g.strength);
    assert Damping(g, values) == Clamp(part, 0.0, g.strength);
  }

  lemma DampedSize(size: real, strength: real) returns (part: real)
    requires size >= 0.0 && strength >= 0.0
    ensures part == size / 3.0 * strength && part >= 0.0
    ensures 3.0 * part == size * strength
    ensures size <= 3.0 ==> part <= strength
    ensures size >= 3.0 ==> part >= strength
  {
    var third := size / 3.0;
    part := third * strength;
    Product(third, strength);
    if size <= 3.0 {
      Grow(third, 1.0, strength);
    }
    if size >= 3.0 {
      Grow(1.0, third, strength);
    }
    assert 3.0 * (third * strength) == (3.0 * third) * strength;
  }

  /** At its full size of three, a composite takes 34, 30 or 26 per cent off its group. */
  lemma FullDamping()
    ensures Damping(TREND, map["trend_quality_composite" := -3.0]) == 0.34
    ensures Damping(BREAKOUT, map["breakout_quality_composite" := 3.0]) == 0.3
    ensures Damping(EXECUTION, map["execution_quality_composite" := 3.0]) == 0.26
  {
  }

  /** Every bound is a quarter of its prior, on the prior's side of zero. */
  lemma BoundsAreQuarters(i: nat)
    requires i < |MONOTONIC|
    ensures var m := MONOTONIC[i];
            && m.prior != 0.0
            && m.bound == if m.prior > 0.0 then AtLeast(m.prior / 4.0) else AtMost(m.prior / 4.0)
  {
  }

  /** A feature never seen has an empty statistic. */
  lemma NothingSeen(stats: map<string, Stat>, n: string)
    requires n !in stats
    ensures StatOf(stats, n) == Stat(0, 0.0, 0.0)
  {
  }

  /** Members of a group lose that fraction of their value, and nothing else changes. */
  lemma DampedMeaning(g: Group, values: map<string, real>, n: string)
    requires n in values
    ensures DampedBy(g, values).Keys == values.Keys
    ensures n !in g.members ==> DampedBy(g, values)[n] == values[n]
    ensures n in g.members ==> values[n] - DampedBy(g, values)[n] == values[n] * Damping(g, values)
  {
    hide Damping;
    var d := Damping(g, values);
    assert values[n] * (1.0 - d) == values[n] - values[n] * d;
  }

  /** Features are prepared by the groups one after the other. */
  lemma PreparedMeaning(gs: seq<Group>, values: map<string, real>)
    ensures gs == [] ==> DampedByAll(gs, values) == values
    ensures gs != [] ==> DampedByAll(gs, values) == DampedByAll(gs[1..], DampedBy(gs[0], values))
  {
    hide DampedBy;
  }

  /** With fewer than eight values seen, a feature is only cut off at four; from then on it is its distance from the
      mean in deviations, cut off likewise. */
  lemma NormalizedMeaning(stat: Stat, value: real, setup: Setup)
    requires setup.sqrt(if stat.count > 1 then stat.m2 / (stat.count - 1) as real else 0.0) >= 0.0
    ensures var x, deviation := Normalized(stat, value, setup), StandardDeviation(stat, setup);
            if stat.count < 8 then
              && (-4.0 <= value <= 4.0 ==> x == value) && (value > 4.0 ==> x == 4.0) && (value < -4.0 ==> x == -4.0)
            else
              && deviation > 0.0 && -4.0 <= x <= 4.0
              && (-4.0 * deviation <= value - stat.mean <= 4.0 * deviation ==> stat.mean + x * deviation == value)
              && (value - stat.mean > 4.0 * deviation ==> x == 4.0)
              && (value - stat.mean < -4.0 * deviation ==> x == -4.0)
  {
    if stat.count >= 8 {
      var deviation := StandardDeviation(stat, setup);
      assert deviation > 0.0;
      hide StandardDeviation;
      var q := (value - stat.mean) / deviation;
      InDeviations(value - stat.mean, deviation, q);
      assert Normalized(stat, value, setup) == Clamp(q, -4.0, 4.0);
    }
  }

  lemma InDeviations(distance: real, deviation: real, q: real)
    requires deviation > 0.0 && q == distance / deviation
    ensures q * deviation == distance
    ensures q <= 4.0 <==> distance <= 4.0 * deviation
    ensures q >= -4.0 <==> distance >= -4.0 * deviation
  {
    assert q * deviation == distance;
    NotAbove(q, 4.0, distance, deviation);
    NotAbove(-q, 4.0, -distance, deviation);
  }

  lemma NotAbove(q: real, k: real, distance: real, deviation: real)
    requires deviation > 0.0 && q * deviation == distance
    ensures q <= k <==> distance <= k * deviation
  {
    var over := q - k;
    assert over * deviation == distance - k * deviation;
    SignOfProduct(over, deviation);
  }

  /** Enforcing the bounds: a weight that is on its side stays, one that is not moves to its bound, a missing one
      becomes its prior, and weights without a bound stay as they are. */
  lemma ProjectionMeaning(ms: seq<Monotonic>, weights: map<string, real>, i: nat)
    requires GoodTable(ms) && i < |ms|
    ensures var m, after := ms[i], ProjectedBy(ms, weights);
            && m.name in after
            && (m.name !in weights ==> after[m.name] == m.prior)
            && (m.name in weights ==>
                  match m.bound
                  case AtLeast(min) => after[m.name] == if weights[m.name] < min then min else weights[m.name]
                  case AtMost(max) => after[m.name] == if weights[m.name] > max then max else weights[m.name])
  {
    var next := weights[ms[0].name := Confined(ms[0], weights)];
    if i == 0 {
      Untouched(ms[1..], next, ms[0].name);
      assert GoodBound(ms[0]);
    } else {
      ProjectionMeaning(ms[1..], next, i - 1);
    }
  }

  lemma {:induction false} Untouched(ms: seq<Monotonic>, weights: map<string, real>, n: string)
    requires forall i :: 0 <= i < |ms| ==> ms[i].name != n
    ensures n in ProjectedBy(ms, weights) <==> n in weights
    ensures n in weights ==> ProjectedBy(ms, weights)[n] == weights[n]
  {
    if ms != [] {
      Untouched(ms[1..], weights[ms[0].name := Confined(ms[0], weights)], n);
    }
  }

  /** A model that has weights keeps its bias and its statistics; an empty one starts from the prior bias -0.12 and
      the prior weights; and both then have their bounds enforced. */
  lemma ConstructedMeaning(setup: Setup, st: State, priors: map<string, real>)
    ensures var model := Constructed(setup, st, priors);
            && model.stats == st.stats
            && (if st.weights == map[] then
                  model.bias == -0.12 && model.weights == ProjectedBy(setup.monotonic, priors)
                else model.bias == st.bias && model.weights == ProjectedBy(setup.monotonic, st.weights))
  {
  }

  /** What a trade does to the statistics: every listed feature's prepared value is counted once. */
  lemma CountedMeaning(st: State, t: Trade, rate: real, l2: real, cap: real, setup: Setup, n: string)
    ensures var after, values := Learned(st, t, rate, l2, cap, setup).stats, Prepared(setup, t.features.values);
            && StatOf(after, n).count == StatOf(st.stats, n).count + (if n in values then 1 else 0)
            && (n !in values ==> StatOf(after, n) == StatOf(st.stats, n))
            && (n in values ==>
                  var was, now := StatOf(st.stats, n), StatOf(after, n);
                  now.mean * now.count as real == was.mean * was.count as real + values[n])
  {
    hide Prepared, SteppedWeights, Projected, Error;
    var values := Prepared(setup, t.features.values);
    if n in values {
      var was := StatOf(st.stats, n);
      NewMean(was.mean, values[n], was.count);
    }
  }

  lemma NewMean(mean: real, value: real, count: nat)
    ensures (mean + (value - mean) / (count + 1) as real) * (count + 1) as real == mean * count as real + value
  {
    var c := (count + 1) as real;
    var d := (value - mean) / c;
    assert d * c == value - mean;
    assert (mean + d) * c == mean * c + d * c;
    assert mean * c == mean * count as real + mean;
  }
}
