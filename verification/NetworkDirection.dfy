/** A training step moves the network in the direction of its target. */
module NetworkDirection {
  import opened Arithmetic
  import opened Common
  import opened TinyNetwork

  /** The target, but never outside 0 and 1. */
  function Aim(target: real): real { if target < 0.0 then 0.0 else if target > 1.0 then 1.0 else target }

  /** One training step as `update` makes it. */
  function Trained(st: State, features: map<string, real>, target: real, sampleWeight: real, learningRate: real,
                   l2: real, act: Activation): State
    requires Well(st)
  {
    Stepped(st, features, target, ScaledRate(learningRate, sampleWeight), l2, act)
  }

  /** Steps are never against the gradient and never nothing, whatever the caller asks for. */
  lemma RateIsPositive(learningRate: real, sampleWeight: real)
    ensures ScaledRate(learningRate, sampleWeight) >= 0.00005
    ensures learningRate >= 0.0005 && 0.1 <= sampleWeight <= 3.0 ==>
              ScaledRate(learningRate, sampleWeight) == learningRate * sampleWeight
  {
    var a, b := Max(0.0005, learningRate), Clamp(sampleWeight, 0.1, 3.0);
    assert a >= 0.0005 && b >= 0.1;
    Grow(0.0005, a, b);
    Grow(0.1, b, 0.0005);
    assert 0.0005 * b == b * 0.0005;
  }

  lemma SteppedBias(st: State, features: map<string, real>, target: real, rate: real, l2: real, act: Activation)
    requires Well(st)
    ensures var after := Stepped(st, features, target, rate, l2, act);
            after.bias == st.bias - rate * (Probability(st, features, act) - Aim(target))
            && after.samples == st.samples + 1
  {
    hide Probability, Hidden, Vector, HiddenGradient, NewWeight, NewOutputWeight;
  }

  /** The output bias rises exactly when the prediction is below the target, and falls exactly when it is above. */
  lemma BiasFollows(st: State, features: map<string, real>, target: real, sampleWeight: real, learningRate: real,
                    l2: real, act: Activation)
    requires Well(st)
    ensures var p := Probability(st, features, act);
            var after := Trained(st, features, target, sampleWeight, learningRate, l2, act);
            && (after.bias > st.bias <==> p < Aim(target)) && (after.bias < st.bias <==> p > Aim(target))
            && after.samples == st.samples + 1
  {
    hide Probability, ScaledRate, Stepped, Well;
    SteppedBias(st, features, target, ScaledRate(learningRate, sampleWeight), l2, act);
    RateIsPositive(learningRate, sampleWeight);
    hide Aim;
    SignOfProduct(Probability(st, features, act) - Aim(target), ScaledRate(learningRate, sampleWeight));
  }

  /** The sum of the first `k` squares. */
  function Energy(s: seq<real>, k: nat): real
    requires k <= |s|
  {
    if k == 0 then 0.0 else Energy(s, k - 1) + s[k - 1] * s[k - 1]
  }

  lemma {:induction false} EnergyIsNotNegative(s: seq<real>, k: nat)
    requires k <= |s|
    ensures Energy(s, k) >= 0.0
  {
    if k > 0 {
      EnergyIsNotNegative(s, k - 1);
      SquareIsNotNegative(s[k - 1]);
    }
  }

  /** Weights that all moved by `push` times their input move the sum of products by `push` times its energy. */
  ghost predicate Pushed(old': seq<real>, new': seq<real>, input: seq<real>, push: real) {
    |old'| == |new'| == |input| && forall i :: 0 <= i < |input| ==> new'[i] == old'[i] + push * input[i]
  }

  ghost predicate MovedBy(old': seq<real>, new': seq<real>, input: seq<real>, start: real, push: real, k: nat)
    requires k <= |old'| == |new'| == |input|
  {
    Dot(new', input, start + push, k) == Dot(old', input, start, k) + push * (1.0 + Energy(input, k))
  }

  lemma {:induction false} DotMoves(old': seq<real>, new': seq<real>, input: seq<real>, start: real, push: real, k: nat)
    requires Pushed(old', new', input, push) && k <= |input|
    ensures MovedBy(old', new', input, start, push, k)
  {
    if k > 0 {
      hide MovedBy;
      DotMoves(old', new', input, start, push, k - 1);
      DotStep(old', new', input, start, push, k);
    }
  }

  lemma DotStep(old': seq<real>, new': seq<real>, input: seq<real>, start: real, push: real, k: nat)
    requires Pushed(old', new', input, push) && 0 < k <= |input| && MovedBy(old', new', input, start, push, k - 1)
    ensures MovedBy(old', new', input, start, push, k)
  {
    var x := input[k - 1];
    var was, now := Dot(old', input, start, k - 1), Dot(new', input, start + push, k - 1);
    assert Dot(old', input, start, k) == was + old'[k - 1] * x;
    assert Dot(new', input, start + push, k) == now + new'[k - 1] * x;
    assert Energy(input, k) == Energy(input, k - 1) + x * x;
    assert new'[k - 1] == old'[k - 1] + push * x;
    hide Dot, Energy, Pushed;
    OneTerm(was, now, old'[k - 1], new'[k - 1], push, x, Energy(input, k - 1));
  }

  lemma MoveHasSign(old': seq<real>, new': seq<real>, input: seq<real>, start: real, push: real)
    requires Pushed(old', new', input, push)
    ensures var was, now := Dot(old', input, start, |input|), Dot(new', input, start + push, |input|);
            (now > was <==> push > 0.0) && (now < was <==> push < 0.0)
  {
    assert |old'| == |new'| == |input|;
    hide Dot, Energy, Pushed;
    DotMoves(old', new', input, start, push, |input|);
    EnergyIsNotNegative(input, |input|);
    SignOfProduct(push, 1.0 + Energy(input, |input|));
  }

  /** Without decay, the logit that the new output layer gives to the old hidden layer rises exactly when the
      prediction was below the target, and falls exactly when it was above. */
  lemma OutputFollows(st: State, features: map<string, real>, target: real, sampleWeight: real, learningRate: real,
                      act: Activation)
    requires Well(st)
    ensures var p := Probability(st, features, act);
            var after := Trained(st, features, target, sampleWeight, learningRate, 0.0, act);
            |after.outputWeights| == st.hiddenSize
            && var was := Logit(st, features, act);
               var now := Dot(after.outputWeights, Hidden(st, features, act), after.bias, st.hiddenSize);
               (now > was <==> p < Aim(target)) && (now < was <==> p > Aim(target))
  {
    hide Probability, ScaledRate, Hidden, Vector, Dot;
    var rate, error := ScaledRate(learningRate, sampleWeight), Probability(st, features, act) - Aim(target);
    var after, hidden := Trained(st, features, target, sampleWeight, learningRate, 0.0, act), Hidden(st, features, act);
    RateIsPositive(learningRate, sampleWeight);
    SignOfProduct(error, rate);
    var push := -(error * rate);
    forall i | 0 <= i < st.hiddenSize
      ensures after.outputWeights[i] == st.outputWeights[i] + push * hidden[i]
    {
      OutputMoves(st.outputWeights[i], error, hidden[i], rate);
    }
    assert after.bias == st.bias + push;
    MoveHasSign(st.outputWeights, after.outputWeights, hidden, st.bias, push);
  }

  lemma OutputMoves(w: real, error: real, hidden: real, rate: real)
    ensures NewOutputWeight(w, error, hidden, rate, 0.0) == w + -(error * rate) * hidden
    ensures NewWeight(w, error, hidden, rate, 0.0) == w + -(error * rate) * hidden
  {
    assert error * hidden + 0.0 * w == error * hidden;
    assert rate * (error * hidden) == (error * rate) * hidden;
  }

  /** What a hidden unit sums up before its activation. */
  function Activated(st: State, features: map<string, real>, r: nat): real
    requires Well(st) && r < st.hiddenSize
  {
    Dot(st.hiddenWeights[r], Vector(st.names, features), st.hiddenBiases[r], |st.names|)
  }

  /** Without decay, and with an activation between -1 and 1, what a hidden unit sums up on the same features moves
      with the sign of (target minus prediction) times its old output weight. */
  lemma HiddenFollows(st: State, features: map<string, real>, target: real, sampleWeight: real, learningRate: real,
                      act: Activation, r: nat)
    requires Well(st) && r < st.hiddenSize && -1.0 < Hidden(st, features, act)[r] < 1.0
    ensures var p := Probability(st, features, act);
            var after := Trained(st, features, target, sampleWeight, learningRate, 0.0, act);
            && Well(after) && after.hiddenSize == st.hiddenSize
            && var way := (Aim(target) - p) * st.outputWeights[r];
               && (Activated(after, features, r) > Activated(st, features, r) <==> way > 0.0)
               && (Activated(after, features, r) < Activated(st, features, r) <==> way < 0.0)
  {
    hide Probability, ScaledRate, Hidden, Vector, Dot;
    var rate, error := ScaledRate(learningRate, sampleWeight), Probability(st, features, act) - Aim(target);
    var after, h := Trained(st, features, target, sampleWeight, learningRate, 0.0, act), Hidden(st, features, act)[r];
    SteppedIsWell(st, features, target, rate, 0.0, act);
    var input, gradient := Vector(st.names, features), HiddenGradient(error, st.outputWeights[r], h);
    VectorLength(st.names, features);
    var push := -(gradient * rate);
    forall c | 0 <= c < |st.names|
      ensures after.hiddenWeights[r][c] == st.hiddenWeights[r][c] + push * input[c]
    {
      OutputMoves(st.hiddenWeights[r][c], gradient, input[c], rate);
    }
    assert after.hiddenBiases[r] == st.hiddenBiases[r] + push;
    MoveHasSign(st.hiddenWeights[r], after.hiddenWeights[r], input, st.hiddenBiases[r], push);
    RateIsPositive(learningRate, sampleWeight);
    SignOfProduct(gradient, rate);
    GradientSign(error, st.outputWeights[r], h);
  }

  lemma VectorLength(names: seq<string>, features: map<string, real>)
    ensures |Vector(names, features)| == |names|
  {
  }

  lemma GradientSign(error: real, w: real, h: real)
    requires -1.0 < h < 1.0
    ensures HiddenGradient(error, w, h) > 0.0 <==> -error * w < 0.0
    ensures HiddenGradient(error, w, h) < 0.0 <==> -error * w > 0.0
  {
    assert h * h < 1.0 by {
      if h >= 0.0 {
        Grow(h, 1.0, h);
      } else {
        Grow(-h, 1.0, -h);
        assert -h * -h == h * h;
      }
    }
    SignOfProduct(error * w, 1.0 - h * h);
    assert -error * w == -(error * w);
  }

  /** Decay takes the rate times `l2` of each old weight off the weight that the step without decay gives, and
      leaves the biases alone. */
  lemma DecayShrinks(st: State, features: map<string, real>, target: real, sampleWeight: real, learningRate: real,
                     l2: real, act: Activation)
    requires Well(st)
    ensures var rate := ScaledRate(learningRate, sampleWeight);
            var plain := Trained(st, features, target, sampleWeight, learningRate, 0.0, act);
            var after := Trained(st, features, target, sampleWeight, learningRate, l2, act);
            && Well(plain) && Well(after) && after.hiddenSize == plain.hiddenSize == st.hiddenSize
            && after.names == plain.names == st.names
            && after.bias == plain.bias && after.hiddenBiases == plain.hiddenBiases
            && (forall r :: 0 <= r < st.hiddenSize ==>
                  after.outputWeights[r] == plain.outputWeights[r] - rate * l2 * st.outputWeights[r])
            && (forall r, c :: 0 <= r < st.hiddenSize && 0 <= c < |st.names| ==>
                  after.hiddenWeights[r][c] == plain.hiddenWeights[r][c] - rate * l2 * st.hiddenWeights[r][c])
  {
    hide Probability, ScaledRate, Hidden, Vector, HiddenGradient, Clamp;
    var rate, error := ScaledRate(learningRate, sampleWeight), Probability(st, features, act) - Clamp(target, 0.0, 1.0);
    SteppedIsWell(st, features, target, rate, 0.0, act);
    SteppedIsWell(st, features, target, rate, l2, act);
    var input, hidden := Vector(st.names, features), Hidden(st, features, act);
    VectorLength(st.names, features);
    forall r | 0 <= r < st.hiddenSize
      ensures NewOutputWeight(st.outputWeights[r], error, hidden[r], rate, l2)
              == NewOutputWeight(st.outputWeights[r], error, hidden[r], rate, 0.0) - rate * l2 * st.outputWeights[r]
    {
      Decayed(st.outputWeights[r], error, hidden[r], rate, l2);
    }
    forall r, c | 0 <= r < st.hiddenSize && 0 <= c < |st.names|
      ensures var gradient := HiddenGradient(error, st.outputWeights[r], hidden[r]);
              NewWeight(st.hiddenWeights[r][c], gradient, input[c], rate, l2)
              == NewWeight(st.hiddenWeights[r][c], gradient, input[c], rate, 0.0) - rate * l2 * st.hiddenWeights[r][c]
    {
      Decayed(st.hiddenWeights[r][c], HiddenGradient(error, st.outputWeights[r], hidden[r]), input[c], rate, l2);
    }
    hide NewWeight, NewOutputWeight;
  }

  lemma Decayed(w: real, gradient: real, x: real, rate: real, l2: real)
    ensures NewOutputWeight(w, gradient, x, rate, l2) == NewOutputWeight(w, gradient, x, rate, 0.0) - rate * l2 * w
    ensures NewWeight(w, gradient, x, rate, l2) == NewWeight(w, gradient, x, rate, 0.0) - rate * l2 * w
  {
    var push, pull := gradient * x, l2 * w;
    assert 0.0 * w == 0.0 && rate * (push + pull) == rate * push + rate * pull;
    assert rate * pull == rate * l2 * w;
  }

  // ---------------------------------------------------------------------------------------------
  // Inputs and seeds
  // ---------------------------------------------------------------------------------------------

  /** An input is the feature, cut off at three either way; a missing one counts as zero. */
  lemma FeatureMeaning(features: map<string, real>, name: string)
    ensures name !in features ==> Feature(features, name) == 0.0
    ensures name in features && -3.0 <= features[name] <= 3.0 ==> Feature(features, name) == features[name]
    ensures name in features && features[name] > 3.0 ==> Feature(features, name) == 3.0
    ensures name in features && features[name] < -3.0 ==> Feature(features, name) == -3.0
  {
  }

  /** Seeds are small and differ in sign, so that units start differently. */
  lemma SeedMeaning(row: nat, col: nat)
    ensures -0.06 <= BootSeed(row, col) <= 0.06 && -0.05 <= NewSeed(row, col) <= 0.05
    ensures OutputSeed(row) == -OutputSeed(row + 1) && OutputSeed(0) == 0.04
  {
  }

  lemma SeedExamples()
    ensures BootSeed(0, 0) == 0.06 && BootSeed(1, 2) == -10.0 / 11.0 * 0.06
    ensures NewSeed(0, 0) == 1.0 / 14.0 * 0.05 && NewSeed(2, 1) == -9.0 / 14.0 * 0.05
  {
  }
}
