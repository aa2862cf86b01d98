/** The one-hidden-layer network of src/ai/tinyNeuralNetwork.js. `tanh` and the sigmoid are parameters. */
module TinyNetwork {
  import opened Common

  datatype Activation = Activation(tanh: real -> real, sigmoid: real -> real)

  /** A network state, as saved and as loaded. A saved one may be ragged: missing numbers are filled in. */
  datatype State = State(
    names: seq<string>,
    hiddenSize: nat,
    samples: nat,
    bias: real,
    hiddenBiases: seq<real>,
    hiddenWeights: seq<seq<real>>,
    outputWeights: seq<real>)

  function NonEmpty(names: seq<string>): seq<string> {
    if names == [] then []
    else
      var front := NonEmpty(names[..|names| - 1]);
      if names[|names| - 1] == "" then front else front + [names[|names| - 1]]
  }

  /** `normalizeFeatureNames`. */
  function Normalize(names: seq<string>): seq<string> { Dedup(NonEmpty(names)) }

  /** Index of a name; the length when it is absent. */
  function IndexOf(names: seq<string>, name: string): (i: nat)
    ensures i <= |names|
    ensures i < |names| ==> names[i] == name
    ensures forall j :: 0 <= j < i ==> names[j] != name
  {
    if names == [] || names[0] == name then 0 else 1 + IndexOf(names[1..], name)
  }

  function At(s: seq<real>, i: nat, fallback: real): real { if i < |s| then s[i] else fallback }

  function OutputSeed(i: nat): real { if i % 2 == 0 then 0.04 else -0.04 }

  function BootSeed(row: nat, col: nat): real {
    ((((row + 3) * 37 + (col + 11) * 17) % 23 - 11) as real / 11.0) * 0.06
  }

  function NewSeed(row: nat, col: nat): real {
    ((((row + 5) * 29 + (col + 13) * 19) % 29 - 14) as real / 14.0) * 0.05
  }

  function Bootstrap(names: seq<string>, hiddenSize: nat): State {
    State(names, hiddenSize, 0, 0.0, seq(hiddenSize, _ => 0.0),
          seq(hiddenSize, r requires r >= 0 => seq(|names|, c requires c >= 0 => BootSeed(r, c))),
          seq(hiddenSize, i requires i >= 0 => OutputSeed(i)))
  }

  function HiddenSizeOf(base: nat, requested: nat): nat {
    var size := if base != 0 then base else if requested != 0 then requested else 6;
    if size < 2 then 2 else size
  }

  /** One weight after loading: the saved one under the same name, or a seed. */
  function LoadedWeight(base: State, merged: seq<string>, row: nat, col: nat): real
    requires col < |merged|
  {
    var previous := IndexOf(Normalize(base.names), merged[col]);
    if previous < |Normalize(base.names)| && row < |base.hiddenWeights| && previous < |base.hiddenWeights[row]| then
      base.hiddenWeights[row][previous]
    else NewSeed(row, col)
  }

  function MergedNames(base: State, names: seq<string>): seq<string> {
    Normalize(Normalize(base.names) + Normalize(names))
  }

  /** `ensureState`: load a saved state, or start afresh, for at least the given features. */
  function Loaded(saved: Option<State>, names: seq<string>, hiddenSize: nat): State {
    var base := if saved.Some? then saved.value else Bootstrap(Normalize(names), hiddenSize);
    var size := HiddenSizeOf(base.hiddenSize, hiddenSize);
    var merged := MergedNames(base, names);
    State(merged, size, base.samples, base.bias,
          seq(size, i requires i >= 0 => At(base.hiddenBiases, i, 0.0)),
          seq(size, r requires r >= 0 =>
            seq(|merged|, c requires 0 <= c < |merged| => LoadedWeight(base, merged, r, c))),
          seq(size, i requires i >= 0 => At(base.outputWeights, i, OutputSeed(i))))
  }

  ghost predicate Well(st: State) {
    && st.hiddenSize >= 2
    && |st.hiddenBiases| == |st.hiddenWeights| == |st.outputWeights| == st.hiddenSize
    && (forall r :: 0 <= r < st.hiddenSize ==> |st.hiddenWeights[r]| == |st.names|)
    && "" !in st.names
    && (forall i, j :: 0 <= i < j < |st.names| ==> st.names[i] != st.names[j])
  }

  function Feature(features: map<string, real>, name: string): real {
    Clamp(if name in features then features[name] else 0.0, -3.0, 3.0)
  }

  function Vector(names: seq<string>, features: map<string, real>): seq<real> {
    seq(|names|, i requires 0 <= i < |names| => Feature(features, names[i]))
  }

  /** The reduce of products over the first `k` columns. */
  function Dot(weights: seq<real>, input: seq<real>, start: real, k: nat): real
    requires k <= |weights| && k <= |input|
  {
    if k == 0 then start else Dot(weights, input, start, k - 1) + weights[k - 1] * input[k - 1]
  }

  function Hidden(st: State, features: map<string, real>, act: Activation): (hidden: seq<real>)
    requires Well(st)
    ensures |hidden| == st.hiddenSize
  {
    seq(st.hiddenSize, r requires 0 <= r < st.hiddenSize =>
      act.tanh(Dot(st.hiddenWeights[r], Vector(st.names, features), st.hiddenBiases[r], |st.names|)))
  }

  function Logit(st: State, features: map<string, real>, act: Activation): real
    requires Well(st)
  {
    Dot(st.outputWeights, Hidden(st, features, act), st.bias, st.hiddenSize)
  }

  /** `predict(features).probability`. */
  function Probability(st: State, features: map<string, real>, act: Activation): real
    requires Well(st)
  {
    act.sigmoid(Logit(st, features, act))
  }

  // ---------------------------------------------------------------------------------------------
  // One training step
  // ---------------------------------------------------------------------------------------------

  function ScaledRate(learningRate: real, sampleWeight: real): real {
    Max(0.0005, learningRate) * Clamp(sampleWeight, 0.1, 3.0)
  }

  function HiddenGradient(error: real, outputWeight: real, hidden: real): real {
    error * outputWeight * (1.0 - hidden * hidden)
  }

  function NewOutputWeight(w: real, error: real, hidden: real, rate: real, l2: real): real {
    w - rate * (error * hidden + l2 * w)
  }

  function NewWeight(w: real, gradient: real, x: real, rate: real, l2: real): real {
    w - rate * (gradient * x + l2 * w)
  }

  /** The simultaneous step: every new number is computed from the old state. */
  function Stepped(st: State, features: map<string, real>, target: real, rate: real, l2: real, act: Activation): State
    requires Well(st)
  {
    var input, hidden := Vector(st.names, features), Hidden(st, features, act);
    var error := Probability(st, features, act) - Clamp(target, 0.0, 1.0);
    State(st.names, st.hiddenSize, st.samples + 1, st.bias - rate * error,
          seq(st.hiddenSize, r requires 0 <= r < st.hiddenSize =>
            st.hiddenBiases[r] - rate * HiddenGradient(error, st.outputWeights[r], hidden[r])),
          seq(st.hiddenSize, r requires 0 <= r < st.hiddenSize =>
            seq(|st.names|, c requires 0 <= c < |st.names| =>
              NewWeight(st.hiddenWeights[r][c], HiddenGradient(error, st.outputWeights[r], hidden[r]),
                        input[c], rate, l2))),
          seq(st.hiddenSize, r requires 0 <= r < st.hiddenSize =>
            NewOutputWeight(st.outputWeights[r], error, hidden[r], rate, l2)))
  }

  class Network {
    const act: Activation
    const names: seq<string>
    const hiddenSize: nat
    var samples: nat
    var bias: real
    const hiddenBiases: array<real>
    const hiddenWeights: array2<real>
    const outputWeights: array<real>

    ghost predicate Valid()
      reads this, hiddenBiases, hiddenWeights, outputWeights
    {
      && hiddenBiases != outputWeights
      && hiddenBiases.Length == hiddenWeights.Length0 == outputWeights.Length == hiddenSize
      && hiddenWeights.Length1 == |names|
      && Well(View())
    }

    function Row(r: nat): (row: seq<real>)
      requires r < hiddenWeights.Length0
      reads hiddenWeights
      ensures |row| == hiddenWeights.Length1 && forall c :: 0 <= c < |row| ==> row[c] == hiddenWeights[r, c]
    {
      seq(hiddenWeights.Length1, c requires 0 <= c < hiddenWeights.Length1 reads hiddenWeights => hiddenWeights[r, c])
    }

    function View(): State
      reads this, hiddenBiases, hiddenWeights, outputWeights
    {
      State(names, hiddenSize, samples, bias, hiddenBiases[..],
            seq(hiddenWeights.Length0, r requires 0 <= r < hiddenWeights.Length0 reads hiddenWeights => Row(r)),
            outputWeights[..])
    }

    constructor (st: State, act: Activation)
      requires Well(st)
      ensures Valid() && View() == st && this.act == act
      ensures fresh(hiddenBiases) && fresh(hiddenWeights) && fresh(outputWeights)
    {
      this.act, names, hiddenSize, samples, bias := act, st.names, st.hiddenSize, st.samples, st.bias;
      hiddenBiases := new real[st.hiddenSize](i requires 0 <= i < st.hiddenSize => st.hiddenBiases[i]);
      hiddenWeights := new real[st.hiddenSize, |st.names|](
        (r, c) requires 0 <= r < st.hiddenSize && 0 <= c < |st.names| => st.hiddenWeights[r][c]);
      outputWeights := new real[st.hiddenSize](i requires 0 <= i < st.hiddenSize => st.outputWeights[i]);
      new;
      assert hiddenBiases[..] == st.hiddenBiases && outputWeights[..] == st.outputWeights;
      forall r | 0 <= r < st.hiddenSize
        ensures Row(r) == st.hiddenWeights[r]
      {
      }
      assert View().hiddenWeights == st.hiddenWeights;
    }

    /** The forward pass that `predict` and `update` both make: the loop over the hidden units, each
        summing over the columns, and the sum over the hidden units. */
    method Forward(input: seq<real>, ghost features: map<string, real>) returns (hidden: seq<real>, probability: real)
      requires Valid() && input == Vector(names, features)
      ensures hidden == Hidden(View(), features, act)
      ensures probability == Probability(View(), features, act)
    {
      hidden := [];
      for r := 0 to hiddenSize
        invariant |hidden| == r
        invariant forall i :: 0 <= i < r ==> hidden[i] == Hidden(View(), features, act)[i]
      {
        var activation := hiddenBiases[r];
        for c := 0 to |input|
          invariant activation == Dot(Row(r), input, hiddenBiases[r], c)
        {
          activation := activation + hiddenWeights[r, c] * input[c];
        }
        hidden := hidden + [act.tanh(activation)];
      }
      var logit := bias;
      for i := 0 to hiddenSize
        invariant logit == Dot(outputWeights[..], hidden, bias, i)
      {
        logit := logit + outputWeights[i] * hidden[i];
      }
      probability := act.sigmoid(logit);
    }

    method Predict(features: map<string, real>) returns (probability: real)
      requires Valid()
      ensures probability == Probability(View(), features, act)
    {
      var _, p := Forward(Vector(names, features), features);
      probability := p;
    }

    /** The inner loop of `update`. */
    method UpdateRow(r: nat, gradient: real, input: seq<real>, rate: real, l2: real)
      requires r < hiddenWeights.Length0 && |input| == hiddenWeights.Length1
      modifies hiddenWeights
      ensures forall c :: 0 <= c < |input| ==>
                hiddenWeights[r, c] == NewWeight(old(hiddenWeights[r, c]), gradient, input[c], rate, l2)
      ensures forall i, c :: 0 <= i < hiddenWeights.Length0 && 0 <= c < |input| && i != r ==>
                hiddenWeights[i, c] == old(hiddenWeights[i, c])
    {
      hide NewWeight;
      for col := 0 to |input|
        invariant forall c :: 0 <= c < col ==>
                    hiddenWeights[r, c] == NewWeight(old(hiddenWeights[r, c]), gradient, input[c], rate, l2)
        invariant forall i, c :: 0 <= i < hiddenWeights.Length0 && 0 <= c < |input| && (i != r || c >= col) ==>
                    hiddenWeights[i, c] == old(hiddenWeights[i, c])
      {
        hiddenWeights[r, col] := NewWeight(hiddenWeights[r, col], gradient, input[col], rate, l2);
      }
    }

    /** The arrays hold `after` in the first `r` rows and `before` in the others. */
    ghost predicate Progress(r: nat, before: State, after: State)
      requires Well(before) && Well(after)
      reads hiddenBiases, hiddenWeights, outputWeights
    {
      && hiddenBiases.Length == hiddenWeights.Length0 == outputWeights.Length == before.hiddenSize == after.hiddenSize
      && hiddenWeights.Length1 == |before.names| == |after.names|
      && (forall i :: 0 <= i < before.hiddenSize ==>
            hiddenBiases[i] == (if i < r then after else before).hiddenBiases[i])
      && (forall i :: 0 <= i < before.hiddenSize ==>
            outputWeights[i] == (if i < r then after else before).outputWeights[i])
      && (forall i, c :: 0 <= i < before.hiddenSize && 0 <= c < |before.names| ==>
            hiddenWeights[i, c] == (if i < r then after else before).hiddenWeights[i][c])
    }

    lemma ProgressAtEnds(r: nat, before: State, after: State)
      requires Well(before) && Well(after) && Valid()
      ensures before == View() && after.hiddenSize == hiddenSize && |after.names| == |names|
              ==> Progress(0, before, after)
      ensures r == before.hiddenSize && Progress(r, before, after) ==>
                View() == after.(names := names, hiddenSize := hiddenSize, samples := samples, bias := bias)
    {
      if r == before.hiddenSize && Progress(r, before, after) {
        assert hiddenBiases[..] == after.hiddenBiases && outputWeights[..] == after.outputWeights;
        forall i | 0 <= i < r
          ensures Row(i) == after.hiddenWeights[i]
        {
        }
        assert View().hiddenWeights == after.hiddenWeights;
      }
    }

    /** The outer loop body of `update`; the output weight is read before it is overwritten. */
    method StepRow(r: nat, error: real, h: real, input: seq<real>, rate: real, l2: real,
                   ghost before: State, ghost after: State)
      requires Valid() && r < hiddenSize && |input| == |names|
      requires Well(before) && Well(after) && Progress(r, before, after)
      requires after.hiddenBiases[r]
               == before.hiddenBiases[r] - rate * HiddenGradient(error, before.outputWeights[r], h)
      requires after.outputWeights[r] == NewOutputWeight(before.outputWeights[r], error, h, rate, l2)
      requires forall c :: 0 <= c < |names| ==>
                 after.hiddenWeights[r][c]
                 == NewWeight(before.hiddenWeights[r][c], HiddenGradient(error, before.outputWeights[r], h),
                               input[c], rate, l2)
      modifies hiddenBiases, hiddenWeights, outputWeights
      ensures Progress(r + 1, before, after)
    {
      assert outputWeights[r] == before.outputWeights[r] && hiddenBiases[r] == before.hiddenBiases[r];
      hide HiddenGradient, NewOutputWeight, NewWeight, Well;
      var outputWeight := outputWeights[r];
      outputWeights[r] := NewOutputWeight(outputWeight, error, h, rate, l2);
      var gradient := HiddenGradient(error, outputWeight, h);
      hiddenBiases[r] := hiddenBiases[r] - rate * gradient;
      UpdateRow(r, gradient, input, rate, l2);
    }

    /** `update`: the in-place loops compute the simultaneous step. */
    method Update(features: map<string, real>, target: real, sampleWeight: real, learningRate: real, l2: real)
      requires Valid()
      modifies this, hiddenBiases, hiddenWeights, outputWeights
      ensures Valid()
      ensures View() == Stepped(old(View()), features, target, ScaledRate(learningRate, sampleWeight), l2, act)
    {
      hide Probability, Hidden, HiddenGradient, NewOutputWeight, NewWeight, ScaledRate, Progress;
      ghost var before := View();
      var input := Vector(names, features);
      var hidden, prediction := Forward(input, features);
      var error := prediction - Clamp(target, 0.0, 1.0);
      var rate := ScaledRate(learningRate, sampleWeight);
      ghost var after := Stepped(before, features, target, rate, l2, act);
      SteppedIsWell(before, features, target, rate, l2, act);
      ProgressAtEnds(0, before, after);
      bias := bias - rate * error;
      for r := 0 to hiddenSize
        invariant bias == after.bias && samples == before.samples
        invariant Well(View()) && Progress(r, before, after)
      {
        StepRow(r, error, hidden[r], input, rate, l2, before, after);
      }
      ProgressAtEnds(hiddenSize, before, after);
      samples := samples + 1;
    }
  }

  lemma SteppedIsWell(st: State, features: map<string, real>, target: real, rate: real, l2: real, act: Activation)
    requires Well(st)
    ensures Well(Stepped(st, features, target, rate, l2, act))
  {
    hide Probability, Hidden, HiddenGradient, NewOutputWeight, NewWeight;
  }
}
