/** Loading a saved network preserves its meaning. */
module NetworkLaws {
  import opened Common
  import opened TinyNetwork

  // ---------------------------------------------------------------------------------------------
  // Names
  // ---------------------------------------------------------------------------------------------

  ghost predicate Distinct(names: seq<string>) {
    forall i, j :: 0 <= i < j < |names| ==> names[i] != names[j]
  }

  lemma {:induction false} NonEmptyFacts(names: seq<string>)
    ensures "" !in NonEmpty(names)
    ensures forall n :: n in NonEmpty(names) <==> n in names && n != ""
    ensures "" !in names ==> NonEmpty(names) == names
  {
    if names != [] {
      NonEmptyFacts(names[..|names| - 1]);
      assert names == names[..|names| - 1] + [names[|names| - 1]];
    }
  }

  lemma NormalizeFacts(names: seq<string>)
    ensures "" !in Normalize(names) && Distinct(Normalize(names))
    ensures forall n :: n in Normalize(names) <==> n in names && n != ""
    ensures "" !in names && Distinct(names) ==> Normalize(names) == names
  {
    NonEmptyFacts(names);
    DedupKeepsElements(NonEmpty(names));
    if "" !in names && Distinct(names) {
      DedupDistinct(names);
    }
  }

  lemma {:induction false} DedupPrefix(s: seq<string>, t: seq<string>)
    ensures Dedup(s) <= Dedup(s + t)
  {
    if t == [] {
      assert s + t == s;
    } else {
      assert (s + t)[..|s + t| - 1] == s + t[..|t| - 1];
      DedupPrefix(s, t[..|t| - 1]);
    }
  }

  /** The merged names are the saved ones followed by the new ones. */
  lemma MergedFacts(st: State, names: seq<string>)
    requires Well(st)
    ensures var merged := MergedNames(st, names);
            && st.names <= merged && Distinct(merged) && "" !in merged
            && (forall n :: n in merged <==> n in st.names || (n in names && n != ""))
  {
    NormalizeFacts(st.names);
    NormalizeFacts(names);
    var all := st.names + Normalize(names);
    NonEmptyFacts(all);
    NormalizeFacts(all);
    DedupPrefix(st.names, Normalize(names));
    DedupDistinct(st.names);
  }

  // ---------------------------------------------------------------------------------------------
  // Extending a network by features
  // ---------------------------------------------------------------------------------------------

  /** `big` is `small` with more input columns. */
  ghost predicate Extends(big: State, small: State) {
    && Well(big) && Well(small)
    && big.hiddenSize == small.hiddenSize && big.samples == small.samples && big.bias == small.bias
    && big.hiddenBiases == small.hiddenBiases && big.outputWeights == small.outputWeights
    && small.names <= big.names
    && forall r :: 0 <= r < small.hiddenSize ==> small.hiddenWeights[r] <= big.hiddenWeights[r]
  }

  /** The input is zero on every feature that only `big` has. */
  ghost predicate ZeroOnNew(big: State, small: State, features: map<string, real>) {
    forall i :: |small.names| <= i < |big.names| ==> Feature(features, big.names[i]) == 0.0
  }

  lemma IndexOfPosition(names: seq<string>, i: nat)
    requires Distinct(names) && i < |names|
    ensures IndexOf(names, names[i]) == i
  {
  }

  lemma IndexOfMerged(small: seq<string>, merged: seq<string>, i: nat)
    requires small <= merged && Distinct(merged) && i < |merged|
    ensures IndexOf(small, merged[i]) == if i < |small| then i else |small|
  {
    if i < |small| {
      IndexOfPosition(small, i);
    } else {
      NewNameIsNew(small, merged, i);
    }
  }

  lemma NewNameIsNew(small: seq<string>, merged: seq<string>, i: nat)
    requires small <= merged && Distinct(merged) && |small| <= i < |merged|
    ensures merged[i] in merged && merged[i] !in small
  {
    assert forall j :: 0 <= j < |small| ==> small[j] == merged[j];
  }

  lemma HiddenSizeKept(st: State, hiddenSize: nat)
    requires Well(st)
    ensures HiddenSizeOf(st.hiddenSize, hiddenSize) == st.hiddenSize
  {
  }

  lemma LoadedWeightKept(st: State, merged: seq<string>, r: nat, c: nat)
    requires Well(st) && r < st.hiddenSize && c < |st.names|
    requires st.names <= merged && Distinct(merged)
    ensures LoadedWeight(st, merged, r, c) == st.hiddenWeights[r][c]
  {
    NormalizeFacts(st.names);
    IndexOfMerged(st.names, merged, c);
  }

  lemma LoadedRow(st: State, names: seq<string>, hiddenSize: nat, r: nat)
    requires Well(st) && r < st.hiddenSize
    ensures var loaded := Loaded(Some(st), names, hiddenSize);
            && |loaded.hiddenWeights| == st.hiddenSize
            && |loaded.hiddenWeights[r]| == |loaded.names|
            && st.hiddenWeights[r] <= loaded.hiddenWeights[r]
  {
    hide LoadedWeight, MergedNames, HiddenSizeOf;
    MergedFacts(st, names);
    HiddenSizeKept(st, hiddenSize);
    var loaded := Loaded(Some(st), names, hiddenSize);
    forall c | 0 <= c < |st.names|
      ensures loaded.hiddenWeights[r][c] == st.hiddenWeights[r][c]
    {
      LoadedWeightKept(st, loaded.names, r, c);
    }
  }

  lemma LoadedExtends(st: State, names: seq<string>, hiddenSize: nat)
    requires Well(st)
    ensures Extends(Loaded(Some(st), names, hiddenSize), st)
  {
    hide MergedNames, HiddenSizeOf, LoadedWeight, OutputSeed;
    MergedFacts(st, names);
    HiddenSizeKept(st, hiddenSize);
    var loaded := Loaded(Some(st), names, hiddenSize);
    forall i | 0 <= i < st.hiddenSize
      ensures loaded.hiddenBiases[i] == st.hiddenBiases[i] && loaded.outputWeights[i] == st.outputWeights[i]
    {
      assert loaded.hiddenBiases[i] == At(st.hiddenBiases, i, 0.0);
    }
    forall r | 0 <= r < st.hiddenSize
      ensures |loaded.hiddenWeights[r]| == |loaded.names| && st.hiddenWeights[r] <= loaded.hiddenWeights[r]
    {
      LoadedRow(st, names, hiddenSize, r);
    }
    LoadedIsWell(Some(st), names, hiddenSize);
  }

  /** Whatever was saved, what is loaded is well formed. */
  lemma LoadedIsWell(saved: Option<State>, names: seq<string>, hiddenSize: nat)
    ensures Well(Loaded(saved, names, hiddenSize))
  {
    hide LoadedWeight, OutputSeed, BootSeed;
    var base := if saved.Some? then saved.value else Bootstrap(Normalize(names), hiddenSize);
    NormalizeFacts(Normalize(base.names) + Normalize(names));
  }

  lemma VectorExtends(big: State, small: State, features: map<string, real>)
    requires Extends(big, small)
    ensures Vector(small.names, features) <= Vector(big.names, features)
  {
  }

  lemma {:induction false} DotPrefix(ws: seq<real>, xs: seq<real>, us: seq<real>, ys: seq<real>, start: real, k: nat)
    requires k <= |us| && k <= |ys| && us <= ws && ys <= xs
    ensures Dot(ws, xs, start, k) == Dot(us, ys, start, k)
  {
    if k > 0 {
      DotPrefix(ws, xs, us, ys, start, k - 1);
    }
  }

  lemma {:induction false} DotZeros(ws: seq<real>, xs: seq<real>, start: real, n: nat, k: nat)
    requires n <= k <= |ws| && k <= |xs|
    requires forall i :: n <= i < k ==> xs[i] == 0.0
    ensures Dot(ws, xs, start, k) == Dot(ws, xs, start, n)
  {
    if k > n {
      DotZeros(ws, xs, start, n, k - 1);
    }
  }

  lemma SameHidden(big: State, small: State, features: map<string, real>, act: Activation)
    requires Extends(big, small) && ZeroOnNew(big, small, features)
    ensures Hidden(big, features, act) == Hidden(small, features, act)
  {
    hide Feature;
    VectorExtends(big, small, features);
    var xs, ys := Vector(big.names, features), Vector(small.names, features);
    forall r | 0 <= r < small.hiddenSize
      ensures Hidden(big, features, act)[r] == Hidden(small, features, act)[r]
    {
      DotZeros(big.hiddenWeights[r], xs, big.hiddenBiases[r], |ys|, |xs|);
      DotPrefix(big.hiddenWeights[r], xs, small.hiddenWeights[r], ys, small.hiddenBiases[r], |ys|);
    }
  }

  lemma SameProbability(big: State, small: State, features: map<string, real>, act: Activation)
    requires Extends(big, small) && ZeroOnNew(big, small, features)
    ensures Logit(big, features, act) == Logit(small, features, act)
    ensures Probability(big, features, act) == Probability(small, features, act)
  {
    hide Hidden;
    SameHidden(big, small, features, act);
  }

  /** Network migration preserves meaning: with extra features, a loaded network predicts exactly what the
      saved one did on every input that is zero on the new features. */
  lemma MigrationPreservesPredictions(st: State, names: seq<string>, hiddenSize: nat, features: map<string, real>,
                                      act: Activation)
    requires Well(st)
    requires forall n :: n in names && n !in st.names ==> Feature(features, n) == 0.0
    ensures var loaded := Loaded(Some(st), names, hiddenSize);
            && Well(loaded)
            && Probability(loaded, features, act) == Probability(st, features, act)
  {
    hide Well, Probability, Feature;
    MergedFacts(st, names);
    LoadedExtends(st, names, hiddenSize);
    var loaded := Loaded(Some(st), names, hiddenSize);
    forall i | |st.names| <= i < |loaded.names|
      ensures Feature(features, loaded.names[i]) == 0.0
    {
      NewNameIsNew(st.names, loaded.names, i);
    }
    SameProbability(loaded, st, features, act);
  }

  /** Saving and loading without new features is the identity. */
  lemma SaveLoadIdentity(st: State, names: seq<string>, hiddenSize: nat)
    requires Well(st) && forall n :: n in names ==> n in st.names || n == ""
    ensures Loaded(Some(st), names, hiddenSize) == st
  {
    hide Well, LoadedWeight;
    var loaded := Loaded(Some(st), names, hiddenSize);
    MergedFacts(st, names);
    LoadedExtends(st, names, hiddenSize);
    SamePrefix(st.names, loaded.names);
    SameRows(loaded, st);
  }

  lemma SamePrefix(small: seq<string>, big: seq<string>)
    requires small <= big && Distinct(big) && forall n :: n in big ==> n in small
    ensures small == big
  {
    if |small| < |big| {
      NewNameIsNew(small, big, |small|);
    }
  }

  lemma SameRows(big: State, small: State)
    requires Extends(big, small) && big.names == small.names
    ensures big == small
  {
    forall r | 0 <= r < small.hiddenSize
      ensures big.hiddenWeights[r] == small.hiddenWeights[r]
    {
    }
    assert big.hiddenWeights == small.hiddenWeights;
  }

  // ---------------------------------------------------------------------------------------------
  // Training after a migration
  // ---------------------------------------------------------------------------------------------

  datatype Example = Example(features: map<string, real>, target: real, rate: real, l2: real)

  lemma StepExtends(big: State, small: State, e: Example, act: Activation)
    requires Extends(big, small) && ZeroOnNew(big, small, e.features)
    ensures Extends(Stepped(big, e.features, e.target, e.rate, e.l2, act),
                    Stepped(small, e.features, e.target, e.rate, e.l2, act))
  {
    hide Hidden, Probability, HiddenGradient, NewOutputWeight, NewWeight, Feature;
    SameHidden(big, small, e.features, act);
    SameProbability(big, small, e.features, act);
    VectorExtends(big, small, e.features);
    SteppedIsWell(big, e.features, e.target, e.rate, e.l2, act);
    SteppedIsWell(small, e.features, e.target, e.rate, e.l2, act);
    var big' := Stepped(big, e.features, e.target, e.rate, e.l2, act);
    var small' := Stepped(small, e.features, e.target, e.rate, e.l2, act);
    var error := Probability(small, e.features, act) - Clamp(e.target, 0.0, 1.0);
    assert big'.bias == big.bias - e.rate * error && small'.bias == small.bias - e.rate * error;
    assert big'.hiddenBiases == small'.hiddenBiases && big'.outputWeights == small'.outputWeights;
    forall r | 0 <= r < small.hiddenSize
      ensures small'.hiddenWeights[r] <= big'.hiddenWeights[r]
    {
      assert small.hiddenWeights[r] <= big.hiddenWeights[r];
      assert |small'.hiddenWeights[r]| == |small.names| && |big'.hiddenWeights[r]| == |big.names|;
      forall c | 0 <= c < |small.names|
        ensures small'.hiddenWeights[r][c] == big'.hiddenWeights[r][c]
      {
        assert small.hiddenWeights[r][c] == big.hiddenWeights[r][c];
      }
    }
  }

  function Trained(st: State, examples: seq<Example>, act: Activation): State
    requires Well(st)
    decreases examples
  {
    if examples == [] then st
    else
      var e := examples[0];
      SteppedIsWell(st, e.features, e.target, e.rate, e.l2, act);
      Trained(Stepped(st, e.features, e.target, e.rate, e.l2, act), examples[1..], act)
  }

  /** Migration and training commute: on examples that are zero on the new features, the migrated network
      and the original one keep agreeing, however long they are trained. */
  lemma {:induction false} TrainingKeepsAgreement(big: State, small: State, examples: seq<Example>,
                                                  features: map<string, real>, act: Activation)
    requires Extends(big, small) && ZeroOnNew(big, small, features)
    requires forall e :: e in examples ==> ZeroOnNew(big, small, e.features)
    ensures var big', small' := Trained(big, examples, act), Trained(small, examples, act);
            && Extends(big', small')
            && Probability(big', features, act) == Probability(small', features, act)
    decreases examples
  {
    hide Probability, Stepped, ZeroOnNew;
    if examples == [] {
      SameProbability(big, small, features, act);
    } else {
      var e := examples[0];
      assert e in examples;
      StepExtends(big, small, e, act);
      var big' := Stepped(big, e.features, e.target, e.rate, e.l2, act);
      var small' := Stepped(small, e.features, e.target, e.rate, e.l2, act);
      StepKeepsNames(big, e, act);
      StepKeepsNames(small, e, act);
      ZeroDependsOnNames(big, small, big', small', features);
      forall f | f in examples[1..]
        ensures ZeroOnNew(big', small', f.features)
      {
        ZeroDependsOnNames(big, small, big', small', f.features);
      }
      TrainingKeepsAgreement(big', small', examples[1..], features, act);
    }
  }

  lemma StepKeepsNames(st: State, e: Example, act: Activation)
    requires Well(st)
    ensures Stepped(st, e.features, e.target, e.rate, e.l2, act).names == st.names
  {
  }

  lemma ZeroDependsOnNames(big: State, small: State, big': State, small': State, features: map<string, real>)
    requires big'.names == big.names && small'.names == small.names
    ensures ZeroOnNew(big', small', features) <==> ZeroOnNew(big, small, features)
  {
  }
}
