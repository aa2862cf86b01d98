/** What a loaded network is, number by number. */
module NetworkLoading {
  import opened Common
  import opened NetworkLaws
  import opened TinyNetwork

  /** The size that was saved, failing that the one asked for, failing that six; but at least two. */
  lemma HiddenSizeMeaning(saved: nat, requested: nat)
    ensures saved >= 2 ==> HiddenSizeOf(saved, requested) == saved
    ensures saved == 0 && requested >= 2 ==> HiddenSizeOf(saved, requested) == requested
    ensures saved == requested == 0 ==> HiddenSizeOf(saved, requested) == 6
    ensures saved == 1 || (saved == 0 && requested == 1) ==> HiddenSizeOf(saved, requested) == 2
  {
  }

  /** The `k`-th of the names that count has its weight in the `k`-th column. */
  lemma WeightMeaning(saved: State, merged: seq<string>, r: nat, c: nat, k: nat)
    requires c < |merged|
    ensures var had := Normalize(saved.names);
            && (merged[c] !in had ==> LoadedWeight(saved, merged, r, c) == NewSeed(r, c))
            && (k < |had| && had[k] == merged[c] ==>
                  LoadedWeight(saved, merged, r, c)
                  == if r < |saved.hiddenWeights| && k < |saved.hiddenWeights[r]|
                     then saved.hiddenWeights[r][k] else NewSeed(r, c))
  {
    hide NewSeed;
    NormalizeFacts(saved.names);
    hide Normalize;
    var had := Normalize(saved.names);
    var i := IndexOf(had, merged[c]);
    if i < |had| && k < |had| && had[k] == merged[c] {
      assert i == k;
    }
  }

  /** Loading takes over every number that was saved for a name, wherever the name was, and fills in the others:
      biases with zero, weights with seeds. */
  lemma LoadedMeaning(saved: State, names: seq<string>, hiddenSize: nat, r: nat)
    requires r < HiddenSizeOf(saved.hiddenSize, hiddenSize)
    ensures var st, had := Loaded(Some(saved), names, hiddenSize), Normalize(saved.names);
            && st.names == Normalize(had + Normalize(names)) && st.samples == saved.samples && st.bias == saved.bias
            && |st.hiddenBiases| == |st.outputWeights| == |st.hiddenWeights| == st.hiddenSize
            && st.hiddenSize == HiddenSizeOf(saved.hiddenSize, hiddenSize)
            && st.hiddenBiases[r] == (if r < |saved.hiddenBiases| then saved.hiddenBiases[r] else 0.0)
            && st.outputWeights[r]
               == (if r < |saved.outputWeights| then saved.outputWeights[r] else if r % 2 == 0 then 0.04 else -0.04)
            && |st.hiddenWeights[r]| == |st.names|
            && forall c :: 0 <= c < |st.names| ==>
                 && (st.names[c] !in had ==> st.hiddenWeights[r][c] == NewSeed(r, c))
                 && forall k :: 0 <= k < |had| && had[k] == st.names[c] ==>
                      st.hiddenWeights[r][c]
                      == if r < |saved.hiddenWeights| && k < |saved.hiddenWeights[r]|
                         then saved.hiddenWeights[r][k] else NewSeed(r, c)
  {
    hide NewSeed, Normalize, HiddenSizeOf, LoadedWeight;
    var merged, had := MergedNames(saved, names), Normalize(saved.names);
    var st := Loaded(Some(saved), names, hiddenSize);
    assert st.hiddenBiases[r] == At(saved.hiddenBiases, r, 0.0);
    assert st.outputWeights[r] == At(saved.outputWeights, r, OutputSeed(r));
    forall c | 0 <= c < |merged|
      ensures st.hiddenWeights[r][c] == LoadedWeight(saved, merged, r, c)
      ensures merged[c] !in had ==> LoadedWeight(saved, merged, r, c) == NewSeed(r, c)
    {
      WeightMeaning(saved, merged, r, c, 0);
    }
    forall c, k | 0 <= c < |merged| && 0 <= k < |had| && had[k] == merged[c]
      ensures LoadedWeight(saved, merged, r, c)
              == if r < |saved.hiddenWeights| && k < |saved.hiddenWeights[r]|
                 then saved.hiddenWeights[r][k] else NewSeed(r, c)
    {
      WeightMeaning(saved, merged, r, c, k);
    }
  }

  lemma {:induction false} DedupAgain(s: seq<string>, t: seq<string>)
    requires forall x :: x in t ==> x in s
    ensures Dedup(s + t) == Dedup(s)
  {
    if t == [] {
      assert s + t == s;
    } else {
      var n := |t| - 1;
      assert (s + t)[..|s + t| - 1] == s + t[..n] && t[n] in t;
      DedupAgain(s, t[..n]);
      DedupKeepsElements(s);
    }
  }

  lemma NormalizeAgain(names: seq<string>)
    ensures Normalize(Normalize(names)) == Normalize(names)
    ensures Normalize(Normalize(names) + Normalize(names)) == Normalize(names)
  {
    var had := Normalize(names);
    NormalizeFacts(names);
    NormalizeFacts(had);
    NonEmptyFacts(had + had);
    DedupAgain(had, had);
    NonEmptyFacts(had);
  }

  /** With nothing saved, the network starts without samples and biases, from seeds of its own. */
  lemma FreshMeaning(names: seq<string>, hiddenSize: nat, r: nat)
    requires hiddenSize >= 2 && r < hiddenSize
    ensures var st := Loaded(None, names, hiddenSize);
            && st.samples == 0 && st.bias == 0.0 && st.hiddenSize == hiddenSize && st.names == Normalize(names)
            && |st.hiddenBiases| == |st.outputWeights| == |st.hiddenWeights| == hiddenSize
            && st.hiddenBiases[r] == 0.0 && st.outputWeights[r] == (if r % 2 == 0 then 0.04 else -0.04)
            && |st.hiddenWeights[r]| == |st.names|
            && forall c :: 0 <= c < |st.names| ==> st.hiddenWeights[r][c] == BootSeed(r, c)
  {
    hide BootSeed, NewSeed, Normalize, LoadedWeight;
    NormalizeAgain(names);
    var saved := Bootstrap(Normalize(names), hiddenSize);
    LoadedMeaning(saved, names, hiddenSize, r);
    assert Loaded(None, names, hiddenSize) == Loaded(Some(saved), names, hiddenSize);
    assert |saved.hiddenWeights[r]| == |Normalize(names)|;
    var st := Loaded(Some(saved), names, hiddenSize);
    forall c | 0 <= c < |st.names|
      ensures st.hiddenWeights[r][c] == BootSeed(r, c)
    {
      assert Normalize(saved.names)[c] == st.names[c];
    }
  }
}
