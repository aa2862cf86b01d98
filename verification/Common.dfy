/** Values and numeric helpers shared by every module: the source's `null`/`undefined` becomes
    `Option`, and `Math.max`, `Math.min`, `Math.round` and `utils/math.js` `clamp` are written out. */
module Common {

  datatype Option<+T> = None | Some(value: T) {
    function GetOr(default: T): T {
      if Some? then value else default
    }
  }

  function Max(x: real, y: real): real { if x > y then x else y }

  function Min(x: real, y: real): real { if x < y then x else y }

  function Abs(x: real): real { if x < 0.0 then -x else x }

  /** `clamp` of src/utils/math.js: the upper bound wins when the bounds cross. */
  function Clamp(x: real, lo: real, hi: real): real { Min(hi, Max(lo, x)) }

  /** `Math.round`: half-way cases go up. */
  function Round(x: real): int { (x + 0.5).Floor }

  /** Array `slice(0, n)` for n >= 0. */
  function Take<T>(s: seq<T>, n: nat): seq<T> { if |s| <= n then s else s[..n] }

  function Sum(s: seq<real>): real {
    if s == [] then 0.0 else Sum(s[..|s| - 1]) + s[|s| - 1]
  }

  /** `[...new Set(s)]`: the first occurrence of each value, in order. */
  function Dedup<T(==)>(s: seq<T>): seq<T> {
    if s == [] then []
    else
      var front := Dedup(s[..|s| - 1]);
      if s[|s| - 1] in front then front else front + [s[|s| - 1]]
  }

  lemma {:induction false} DedupKeepsElements<T>(s: seq<T>)
    ensures forall x :: x in Dedup(s) <==> x in s
    ensures forall i, j :: 0 <= i < j < |Dedup(s)| ==> Dedup(s)[i] != Dedup(s)[j]
    ensures |Dedup(s)| <= |s|
  {
    if s != [] {
      DedupKeepsElements(s[..|s| - 1]);
      assert s == s[..|s| - 1] + [s[|s| - 1]];
    }
  }

  lemma DedupEmpty<T>(s: seq<T>)
    ensures Dedup(s) == [] <==> s == []
  {
    DedupKeepsElements(s);
    if s != [] {
      assert s[0] in Dedup(s);
    }
  }

  lemma {:induction false} DedupDistinct<T>(s: seq<T>)
    requires forall i, j :: 0 <= i < j < |s| ==> s[i] != s[j]
    ensures Dedup(s) == s
  {
    if s != [] {
      DedupDistinct(s[..|s| - 1]);
      assert s == s[..|s| - 1] + [s[|s| - 1]];
    }
  }
}
