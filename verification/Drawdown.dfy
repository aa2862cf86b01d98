/** The equity, peak and drawdown loop of src/backtest/backtestMetrics.js against its quadratic meaning. */
module Drawdown {
  import opened Common

  /** Equity after the first `i` returns, starting from zero. */
  function Equity(pnl: seq<real>, i: nat): real
    requires i <= |pnl|
  {
    if i == 0 then 0.0 else Equity(pnl, i - 1) + pnl[i - 1]
  }

  /** `d` is the largest fall from any equity to the same or a later one, over the first `n` returns. */
  ghost predicate IsLargestFall(pnl: seq<real>, n: nat, d: real)
    requires n <= |pnl|
  {
    && (forall i, j :: 0 <= i <= j <= n ==> Equity(pnl, i) - Equity(pnl, j) <= d)
    && (exists i, j :: 0 <= i <= j <= n && Equity(pnl, i) - Equity(pnl, j) == d)
  }

  ghost predicate IsPeak(pnl: seq<real>, n: nat, peak: real)
    requires n <= |pnl|
  {
    && (forall i :: 0 <= i <= n ==> Equity(pnl, i) <= peak)
    && (exists i :: 0 <= i <= n && Equity(pnl, i) == peak)
  }

  lemma NextPeak(pnl: seq<real>, n: nat, peak: real)
    requires n < |pnl| && IsPeak(pnl, n, peak)
    ensures IsPeak(pnl, n + 1, Max(peak, Equity(pnl, n + 1)))
  {
    var i :| 0 <= i <= n && Equity(pnl, i) == peak;
    var k := if peak > Equity(pnl, n + 1) then i else n + 1;
    assert Equity(pnl, k) == Max(peak, Equity(pnl, n + 1));
  }

  lemma FallIsReached(pnl: seq<real>, n: nat, peak: real, d: real)
    requires n < |pnl| && IsLargestFall(pnl, n, d) && IsPeak(pnl, n + 1, peak)
    ensures exists i, j :: 0 <= i <= j <= n + 1
                           && Equity(pnl, i) - Equity(pnl, j) == Max(d, peak - Equity(pnl, n + 1))
  {
    hide Equity;
    if d > peak - Equity(pnl, n + 1) {
      var i, j :| 0 <= i <= j <= n && Equity(pnl, i) - Equity(pnl, j) == d;
      assert Equity(pnl, i) - Equity(pnl, j) == Max(d, peak - Equity(pnl, n + 1));
    } else {
      var k :| 0 <= k <= n + 1 && Equity(pnl, k) == peak;
      assert Equity(pnl, k) - Equity(pnl, n + 1) == Max(d, peak - Equity(pnl, n + 1));
    }
  }

  lemma NextFall(pnl: seq<real>, n: nat, peak: real, d: real)
    requires n < |pnl| && IsLargestFall(pnl, n, d) && IsPeak(pnl, n + 1, peak)
    ensures IsLargestFall(pnl, n + 1, Max(d, peak - Equity(pnl, n + 1)))
  {
    hide Equity;
    FallIsReached(pnl, n, peak, d);
    forall x, y | 0 <= x <= y <= n + 1
      ensures Equity(pnl, x) - Equity(pnl, y) <= Max(d, peak - Equity(pnl, n + 1))
    {
      FallIsBounded(pnl, n, peak, d, x, y);
    }
  }

  lemma FallIsBounded(pnl: seq<real>, n: nat, peak: real, d: real, x: nat, y: nat)
    requires n < |pnl| && IsLargestFall(pnl, n, d) && IsPeak(pnl, n + 1, peak) && x <= y <= n + 1
    ensures Equity(pnl, x) - Equity(pnl, y) <= Max(d, peak - Equity(pnl, n + 1))
  {
    hide Equity;
    assert y <= n ==> Equity(pnl, x) - Equity(pnl, y) <= d;
    assert Equity(pnl, x) <= peak;
  }

  lemma AtStart(pnl: seq<real>)
    ensures IsPeak(pnl, 0, 0.0) && IsLargestFall(pnl, 0, 0.0)
  {
    assert Equity(pnl, 0) == 0.0 && Equity(pnl, 0) - Equity(pnl, 0) == 0.0;
  }

  /** One pass, constant memory. */
  method MaxDrawdown(pnl: seq<real>) returns (maxDrawdown: real)
    ensures IsLargestFall(pnl, |pnl|, maxDrawdown)
    ensures maxDrawdown >= 0.0
  {
    hide IsPeak, IsLargestFall;
    var equity, peak := 0.0, 0.0;
    maxDrawdown := 0.0;
    AtStart(pnl);
    for n := 0 to |pnl|
      invariant equity == Equity(pnl, n)
      invariant IsPeak(pnl, n, peak)
      invariant IsLargestFall(pnl, n, maxDrawdown) && maxDrawdown >= 0.0
    {
      equity := equity + pnl[n];
      NextPeak(pnl, n, peak);
      peak := Max(peak, equity);
      NextFall(pnl, n, peak, maxDrawdown);
      maxDrawdown := Max(maxDrawdown, peak - equity);
    }
  }

  /** The drawdown is determined by its meaning, so the loop computes the quadratic maximum. */
  lemma LargestFallIsUnique(pnl: seq<real>, d: real, e: real)
    requires IsLargestFall(pnl, |pnl|, d) && IsLargestFall(pnl, |pnl|, e)
    ensures d == e
  {
    var i, j :| 0 <= i <= j <= |pnl| && Equity(pnl, i) - Equity(pnl, j) == d;
    var k, l :| 0 <= k <= l <= |pnl| && Equity(pnl, k) - Equity(pnl, l) == e;
  }

  /** Equity is the running sum of the returns. */
  lemma {:induction false} EquityIsSum(pnl: seq<real>, i: nat)
    requires i <= |pnl|
    ensures Equity(pnl, i) == Sum(pnl[..i])
  {
    if i > 0 {
      EquityIsSum(pnl, i - 1);
      assert pnl[..i][..i - 1] == pnl[..i - 1];
    }
  }

  /** Three up, five down, one up: the largest fall is the five, from the peak. */
  lemma FallOfFive(d: real)
    requires IsLargestFall([3.0, -5.0, 1.0], 3, d)
    ensures d == 5.0
  {
    var pnl := [3.0, -5.0, 1.0];
    assert Equity(pnl, 0) == 0.0 && Equity(pnl, 1) == 3.0 && Equity(pnl, 2) == -2.0 && Equity(pnl, 3) == -1.0;
  }
}
