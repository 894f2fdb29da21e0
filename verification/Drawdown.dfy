// Maximum drawdown: the one-pass running-peak form against its all-pairs meaning.
module Drawdown {
  import opened Wrappers

  // The account after row i, on a starting notional.
  function Account(curve: seq<real>, notional: real, i: nat): real
    requires i < |curve|
  {
    notional + curve[i]
  }

  // The percentage fall from account i to account j.
  function Fall(curve: seq<real>, notional: real, i: nat, j: nat): real
    requires i < |curve| && j < |curve| && Account(curve, notional, i) > 0.0
  {
    FallBetween(Account(curve, notional, i), Account(curve, notional, j))
  }

  function FallBetween(from: real, to: real): real
    requires from > 0.0
  {
    (from - to) / from * 100.0
  }

  // The fall is what is missing from the kept share.
  lemma FallIsMissingShare(from: real, to: real) returns (share: real)
    requires from > 0.0
    ensures share * from == to && FallBetween(from, to) == (1.0 - share) * 100.0
  {
    share := to / from;
    var lost := (from - to) / from;
    assert share * from == to && lost * from == from - to;
    var d := lost + share - 1.0;
    assert d * from == lost * from + share * from - from == 0.0;
    NoProduct(d, from);
  }

  lemma ShareInRange(x: real, f: real)
    requires f > 0.0 && x * f >= 0.0
    ensures x >= 0.0 && (x * f <= f ==> x <= 1.0)
  {
    assert x < 0.0 ==> x * f < 0.0;
    assert x > 1.0 ==> (x - 1.0) * f > 0.0;
  }

  lemma NoProduct(d: real, f: real)
    requires f > 0.0 && d * f == 0.0
    ensures d == 0.0
  {}

  // Among the falls to a non-negative account, the one from the higher account is larger.
  lemma HigherPeakFallsFurther(a: real, b: real, to: real)
    requires 0.0 < a <= b && to >= 0.0
    ensures FallBetween(a, to) <= FallBetween(b, to)
  {
    hide FallBetween;
    var x := FallIsMissingShare(a, to);
    var y := FallIsMissingShare(b, to);
    ShareInRange(x, a);
    if x < y { Product(x, y, a, b); }
  }

  lemma Product(x: real, y: real, a: real, b: real)
    requires 0.0 <= x < y && 0.0 < a <= b
    ensures x * a < y * b
  {
    var d, e := y - x, b - a;
    assert d * a > 0.0 && y * e >= 0.0;
    assert y * a == x * a + d * a && y * b == y * a + y * e;
  }

  lemma FallInRange(from: real, to: real)
    requires 0.0 <= to <= from && from > 0.0
    ensures 0.0 <= FallBetween(from, to) <= 100.0
  {
    hide FallBetween;
    var x := FallIsMissingShare(from, to);
    ShareInRange(x, from);
  }

  // d is the largest fall from an earlier-or-equal positive account within the
  // first n rows, or zero when there is none above it.
  ghost predicate IsMaxFall(curve: seq<real>, notional: real, n: nat, d: real)
    requires n <= |curve|
  {
    && d >= 0.0
    && (forall i, j :: 0 <= i <= j < n && Account(curve, notional, i) > 0.0 ==> Fall(curve, notional, i, j) <= d)
    && (d == 0.0 ||
        exists i, j :: 0 <= i <= j < n && Account(curve, notional, i) > 0.0 && d == Fall(curve, notional, i, j))
  }

  // The running peak after n rows, none before the first.
  function Peak(curve: seq<real>, notional: real, n: nat): (peak: real)
    requires 0 < n <= |curve|
  {
    if n == 1 then Account(curve, notional, 0) else Max(Peak(curve, notional, n - 1), Account(curve, notional, n - 1))
  }

  // The fall from the running peak that row j shows, zero without a positive peak.
  function PeakFall(curve: seq<real>, notional: real, j: nat): real
    requires j < |curve|
  {
    var peak := Peak(curve, notional, j + 1);
    if peak > 0.0 then FallBetween(peak, Account(curve, notional, j)) else 0.0
  }

  // What the pass has after n rows.
  function Pass(curve: seq<real>, notional: real, n: nat): real
    requires n <= |curve|
  {
    if n == 0 then 0.0 else Max(Pass(curve, notional, n - 1), PeakFall(curve, notional, n - 1))
  }

  // One pass with a running peak.
  method MaxDrawdownPct(curve: seq<real>, notional: real) returns (d: real)
    ensures d == Pass(curve, notional, |curve|)
    ensures FallsIntoDebtAreCovered(curve, notional) <==> IsMaxFall(curve, notional, |curve|, d)
    ensures (forall i :: 0 <= i < |curve| ==> Account(curve, notional, i) >= 0.0) ==>
              IsMaxFall(curve, notional, |curve|, d) && d <= 100.0
  {
    hide FallBetween, IsMaxFall, FallsIntoDebtAreCovered;
    var peak: Option<real> := None;
    d := 0.0;
    for n := 0 to |curve|
      invariant peak == (if n == 0 then None else Some(Peak(curve, notional, n)))
      invariant d == Pass(curve, notional, n)
    {
      var account := Account(curve, notional, n);
      peak := Some(if peak.Some? then Max(peak.value, account) else account);
      if peak.value > 0.0 {
        d := Max(d, FallBetween(peak.value, account));
      } else {
        PassNonNegative(curve, notional, n);
      }
    }
    PassIsMaxFallIff(curve, notional);
    if forall i :: 0 <= i < |curve| ==> Account(curve, notional, i) >= 0.0 {
      SolventIsCovered(curve, notional);
      SolventPassInRange(curve, notional, |curve|);
    }
  }

  lemma {:induction false} PassNonNegative(curve: seq<real>, notional: real, n: nat)
    requires n <= |curve|
    ensures Pass(curve, notional, n) >= 0.0
  {
    hide PeakFall;
    if n > 0 { PassNonNegative(curve, notional, n - 1); }
  }

  // The running peak is the highest account so far.
  lemma {:induction false} PeakIsHighest(curve: seq<real>, notional: real, n: nat) returns (p: nat)
    requires 0 < n <= |curve|
    ensures p < n && Peak(curve, notional, n) == Account(curve, notional, p)
    ensures forall i :: 0 <= i < n ==> Account(curve, notional, i) <= Peak(curve, notional, n)
  {
    if n == 1 {
      p := 0;
    } else {
      p := PeakIsHighest(curve, notional, n - 1);
      if Account(curve, notional, n - 1) > Peak(curve, notional, n - 1) { p := n - 1; }
    }
  }

  lemma {:induction false} SolventPassInRange(curve: seq<real>, notional: real, n: nat)
    requires n <= |curve| && forall i :: 0 <= i < |curve| ==> Account(curve, notional, i) >= 0.0
    ensures Pass(curve, notional, n) <= 100.0
  {
    hide FallBetween;
    if n > 0 {
      SolventPassInRange(curve, notional, n - 1);
      var p := PeakIsHighest(curve, notional, n);
      if Peak(curve, notional, n) > 0.0 { FallInRange(Peak(curve, notional, n), Account(curve, notional, n - 1)); }
    }
  }

  // The pass is at least every peak fall, and is zero or one of them.
  lemma {:induction false} PassIsLargestPeakFall(curve: seq<real>, notional: real, n: nat) returns (j: nat)
    requires n <= |curve|
    ensures forall k :: 0 <= k < n ==> PeakFall(curve, notional, k) <= Pass(curve, notional, n)
    ensures Pass(curve, notional, n) >= 0.0
    ensures Pass(curve, notional, n) == 0.0 || (j < n && Pass(curve, notional, n) == PeakFall(curve, notional, j))
  {
    hide PeakFall;
    j := 0;
    if n > 0 {
      j := PassIsLargestPeakFall(curve, notional, n - 1);
      if PeakFall(curve, notional, n - 1) >= Pass(curve, notional, n - 1) { j := n - 1; }
    }
  }

  // All positive accounts up to row j are the same.
  ghost predicate OnePositiveAccount(curve: seq<real>, notional: real, j: nat)
    requires j < |curve|
  {
    forall i, k :: 0 <= i <= j && 0 <= k <= j && Account(curve, notional, i) > 0.0 && Account(curve, notional, k) > 0.0
                   ==> Account(curve, notional, i) == Account(curve, notional, k)
  }

  // A fall from g to j at least as large as f, ending while all positive accounts so
  // far were the same.
  ghost predicate Covers(curve: seq<real>, notional: real, g: nat, j: nat, f: real) {
    && g <= j < |curve| && Account(curve, notional, g) > 0.0
    && Fall(curve, notional, g, j) >= f && OnePositiveAccount(curve, notional, j)
  }

  // Every fall into debt is matched by one at least as large that ends before two
  // different positive accounts have been seen.
  ghost predicate FallsIntoDebtAreCovered(curve: seq<real>, notional: real) {
    forall i, k :: 0 <= i <= k < |curve| && Account(curve, notional, i) > 0.0 && Account(curve, notional, k) < 0.0 ==>
      exists g, j :: Covers(curve, notional, g, j, Fall(curve, notional, i, k))
  }

  lemma SolventIsCovered(curve: seq<real>, notional: real)
    requires forall i :: 0 <= i < |curve| ==> Account(curve, notional, i) >= 0.0
    ensures FallsIntoDebtAreCovered(curve, notional)
  {}

  // A fall into debt is over a hundred percent, and the lower its start the larger.
  lemma FallIntoDebt(a: real, b: real, to: real)
    requires 0.0 < a && 0.0 < b && to < 0.0
    ensures FallBetween(a, to) > 100.0
    ensures a < b ==> FallBetween(a, to) > FallBetween(b, to)
  {
    hide FallBetween;
    var x := FallIsMissingShare(a, to);
    var y := FallIsMissingShare(b, to);
    NegativeShare(x, a);
    NegativeShare(y, b);
    if a < b && x >= y { DebtProduct(x, y, a, b); }
  }

  lemma NegativeShare(x: real, f: real)
    requires f > 0.0 && x * f < 0.0
    ensures x < 0.0
  {
    assert x >= 0.0 ==> x * f >= 0.0;
  }

  lemma DebtProduct(x: real, y: real, a: real, b: real)
    requires y <= x < 0.0 && 0.0 < a < b
    ensures y * b < x * a
  {
    LargerFactor(y, x, b);
    NegativeFactor(x, a, b);
  }

  lemma LargerFactor(y: real, x: real, b: real)
    requires y <= x && b > 0.0
    ensures y * b <= x * b
  {}

  lemma NegativeFactor(x: real, a: real, b: real)
    requires x < 0.0 && a < b
    ensures x * b < x * a
  {
    var e := b - a;
    NegativeProduct(x, e);
    assert x * e == x * b - x * a;
  }

  lemma NegativeProduct(x: real, e: real)
    requires x < 0.0 && e > 0.0
    ensures x * e < 0.0
  {}

  lemma NoFallAboveHundred(from: real, to: real)
    requires from > 0.0 && FallBetween(from, to) > 100.0
    ensures to < 0.0
  {
    var x := FallIsMissingShare(from, to);
    assert x < 0.0;
    assert x * from < 0.0;
  }

  // A fall not into debt, or whose start is the running peak, is at most the pass.
  lemma SolventFallIsPassed(curve: seq<real>, notional: real, i: nat, k: nat)
    requires i <= k < |curve| && Account(curve, notional, i) > 0.0
    requires Account(curve, notional, k) >= 0.0 || Account(curve, notional, i) == Peak(curve, notional, k + 1)
    ensures Fall(curve, notional, i, k) <= PeakFall(curve, notional, k)
  {
    hide FallBetween;
    var p := PeakIsHighest(curve, notional, k + 1);
    if Account(curve, notional, k) >= 0.0 {
      HigherPeakFallsFurther(Account(curve, notional, i), Peak(curve, notional, k + 1), Account(curve, notional, k));
    }
  }

  lemma CoveredFallIsPassed(curve: seq<real>, notional: real, g: nat, j: nat, f: real)
    requires Covers(curve, notional, g, j, f)
    ensures f <= PeakFall(curve, notional, j)
  {
    hide FallBetween, PeakFall;
    var p := PeakIsHighest(curve, notional, j + 1);
    assert Account(curve, notional, g) <= Account(curve, notional, p);
    SolventFallIsPassed(curve, notional, g, j);
  }

  // If no fall exceeds the pass, the pass itself covers every fall into debt.
  lemma PassCovers(curve: seq<real>, notional: real, i: nat, k: nat)
    requires IsMaxFall(curve, notional, |curve|, Pass(curve, notional, |curve|))
    requires i <= k < |curve| && Account(curve, notional, i) > 0.0 && Account(curve, notional, k) < 0.0
    ensures exists g, j :: Covers(curve, notional, g, j, Fall(curve, notional, i, k))
  {
    hide FallBetween;
    var d := Pass(curve, notional, |curve|);
    FallIntoDebt(Account(curve, notional, i), 1.0, Account(curve, notional, k));
    assert Fall(curve, notional, i, k) <= d;
    var j := PassIsLargestPeakFall(curve, notional, |curve|);
    var g := PeakIsHighest(curve, notional, j + 1);
    var peak, to := Peak(curve, notional, j + 1), Account(curve, notional, j);
    NoFallAboveHundred(peak, to);
    forall l | 0 <= l <= j && Account(curve, notional, l) > 0.0 ensures Account(curve, notional, l) == peak {
      assert Fall(curve, notional, l, j) <= d;
      FallIntoDebt(Account(curve, notional, l), peak, to);
    }
    assert Covers(curve, notional, g, j, Fall(curve, notional, i, k));
  }

  // The pass gives the largest fall over all pairs of rows exactly when falls into debt
  // are covered; without debts they are.
  lemma PassIsMaxFallIff(curve: seq<real>, notional: real)
    ensures FallsIntoDebtAreCovered(curve, notional) <==>
            IsMaxFall(curve, notional, |curve|, Pass(curve, notional, |curve|))
  {
    hide FallBetween;
    var n, d := |curve|, Pass(curve, notional, |curve|);
    if IsMaxFall(curve, notional, n, d) {
      forall i, k | 0 <= i <= k < n && Account(curve, notional, i) > 0.0 && Account(curve, notional, k) < 0.0
        ensures exists g, j :: Covers(curve, notional, g, j, Fall(curve, notional, i, k))
      {
        PassCovers(curve, notional, i, k);
      }
    }
    if FallsIntoDebtAreCovered(curve, notional) {
      CoveredIsMaxFall(curve, notional);
    }
  }

  lemma CoveredIsMaxFall(curve: seq<real>, notional: real)
    requires FallsIntoDebtAreCovered(curve, notional)
    ensures IsMaxFall(curve, notional, |curve|, Pass(curve, notional, |curve|))
  {
    hide FallBetween, PeakFall, Covers;
    var n, d := |curve|, Pass(curve, notional, |curve|);
    var j := PassIsLargestPeakFall(curve, notional, n);
    if d != 0.0 { PassIsAFall(curve, notional, j); }
    forall i, k | 0 <= i <= k < n && Account(curve, notional, i) > 0.0 ensures Fall(curve, notional, i, k) <= d {
      if Account(curve, notional, k) >= 0.0 {
        SolventFallIsPassed(curve, notional, i, k);
      } else {
        var g: nat, l: nat :| Covers(curve, notional, g, l, Fall(curve, notional, i, k));
        CoveredFallIsPassed(curve, notional, g, l, Fall(curve, notional, i, k));
        assert l < n by { CoverInRange(curve, notional, g, l, Fall(curve, notional, i, k)); }
      }
    }
  }

  lemma CoverInRange(curve: seq<real>, notional: real, g: nat, j: nat, f: real)
    requires Covers(curve, notional, g, j, f)
    ensures j < |curve|
  {}

  // A peak fall other than zero is the fall of a pair of rows.
  lemma PassIsAFall(curve: seq<real>, notional: real, j: nat)
    requires j < |curve| && PeakFall(curve, notional, j) != 0.0
    ensures exists i, k :: 0 <= i <= k < |curve| && Account(curve, notional, i) > 0.0
                           && PeakFall(curve, notional, j) == Fall(curve, notional, i, k)
  {
    hide FallBetween;
    var p := PeakIsHighest(curve, notional, j + 1);
    assert PeakFall(curve, notional, j) == Fall(curve, notional, p, j);
  }

  // A meaning for the maximum that leaves no freedom.
  lemma MaxFallIsUnique(curve: seq<real>, notional: real, n: nat, d: real, e: real)
    requires n <= |curve| && IsMaxFall(curve, notional, n, d) && IsMaxFall(curve, notional, n, e)
    ensures d == e
  {}

  // Once the account can go negative the running peak need not be the worst start:
  // from 1 through 10 to -10 the pass answers 200, while the fall from 1 is 1100.
  lemma NegativeAccountsBreakTheMaximum(notional: real)
    ensures var curve := [1.0 - notional, 10.0 - notional, -10.0 - notional];
            && Pass(curve, notional, 3) == 200.0 && Fall(curve, notional, 0, 2) == 1100.0
            && !IsMaxFall(curve, notional, 3, Pass(curve, notional, 3))
            && !FallsIntoDebtAreCovered(curve, notional)
  {
    var curve := [1.0 - notional, 10.0 - notional, -10.0 - notional];
    assert Account(curve, notional, 0) == 1.0 && Account(curve, notional, 1) == 10.0;
    assert Account(curve, notional, 2) == -10.0;
    assert Peak(curve, notional, 1) == 1.0 && Peak(curve, notional, 2) == 10.0 && Peak(curve, notional, 3) == 10.0;
    assert PeakFall(curve, notional, 2) == 200.0 && PeakFall(curve, notional, 1) == 0.0
        && PeakFall(curve, notional, 0) == 0.0;
    assert Pass(curve, notional, 1) == 0.0 && Pass(curve, notional, 2) == 0.0;
    assert Fall(curve, notional, 0, 2) == 1100.0;
    PassIsMaxFallIff(curve, notional);
  }
}
