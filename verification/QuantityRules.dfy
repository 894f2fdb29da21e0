// The order quantity sanitizer: raise to the exchange minima, floor to the step,
// print and re-read with a number of decimals derived from the step.
module QuantityRules {
  import opened Wrappers

  datatype Rules = Rules(minQty: real, stepSize: real, minNotional: real, maxCapital: real)

  datatype Refusal = InvalidPriceOrQty | QtyZero | CapitalExceeded

  datatype Outcome =
    | Accepted(qty: real, qtyBelowMin: bool, notionalBelowMin: bool)
    | Refused(why: Refusal)

  // Multiplication and division under names, so that proofs about rounding can
  // treat them abstractly.
  function Times(a: real, b: real): real { a * b }

  function Over(a: real, b: real): real
    requires b != 0.0
  {
    a / b
  }

  function Pow10(n: nat): (r: real)
    ensures r >= 1.0
  {
    if n == 0 then 1.0 else Times(10.0, Pow10(n - 1))
  }

  function Step(r: Rules): (s: real)
    ensures s > 0.0
  {
    Max(r.stepSize, 0.00000001)
  }

  // round(-log10(step)) for a step below one, found by squaring: p is the least
  // number with step at or above the square root of 10^-(2p + 1).
  function PrecisionFrom(step: real, p: nat): nat
    requires p <= 8
    decreases 8 - p
  {
    if p == 8 || Times(Times(step, step), Pow10(2 * p + 1)) >= 1.0 then p else PrecisionFrom(step, p + 1)
  }

  function Precision(step: real): nat {
    if step < 1.0 then PrecisionFrom(step, 0) else 0
  }

  function RoundHalfEven(y: real): int {
    var f := y.Floor;
    if y - f as real < 0.5 then f
    else if y - f as real > 0.5 then f + 1
    else if f % 2 == 0 then f else f + 1
  }

  // Printing with p decimals and reading back.
  function Format(x: real, p: nat): real {
    Over(RoundHalfEven(Times(x, Pow10(p))) as real, Pow10(p))
  }

  // The quantity the rules ask for before stepping.
  function Target(r: Rules, price: real, qty: real): real
    requires price > 0.0
  {
    Max(Max(qty, r.minQty), if r.minNotional != 0.0 then Over(r.minNotional, price) else 0.0)
  }

  function Multiple(n: int, step: real): real {
    Times(n as real, step)
  }

  function Floored(x: real, step: real): real
    requires step > 0.0
  {
    Multiple(Over(x, step).Floor, step)
  }

  function SanitizeQty(r: Rules, price: real, qty: real): Outcome {
    if price <= 0.0 || qty <= 0.0 then Refused(InvalidPriceOrQty)
    else
      var step := Step(r);
      var adjusted := Format(Floored(Target(r, price, qty), step), Precision(step));
      if adjusted <= 0.0 then Refused(QtyZero)
      else if Times(adjusted, price) > r.maxCapital then Refused(CapitalExceeded)
      else Accepted(adjusted, qty < r.minQty, Times(price, qty) < r.minNotional)
  }

  // ------------------------------------------------------- when printing is exact

  predicate Whole(y: real) {
    y.Floor as real == y
  }

  // The step has no digits beyond the printed ones.
  predicate ExactStep(step: real) {
    Whole(Times(step, Pow10(Precision(step))))
  }

  lemma WholeIs(y: real, n: int)
    requires y == n as real
    ensures Whole(y) && y.Floor == n
  {}

  lemma Associate(a: real, b: real, c: real)
    ensures Times(Times(a, b), c) == Times(a, Times(b, c))
  {}

  lemma Commute(a: real, b: real)
    ensures Times(a, b) == Times(b, a)
  {}

  lemma Distribute(a: real, b: real, t: real)
    ensures Times(a + b, t) == Times(a, t) + Times(b, t)
  {}

  lemma Sign(a: real, t: real)
    requires t > 0.0
    ensures a > 0.0 <==> Times(a, t) > 0.0
    ensures a == 0.0 <==> Times(a, t) == 0.0
  {}

  lemma OverTimes(a: real, t: real)
    requires t > 0.0
    ensures Times(Over(a, t), t) == a
  {}

  // Order is kept and reflected by a positive factor.
  lemma SameOrder(a: real, b: real, t: real)
    requires t > 0.0
    ensures a < b <==> Times(a, t) < Times(b, t)
    ensures a == b <==> Times(a, t) == Times(b, t)
  {
    hide Times;
    Distribute(b - a, a, t);
    Sign(b - a, t);
  }

  lemma WholeProduct(n: int, m: int)
    ensures Times(n as real, m as real) == (n * m) as real
  {}

  lemma MultipleIsWhole(n: int, step: real, t: real)
    requires Whole(Times(step, t))
    ensures Whole(Times(Multiple(n, step), t))
  {
    hide Times;
    var m := Times(step, t).Floor;
    Associate(n as real, step, t);
    WholeProduct(n, m);
    WholeIs(Times(Multiple(n, step), t), n * m);
  }

  lemma FormatOfWhole(x: real, p: nat)
    requires Whole(Times(x, Pow10(p)))
    ensures Format(x, p) == x
  {
    hide Pow10, Times, Over;
    var y, t := Times(x, Pow10(p)), Pow10(p);
    assert RoundHalfEven(y) as real == y;
    OverTimes(y, t);
    SameOrder(Over(y, t), x, t);
  }

  // A printed number has a whole scaled value.
  lemma FormatIsPrinted(x: real, p: nat)
    ensures Whole(Times(Format(x, p), Pow10(p)))
  {
    hide Pow10, RoundHalfEven, Times, Over;
    var n := RoundHalfEven(Times(x, Pow10(p)));
    OverTimes(n as real, Pow10(p));
    WholeIs(Times(Format(x, p), Pow10(p)), n);
  }

  lemma OneMultiple(step: real)
    ensures Multiple(1, step) == step && Multiple(0, step) == 0.0
  {}

  // Printing keeps every multiple of the step exactly when the step itself fits the
  // printed digits.
  lemma PrintingIsExactIff(step: real)
    requires step > 0.0
    ensures (forall n: nat :: Format(Multiple(n, step), Precision(step)) == Multiple(n, step)) <==> ExactStep(step)
  {
    hide Format, Precision, Pow10, Times, Multiple;
    var p := Precision(step);
    if ExactStep(step) {
      forall n: nat ensures Format(Multiple(n, step), p) == Multiple(n, step) {
        MultipleIsWhole(n, step, Pow10(p));
        FormatOfWhole(Multiple(n, step), p);
      }
    }
    if forall n: nat :: Format(Multiple(n, step), p) == Multiple(n, step) {
      OneMultiple(step);
      assert Format(Multiple(1, step), p) == step;
      FormatIsPrinted(step, p);
    }
  }

  // ---------------------------------------------------------- powers of ten

  lemma {:induction false} Pow10Add(a: nat, b: nat)
    ensures Pow10(a + b) == Times(Pow10(a), Pow10(b))
    decreases b
  {
    if b == 0 {
      assert Times(Pow10(a), 1.0) == Pow10(a);
    } else {
      Pow10Add(a, b - 1);
      hide Times;
      Associate(10.0, Pow10(a), Pow10(b - 1));
      Commute(10.0, Pow10(a));
      Associate(Pow10(a), 10.0, Pow10(b - 1));
    }
  }

  lemma AtLeastTen(n: nat)
    requires n > 0
    ensures Pow10(n) >= 10.0
  {}

  // The square of a power-of-ten step, scaled back to one.
  lemma Scaled(step: real, k: nat)
    requires Times(step, Pow10(k)) == 1.0
    ensures Times(Times(step, step), Pow10(2 * k)) == 1.0
  {
    Pow10Add(k, k);
    var t := Pow10(k);
    assert Times(1.0, t) == t;
    hide Pow10, Times;
    Associate(step, step, Times(t, t));
    Associate(step, t, t);
  }

  // Too coarse a precision leaves the scaled square below one.
  lemma BelowOne(s: real, a: real, b: real)
    requires b >= 10.0 && Times(s, Times(a, b)) == 1.0
    ensures Times(s, a) < 1.0
  {
    Associate(s, a, b);
    var x := Times(s, a);
    assert x >= 1.0 ==> x * b >= b;
  }

  lemma AboveOne(s: real, t: real)
    requires Times(s, t) == 1.0
    ensures Times(s, Times(10.0, t)) == 10.0
  {}

  lemma {:induction false} PrecisionFound(step: real, k: nat, p: nat)
    requires p <= k <= 8 && Times(step, Pow10(k)) == 1.0
    ensures PrecisionFrom(step, p) == k
    decreases k - p
  {
    Scaled(step, k);
    if p < k {
      hide Pow10, Times;
      var rest := 2 * (k - p) - 1;
      Pow10Add(2 * p + 1, rest);
      AtLeastTen(rest);
      BelowOne(Times(step, step), Pow10(2 * p + 1), Pow10(rest));
      PrecisionFound(step, k, p + 1);
    } else {
      hide Times;
      AboveOne(Times(step, step), Pow10(2 * k));
    }
  }

  lemma {:induction false} Pow10IsWhole(k: nat)
    ensures Whole(Pow10(k))
  {
    if k > 0 {
      Pow10IsWhole(k - 1);
      WholeIs(Pow10(k), 10 * Pow10(k - 1).Floor);
    }
  }

  // A step below one that is a power of ten is printed with its own digits.
  lemma SmallPowerOfTen(step: real, k: nat)
    requires k <= 8 && Times(step, Pow10(k)) == 1.0
    ensures step > 0.0 && Precision(step) == k && ExactStep(step)
  {
    var t := Pow10(k);
    assert k == 0 ==> t == 1.0;
    if k > 0 { AtLeastTen(k); }
    assert Times(1.0, t) == t;
    hide Pow10, PrecisionFrom, Times;
    Sign(step, t);
    SameOrder(step, 1.0, t);
    PrecisionFound(step, k, 0);
    WholeIs(Times(step, t), 1);
  }

  // Every power-of-ten step, down to the smallest the rules allow and however large,
  // is printed exactly.
  lemma PowerOfTenStepIsExact(step: real, k: nat)
    requires step == Pow10(k) || (k <= 8 && Times(step, Pow10(k)) == 1.0)
    ensures step > 0.0 && ExactStep(step)
    ensures Precision(step) == if step < 1.0 then k else 0
  {
    if step == Pow10(k) {
      Pow10IsWhole(k);
      assert Times(step, Pow10(0)) == step;
    } else {
      SmallPowerOfTen(step, k);
      if step >= 1.0 { AtLeastOneIsUnit(step, k); }
    }
  }

  lemma AtLeastOneIsUnit(step: real, k: nat)
    requires step >= 1.0 && Times(step, Pow10(k)) == 1.0
    ensures k == 0
  {
    if k > 0 {
      AtLeastTen(k);
      assert step * Pow10(k) >= Pow10(k);
    }
  }

  // ------------------------------------------------------------- flooring

  lemma Rungs(n: int, m: int, step: real)
    requires n < m && step > 0.0
    ensures Multiple(n, step) + step <= Multiple(m, step)
  {
    hide Times;
    OneTimes(step);
    Distribute(n as real, 1.0, step);
    SameOrder(n as real + 1.0, m as real, step);
  }

  lemma OneTimes(step: real)
    ensures Times(1.0, step) == step
  {}

  lemma FlooredBounds(x: real, step: real)
    requires step > 0.0
    ensures Floored(x, step) <= x < Floored(x, step) + step
  {
    hide Times, Over;
    var q := Over(x, step);
    var n := q.Floor as real;
    OverTimes(x, step);
    OneTimes(step);
    Distribute(n, 1.0, step);
    SameOrder(q, n, step);
    SameOrder(q, n + 1.0, step);
  }

  // A multiple of the step less than one step below x is the floor of x.
  lemma FlooredIs(x: real, step: real, n: int)
    requires step > 0.0 && Multiple(n, step) <= x < Multiple(n, step) + step
    ensures Floored(x, step) == Multiple(n, step)
  {
    hide Multiple, Over;
    FlooredBounds(x, step);
    var m := Over(x, step).Floor;
    if m < n { Rungs(m, n, step); }
    if n < m { Rungs(n, m, step); }
  }

  lemma FlooredMonotone(x: real, y: real, step: real)
    requires step > 0.0 && x <= y
    ensures Floored(x, step) <= Floored(y, step)
  {
    hide Multiple, Over;
    FlooredBounds(x, step);
    FlooredBounds(y, step);
    var n, m := Over(x, step).Floor, Over(y, step).Floor;
    if m < n { Rungs(m, n, step); }
    if n < m { Rungs(n, m, step); }
  }

  // ------------------------------------------------------------- main results

  // With an exact step: which inputs are accepted, and that the answer is the
  // floored target: a step multiple less than one step below what was asked for.
  lemma AcceptedQuantity(r: Rules, price: real, qty: real)
    requires ExactStep(Step(r)) && price > 0.0 && qty > 0.0
    ensures var step, target, result := Step(r), Target(r, price, qty), SanitizeQty(r, price, qty);
            var q := Floored(target, step);
            && (result.Accepted? <==> target >= step && Times(q, price) <= r.maxCapital)
            && (result.Accepted? ==>
                  && result.qty == q == Multiple(Over(target, step).Floor, step)
                  && target - step < q <= target
                  && Times(q, price) > r.minNotional - Times(step, price)
                  && (result.qtyBelowMin <==> qty < r.minQty)
                  && (result.notionalBelowMin <==> Times(price, qty) < r.minNotional))
  {
    var step, target := Step(r), Target(r, price, qty);
    var q := Floored(target, step);
    hide Precision, Format, Multiple, Target, ExactStep, Times, Over;
    TargetPositive(r, price, qty);
    FlooredBounds(target, step);
    FlooredSign(target, step);
    PrintingIsExactIff(step);
    var n: nat := Over(target, step).Floor;
    assert Format(Multiple(n, step), Precision(step)) == Multiple(n, step);
    NotionalMargin(r, price, qty, q, step);
  }

  lemma TargetPositive(r: Rules, price: real, qty: real)
    requires price > 0.0 && qty > 0.0
    ensures Target(r, price, qty) > 0.0
  {}

  lemma FlooredSign(t: real, step: real)
    requires t > 0.0 && step > 0.0
    ensures Over(t, step).Floor >= 0 && (Floored(t, step) > 0.0 <==> t >= step)
  {
    hide Multiple, Over;
    var n := Over(t, step).Floor;
    FlooredBounds(t, step);
    OneMultiple(step);
    if n < 0 { Rungs(n, 0, step); }
    if n > 0 { Rungs(0, n, step); }
  }

  lemma NotionalMargin(r: Rules, price: real, qty: real, q: real, step: real)
    requires price > 0.0 && qty > 0.0 && Target(r, price, qty) < q + step
    ensures Times(q, price) > r.minNotional - Times(step, price)
  {
    var need := if r.minNotional != 0.0 then Over(r.minNotional, price) else 0.0;
    assert need <= Target(r, price, qty);
    assert Times(need, price) == r.minNotional;
    hide Times, Over;
    SameOrder(need, q + step, price);
    Distribute(q, step, price);
  }

  // A larger request is never answered with a smaller quantity.
  lemma SanitizerIsMonotone(r: Rules, price: real, small: real, large: real)
    requires ExactStep(Step(r)) && small <= large
    requires SanitizeQty(r, price, small).Accepted? && SanitizeQty(r, price, large).Accepted?
    ensures SanitizeQty(r, price, small).qty <= SanitizeQty(r, price, large).qty
  {
    TargetMonotone(r, price, small, large);
    AcceptedQuantity(r, price, small);
    AcceptedQuantity(r, price, large);
    hide Target, Floored, Format, Precision;
    FlooredMonotone(Target(r, price, small), Target(r, price, large), Step(r));
  }

  lemma TargetMonotone(r: Rules, price: real, small: real, large: real)
    requires price > 0.0 && small <= large
    ensures Target(r, price, small) <= Target(r, price, large)
  {}

  // Asking again for an answer at or below the target targets nothing larger.
  lemma RetargetBetween(r: Rules, price: real, qty: real, q: real)
    requires price > 0.0 && q <= Target(r, price, qty)
    ensures q <= Target(r, price, q) <= Target(r, price, qty)
  {}

  // An accepted quantity is answered with itself.
  lemma SanitizerIsIdempotent(r: Rules, price: real, qty: real)
    requires ExactStep(Step(r)) && SanitizeQty(r, price, qty).Accepted?
    ensures var q := SanitizeQty(r, price, qty).qty;
            SanitizeQty(r, price, q).Accepted? && SanitizeQty(r, price, q).qty == q
  {
    assert price > 0.0 && qty > 0.0;
    hide SanitizeQty, Format, Precision, Multiple, Target, ExactStep, Times, Over;
    var step, target := Step(r), Target(r, price, qty);
    AcceptedQuantity(r, price, qty);
    TargetPositive(r, price, qty);
    FlooredSign(target, step);
    FlooredBounds(target, step);
    var q := Floored(target, step);
    RetargetBetween(r, price, qty, q);
    AcceptedQuantity(r, price, q);
    FlooredIs(Target(r, price, q), step, Over(target, step).Floor);
    FlooredBounds(Target(r, price, q), step);
    AtLeastOneStep(q, Target(r, price, q), step);
  }

  lemma AtLeastOneStep(q: real, x: real, step: real)
    requires step > 0.0 && q > 0.0 && Floored(x, step) == q && q <= x
    ensures x >= step
  {
    hide Multiple, Over;
    FlooredSign(x, step);
  }

  // The least number of steps that reaches x.
  function StepsFor(x: real, step: real): int
    requires step > 0.0
  {
    -Over(-x, step).Floor
  }

  lemma ReachesFromThere(x: real, step: real, n: int)
    requires step > 0.0
    ensures Multiple(n, step) >= x <==> n >= StepsFor(x, step)
  {
    hide Over, Times;
    var q := Over(-x, step);
    OverTimes(-x, step);
    Negate(n as real, step);
    SameOrder(q, -(n as real), step);
  }

  // What is floored to the step reaches x exactly when its target reaches the first
  // multiple that does.
  lemma FloorReachesIff(target: real, step: real, x: real)
    requires step > 0.0
    ensures Floored(target, step) >= x <==> Multiple(StepsFor(x, step), step) <= target
  {
    hide Over, Times, Multiple, StepsFor;
    var n, m := Over(target, step).Floor, StepsFor(x, step);
    ReachesFromThere(x, step, n);
    FlooredBounds(target, step);
    if n < m { Rungs(n, m, step); }
    if m < n { Rungs(m, n, step); }
  }

  // The least number of steps worth the minimum notional.
  function StepsWorth(r: Rules, price: real): int
    requires price > 0.0
  {
    StepsFor(Over(r.minNotional, price), Step(r))
  }

  lemma Negate(a: real, b: real)
    ensures Times(-a, b) == -Times(a, b)
  {}

  // Flooring after raising meets the minimum notional exactly when the raised request
  // reaches the first step multiple that is worth it.
  lemma MinNotionalMetIff(r: Rules, price: real, qty: real)
    requires ExactStep(Step(r)) && SanitizeQty(r, price, qty).Accepted?
    ensures Times(SanitizeQty(r, price, qty).qty, price) >= r.minNotional
            <==> Multiple(StepsWorth(r, price), Step(r)) <= Target(r, price, qty)
  {
    assert price > 0.0 && qty > 0.0;
    hide SanitizeQty, Format, Precision, Multiple, Target, ExactStep, Times, Over, StepsFor;
    var need := Over(r.minNotional, price);
    AcceptedQuantity(r, price, qty);
    OverTimes(r.minNotional, price);
    SameOrder(SanitizeQty(r, price, qty).qty, need, price);
    FloorReachesIff(Target(r, price, qty), Step(r), need);
  }

  // The minimum quantity is met exactly when the raised request reaches the first step
  // multiple that meets it.
  lemma MinQtyMetIff(r: Rules, price: real, qty: real)
    requires ExactStep(Step(r)) && SanitizeQty(r, price, qty).Accepted?
    ensures SanitizeQty(r, price, qty).qty >= r.minQty
            <==> Multiple(StepsFor(r.minQty, Step(r)), Step(r)) <= Target(r, price, qty)
  {
    assert price > 0.0 && qty > 0.0;
    hide SanitizeQty, Format, Precision, Multiple, Target, ExactStep, Times, Over, StepsFor;
    AcceptedQuantity(r, price, qty);
    FloorReachesIff(Target(r, price, qty), Step(r), r.minQty);
  }

  // Flooring after raising can miss the minimum quantity: with a minimum of 1.5 on a step
  // of 1 a request of 1 is answered with 1.
  lemma MinQtyCanBeMissed()
    ensures var r := Rules(1.5, 1.0, 0.0, 1000.0);
            SanitizeQty(r, 1.0, 1.0) == Accepted(1.0, true, false) && 1.0 < r.minQty
  {
    var r := Rules(1.5, 1.0, 0.0, 1000.0);
    assert Step(r) == 1.0 && Pow10(0) == 1.0 && Multiple(1, 1.0) == 1.0;
    WholeIs(Times(1.0, 1.0), 1);
    assert Target(r, 1.0, 1.0) == 1.5 && Times(1.0, 1.0) == 1.0;
    hide Times, Over, Pow10, Multiple, Format, Target;
    FlooredIs(1.5, 1.0, 1);
    hide SanitizeQty, Floored;
    AcceptedQuantity(r, 1.0, 1.0);
  }

  // Flooring after raising can miss the minimum notional: 10 at price 3 with step 1
  // is raised to 10/3 and floored to 3, worth 9.
  lemma MinNotionalCanBeMissed()
    ensures var r := Rules(0.0, 1.0, 10.0, 1000.0);
            SanitizeQty(r, 3.0, 1.0) == Accepted(3.0, false, true) && 3.0 * 3.0 < r.minNotional
  {
    var r := Rules(0.0, 1.0, 10.0, 1000.0);
    assert Step(r) == 1.0 && Pow10(0) == 1.0 && Multiple(3, 1.0) == 3.0;
    WholeIs(Times(1.0, 1.0), 1);
    var target := Target(r, 3.0, 1.0);
    assert 3.0 <= target < 4.0 && Times(3.0, 3.0) == 9.0 && Times(3.0, 1.0) == 3.0;
    hide Times, Over, Pow10, Multiple, Format, Target;
    FlooredIs(target, 1.0, 3);
    hide SanitizeQty, Floored;
    AcceptedQuantity(r, 3.0, 1.0);
  }

  // With a step that does not fit the printed digits the answer need not be a
  // multiple of the step, and can exceed the request: 0.75 on a step of 0.25 is
  // printed with one decimal as 0.8.
  lemma InexactStepOvershoots()
    ensures var r := Rules(0.0, 0.25, 0.0, 1000.0);
            !ExactStep(0.25) && SanitizeQty(r, 1.0, 0.75) == Accepted(0.8, false, false)
  {
    var r := Rules(0.0, 0.25, 0.0, 1000.0);
    assert Pow10(1) == 10.0 && Pow10(2) == 100.0 && Pow10(3) == 1000.0;
    assert PrecisionFrom(0.25, 1) == 1;
    assert PrecisionFrom(0.25, 0) == 1;
    assert Target(r, 1.0, 0.75) == 0.75 && Multiple(3, 0.25) == 0.75;
    FlooredIs(0.75, 0.25, 3);
    assert Times(0.75, 10.0) == 7.5 && RoundHalfEven(7.5) == 8;
    assert Format(0.75, 1) == 0.8;
    assert Times(0.25, 10.0) == 2.5 && (2.5).Floor == 2;
  }


  // ------------------------------------------- what the pieces are, on their own

  // The quantity asked for is the least that meets the request and both minima.
  lemma TargetIsLeast(r: Rules, price: real, qty: real, x: real)
    requires price > 0.0 && qty > 0.0
    ensures x >= Target(r, price, qty) <==> x >= qty && x >= r.minQty && x * price >= r.minNotional
  {
    var need := Over(r.minNotional, price);
    assert Times(need, price) == r.minNotional;
    SameOrder(x, need, price);
  }

  // Rounding goes to the nearest whole number, on a tie to the even one.
  lemma RoundsToNearest(y: real)
    ensures var n := RoundHalfEven(y);
            && n as real - 0.5 <= y <= n as real + 0.5
            && (y == n as real - 0.5 || y == n as real + 0.5 ==> n % 2 == 0)
  {}

  // Printing moves a number by at most half a unit of its last printed digit.
  lemma PrintingIsNearest(x: real, p: nat)
    ensures -0.5 <= Times(Format(x, p), Pow10(p)) - Times(x, Pow10(p)) <= 0.5
  {
    hide Pow10, RoundHalfEven, Times, Over;
    RoundsToNearest(Times(x, Pow10(p)));
    OverTimes(RoundHalfEven(Times(x, Pow10(p))) as real, Pow10(p));
  }

  lemma {:induction false} PrecisionFromIsLeast(step: real, p: nat)
    requires p <= 8
    ensures var q := PrecisionFrom(step, p);
            && p <= q <= 8
            && (q < 8 ==> Times(Times(step, step), Pow10(2 * q + 1)) >= 1.0)
            && (q > p ==> Times(Times(step, step), Pow10(2 * q - 1)) < 1.0)
    decreases 8 - p
  {
    hide Times, Pow10;
    if p < 8 && Times(Times(step, step), Pow10(2 * p + 1)) < 1.0 { PrecisionFromIsLeast(step, p + 1); }
  }

  // The printed digits are the rounded order of magnitude of the step: a step of at least
  // one prints none, and p digits belong to steps from the square root of 10^-(2p + 1) up to
  // that of 10^-(2p - 1).
  lemma PrecisionIsMagnitude(r: Rules)
    ensures var step := Step(r);
            && step >= 0.00000001 && (step == 0.00000001 || step == r.stepSize) && step >= r.stepSize
            && (step >= 1.0 ==> Precision(step) == 0)
            && (step < 1.0 ==>
                  && Times(Times(step, step), Pow10(2 * Precision(step) + 1)) >= 1.0
                  && (Precision(step) > 0 ==> Times(Times(step, step), Pow10(2 * Precision(step) - 1)) < 1.0))
  {
    var step := Step(r);
    if step < 1.0 {
      PrecisionFromIsLeast(step, 0);
      if Precision(step) == 8 { SmallestStep(step); }
    }
  }

  lemma SmallestStep(step: real)
    requires step >= 0.00000001
    ensures Times(Times(step, step), Pow10(17)) >= 1.0
  {
    assert Pow10(0) == 1.0 && Pow10(1) == 10.0 && Pow10(2) == 100.0 && Pow10(4) == 10000.0;
    Pow10Add(4, 4);
    Pow10Add(8, 8);
    assert Pow10(17) == 100000000000000000.0;
    assert step * step >= 0.00000001 * 0.00000001;
  }

}
