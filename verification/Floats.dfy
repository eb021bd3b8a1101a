/** What is used of floating-point arithmetic: a rounding that is applied to the exact result of every
    operation. IEEE double precision, in any of its rounding modes, is one; so is not rounding at all. */
module Floats {
  import opened Binary

  const EXACT_FLOAT_LIMIT: nat := 0x20_0000_0000_0000  // 2^53

  function Ratio(n: nat, d: nat): real
    requires d > 0
  {
    n as real / d as real
  }

  function Times(n: nat, d: nat): nat { n * d }

  /** Rounding never reverses an order. */
  ghost predicate Monotone(f: real -> real) {
    forall x: real, y: real {:trigger f(x), f(y)} :: x <= y ==> f(x) <= f(y)
  }

  /** Whole numbers up to the limit are floats, and so are they times or divided by d. */
  ghost predicate ExactBy(f: real -> real, d: nat)
    requires d > 0
  {
    forall n: nat {:trigger Times(n, d)} {:trigger Ratio(n, d)} :: n <= EXACT_FLOAT_LIMIT ==>
      f(Times(n, d) as real) == Times(n, d) as real && f(Ratio(n, d)) == Ratio(n, d)
  }

  ghost predicate IsRounding(f: real -> real) {
    Monotone(f) && ExactBy(f, 1) && ExactBy(f, 2) && ExactBy(f, MI) && ExactBy(f, GI)
  }

  type Rounding = f: real -> real | IsRounding(f) witness (x: real) => x

  const SMALL: real := 1.0 / 1073741824.0  // 2^-30

  /** One number differs from another by at most one part in 2^52. */
  predicate Near(a: real, x: real) {
    -x <= (a - x) * 4503599627370496.0 <= x
  }

  /** Rounding moves a number that is not tiny by no more than that. */
  ghost predicate Accurate(f: real -> real) {
    forall x: real {:trigger f(x)} :: SMALL <= x ==> Near(f(x), x)
  }

  lemma RoundsWhole(f: Rounding, n: nat)
    requires n <= EXACT_FLOAT_LIMIT
    ensures f(n as real) == n as real
  {
    assert Times(n, 1) == n;
  }

  /** int(x) of a rounded result. */
  function Whole(f: Rounding, x: real): (n: nat)
    requires 0.0 <= x
    ensures n as real <= f(x) < (n + 1) as real
  {
    RoundsWhole(f, 0);
    assert f(0.0) <= f(x);
    f(x).Floor
  }

  /** The result is rounded up to the next whole number. */
  ghost predicate RoundsUp(f: Rounding, x: real) {
    f(x) >= (x.Floor + 1) as real
  }

  /** Rounding never skips a whole number. */
  lemma WholeOfRounded(f: Rounding, x: real)
    requires 0.0 <= x < EXACT_FLOAT_LIMIT as real
    ensures Whole(f, x) == if RoundsUp(f, x) then x.Floor + 1 else x.Floor
    ensures RoundsUp(f, x) ==> f(x) == (x.Floor + 1) as real
  {
    var k := x.Floor;
    assert 0 <= k && k as real <= x <= (k + 1) as real;
    RoundsWhole(f, k);
    RoundsWhole(f, k + 1);
    assert f(k as real) <= f(x) <= f((k + 1) as real);
  }

  /** A margin that excludes rounding up: the product stays below the next whole number by at least one
      part in d, and d parts of that number are still exact. */
  lemma MarginKeepsFromRoundingUp(f: Rounding, x: real, d: nat)
    requires d > 0 && ExactBy(f, d) && 0.0 <= x
    requires Times(x.Floor + 1, d) <= EXACT_FLOAT_LIMIT
    requires x <= Ratio(Times(x.Floor + 1, d) - 1, d)
    ensures !RoundsUp(f, x)
  {
    var n := Times(x.Floor + 1, d) - 1;
    assert f(x) <= f(Ratio(n, d)) == Ratio(n, d);
    RatioBelowNext(x.Floor + 1, d);
  }

  lemma RatioBelowNext(k: nat, d: nat)
    requires d > 0 && k > 0
    ensures Times(k, d) >= 1 && Ratio(Times(k, d) - 1, d) == k as real - 1.0 / d as real < k as real
  {
    assert Times(k, d) >= d;
    assert (Times(k, d) - 1) as real == k as real * d as real - 1.0;
    assert k as real * d as real / d as real == k as real;
  }

  lemma WholeMonotone(f: Rounding, x: real, y: real)
    requires 0.0 <= x <= y
    ensures Whole(f, x) <= Whole(f, y)
  {
    assert f(x) <= f(y);
  }

  lemma ProductsGrow(a: real, b: real, r: real, s: real)
    requires 0.0 <= a <= b && 0.0 <= r <= s
    ensures 0.0 <= a * r <= b * s
  {
    assert a * r <= b * r;
    assert b * r <= b * s;
    assert 0.0 * r <= a * r;
  }

  lemma FloorOfSum(q: int, part: real)
    requires 0.0 <= part < 1.0
    ensures (q as real + part).Floor == q
  {
  }

  lemma PartOfDivisor(rest: nat, d: nat)
    requires rest < d
    ensures 0.0 <= rest as real / d as real < 1.0
    ensures rest as real / d as real == 0.0 <==> rest == 0
  {
  }

  lemma SplitRatio(n: nat, d: nat)
    requires d > 0
    ensures Ratio(n, d) == (n / d) as real + (n % d) as real / d as real
  {
    var q, rest := n / d, n % d;
    assert n == q * d + rest;
    assert n as real == q as real * d as real + rest as real;
  }

  /** Dividing in floats: the whole part, and whether there is any other. */
  lemma FloorOfRatio(n: nat, d: nat)
    requires d > 0
    ensures Ratio(n, d).Floor == n / d
    ensures Ratio(n, d) == (n / d) as real <==> n % d == 0
  {
    SplitRatio(n, d);
    PartOfDivisor(n % d, d);
    FloorOfSum(n / d, (n % d) as real / d as real);
  }
}
