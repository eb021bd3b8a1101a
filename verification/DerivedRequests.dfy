/** Requests derived from limits: int(amount * ratio), in floats, printed. */
module DerivedRequests {
  import opened Prelude
  import opened Binary
  import opened Digits
  import opened Floats
  import opened Conversions

  predicate IsRatio(r: real) {
    0.0 <= r <= 1.0
  }

  function DeriveMemory(f: Rounding, limit: string, r: real): string
    requires IsRatio(r)
  {
    var b := ParseMemory(f, limit);
    if b.None? then limit else PrintMemory(f, Scale(f, b.value as real, r))
  }

  function DeriveCpu(f: Rounding, limit: string, r: real): string
    requires IsRatio(r)
  {
    var m := ParseCpu(f, limit);
    if m.None? then limit else PrintCpu(Scale(f, m.value as real, r))
  }

  /** The exact product, from which the request is derived. */
  function Product(n: nat, r: real): real { n as real * r }

  lemma ProductInRange(n: nat, r: real)
    requires IsRatio(r)
    ensures 0.0 <= Product(n, r) <= n as real
  {
    ProductsGrow(0.0, n as real, r, r);
    assert n as real * r <= n as real * 1.0;
  }

  /** The derived amount is the exact product rounded down, or up when the float product is. */
  lemma ScaleOfRatio(f: Rounding, n: nat, r: real)
    requires IsRatio(r) && n < EXACT_FLOAT_LIMIT
    ensures var y := Product(n, r);
            && Scale(f, n as real, r) == (if RoundsUp(f, y) then y.Floor + 1 else y.Floor)
            && Scale(f, n as real, r) <= n
  {
    ProductInRange(n, r);
    RoundsWhole(f, n);
    WholeOfRounded(f, Product(n, r));
    assert f(Product(n, r)) <= f(n as real);
  }

  /** How far rounding down to Mi can fall below, and when it stays above. */
  lemma WholeMiBelow(y: real, n: nat)
    requires n == y.Floor || n == y.Floor + 1
    ensures WholeMi(n) as real <= y <==> !(n == y.Floor + 1 && BelowMi(n) == 0)
    ensures y - WholeMi(n) as real < MI as real
  {
    var k := y.Floor;
    assert k as real <= y < (k + 1) as real;
    MiDivides(n);
  }

  /** The float product is rounded up to a whole number of Mi. */
  ghost predicate RoundsUpToMi(f: Rounding, y: real)
    requires 0.0 <= y
  {
    RoundsUp(f, y) && BelowMi(y.Floor + 1) == 0
  }

  lemma ScaledToMi(f: Rounding, b: nat, r: real)
    requires IsRatio(r) && b < EXACT_FLOAT_LIMIT
    ensures 0.0 <= Product(b, r) && Scale(f, b as real, r) < EXACT_FLOAT_LIMIT
    ensures var y, n := Product(b, r), Scale(f, b as real, r);
            && y - WholeMi(n) as real < MI as real
            && (WholeMi(n) as real <= y <==> !RoundsUpToMi(f, y))
  {
    ProductInRange(b, r);
    ScaleOfRatio(f, b, r);
    WholeMiBelow(Product(b, r), Scale(f, b as real, r));
  }

  /** How a request that is read relates to the exact product. */
  ghost predicate MemoryFits(f: Rounding, b: nat, r: real, request: Option<nat>)
    requires IsRatio(r) && b < EXACT_FLOAT_LIMIT
  {
    ProductInRange(b, r);
    && request.Some?
    && Product(b, r) - request.value as real < MI as real
    && (request.value as real <= Product(b, r) <==> !RoundsUpToMi(f, Product(b, r)))
  }

  /** Main result: a derived memory request is a valid quantity, always less than one Mi below ratio
      times the limit, and at most that product exactly unless the float product is rounded up to a
      whole number of Mi. A limit that cannot be read comes back as it is. */
  lemma DerivedMemoryRequest(f: Rounding, limit: string, r: real)
    requires IsRatio(r)
    ensures ParseMemory(f, limit).None? ==> DeriveMemory(f, limit, r) == limit
    ensures ParseMemory(f, limit).Some? && ParseMemory(f, limit).value < EXACT_FLOAT_LIMIT ==>
              MemoryFits(f, ParseMemory(f, limit).value, r, ParseMemory(f, DeriveMemory(f, limit, r)))
  {
    if ParseMemory(f, limit).Some? && ParseMemory(f, limit).value < EXACT_FLOAT_LIMIT {
      var b := ParseMemory(f, limit).value;
      ScaledToMi(f, b, r);
      ParsePrintedMemory(f, Scale(f, b as real, r));
    }
  }

  // What a caller can check: a product that keeps its distance from the next whole number.

  /** The product stays below the next whole number by at least one part in d, and floats still count
      in such parts there. A ratio of one half does, with d = 2, up to 2^52. */
  predicate KeepsMargin(y: real, d: nat)
    requires d > 0 && 0.0 <= y
  {
    Times(y.Floor + 1, d) <= EXACT_FLOAT_LIMIT && y <= Ratio(Times(y.Floor + 1, d) - 1, d)
  }

  /** Main result: a product that keeps such a margin is never exceeded, by memory or CPU requests, under
      any rounding. */
  lemma MarginKeepsRequestsBelow(f: Rounding, n: nat, r: real, d: nat)
    requires IsRatio(r) && n < EXACT_FLOAT_LIMIT && (d == 2 || d == MI || d == GI)
    requires 0.0 <= Product(n, r) && KeepsMargin(Product(n, r), d)
    ensures !RoundsUp(f, Product(n, r))
    ensures forall limit: string :: ParseMemory(f, limit) == Some(n) ==>
              && ParseMemory(f, DeriveMemory(f, limit, r)).Some?
              && ParseMemory(f, DeriveMemory(f, limit, r)).value as real <= Product(n, r)
    ensures forall limit: string :: ParseCpu(f, limit) == Some(n) ==>
              && ParseCpu(f, DeriveCpu(f, limit, r)).Some?
              && ParseCpu(f, DeriveCpu(f, limit, r)).value as real <= Product(n, r)
  {
    MarginKeepsFromRoundingUp(f, Product(n, r), d);
    forall limit: string | ParseMemory(f, limit) == Some(n)
      ensures ParseMemory(f, DeriveMemory(f, limit, r)).Some?
      ensures ParseMemory(f, DeriveMemory(f, limit, r)).value as real <= Product(n, r)
    {
      DerivedMemoryRequest(f, limit, r);
    }
    forall limit: string | ParseCpu(f, limit) == Some(n)
      ensures ParseCpu(f, DeriveCpu(f, limit, r)).Some?
      ensures ParseCpu(f, DeriveCpu(f, limit, r)).value as real <= Product(n, r)
    {
      DerivedCpuRequest(f, limit, r);
    }
  }

  /** Half of a limit keeps the margin. */
  lemma HalfKeepsMargin(n: nat)
    requires n < EXACT_FLOAT_LIMIT
    ensures 0.0 <= Product(n, 0.5) && KeepsMargin(Product(n, 0.5), 2)
  {
    var k := n / 2;
    assert Product(n, 0.5) == k as real + (n % 2) as real * 0.5;
    assert Product(n, 0.5).Floor == k;
  }

  /** Main result: a derived CPU request is less than one millicore below ratio times the limit, and at
      most that product exactly unless the float product is rounded up to a whole millicore. */
  lemma DerivedCpuRequest(f: Rounding, limit: string, r: real)
    requires IsRatio(r)
    ensures ParseCpu(f, limit).None? ==> DeriveCpu(f, limit, r) == limit
    ensures ParseCpu(f, limit).Some? && ParseCpu(f, limit).value < EXACT_FLOAT_LIMIT ==>
              var y, request := Product(ParseCpu(f, limit).value, r), ParseCpu(f, DeriveCpu(f, limit, r));
              && request.Some?
              && y - request.value as real < 1.0
              && (request.value as real <= y <==> !RoundsUp(f, y))
  {
    if ParseCpu(f, limit).Some? && ParseCpu(f, limit).value < EXACT_FLOAT_LIMIT {
      var m := ParseCpu(f, limit).value;
      ScaleOfRatio(f, m, r);
      ParsePrintedCpu(f, Scale(f, m as real, r));
    }
  }

  lemma ScaleMonotone(f: Rounding, a: nat, b: nat, r: real, s: real)
    requires a <= b && IsRatio(r) && IsRatio(s) && r <= s
    ensures Scale(f, a as real, r) <= Scale(f, b as real, s)
  {
    RoundsWhole(f, 0);
    assert f(0.0) <= f(a as real) <= f(b as real);
    ProductsGrow(f(a as real), f(b as real), r, s);
    WholeMonotone(f, f(a as real) * r, f(b as real) * s);
  }

  /** Main result: a larger memory limit or ratio never derives a smaller request. */
  lemma DerivedMemoryIsMonotone(f: Rounding, x: string, y: string, r: real, s: real)
    requires IsRatio(r) && IsRatio(s) && r <= s
    requires ParseMemory(f, x).Some? && ParseMemory(f, y).Some?
    requires ParseMemory(f, x).value <= ParseMemory(f, y).value < EXACT_FLOAT_LIMIT
    ensures ParseMemory(f, DeriveMemory(f, x, r)).Some? && ParseMemory(f, DeriveMemory(f, y, s)).Some?
    ensures ParseMemory(f, DeriveMemory(f, x, r)).value <= ParseMemory(f, DeriveMemory(f, y, s)).value
  {
    var a, b := ParseMemory(f, x).value, ParseMemory(f, y).value;
    ScaleOfRatio(f, a, r);
    ScaleOfRatio(f, b, s);
    ScaleMonotone(f, a, b, r, s);
    ParsePrintedMemory(f, Scale(f, a as real, r));
    ParsePrintedMemory(f, Scale(f, b as real, s));
    WholeMiMonotone(Scale(f, a as real, r), Scale(f, b as real, s));
  }

  /** Main result: likewise for CPU. */
  lemma DerivedCpuIsMonotone(f: Rounding, x: string, y: string, r: real, s: real)
    requires IsRatio(r) && IsRatio(s) && r <= s
    requires ParseCpu(f, x).Some? && ParseCpu(f, y).Some?
    requires ParseCpu(f, x).value <= ParseCpu(f, y).value < EXACT_FLOAT_LIMIT
    ensures ParseCpu(f, DeriveCpu(f, x, r)).Some? && ParseCpu(f, DeriveCpu(f, y, s)).Some?
    ensures ParseCpu(f, DeriveCpu(f, x, r)).value <= ParseCpu(f, DeriveCpu(f, y, s)).value
  {
    var a, b := ParseCpu(f, x).value, ParseCpu(f, y).value;
    ScaleOfRatio(f, a, r);
    ScaleOfRatio(f, b, s);
    ScaleMonotone(f, a, b, r, s);
    ParsePrintedCpu(f, Scale(f, a as real, r));
    ParsePrintedCpu(f, Scale(f, b as real, s));
  }

  // Rounding up does happen: the double nearest to one third, times three.

  const THIRD: real := 6004799503160661.0 / 18014398509481984.0
  const BELOW_ONE: real := 18014398509481983.0 / 18014398509481984.0

  /** Like IEEE doubles under ties-to-even, as far as the numbers just below one go. */
  function NearOne(x: real): real {
    if BELOW_ONE <= x < 1.0 then 1.0 else x
  }

  lemma NoRatioInBetween(n: nat, d: nat)
    requires d == 1 || d == 2 || d == MI || d == GI
    ensures !(BELOW_ONE <= Ratio(n, d) < 1.0)
  {
    if n < d {
      assert n as real <= (d - 1) as real;
      assert Ratio(n, d) <= (d - 1) as real / d as real;
    } else {
      assert Ratio(n, d) >= d as real / d as real;
    }
  }

  lemma NearOneIsRounding()
    ensures IsRounding(NearOne)
  {
    forall n: nat, d: nat | d == 1 || d == 2 || d == MI || d == GI
      ensures NearOne(Ratio(n, d)) == Ratio(n, d) && NearOne(Times(n, d) as real) == Times(n, d) as real
    {
      NoRatioInBetween(n, d);
    }
  }

  /** With that ratio, a limit of 3m derives 1m, which is above the product. */
  lemma DerivedRequestCanExceedTheProduct()
    ensures IsRounding(NearOne) && IsRatio(THIRD)
    ensures ParseCpu(NearOne, "3m") == Some(3)
    ensures ParseCpu(NearOne, DeriveCpu(NearOne, "3m", THIRD)) == Some(1)
    ensures Product(3, THIRD) < 1.0
  {
    NearOneIsRounding();
    assert Decimal(3) + "m" == "3m";
    ParseMillicores(NearOne, 3);
    assert Product(3, THIRD) == BELOW_ONE;
    ScaleOfRatio(NearOne, 3, THIRD);
    assert BELOW_ONE.Floor == 0;
    ParsePrintedCpu(NearOne, 1);
  }
}
