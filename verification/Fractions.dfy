/** What a quantity with digits after the point reads as. */
module Fractions {
  import opened Prelude
  import opened Binary
  import opened Digits
  import opened Floats
  import opened Quantities
  import opened Conversions

  /** Digits, a point, digits and a unit. */
  function Written(w: string, d: string, unit: string): string {
    w + "." + d + unit
  }

  /** What the digits stand for, in parts of one over ten to the number of digits after the point. */
  function Parts(w: string, d: string): nat
    requires AllDigits(w) && AllDigits(d)
  {
    Value(w + d)
  }

  lemma PartsAre(w: string, d: string)
    requires AllDigits(w) && AllDigits(d)
    ensures Parts(w, d) == Value(w) * Pow10(|d|) + Value(d)
  {
    ValueOfConcat(w, d);
  }

  /** The exact number of units, and of bytes or millicores. */
  function ExactNumber(w: string, d: string): (x: real)
    requires AllDigits(w) && AllDigits(d)
    ensures 0.0 <= x
  {
    RatioNonNegative(Parts(w, d), Pow10(|d|));
    Ratio(Parts(w, d), Pow10(|d|))
  }

  function ExactAmount(w: string, d: string, u: nat): real
    requires AllDigits(w) && AllDigits(d)
  {
    ExactNumber(w, d) * u as real
  }

  /** The grammar finds the digits and the unit. */
  lemma SplitOfWritten(w: string, d: string, unit: string, units: Units)
    requires w != [] && d != [] && AllDigits(w) && AllDigits(d) && IsUnit(units, unit) && Proper(unit)
    ensures Split(Written(w, d, unit), units) == Some(Quantity(w, d, unit))
  {
    var q := Quantity(w, d, unit);
    assert Text(q) == Written(w, d, unit);
    SplitOfText(q, units);
  }

  /** And the number is the digits over their power of ten. */
  lemma NumberOfWritten(w: string, d: string, unit: string)
    requires AllDigits(w) && AllDigits(d)
    ensures Number(Quantity(w, d, unit)) == ExactNumber(w, d)
  {
  }

  lemma ParseWritten(f: Rounding, w: string, d: string, unit: string, units: Units)
    requires w != [] && d != [] && AllDigits(w) && AllDigits(d) && IsUnit(units, unit) && Proper(unit)
    ensures Parse(f, Written(w, d, unit), units) == Some(Scale(f, ExactNumber(w, d), units(unit) as real))
  {
    SplitOfWritten(w, d, unit, units);
    NumberOfWritten(w, d, unit);
  }

  lemma NonNegativeProduct(a: real, u: real)
    requires 0.0 <= a && 0.0 <= u
    ensures 0.0 <= a * u
  {
  }

  lemma RoundedNonNegative(f: Rounding, x: real)
    requires 0.0 <= x
    ensures 0.0 <= f(x)
  {
    RoundsWhole(f, 0);
    assert f(0.0) <= f(x);
  }

  /** int(float(x) * r), step by step. */
  lemma ScaleIs(f: Rounding, x: real, r: real, a: real, z: real, b: real)
    requires 0.0 <= x && 0.0 <= r && a == f(x) && z == a * r && b == f(z)
    ensures 0.0 <= z && 0.0 <= b && Scale(f, x, r) == b.Floor
  {
    RoundedNonNegative(f, x);
    NonNegativeProduct(a, r);
    RoundedNonNegative(f, z);
  }

  // Without rounding.

  function Same(x: real): real { x }

  lemma SameIsRounding()
    ensures IsRounding(Same) && Accurate(Same)
  {
  }

  lemma SameKeeps(f: Rounding, x: real)
    requires f == Same
    ensures f(x) == x
  {
  }

  lemma ScaleOfSame(f: Rounding, x: real, r: real, y: real)
    requires f == Same && 0.0 <= x && 0.0 <= r && y == x * r
    ensures Scale(f, x, r) == y.Floor
  {
    SameKeeps(f, x);
    SameKeeps(f, y);
    ScaleIs(f, x, r, x, y, y);
  }

  /** The whole part of n / p times u, without division. */
  lemma FloorOfQuotient(n: nat, p: nat, u: nat, k: nat)
    requires p > 0 && k == (Ratio(n, p) * u as real).Floor
    ensures k * p <= n * u < (k + 1) * p
  {
    var y := Ratio(n, p) * u as real;
    Cancels(n as real, p as real, u as real);
    Wholes(n, u);
    FloorTimes(y, p, k, n * u);
  }

  lemma FloorTimes(y: real, p: nat, k: nat, m: nat)
    requires p > 0 && k == y.Floor && y * p as real == m as real
    ensures k * p <= m < (k + 1) * p
  {
    BelowTimes(k as real, y, p as real);
    Wholes(k, p);
    NextTimes(y, p, k + 1, m);
  }

  lemma NextTimes(y: real, p: nat, next: nat, m: nat)
    requires p > 0 && y < next as real && y * p as real == m as real
    ensures m < next * p
  {
    BelowTimesStrictly(y, next as real, p as real);
    Wholes(next, p);
  }

  lemma Wholes(a: nat, b: nat)
    ensures (a * b) as real == a as real * b as real
  {
  }

  lemma Cancels(n: real, p: real, u: real)
    requires p > 0.0
    ensures n / p * u * p == n * u
  {
    assert n / p * p == n;
    assert n / p * u * p == n / p * p * u;
  }

  lemma BelowTimes(a: real, b: real, p: real)
    requires a <= b && p > 0.0
    ensures a * p <= b * p
  {
  }

  lemma BelowTimesStrictly(a: real, b: real, p: real)
    requires a < b && p > 0.0
    ensures a * p < b * p
  {
  }

  /** k is the largest whole number within n / p times u. */
  predicate LargestWithin(k: nat, n: nat, p: nat, u: nat) {
    k * p <= n * u < (k + 1) * p
  }

  lemma ReadSame(f: Rounding, n: nat, p: nat, u: nat, x: real)
    requires f == Same && p > 0 && x == Ratio(n, p) && 0.0 <= x
    ensures LargestWithin(Scale(f, x, u as real), n, p, u)
  {
    ScaleOfSame(f, x, u as real, x * u as real);
    FloorOfQuotient(n, p, u, Scale(f, x, u as real));
  }

  /** n over ten to the number of digits after the point is the number. */
  predicate Stands(w: string, d: string, n: nat)
    requires AllDigits(w) && AllDigits(d)
  {
    n == Value(w) * Pow10(|d|) + Value(d)
  }

  lemma StandsForParts(w: string, d: string, n: nat)
    requires AllDigits(w) && AllDigits(d) && Stands(w, d, n)
    ensures n == Parts(w, d)
  {
    PartsAre(w, d);
  }

  lemma WrittenSame(f: Rounding, w: string, d: string, u: nat, n: nat)
    requires f == Same && AllDigits(w) && AllDigits(d) && Stands(w, d, n)
    ensures LargestWithin(Scale(f, ExactNumber(w, d), u as real), n, Pow10(|d|), u)
  {
    StandsForParts(w, d, n);
    ReadSame(f, n, Pow10(|d|), u, ExactNumber(w, d));
  }

  /** Main result: without rounding, digits after the point are worth what they should be: the string
      reads as the largest whole number of bytes or millicores in the exact amount. */
  lemma FractionIsRead(f: Rounding, w: string, d: string, unit: string, units: Units, n: nat) returns (k: nat)
    requires f == Same
    requires w != [] && d != [] && AllDigits(w) && AllDigits(d) && IsUnit(units, unit) && Proper(unit)
    requires Stands(w, d, n)
    ensures Parse(f, Written(w, d, unit), units) == Some(k)
    ensures LargestWithin(k, n, Pow10(|d|), units(unit))
  {
    ParseWritten(f, w, d, unit, units);
    WrittenSame(f, w, d, units(unit), n);
    k := Scale(f, ExactNumber(w, d), units(unit) as real);
  }

  /** And so under both tables. */
  lemma MemoryFractionIsRead(f: Rounding, w: string, d: string, unit: string, n: nat) returns (k: nat)
    requires f == Same && w != [] && d != [] && AllDigits(w) && AllDigits(d) && IsUnit(MemoryUnit, unit)
    requires Stands(w, d, n)
    ensures ParseMemory(f, Written(w, d, unit)) == Some(k)
    ensures LargestWithin(k, n, Pow10(|d|), MemoryUnit(unit))
  {
    UnitsAreProper();
    k := FractionIsRead(f, w, d, unit, MemoryUnit, n);
  }

  lemma CpuFractionIsRead(f: Rounding, w: string, d: string, unit: string, n: nat) returns (k: nat)
    requires f == Same && w != [] && d != [] && AllDigits(w) && AllDigits(d) && IsUnit(CpuUnit, unit)
    requires Stands(w, d, n)
    ensures ParseCpu(f, Written(w, d, unit)) == Some(k)
    ensures LargestWithin(k, n, Pow10(|d|), CpuUnit(unit))
  {
    UnitsAreProper();
    k := FractionIsRead(f, w, d, unit, CpuUnit, n);
  }

  // In floats: the digits are rounded, and then the product.

  /** One number differs from another by at most four parts in 2^52. */
  predicate Nearly(a: real, x: real) {
    -x * 4.0 <= (a - x) * 4503599627370496.0 <= x * 4.0
  }

  lemma NearTwice(y: real, z: real, b: real)
    requires 0.0 <= y && Near(z, y) && Near(b, z)
    ensures Nearly(b, y)
  {
  }

  lemma NearTimes(a: real, x: real, u: real)
    requires Near(a, x) && 0.0 <= u && 0.0 <= x
    ensures Near(a * u, x * u)
  {
    var e := (a - x) * 4503599627370496.0;
    ProductsOrdered(-x, e, u);
    ProductsOrdered(e, x, u);
    assert e * u == (a * u - x * u) * 4503599627370496.0;
    assert (-x) * u == -(x * u);
  }

  lemma ProductsOrdered(a: real, b: real, u: real)
    requires a <= b && 0.0 <= u
    ensures a * u <= b * u
  {
  }

  lemma SmallIsExact(f: Rounding, x: real)
    requires SMALL <= x
    ensures SMALL <= f(x)
  {
    assert Ratio(1, GI) == SMALL;
    assert f(Ratio(1, GI)) == Ratio(1, GI);
  }

  lemma AtLeastTimes(a: real, u: real)
    requires SMALL <= a && 1.0 <= u
    ensures SMALL <= a * u
  {
    ProductsOrdered(1.0, u, a);
  }

  /** The two roundings together. */
  lemma TwoRoundings(f: Rounding, x: real, u: real, y: real, z: real)
    requires Accurate(f) && SMALL <= x && 1.0 <= u && y == x * u && z == f(x) * u
    ensures Nearly(f(z), y) && 0.0 <= y
  {
    SmallIsExact(f, x);
    NearTimes(f(x), x, u);
    AtLeastTimes(f(x), u);
    AtLeastTimes(x, u);
    NearTwice(y, z, f(z));
  }

  /** The amount keeps a distance of four parts in 2^52 from the whole numbers on either side. */
  predicate KeepsClear(y: real) {
    && y * 4.0 <= (y - y.Floor as real) * 4503599627370496.0
    && y * 4.0 < ((y.Floor + 1) as real - y) * 4503599627370496.0
  }

  /** What a number that is nearly y truncates to. */
  lemma TruncatedNearly(y: real, b: real)
    requires 0.0 <= y && y * 4.0 < 4503599627370496.0 && 0.0 <= b && Nearly(b, y)
    ensures y.Floor - 1 <= b.Floor <= y.Floor + 1 && (KeepsClear(y) ==> b.Floor == y.Floor)
  {
  }

  /** A reading of the exact amount y: its whole part, or one less, or one more, and just that part if it
      keeps clear. */
  predicate ReadsNearly(k: nat, y: real) {
    y.Floor - 1 <= k <= y.Floor + 1 && (KeepsClear(y) ==> k == y.Floor)
  }

  lemma ScalesNearly(f: Rounding, x: real, u: real, y: real)
    requires Accurate(f) && SMALL <= x && 1.0 <= u && y == x * u && y * 4.0 < 4503599627370496.0
    ensures 0.0 <= x && ReadsNearly(Scale(f, x, u), y)
  {
    var a := f(x);
    var z := a * u;
    TwoRoundings(f, x, u, y, z);
    ScaleIs(f, x, u, a, z, f(z));
    TruncatedNearly(y, f(z));
  }

  lemma WrittenNearly(f: Rounding, w: string, d: string, u: nat)
    requires Accurate(f) && AllDigits(w) && AllDigits(d) && u >= 1
    requires SMALL <= ExactNumber(w, d) && ExactAmount(w, d, u) * 4.0 < 4503599627370496.0
    ensures ReadsNearly(Scale(f, ExactNumber(w, d), u as real), ExactAmount(w, d, u))
  {
    ScalesNearly(f, ExactNumber(w, d), u as real, ExactAmount(w, d, u));
  }

  /** Main result: in floats, under every accurate rounding, a quantity that is not tiny reads as the whole
      part of its exact amount, or one less, or one more; and exactly as that whole part when the amount
      keeps clear of the whole numbers on either side. */
  lemma FractionIsReadNearly(f: Rounding, w: string, d: string, unit: string, units: Units) returns (k: nat)
    requires Accurate(f)
    requires w != [] && d != [] && AllDigits(w) && AllDigits(d) && IsUnit(units, unit) && Proper(unit)
    requires SMALL <= ExactNumber(w, d) && ExactAmount(w, d, units(unit)) * 4.0 < 4503599627370496.0
    ensures Parse(f, Written(w, d, unit), units) == Some(k) && ReadsNearly(k, ExactAmount(w, d, units(unit)))
  {
    ParseWritten(f, w, d, unit, units);
    WrittenNearly(f, w, d, units(unit));
    k := Scale(f, ExactNumber(w, d), units(unit) as real);
  }

  lemma ScalesExactly(f: Rounding, x: real, u: real, m: nat, p: nat, k: nat)
    requires (p == 2 || p == MI || p == GI) && m <= EXACT_FLOAT_LIMIT && k <= EXACT_FLOAT_LIMIT
    requires x == Ratio(m, p) && 0.0 <= x && 0.0 <= u && x * u == k as real
    ensures Scale(f, x, u) == k
  {
    assert f(Ratio(m, p)) == Ratio(m, p);
    RoundsWhole(f, k);
    ScaleIs(f, x, u, x, k as real, k as real);
  }

  lemma WrittenExactly(f: Rounding, w: string, d: string, u: nat, m: nat, p: nat, k: nat)
    requires AllDigits(w) && AllDigits(d)
    requires (p == 2 || p == MI || p == GI) && m <= EXACT_FLOAT_LIMIT && k <= EXACT_FLOAT_LIMIT
    requires ExactNumber(w, d) == Ratio(m, p) && ExactAmount(w, d, u) == k as real
    ensures Scale(f, ExactNumber(w, d), u as real) == k
  {
    ScalesExactly(f, ExactNumber(w, d), u as real, m, p, k);
  }

  /** Main result: digits that stand for a float, such as .5 and .25, and an amount that is whole, are read
      exactly under every rounding. */
  lemma ExactFractionIsRead(f: Rounding, w: string, d: string, unit: string, units: Units, m: nat, p: nat, k: nat)
    requires w != [] && d != [] && AllDigits(w) && AllDigits(d) && IsUnit(units, unit) && Proper(unit)
    requires (p == 2 || p == MI || p == GI) && m <= EXACT_FLOAT_LIMIT && k <= EXACT_FLOAT_LIMIT
    requires ExactNumber(w, d) == Ratio(m, p) && ExactAmount(w, d, units(unit)) == k as real
    ensures Parse(f, Written(w, d, unit), units) == Some(k)
  {
    ParseWritten(f, w, d, unit, units);
    WrittenExactly(f, w, d, units(unit), m, p, k);
  }

  lemma HalfParts()
    ensures AllDigits("0") && AllDigits("1") && AllDigits("5")
    ensures Parts("0", "5") == 5 && Parts("1", "5") == 15 && Pow10(1) == 10
  {
    assert "5"[..0] == [] && "0"[..0] == [] && "1"[..0] == [];
    Powers(0);
    PartsAre("0", "5");
    PartsAre("1", "5");
  }

  /** So 0.5 is 500 millicores, and 1.5Gi is one and a half Gi, whatever the rounding. */
  lemma HalvesAreRead(f: Rounding)
    ensures ParseCpu(f, "0.5") == Some(500)
    ensures ParseMemory(f, "1.5Gi") == Some(Gi(1) + Mi(512))
  {
    HalfParts();
    KnownUnits();
    assert Written("0", "5", "") == "0.5" && Written("1", "5", "Gi") == "1.5Gi";
    assert Ratio(5, 10) == Ratio(1, 2) && Ratio(15, 10) == Ratio(3, 2);
    ExactFractionIsRead(f, "0", "5", "", CpuUnit, 1, 2, 500);
    ExactFractionIsRead(f, "1", "5", "Gi", MemoryUnit, 3, 2, Gi(1) + Mi(512));
  }

  // One less does happen: the double nearest to 1.001 lies below it.

  const BELOW: real := 4508103226997866.0 / 4503599627370496.0
  const ABOVE: real := 4508103226997867.0 / 4503599627370496.0

  /** Like IEEE doubles between two neighbours, of which 1.001 is nearer to the lower. */
  function NearBelow(x: real): real {
    if BELOW < x < ABOVE then BELOW else x
  }

  lemma NoExactInBetween(n: nat, d: nat)
    requires d == 1 || d == 2 || d == 0x10_0000 || d == 0x4000_0000
    ensures !(BELOW < Ratio(n, d) < ABOVE)
  {
    if d == 1 {
      assert Ratio(n, 1) == (n * 4503599627370496) as real / 4503599627370496.0;
    } else if d == 2 {
      assert Ratio(n, 2) == (n * 2251799813685248) as real / 4503599627370496.0;
    } else if d == 0x10_0000 {
      assert Ratio(n, 0x10_0000) == (n * 4294967296) as real / 4503599627370496.0;
    } else {
      assert Ratio(n, 0x4000_0000) == (n * 4194304) as real / 4503599627370496.0;
    }
  }

  lemma NearBelowIsRounding()
    ensures IsRounding(NearBelow) && Accurate(NearBelow)
  {
    forall n: nat, d: nat | d == 1 || d == 2 || d == 0x10_0000 || d == 0x4000_0000
      ensures NearBelow(Ratio(n, d)) == Ratio(n, d) && NearBelow(Times(n, d) as real) == Times(n, d) as real
    {
      NoExactInBetween(n, d);
    }
  }

  lemma ThousandthParts()
    ensures AllDigits("1") && AllDigits("001") && Parts("1", "001") == 1001 && Pow10(3) == 1000
  {
    assert "001"[..2] == "00" && "00"[..1] == "0" && "0"[..0] == [] && "1"[..0] == [];
    assert Value("0") == 0 && Value("00") == 0 && Value("001") == 1 && Value("1") == 1;
    Powers(0);
    Powers(1);
    Powers(2);
    PartsAre("1", "001");
  }

  /** So 1.001 CPUs, 1001 millicores, read as 1000. */
  lemma ReadingCanFallShort()
    ensures IsRounding(NearBelow) && Accurate(NearBelow)
    ensures ParseCpu(NearBelow, "1.001") == Some(1000)
  {
    NearBelowIsRounding();
    ThousandthParts();
    KnownUnits();
    assert Written("1", "001", "") == "1.001";
    ParseWritten(NearBelow, "1", "001", "", CpuUnit);
    ThousandthScales(NearBelow);
  }

  lemma ThousandthScales(f: Rounding)
    requires f == NearBelow
    ensures Scale(f, Ratio(1001, 1000), 1000.0) == 1000
  {
    var x := Ratio(1001, 1000);
    assert BELOW < x < ABOVE;
    assert f(x) == BELOW;
    var z := BELOW * 1000.0;
    assert 1000.0 < z < 1001.0;
    assert f(z) == z;
    ScaleIs(f, x, 1000.0, BELOW, z, z);
  }
}
