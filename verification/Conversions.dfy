/** Reading and printing resource quantities, with the float operations the source uses. `f` is the
    rounding of every such operation; what is proved holds for all of them. */
module Conversions {
  import opened Prelude
  import opened Binary
  import opened Digits
  import opened Floats
  import opened Quantities

  /** int(float(x) * r) */
  function Scale(f: Rounding, x: real, r: real): nat
    requires 0.0 <= x && 0.0 <= r
  {
    RoundsWhole(f, 0);
    assert f(0.0) <= f(x);
    ProductsGrow(0.0, f(x), r, r);
    Whole(f, f(x) * r)
  }

  lemma RatioNonNegative(n: nat, d: nat)
    requires d > 0
    ensures 0.0 <= Ratio(n, d)
  {
  }

  /** The number a quantity's digits denote. */
  function Number(q: Quantity): (x: real)
    requires AllDigits(q.whole) && AllDigits(q.fraction)
    ensures 0.0 <= x
  {
    RatioNonNegative(Value(q.whole + q.fraction), Pow10(|q.fraction|));
    Ratio(Value(q.whole + q.fraction), Pow10(|q.fraction|))
  }

  function Amount(f: Rounding, q: Quantity, units: Units): nat
    requires WellFormed(q, units)
  {
    Scale(f, Number(q), units(q.unit) as real)
  }

  /** None is the source's ValueError. */
  function Parse(f: Rounding, s: string, units: Units): Option<nat> {
    var q := Split(s, units);
    if q.None? then None else SplitMatches(s, units); Some(Amount(f, q.value, units))
  }

  function ParseMemory(f: Rounding, s: string): Option<nat> {
    Parse(f, s, MemoryUnit)
  }

  function ParseCpu(f: Rounding, s: string): Option<nat> {
    Parse(f, s, CpuUnit)
  }

  /** int(n / d) */
  function Divided(f: Rounding, n: nat, d: nat): nat
    requires d > 0
  {
    RatioNonNegative(n, d);
    Whole(f, Ratio(n, d))
  }

  function PrintMemory(f: Rounding, b: nat): string {
    var gi := Divided(f, b, GI);
    if b >= GI && f(Ratio(b, GI)) == gi as real then Decimal(gi) + "Gi"
    else Decimal(Divided(f, b, MI)) + "Mi"
  }

  /** A positive whole number of Gi. */
  predicate IsWholeGi(b: nat) {
    b >= GI && BelowGi(b) == 0
  }

  function PrintCpu(m: nat): string {
    if m >= 1000 && m % 1000 == 0 then Decimal(m / 1000) else Decimal(m) + "m"
  }

  // Printing whole numbers and reading them back.

  lemma TextOfWhole(n: nat, unit: string)
    ensures Text(Quantity(Decimal(n), [], unit)) == Decimal(n) + unit
  {
  }

  lemma SplitOfWhole(n: nat, unit: string, units: Units)
    requires IsUnit(units, unit) && Proper(unit)
    ensures AllDigits(Decimal(n)) && Value(Decimal(n)) == n
    ensures Split(Decimal(n) + unit, units) == Some(Quantity(Decimal(n), [], unit))
  {
    var q := Quantity(Decimal(n), [], unit);
    DecimalRoundTrip(n);
    TextOfWhole(n, unit);
    SplitOfText(q, units);
  }

  lemma NumberOfWhole(q: Quantity, n: nat)
    requires AllDigits(q.whole) && q.fraction == [] && Value(q.whole) == n
    ensures Number(q) == n as real
  {
    assert q.whole + q.fraction == q.whole;
  }

  lemma ScaleWhole(f: Rounding, n: nat, m: nat)
    requires n <= EXACT_FLOAT_LIMIT && f(Times(n, m) as real) == Times(n, m) as real
    ensures Scale(f, n as real, m as real) == Times(n, m)
  {
    RoundsWhole(f, n);
    assert n as real * m as real == Times(n, m) as real;
  }

  /** A printed whole number with a unit reads as that many units. */
  lemma ParseWhole(f: Rounding, n: nat, unit: string, units: Units)
    requires IsUnit(units, unit) && Proper(unit) && n <= EXACT_FLOAT_LIMIT
    requires f(Times(n, units(unit)) as real) == Times(n, units(unit)) as real
    ensures Parse(f, Decimal(n) + unit, units) == Some(Times(n, units(unit)))
  {
    SplitOfWhole(n, unit, units);
    NumberOfWhole(Quantity(Decimal(n), [], unit), n);
    ScaleWhole(f, n, units(unit));
  }

  lemma KnownUnits()
    ensures MemoryUnit("Mi") == MI && MemoryUnit("Gi") == GI && CpuUnit("") == 1000 && CpuUnit("m") == 1
    ensures Proper("Mi") && Proper("Gi") && Proper("") && Proper("m")
  {
  }

  predicate MemoryUnitIsWorth(unit: string, u: nat) {
    || (unit == "" && u == 1)
    || (unit == "Ki" && u == 1024) || (unit == "Mi" && u == 1_048_576) || (unit == "Gi" && u == 1_073_741_824)
    || (unit == "Ti" && u == 1_099_511_627_776)
    || (unit == "K" && u == 1_000) || (unit == "M" && u == 1_000_000) || (unit == "G" && u == 1_000_000_000)
    || (unit == "T" && u == 1_000_000_000_000)
  }

  predicate CpuUnitIsWorth(unit: string, u: nat) {
    (unit == "" && u == 1_000) || (unit == "m" && u == 1)
  }

  lemma MemoryTable(unit: string, u: nat)
    requires MemoryUnitIsWorth(unit, u)
    ensures MemoryUnit(unit) == u && IsUnit(MemoryUnit, unit) && Proper(unit)
  {
  }

  lemma CpuTable(unit: string, u: nat)
    requires CpuUnitIsWorth(unit, u)
    ensures CpuUnit(unit) == u && IsUnit(CpuUnit, unit) && Proper(unit)
  {
  }

  /** Main result: what every unit of the tables is worth, read off whole quantities. */
  lemma WholeMemoryIsRead(f: Rounding, n: nat, unit: string, u: nat)
    requires n <= EXACT_FLOAT_LIMIT && Times(n, u) <= EXACT_FLOAT_LIMIT && MemoryUnitIsWorth(unit, u)
    ensures ParseMemory(f, Decimal(n) + unit) == Some(Times(n, u))
  {
    RoundsWhole(f, Times(n, u));
    MemoryTable(unit, u);
    ParseWhole(f, n, unit, MemoryUnit);
  }

  lemma WholeCpuIsRead(f: Rounding, n: nat, unit: string, u: nat)
    requires n <= EXACT_FLOAT_LIMIT && Times(n, u) <= EXACT_FLOAT_LIMIT && CpuUnitIsWorth(unit, u)
    ensures ParseCpu(f, Decimal(n) + unit) == Some(Times(n, u))
  {
    RoundsWhole(f, Times(n, u));
    CpuTable(unit, u);
    ParseWhole(f, n, unit, CpuUnit);
  }

  lemma ParseMi(f: Rounding, n: nat)
    requires n <= EXACT_FLOAT_LIMIT
    ensures ParseMemory(f, Decimal(n) + "Mi") == Some(Mi(n))
  {
    KnownUnits();
    MiAndGi(n);
    ParseWhole(f, n, "Mi", MemoryUnit);
  }

  lemma ParseGi(f: Rounding, n: nat)
    requires n <= EXACT_FLOAT_LIMIT
    ensures ParseMemory(f, Decimal(n) + "Gi") == Some(Gi(n))
  {
    KnownUnits();
    MiAndGi(n);
    ParseWhole(f, n, "Gi", MemoryUnit);
  }

  /** Below the float limit the divisions are exact. */
  lemma PrintsAs(f: Rounding, b: nat)
    requires b < EXACT_FLOAT_LIMIT
    ensures PrintMemory(f, b)
            == if IsWholeGi(b) then Decimal(InGi(b)) + "Gi" else Decimal(InMi(b)) + "Mi"
  {
    DividesExactly(f, b, GI);
    DividesExactly(f, b, MI);
    MiAndGi(b);
  }

  lemma DividesExactly(f: Rounding, b: nat, d: nat)
    requires b < EXACT_FLOAT_LIMIT && (d == MI || d == GI)
    ensures Divided(f, b, d) == b / d && (f(Ratio(b, d)) == (b / d) as real <==> b % d == 0)
  {
    FloorOfRatio(b, d);
    assert f(Ratio(b, d)) == Ratio(b, d);
  }

  lemma ParsePrintedGi(f: Rounding, b: nat, n: nat)
    requires b < EXACT_FLOAT_LIMIT && IsWholeGi(b)
    requires n == InGi(b) && n <= EXACT_FLOAT_LIMIT
    ensures ParseMemory(f, PrintMemory(f, b)) == Some(Gi(n))
  {
    PrintsAs(f, b);
    ParseGi(f, n);
  }

  lemma ParsePrintedMi(f: Rounding, b: nat, n: nat)
    requires b < EXACT_FLOAT_LIMIT && !IsWholeGi(b)
    requires n == InMi(b) && n <= EXACT_FLOAT_LIMIT
    ensures ParseMemory(f, PrintMemory(f, b)) == Some(Mi(n))
  {
    PrintsAs(f, b);
    ParseMi(f, n);
  }

  /** The number printed, and what it stands for. */
  lemma PrintedNumber(b: nat) returns (n: nat)
    requires b < EXACT_FLOAT_LIMIT
    ensures n <= EXACT_FLOAT_LIMIT
    ensures if IsWholeGi(b)
            then n == InGi(b) && Gi(n) == WholeMi(b)
            else n == InMi(b) && Mi(n) == WholeMi(b)
  {
    GiDivides(b);
    MiDivides(b);
    if IsWholeGi(b) {
      WholeGiIsWholeMi(b);
      n := InGi(b);
    } else {
      n := InMi(b);
    }
  }

  /** What is printed reads as the whole Mi of the amount. */
  lemma ParsePrintedMemory(f: Rounding, b: nat)
    requires b < EXACT_FLOAT_LIMIT
    ensures ParseMemory(f, PrintMemory(f, b)) == Some(WholeMi(b))
  {
    var n := PrintedNumber(b);
    if IsWholeGi(b) { ParsePrintedGi(f, b, n); } else { ParsePrintedMi(f, b, n); }
  }

  lemma WholeMiOnly(b: nat, read: Option<nat>)
    requires read == Some(WholeMi(b))
    ensures read == Some(b) <==> BelowMi(b) == 0
  {
    MiDivides(b);
  }

  /** Main result: below the float limit, printing loses exactly the part below one Mi, and the trip is
      exact just for whole Mi. */
  lemma MemoryRoundTrip(f: Rounding, b: nat)
    requires b < EXACT_FLOAT_LIMIT
    ensures ParseMemory(f, PrintMemory(f, b)) == Some(WholeMi(b))
    ensures ParseMemory(f, PrintMemory(f, b)) == Some(b) <==> BelowMi(b) == 0
  {
    ParsePrintedMemory(f, b);
    WholeMiOnly(b, ParseMemory(f, PrintMemory(f, b)));
  }

  lemma DifferentUnits(m: nat, n: nat)
    ensures Decimal(m) + "Mi" != Decimal(n) + "Gi"
  {
    var x, y := Decimal(m) + "Mi", Decimal(n) + "Gi";
    assert x[|x| - 2] == 'M' && y[|y| - 2] == 'G';
  }

  lemma SamePrint(f: Rounding, b: nat, c: nat)
    requires b < EXACT_FLOAT_LIMIT && c < EXACT_FLOAT_LIMIT
    requires InMi(b) == InMi(c) && !IsWholeGi(b) && !IsWholeGi(c)
    ensures PrintMemory(f, b) == PrintMemory(f, c)
  {
    PrintsAs(f, b);
    PrintsAs(f, c);
  }

  lemma OtherPrint(f: Rounding, b: nat, c: nat)
    requires b < EXACT_FLOAT_LIMIT && c < EXACT_FLOAT_LIMIT
    requires !IsWholeGi(b) && IsWholeGi(c)
    ensures PrintMemory(f, b) != PrintMemory(f, c)
  {
    PrintsAs(f, b);
    PrintsAs(f, c);
    DifferentUnits(InMi(b), InGi(c));
  }

  lemma ReprintedIff(f: Rounding, b: nat)
    requires b < EXACT_FLOAT_LIMIT
    ensures PrintMemory(f, WholeMi(b)) == PrintMemory(f, b) <==>
              b < GI || BelowGi(b) == 0 || BelowGi(b) >= MI
  {
    SameMi(b);
    SameGi(b);
    SmallerThanMi(BelowGi(b));
    MiDivides(b);
    if IsWholeGi(b) {
      WholeGiIsWholeMi(b);
    } else if b >= GI && BelowGi(b) < MI {
      OtherPrint(f, b, WholeMi(b));
    } else {
      SamePrint(f, b, WholeMi(b));
    }
  }

  /** Main result: printing what was read gives the same text again unless the amount lies less than
      one Mi above a whole number of Gi. */
  lemma PrintingIsStableIff(f: Rounding, b: nat)
    requires b < EXACT_FLOAT_LIMIT
    ensures ParseMemory(f, PrintMemory(f, b)).Some?
    ensures PrintMemory(f, ParseMemory(f, PrintMemory(f, b)).value) == PrintMemory(f, b)
            <==> b < GI || BelowGi(b) == 0 || BelowGi(b) >= MI
  {
    ParsePrintedMemory(f, b);
    ReprintedIff(f, b);
  }

  /** So there are amounts, one byte above 1Gi for one, whose printing changes. */
  lemma PrintingCanChange(f: Rounding) returns (b: nat)
    ensures b < EXACT_FLOAT_LIMIT && ParseMemory(f, PrintMemory(f, b)) == Some(WholeMi(b))
    ensures PrintMemory(f, WholeMi(b)) != PrintMemory(f, b)
  {
    b := GI + 1;
    RestOfGi(1, 1);
    ParsePrintedMemory(f, b);
    ReprintedIff(f, b);
  }

  lemma ParseCores(f: Rounding, n: nat, m: nat)
    requires m == n * 1000 && m <= EXACT_FLOAT_LIMIT
    ensures ParseCpu(f, Decimal(n)) == Some(m)
  {
    KnownUnits();
    RoundsWhole(f, m);
    ParseWhole(f, n, "", CpuUnit);
    assert Decimal(n) + "" == Decimal(n);
  }

  lemma ParseMillicores(f: Rounding, n: nat)
    requires n <= EXACT_FLOAT_LIMIT
    ensures ParseCpu(f, Decimal(n) + "m") == Some(n)
  {
    KnownUnits();
    RoundsWhole(f, n);
    ParseWhole(f, n, "m", CpuUnit);
  }

  lemma ParsePrintedCpu(f: Rounding, m: nat)
    requires m < EXACT_FLOAT_LIMIT
    ensures ParseCpu(f, PrintCpu(m)) == Some(m)
  {
    if m >= 1000 && m % 1000 == 0 { ParseCores(f, m / 1000, m); } else { ParseMillicores(f, m); }
  }

  /** Main result: below the float limit, CPU quantities survive the trip whatever their unit. */
  lemma CpuRoundTrip(f: Rounding, m: nat)
    requires m < EXACT_FLOAT_LIMIT
    ensures ParseCpu(f, PrintCpu(m)) == Some(m)
    ensures PrintCpu(ParseCpu(f, PrintCpu(m)).value) == PrintCpu(m)
  {
    ParsePrintedCpu(f, m);
  }
}
