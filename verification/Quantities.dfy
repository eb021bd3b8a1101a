/** The grammar of resource quantities, and how ResourceUnitConverter finds the number and the unit in a
    string. */
module Quantities {
  import opened Prelude
  import opened Binary
  import opened Digits

  /** A unit table: bytes or millicores per unit, 0 for what is no unit. */
  type Units = string -> nat

  function MemoryUnit(unit: string): nat {
    if unit == "" then 1
    else if unit == "Ki" then 1024
    else if unit == "Mi" then MI
    else if unit == "Gi" then GI
    else if unit == "Ti" then 1024 * GI
    else if unit == "K" then 1000
    else if unit == "M" then 1000_000
    else if unit == "G" then 1000_000_000
    else if unit == "T" then 1000_000_000_000
    else 0
  }

  function CpuUnit(unit: string): nat {
    if unit == "" then 1000 else if unit == "m" then 1 else 0
  }

  /** A quantity's parts: whole digits, fraction digits, unit. */
  datatype Quantity = Quantity(whole: string, fraction: string, unit: string)

  /** The grammar, as a reader of the regular expression would state it: digits, perhaps a point and
      digits, perhaps a unit. `$` also matches before a final newline. */
  predicate WellFormed(q: Quantity, units: Units) {
    q.whole != [] && AllDigits(q.whole) && AllDigits(q.fraction) && IsUnit(units, q.unit)
  }

  function Text(q: Quantity): string {
    q.whole + (if q.fraction == [] then [] else "." + q.fraction) + q.unit
  }

  predicate Matches(s: string, q: Quantity, units: Units) {
    WellFormed(q, units) && (s == Text(q) || s == Text(q) + "\n")
  }

  function WithoutFinalNewline(s: string): string {
    if s != [] && s[|s| - 1] == '\n' then s[..|s| - 1] else s
  }

  predicate IsUnit(units: Units, unit: string) {
    units(unit) > 0
  }

  /** The fraction, if any, and the unit after the whole digits. */
  function SplitTail(whole: string, rest: string, units: Units): Option<Quantity> {
    if rest != [] && rest[0] == '.' then
      var m := DigitRun(rest[1..]);
      if m == 0 || !IsUnit(units, rest[1 + m..]) then None
      else Some(Quantity(whole, rest[1..1 + m], rest[1 + m..]))
    else if !IsUnit(units, rest) then None
    else Some(Quantity(whole, [], rest))
  }

  /** The match of the regular expression, found left to right. */
  function Split(s: string, units: Units): Option<Quantity> {
    var t := WithoutFinalNewline(s);
    var n := DigitRun(t);
    if n == 0 then None else SplitTail(t[..n], t[n..], units)
  }

  /** A unit begins with neither a digit nor a point and does not end a line. */
  predicate Proper(unit: string) {
    unit != [] ==> !IsDigit(unit[0]) && unit[0] != '.' && unit[|unit| - 1] != '\n'
  }

  ghost predicate ProperUnits(units: Units) {
    forall u :: IsUnit(units, u) ==> Proper(u)
  }

  lemma UnitsAreProper()
    ensures ProperUnits(MemoryUnit) && ProperUnits(CpuUnit)
  {
  }

  /** The text of a well-formed quantity never ends in a newline. */
  lemma TextEndsProperly(q: Quantity, units: Units)
    requires WellFormed(q, units) && Proper(q.unit)
    ensures Text(q) != [] && Text(q)[|Text(q)| - 1] != '\n'
  {
    var t := Text(q);
    if q.unit != [] {
      assert t[|t| - 1] == q.unit[|q.unit| - 1];
    } else if q.fraction != [] {
      assert t[|t| - 1] == q.fraction[|q.fraction| - 1];
    } else {
      assert t[|t| - 1] == q.whole[|q.whole| - 1];
    }
  }

  /** What follows the whole digits. */
  function Tail(q: Quantity): string {
    (if q.fraction == [] then [] else "." + q.fraction) + q.unit
  }

  lemma TailBegins(q: Quantity)
    requires Proper(q.unit)
    ensures Text(q) == q.whole + Tail(q)
    ensures Tail(q) == [] || !IsDigit(Tail(q)[0])
    ensures q.fraction == [] ==> Tail(q) == q.unit
    ensures q.fraction != [] ==> Tail(q)[0] == '.' && Tail(q)[1..] == q.fraction + q.unit
  {
  }

  /** The tail reads back as the fraction and the unit. */
  lemma TailReads(q: Quantity)
    requires Proper(q.unit) && AllDigits(q.fraction) && q.fraction != []
    ensures DigitRun(Tail(q)[1..]) == |q.fraction|
    ensures Tail(q)[1..1 + |q.fraction|] == q.fraction && Tail(q)[1 + |q.fraction|..] == q.unit
  {
    TailBegins(q);
    DigitRunOfPrefix(q.fraction, q.unit);
  }

  lemma SplitTailOfText(q: Quantity, units: Units)
    requires WellFormed(q, units) && Proper(q.unit)
    ensures SplitTail(q.whole, Tail(q), units) == Some(q)
  {
    TailBegins(q);
    if q.fraction != [] { TailReads(q); }
  }

  lemma SplitOfText(q: Quantity, units: Units)
    requires WellFormed(q, units) && Proper(q.unit)
    ensures Split(Text(q), units) == Some(q)
  {
    TextEndsProperly(q, units);
    TailBegins(q);
    DigitRunOfPrefix(q.whole, Tail(q));
    SplitTailOfText(q, units);
    var t := Text(q);
    assert t[..|q.whole|] == q.whole && t[|q.whole|..] == Tail(q);
  }

  lemma SplitIgnoresFinalNewline(t: string, units: Units)
    requires t != [] && t[|t| - 1] != '\n'
    ensures Split(t + "\n", units) == Split(t, units)
  {
    assert (t + "\n")[..|t + "\n"| - 1] == t;
  }

  lemma SplitTailMatches(whole: string, rest: string, units: Units)
    requires SplitTail(whole, rest, units).Some?
    ensures var q := SplitTail(whole, rest, units).value;
            && q.whole == whole && AllDigits(q.fraction) && IsUnit(units, q.unit)
            && Text(q) == whole + rest
  {
    var q := SplitTail(whole, rest, units).value;
    if rest != [] && rest[0] == '.' {
      var m := DigitRun(rest[1..]);
      assert q.fraction == rest[1..][..m];
      assert rest == "." + q.fraction + q.unit;
      assert whole + ("." + q.fraction + q.unit) == whole + ("." + q.fraction) + q.unit;
    }
  }

  lemma FinalNewline(s: string)
    ensures s == WithoutFinalNewline(s) || s == WithoutFinalNewline(s) + "\n"
  {
  }

  lemma SplitMatches(s: string, units: Units)
    requires Split(s, units).Some?
    ensures Matches(s, Split(s, units).value, units)
  {
    var t := WithoutFinalNewline(s);
    var n := DigitRun(t);
    SplitTailMatches(t[..n], t[n..], units);
    assert t[..n] + t[n..] == t;
    FinalNewline(s);
  }

  /** Main result: the scanner accepts exactly the strings of the grammar, and finds the one way of
      reading them. */
  lemma SplitIsTheGrammar(s: string, q: Quantity, units: Units)
    requires ProperUnits(units)
    ensures Split(s, units) == Some(q) <==> Matches(s, q, units)
  {
    if Split(s, units) == Some(q) { SplitMatches(s, units); }
    if Matches(s, q, units) {
      SplitOfText(q, units);
      TextEndsProperly(q, units);
      SplitIgnoresFinalNewline(Text(q), units);
    }
  }

  /** So both tables are read by the grammar: a string has at most one reading, and the scanner finds it
      whenever there is one. */
  lemma TablesFollowTheGrammar(s: string, q: Quantity)
    ensures Split(s, MemoryUnit) == Some(q) <==> Matches(s, q, MemoryUnit)
    ensures Split(s, CpuUnit) == Some(q) <==> Matches(s, q, CpuUnit)
  {
    UnitsAreProper();
    SplitIsTheGrammar(s, q, MemoryUnit);
    SplitIsTheGrammar(s, q, CpuUnit);
  }
}
