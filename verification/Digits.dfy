/** Strings of decimal digits. Strings are ASCII. */
module Digits {
  predicate IsDigit(c: char) {
    '0' <= c <= '9'
  }

  predicate AllDigits(s: string) {
    forall k :: 0 <= k < |s| ==> IsDigit(s[k])
  }

  /** The length of the longest prefix of digits. */
  function DigitRun(s: string): (n: nat)
    ensures n <= |s| && AllDigits(s[..n]) && (n < |s| ==> !IsDigit(s[n]))
  {
    if s == [] || !IsDigit(s[0]) then 0
    else
      var n := DigitRun(s[1..]);
      assert s[..n + 1] == [s[0]] + s[1..][..n];
      n + 1
  }

  /** The number a string of digits denotes. */
  function Value(s: string): nat
    requires AllDigits(s)
  {
    if s == [] then 0 else Value(s[..|s| - 1]) * 10 + (s[|s| - 1] as nat - '0' as nat)
  }

  const DIGITS := "0123456789"

  /** str(n) */
  function Decimal(n: nat): string {
    if n < 10 then [DIGITS[n]] else Decimal(n / 10) + [DIGITS[n % 10]]
  }

  /** Printing digits and reading them back. */
  lemma {:induction false} DecimalRoundTrip(n: nat)
    ensures Decimal(n) != [] && AllDigits(Decimal(n)) && Value(Decimal(n)) == n
  {
    if n < 10 {
      assert Decimal(n)[..0] == [];
    } else {
      DecimalRoundTrip(n / 10);
      var d := Decimal(n);
      assert d[..|d| - 1] == Decimal(n / 10);
    }
  }

  lemma {:induction false} DigitRunOfPrefix(ds: string, rest: string)
    requires AllDigits(ds) && (rest == [] || !IsDigit(rest[0]))
    ensures DigitRun(ds + rest) == |ds|
  {
    if ds == [] {
      assert ds + rest == rest;
    } else {
      assert (ds + rest)[1..] == ds[1..] + rest;
      DigitRunOfPrefix(ds[1..], rest);
    }
  }

  /** Ten to the n. */
  function Pow10(n: nat): (p: nat)
    ensures p > 0
  {
    if n == 0 then 1 else 10 * Pow10(n - 1)
  }

  lemma Powers(n: nat)
    ensures Pow10(0) == 1 && Pow10(n + 1) == 10 * Pow10(n)
  {
  }

  /** Digits after digits. */
  lemma {:induction false} ValueOfConcat(w: string, d: string)
    requires AllDigits(w) && AllDigits(d)
    ensures AllDigits(w + d) && Value(w + d) == Value(w) * Pow10(|d|) + Value(d)
    decreases |d|
  {
    if d == [] {
      assert w + d == w;
    } else {
      var n := |d| - 1;
      assert (w + d)[..|w + d| - 1] == w + d[..n];
      ValueOfConcat(w, d[..n]);
      OneMoreDigit(Value(w), Pow10(n), Value(d[..n]), d[n] as nat - '0' as nat);
    }
  }

  lemma OneMoreDigit(a: nat, p: nat, b: nat, c: int)
    ensures (a * p + b) * 10 + c == a * (10 * p) + (b * 10 + c)
  {
  }
}
