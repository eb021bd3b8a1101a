/** Arithmetic with 1Mi and 1Gi. Products and quotients are functions here, whose bodies write the two
    numbers out, so that they stay linear. */
module Binary {
  const MI: nat := 0x10_0000
  const GI: nat := 0x4000_0000

  function Mi(n: nat): nat { n * 0x10_0000 }

  function Gi(n: nat): nat { n * 0x4000_0000 }

  /** The whole Mi, or Gi, in an amount. */
  function InMi(b: nat): nat { b / 0x10_0000 }

  function InGi(b: nat): nat { b / 0x4000_0000 }

  /** What an amount has below 1Mi, or 1Gi. */
  function BelowMi(b: nat): nat { b % 0x10_0000 }

  function BelowGi(b: nat): nat { b % 0x4000_0000 }

  /** The amount without its part below 1Mi. */
  function WholeMi(b: nat): nat {
    b - BelowMi(b)
  }

  lemma MiAndGi(n: nat)
    ensures Mi(n) == n * MI && Gi(n) == n * GI
    ensures InMi(n) == n / MI && InGi(n) == n / GI && BelowMi(n) == n % MI && BelowGi(n) == n % GI
  {
  }

  lemma MiDivides(b: nat)
    ensures Mi(InMi(b)) == WholeMi(b) && InMi(b) <= b
    ensures WholeMi(b) <= b < WholeMi(b) + MI && (WholeMi(b) == b <==> BelowMi(b) == 0)
  {
  }

  lemma GiDivides(b: nat)
    ensures Gi(InGi(b)) == b - BelowGi(b) <= b && InGi(b) <= b
  {
  }

  lemma WholeGiIsWholeMi(b: nat)
    requires BelowGi(b) == 0
    ensures WholeMi(b) == b
  {
    GiDivides(b);
    RestOfMi(InGi(b) * 1024, 0);
  }

  /** Rounding down to Mi stays within the same Mi. */
  lemma SameMi(b: nat)
    ensures InMi(WholeMi(b)) == InMi(b)
  {
    MiDivides(b);
  }

  lemma SmallerThanMi(b: nat)
    ensures WholeMi(b) == 0 <==> b < MI
  {
    MiDivides(b);
  }

  /** And above the same whole Gi. */
  lemma SameGi(b: nat)
    ensures BelowGi(WholeMi(b)) == WholeMi(BelowGi(b))
    ensures WholeMi(b) >= GI <==> b >= GI
  {
    var g, r := InGi(b), BelowGi(b);
    GiDivides(b);
    MiDivides(r);
    RestOfMi(g * 1024, r);
    assert WholeMi(b) == Gi(g) + WholeMi(r);
    RestOfGi(g, WholeMi(r));
  }

  lemma RestOfMi(n: nat, r: nat)
    ensures BelowMi(Mi(n) + r) == BelowMi(r)
  {
  }

  lemma RestOfGi(n: nat, r: nat)
    requires r < GI
    ensures BelowGi(Gi(n) + r) == r
  {
  }

  lemma WholeMiMonotone(a: nat, b: nat)
    requires a <= b
    ensures WholeMi(a) <= WholeMi(b)
  {
    MiDivides(a);
    MiDivides(b);
    assert InMi(a) <= InMi(b);
  }
}
