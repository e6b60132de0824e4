/** Decimal text, and the integration reference `IR-{id:05d}` built from it. */
module Reference {

  const MAX_BIGINT: nat := 0x7fff_ffff_ffff_ffff

  predicate IsDigit(c: char) { '0' <= c <= '9' }

  predicate AllDigits(s: string) { forall k | 0 <= k < |s| :: IsDigit(s[k]) }

  function DigitChar(d: nat): char
    requires d < 10
  {
    ['0', '1', '2', '3', '4', '5', '6', '7', '8', '9'][d]
  }

  /** Decimal digits without leading zeros. */
  function Decimal(n: nat): string {
    if n < 10 then [DigitChar(n)] else Decimal(n / 10) + [DigitChar(n % 10)]
  }

  /** The value of a digit string; leading zeros are allowed. */
  function ParseDigits(s: string): nat
    requires AllDigits(s)
  {
    if s == [] then 0
    else ParseDigits(s[..|s| - 1]) * 10 + (s[|s| - 1] as int - '0' as int)
  }

  function PadLeft(s: string, width: nat): string
    decreases width - |s|
  {
    if |s| >= width then s else PadLeft("0" + s, width)
  }

  /** The text of `IR-{id:05d}`. */
  function ReferenceFor(id: nat): string { "IR-" + PadLeft(Decimal(id), 5) }

  /** The CHECK pattern `^IR-[0-9]{5,}$`. */
  predicate WellFormedReference(r: string) {
    |r| >= 8 && r[0] == 'I' && r[1] == 'R' && r[2] == '-' && AllDigits(r[3..])
  }

  function Pow10(k: nat): nat { if k == 0 then 1 else 10 * Pow10(k - 1) }

  lemma {:induction false} DecimalRoundTrip(n: nat)
    ensures AllDigits(Decimal(n)) && ParseDigits(Decimal(n)) == n && |Decimal(n)| >= 1
    ensures Decimal(n)[0] == '0' ==> n == 0
  {
    if n < 10 {
      assert Decimal(n)[..0] == [];
    } else {
      DecimalRoundTrip(n / 10);
      var d := Decimal(n);
      assert d[..|d| - 1] == Decimal(n / 10);
    }
  }

  lemma {:induction false} LeadingZero(s: string)
    requires AllDigits(s)
    ensures AllDigits("0" + s) && ParseDigits("0" + s) == ParseDigits(s)
  {
    var z := "0" + s;
    if s == [] {
      assert z[..0] == [];
    } else {
      LeadingZero(s[..|s| - 1]);
      assert z[..|z| - 1] == "0" + s[..|s| - 1];
    }
  }

  lemma {:induction false} PaddingKeepsTheValue(s: string, width: nat)
    requires AllDigits(s)
    ensures AllDigits(PadLeft(s, width)) && ParseDigits(PadLeft(s, width)) == ParseDigits(s)
    ensures |PadLeft(s, width)| == if |s| >= width then |s| else width
    ensures |s| >= width ==> PadLeft(s, width) == s
    decreases width - |s|
  {
    if |s| < width {
      LeadingZero(s);
      PaddingKeepsTheValue("0" + s, width);
    }
  }

  lemma {:induction false} DecimalLength(n: nat, k: nat)
    requires k >= 1 && n < Pow10(k)
    ensures |Decimal(n)| <= k
  {
    if n >= 10 {
      assert k > 1 by { assert Pow10(1) == 10 * Pow10(0); }
      DecimalLength(n / 10, k - 1);
    }
  }

  /** Parsing the digits of a reference gives back the id it was made from; there are five of them,
      or more without a leading zero. */
  lemma ReferenceRoundTrip(id: nat)
    ensures WellFormedReference(ReferenceFor(id))
    ensures ParseDigits(ReferenceFor(id)[3..]) == id
    ensures |ReferenceFor(id)| > 8 ==> ReferenceFor(id)[3] != '0'
  {
    DecimalRoundTrip(id);
    PaddingKeepsTheValue(Decimal(id), 5);
    var r := ReferenceFor(id);
    assert r[3..] == PadLeft(Decimal(id), 5);
  }

  lemma ReferencesAreUnique(i: nat, j: nat)
    requires ReferenceFor(i) == ReferenceFor(j)
    ensures i == j
  {
    ReferenceRoundTrip(i);
    ReferenceRoundTrip(j);
  }

  lemma {:induction false} Pow10Split(a: nat, b: nat)
    ensures Pow10(a + b) == Pow10(a) * Pow10(b)
  {
    if a > 0 { Pow10Split(a - 1, b); }
  }

  /** A sequence value is a positive BIGINT, so its reference fits VARCHAR(32). */
  lemma ReferenceFitsItsColumn(id: nat)
    requires id <= MAX_BIGINT
    ensures |ReferenceFor(id)| <= 22
  {
    assert Pow10(6) == 1_000_000 by {
      assert Pow10(3) == 1000;
      Pow10Split(3, 3);
    }
    Pow10Split(6, 6);
    Pow10Split(12, 6);
    assert Pow10(19) == 10 * Pow10(18);
    DecimalLength(id, 19);
    DecimalRoundTrip(id);
    PaddingKeepsTheValue(Decimal(id), 5);
  }
}
