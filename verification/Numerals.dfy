/** The integer printers of base/LogStream.cc, against positional notation. */
module Numerals {
  import opened Sequences

  const INT64_MIN := -0x8000_0000_0000_0000
  const UINT64_MAX := 0xFFFF_FFFF_FFFF_FFFF

  /** C++ `/` and `%`: the quotient is truncated toward zero, the remainder has the sign of the dividend. */
  function TruncatedQuotient(n: int, d: int): int
    requires d > 0
  {
    if n >= 0 then n / d else -(-n / d)
  }

  function TruncatedRemainder(n: int, d: int): int
    requires d > 0
  {
    n - d * TruncatedQuotient(n, d)
  }

  function Abs(n: int): nat {
    if n < 0 then -n else n
  }

  const DIGITS := "9876543210123456789"
  const ZERO := 9
  const DIGITS_HEX := "0123456789ABCDEF"

  datatype Radix = Decimal | Hex {
    function Base(): nat {
      if Decimal? then 10 else 16
    }

    function Quotient(n: nat): (q: nat)
      ensures n > 0 ==> q < n
    {
      if Decimal? then n / 10 else n / 16
    }

    function Remainder(n: nat): (r: nat)
      ensures r < Base()
    {
      if Decimal? then n % 10 else n % 16
    }

    function Compose(q: nat, r: nat): nat {
      if Decimal? then 10 * q + r else 16 * q + r
    }

    function Power(k: nat): nat {
      if k == 0 then 1 else Compose(Power(k - 1), 0)
    }
  }

  function DigitChar(d: nat): char
    requires d < 16
  {
    DIGITS_HEX[d]
  }

  function DigitValue(c: char): Option<nat> {
    if '0' <= c <= '9' then Some(c as int - '0' as int)
    else if 'A' <= c <= 'F' then Some(c as int - 'A' as int + 10)
    else None
  }

  /** Positional notation without leading zeros. */
  function NatNumeral(n: nat, radix: Radix): string {
    if n < radix.Base() then [DigitChar(n)]
    else NatNumeral(radix.Quotient(n), radix) + [DigitChar(radix.Remainder(n))]
  }

  function Numeral(value: int): string {
    if value < 0 then "-" + NatNumeral(-value, Decimal) else NatNumeral(value, Decimal)
  }

  /** Reads a non-empty digit string as a number; the reader knows nothing of the printer. */
  function ParseNat(s: string, radix: Radix): Option<nat> {
    if s == "" then None
    else
      var d := DigitValue(s[|s| - 1]);
      if d.None? || d.value >= radix.Base() then None
      else if |s| == 1 then d
      else
        var high := ParseNat(s[..|s| - 1], radix);
        if high.None? then None else Some(radix.Compose(high.value, d.value))
  }

  function ParseInt(s: string): Option<int> {
    if s != "" && s[0] == '-' then
      var m := ParseNat(s[1..], Decimal);
      if m.None? then None else Some(0 - m.value)
    else
      var m := ParseNat(s, Decimal);
      if m.None? then None else Some(m.value as int)
  }

  predicate NoLeadingZero(s: string) {
    |s| > 1 ==> s[0] != '0'
  }

  /** The one spelling per number: no leading zero, and a minus sign only before a nonzero magnitude. */
  predicate Canonical(s: string) {
    if s != "" && s[0] == '-' then NoLeadingZero(s[1..]) && s[1..] != "0" else NoLeadingZero(s)
  }

  lemma DigitRoundTrip(d: nat)
    requires d < 16
    ensures DigitValue(DigitChar(d)) == Some(d)
    ensures d != 0 ==> DigitChar(d) != '0'
  {
  }

  lemma DigitCharOfValue(c: char)
    requires DigitValue(c).Some?
    ensures DigitValue(c).value < 16 && DigitChar(DigitValue(c).value) == c
  {
    var d := DigitValue(c).value;
    assert DIGITS_HEX[d] == if d < 10 then ('0' as int + d) as char else ('A' as int + d - 10) as char;
  }

  lemma ParseSnoc(high: string, c: char, radix: Radix)
    requires high != ""
    requires DigitValue(c).Some? && DigitValue(c).value < radix.Base()
    ensures ParseNat(high + [c], radix) ==
            if ParseNat(high, radix).None? then None
            else Some(radix.Compose(ParseNat(high, radix).value, DigitValue(c).value))
  {
    assert (high + [c])[..|high|] == high;
  }

  lemma {:induction false} NatNumeralRoundTrip(n: nat, radix: Radix)
    ensures ParseNat(NatNumeral(n, radix), radix) == Some(n)
  {
    if n < radix.Base() {
      DigitRoundTrip(n);
    } else {
      NatNumeralRoundTrip(radix.Quotient(n), radix);
      DigitRoundTrip(radix.Remainder(n));
      ParseSnoc(NatNumeral(radix.Quotient(n), radix), DigitChar(radix.Remainder(n)), radix);
    }
  }

  lemma {:induction false} NatNumeralHead(n: nat, radix: Radix)
    ensures var s := NatNumeral(n, radix); s != "" && s[0] != '-' && (s[0] == '0' <==> n == 0) && (n == 0 ==> s == "0")
  {
    if n < radix.Base() {
      DigitRoundTrip(n);
    } else {
      NatNumeralHead(radix.Quotient(n), radix);
    }
  }

  lemma {:induction false} NatNumeralUnique(s: string, radix: Radix)
    requires ParseNat(s, radix).Some? && NoLeadingZero(s)
    ensures s == NatNumeral(ParseNat(s, radix).value, radix)
  {
    var c := s[|s| - 1];
    DigitCharOfValue(c);
    if |s| > 1 {
      var high := s[..|s| - 1];
      var q := ParseNat(high, radix).value;
      NatNumeralUnique(high, radix);
      NatNumeralHead(q, radix);
      ComposeSplits(q, DigitValue(c).value, radix);
    }
  }

  lemma ComposeSplits(q: nat, r: nat, radix: Radix)
    requires q > 0 && r < radix.Base()
    ensures var n := radix.Compose(q, r);
            n >= radix.Base() && radix.Quotient(n) == q && radix.Remainder(n) == r
  {
  }

  lemma NumeralReads(value: int)
    ensures Canonical(Numeral(value)) && ParseInt(Numeral(value)) == Some(value)
  {
    NatNumeralRoundTrip(Abs(value), Decimal);
    NatNumeralHead(Abs(value), Decimal);
    var digits := NatNumeral(Abs(value), Decimal);
    if value < 0 {
      assert Numeral(value)[1..] == digits;
    }
    assert NoLeadingZero(digits);
  }

  lemma CanonicalIsNumeral(s: string)
    requires Canonical(s) && ParseInt(s).Some?
    ensures s == Numeral(ParseInt(s).value)
  {
    if s[0] == '-' {
      NatNumeralUnique(s[1..], Decimal);
      NatNumeralHead(ParseNat(s[1..], Decimal).value, Decimal);
      assert s == "-" + s[1..];
    } else {
      NatNumeralUnique(s, Decimal);
    }
  }

  /** `Numeral` is the only canonical spelling of its value, and reading it back gives the value. */
  lemma NumeralSpellsValue(s: string, value: int)
    ensures s == Numeral(value) <==> Canonical(s) && ParseInt(s) == Some(value)
  {
    NumeralReads(value);
    if Canonical(s) && ParseInt(s) == Some(value) { CanonicalIsNumeral(s); }
  }

  lemma DecimalExample()
    ensures Numeral(-907) == "-907"
  {
    assert NatNumeral(90, Decimal) == NatNumeral(9, Decimal) + "0";
    assert NatNumeral(907, Decimal) == NatNumeral(90, Decimal) + "7";
  }

  lemma HexExample()
    ensures NatNumeral(0xBE0, Hex) == "BE0"
  {
    assert NatNumeral(0xBE, Hex) == NatNumeral(0xB, Hex) + "E";
    assert NatNumeral(0xBE0, Hex) == NatNumeral(0xBE, Hex) + "0";
  }

  lemma NumeralInjective(a: int, b: int)
    ensures Numeral(a) == Numeral(b) ==> a == b
  {
    NumeralReads(a);
    NumeralReads(b);
  }

  lemma {:induction false} NumeralLength(n: nat, radix: Radix, k: nat)
    requires k >= 1 && n < radix.Power(k)
    ensures 1 <= |NatNumeral(n, radix)| <= k
  {
    if n >= radix.Base() {
      assert k > 1 by { assert radix.Power(1) == radix.Compose(radix.Power(0), 0); }
      NumeralLength(radix.Quotient(n), radix, k - 1);
    }
  }

  lemma Powers()
    ensures Decimal.Power(19) == 10_000_000_000_000_000_000
    ensures Decimal.Power(20) == 100_000_000_000_000_000_000
    ensures Hex.Power(16) == 0x1_0000_0000_0000_0000
  {
    assert Decimal.Power(5) == 100_000;
    assert Decimal.Power(10) == 10_000_000_000;
    assert Decimal.Power(15) == 1_000_000_000_000_000;
    assert Hex.Power(8) == 0x1_0000_0000;
  }

  /** A value of any of the eight integer types prints in at most 20 characters, 21 with the terminator. */
  lemma NumeralFits(value: int)
    requires INT64_MIN <= value <= UINT64_MAX
    ensures 1 <= |Numeral(value)| <= 20
  {
    Powers();
    if value < 0 { NumeralLength(-value, Decimal, 19); } else { NumeralLength(value, Decimal, 20); }
  }

  lemma HexNumeralFits(value: nat)
    requires value <= UINT64_MAX
    ensures 1 <= |NatNumeral(value, Hex)| <= 16
  {
    Powers();
    NumeralLength(value, Hex, 16);
  }
}
