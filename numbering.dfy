/** Decimal strings as JavaScript's `String(n)` writes a non-negative
    integer, and `padStart` with a fill character: the pieces the mock
    backend builds its order numbers from. */
module Numbering {

  predicate IsDigit(c: char) {
    '0' <= c <= '9'
  }

  predicate AllDigits(s: string) {
    forall i :: 0 <= i < |s| ==> IsDigit(s[i])
  }

  function DigitChar(d: nat): (c: char)
    requires d < 10
    ensures IsDigit(c)
  {
    (48 + d) as char
  }

  function DigitValue(c: char): (d: nat)
    requires IsDigit(c)
    ensures d < 10
  {
    c as int - 48
  }

  /** `String(n)`: the shortest decimal numeral of `n`. */
  function Decimal(n: nat): (s: string)
    ensures |s| >= 1 && AllDigits(s)
    ensures n > 0 ==> s[0] != '0'
  {
    if n < 10 then [DigitChar(n)] else Decimal(n / 10) + [DigitChar(n % 10)]
  }

  /** The value of a numeral, leading zeros allowed. */
  function ParseDecimal(s: string): nat
    requires AllDigits(s)
  {
    if |s| == 0 then 0 else ParseDecimal(s[..|s| - 1]) * 10 + DigitValue(s[|s| - 1])
  }

  /** `s.padStart(width, fill)`: `s` preceded by as many copies of `fill`
      as bring it to `width` characters; a longer `s` is left alone. */
  function PadStart(s: string, width: nat, fill: char): (r: string)
    ensures |r| == if |s| >= width then |s| else width
    ensures r[|r| - |s|..] == s
    ensures forall i :: 0 <= i < |r| - |s| ==> r[i] == fill
  {
    if |s| >= width then s else seq(width - |s|, _ => fill) + s
  }

  /** Reading back what `Decimal` wrote gives the number. */
  lemma {:induction false} ParseDecimalOfDecimal(n: nat)
    ensures ParseDecimal(Decimal(n)) == n
  {
    if n >= 10 {
      var s := Decimal(n);
      assert s[..|s| - 1] == Decimal(n / 10);
      ParseDecimalOfDecimal(n / 10);
    }
  }

  /** A run of zeros in front of a numeral does not change its value. */
  lemma {:induction false} LeadingZerosIgnored(k: nat, s: string)
    requires AllDigits(s)
    ensures AllDigits(seq(k, _ => '0') + s)
    ensures ParseDecimal(seq(k, _ => '0') + s) == ParseDecimal(s)
    decreases |s|
  {
    var z: string := seq(k, _ => '0');
    if |s| == 0 {
      assert z + s == z;
      ZerosParseToZero(k);
    } else {
      var t := z + s;
      assert t[..|t| - 1] == z + s[..|s| - 1];
      LeadingZerosIgnored(k, s[..|s| - 1]);
    }
  }

  lemma {:induction false} ZerosParseToZero(k: nat)
    ensures AllDigits(seq(k, _ => '0'))
    ensures ParseDecimal(seq(k, _ => '0')) == 0
  {
    if k > 0 {
      var z: string := seq(k, _ => '0');
      assert z[..k - 1] == seq(k - 1, _ => '0');
      ZerosParseToZero(k - 1);
    }
  }

  function Pow10(k: nat): (p: nat)
    ensures p >= 1
  {
    if k == 0 then 1 else 10 * Pow10(k - 1)
  }

  /** `String(n)` has at most `k` digits exactly when `n` is below 10^k. */
  lemma {:induction false} DecimalLength(n: nat, k: nat)
    requires k >= 1
    ensures |Decimal(n)| <= k <==> n < Pow10(k)
  {
    if k == 1 {
      assert Pow10(1) == 10;
      if n >= 10 {
        assert |Decimal(n)| == |Decimal(n / 10)| + 1;
      }
    } else if n < 10 {
      Pow10AtLeastTen(k);
    } else {
      assert |Decimal(n)| == |Decimal(n / 10)| + 1;
      DecimalLength(n / 10, k - 1);
      assert n / 10 < Pow10(k - 1) <==> n < 10 * Pow10(k - 1);
    }
  }

  lemma {:induction false} Pow10AtLeastTen(k: nat)
    requires k >= 1
    ensures Pow10(k) >= 10
  {
    if k > 1 {
      Pow10AtLeastTen(k - 1);
    }
  }

  /** Padding `String(n)` with zeros keeps it a numeral of value `n`. */
  lemma PaddedNumeral(n: nat, width: nat)
    ensures AllDigits(PadStart(Decimal(n), width, '0'))
    ensures ParseDecimal(PadStart(Decimal(n), width, '0')) == n
  {
    var digits := Decimal(n);
    var r := PadStart(digits, width, '0');
    ParseDecimalOfDecimal(n);
    assert r == seq(|r| - |digits|, _ => '0') + digits;
    LeadingZerosIgnored(|r| - |digits|, digits);
  }

  /** `String(n)` fits in four characters exactly when `n` is below 10000. */
  lemma FourDigitBound(n: nat)
    ensures |Decimal(n)| <= 4 <==> n < 10000
  {
    DecimalLength(n, 4);
    assert Pow10(4) == 10000;
  }
}
