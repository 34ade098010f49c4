/** The purchase-request reference: "PR" followed by the number of existing
    requests plus one, written in decimal and left-padded with '0' to five
    characters (`String(n).padStart(5, '0')`). The count is a database query in
    the program; here it is the parameter `count`. */
module ReferenceGenerator {

  predicate IsDigit(c: char) {
    '0' <= c <= '9'
  }

  function DigitChar(d: nat): (c: char)
    requires d < 10
    ensures IsDigit(c) && c as int - '0' as int == d
  {
    (('0' as int) + d) as char
  }

  function DigitValue(c: char): nat
    requires IsDigit(c)
  {
    c as int - '0' as int
  }

  function Pow10(k: nat): (p: nat)
    ensures p >= 1
  {
    if k == 0 then 1 else 10 * Pow10(k - 1)
  }

  /** `String(n)` for a non-negative integer: decimal digits, no leading zero. */
  function Decimal(n: nat): (r: string)
    ensures |r| >= 1
    ensures forall i :: 0 <= i < |r| ==> IsDigit(r[i])
    ensures r[0] == '0' ==> n == 0 && r == "0"
  {
    if n < 10 then [DigitChar(n)] else Decimal(n / 10) + [DigitChar(n % 10)]
  }

  /** The numeric value of a string of decimal digits (leading zeros allowed). */
  function ParseDecimal(s: string): nat
    requires forall i :: 0 <= i < |s| ==> IsDigit(s[i])
  {
    if s == [] then 0 else 10 * ParseDecimal(s[..|s| - 1]) + DigitValue(s[|s| - 1])
  }

  /** `'0'.repeat(k)` */
  function Zeros(k: nat): (r: string)
    ensures |r| == k && forall i :: 0 <= i < k ==> r[i] == '0'
  {
    if k == 0 then "" else Zeros(k - 1) + "0"
  }

  /** `s.padStart(width, '0')`: prepends zeros up to `width` characters and
      never truncates. */
  function PadStart(s: string, width: nat): (r: string)
    ensures |r| == if |s| >= width then |s| else width
    ensures r[|r| - |s|..] == s
    ensures forall i :: 0 <= i < |r| - |s| ==> r[i] == '0'
  {
    if |s| >= width then s else Zeros(width - |s|) + s
  }

  function GenerateReference(count: nat): string {
    "PR" + PadStart(Decimal(count + 1), 5)
  }

  lemma {:induction false} ParseDecimalOfDecimal(n: nat)
    ensures ParseDecimal(Decimal(n)) == n
  {
    if n >= 10 {
      var s := Decimal(n);
      assert s[..|s| - 1] == Decimal(n / 10);
      ParseDecimalOfDecimal(n / 10);
    }
  }

  lemma {:induction false} ParseDecimalIgnoresLeadingZeros(k: nat, s: string)
    requires forall i :: 0 <= i < |s| ==> IsDigit(s[i])
    ensures forall i :: 0 <= i < |Zeros(k) + s| ==> IsDigit((Zeros(k) + s)[i])
    ensures ParseDecimal(Zeros(k) + s) == ParseDecimal(s)
  {
    if s == [] {
      assert Zeros(k) + s == Zeros(k);
      ZerosParseToZero(k);
    } else {
      var t := Zeros(k) + s;
      assert t[..|t| - 1] == Zeros(k) + s[..|s| - 1];
      ParseDecimalIgnoresLeadingZeros(k, s[..|s| - 1]);
    }
  }

  lemma {:induction false} ZerosParseToZero(k: nat)
    ensures ParseDecimal(Zeros(k)) == 0
  {
    if k > 0 {
      assert Zeros(k)[..k - 1] == Zeros(k - 1);
      ZerosParseToZero(k - 1);
    }
  }

  /** A decimal fits in `k` characters exactly when the number is below 10^k. */
  lemma {:induction false} DecimalLength(n: nat, k: nat)
    requires k >= 1
    ensures |Decimal(n)| <= k <==> n < Pow10(k)
  {
    if k == 1 {
      assert Pow10(1) == 10;
      if n >= 10 {
        assert |Decimal(n)| == |Decimal(n / 10)| + 1;
      }
    } else if n < 10 {
      Pow10AtLeastTen(k);
    } else {
      DecimalLength(n / 10, k - 1);
      assert |Decimal(n)| == |Decimal(n / 10)| + 1;
      assert Pow10(k) == 10 * Pow10(k - 1);
      assert n / 10 < Pow10(k - 1) <==> n < 10 * Pow10(k - 1);
    }
  }

  lemma {:induction false} Pow10AtLeastTen(k: nat)
    requires k >= 1
    ensures Pow10(k) >= 10
  {
    if k > 1 {
      Pow10AtLeastTen(k - 1);
    }
  }

  /** The reference starts with "PR" and its digit part reads back as
      `count + 1`, whatever padding was added. */
  lemma ReferenceParsesBack(count: nat)
    ensures |GenerateReference(count)| >= 3
    ensures GenerateReference(count)[..2] == "PR"
    ensures forall i :: 2 <= i < |GenerateReference(count)| ==> IsDigit(GenerateReference(count)[i])
    ensures ParseDecimal(GenerateReference(count)[2..]) == count + 1
  {
    var d := Decimal(count + 1);
    var r := GenerateReference(count);
    assert r[2..] == PadStart(d, 5);
    ParseDecimalOfDecimal(count + 1);
    if |d| < 5 {
      ParseDecimalIgnoresLeadingZeros(5 - |d|, d);
    }
  }

  /** Up to 99999 the reference is exactly seven characters, `PR` and five
      digits, with the decimal right-aligned behind zeros. */
  lemma ReferenceHasSevenCharacters(count: nat)
    requires count + 1 <= 99999
    ensures |GenerateReference(count)| == 7
    ensures GenerateReference(count)[2 + 5 - |Decimal(count + 1)|..] == Decimal(count + 1)
  {
    DecimalLength(count + 1, 5);
    assert Pow10(5) == 100000;
  }

  /** From 100000 on, padStart adds nothing: the reference is "PR" and the
      plain decimal, longer than seven characters and without a leading zero. */
  lemma ReferenceGrowsBeyondFiveDigits(count: nat)
    requires count + 1 >= 100000
    ensures GenerateReference(count) == "PR" + Decimal(count + 1)
    ensures |GenerateReference(count)| > 7
    ensures GenerateReference(count)[2] != '0'
  {
    DecimalLength(count + 1, 5);
    assert Pow10(5) == 100000;
    assert |Decimal(count + 1)| >= 6;
    assert PadStart(Decimal(count + 1), 5) == Decimal(count + 1);
  }

  /** Different counts give different references. */
  lemma ReferenceInjective(c1: nat, c2: nat)
    requires c1 != c2
    ensures GenerateReference(c1) != GenerateReference(c2)
  {
    ReferenceParsesBack(c1);
    ReferenceParsesBack(c2);
  }

  lemma FirstReference()
    ensures GenerateReference(0) == "PR00001"
  {
    assert Decimal(1) == "1";
  }
}
