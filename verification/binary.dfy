/** Fixed-width binary numerals written most-significant bit first, and
    decimal numerals, as strings of characters. The assembler's tables hold
    register and opcode fields in the first form and spell register names
    with the second. */
module Numerals {

  function Pow2(width: nat): (p: nat)
    ensures p >= 1
  {
    if width == 0 then 1 else 2 * Pow2(width - 1)
  }

  /** Every character is '0' or '1'. */
  predicate IsBinary(s: string) {
    forall i :: 0 <= i < |s| ==> s[i] == '0' || s[i] == '1'
  }

  /** The binary digit for the low bit of `n`. */
  function Bit(n: nat): char {
    if n % 2 == 0 then '0' else '1'
  }

  /** The `width`-character MSB-first binary numeral of `n`. */
  function ToBinary(n: nat, width: nat): (s: string)
    requires n < Pow2(width)
    ensures |s| == width && IsBinary(s)
    decreases width
  {
    if width == 0 then ""
    else ToBinary(n / 2, width - 1) + [Bit(n)]
  }

  /** The value of the first k characters of an MSB-first binary numeral. */
  function PrefixValue(s: string, k: nat): (n: nat)
    requires IsBinary(s) && k <= |s|
    ensures n < Pow2(k)
  {
    if k == 0 then 0 else 2 * PrefixValue(s, k - 1) + (if s[k - 1] == '1' then 1 else 0)
  }

  /** The value of an MSB-first binary numeral. */
  function FromBinary(s: string): (n: nat)
    requires IsBinary(s)
    ensures n < Pow2(|s|)
  {
    PrefixValue(s, |s|)
  }

  /** The value of a prefix depends on the characters of that prefix only. */
  lemma {:induction false} PrefixValueLocal(s: string, t: string, k: nat)
    requires IsBinary(s) && IsBinary(t) && k <= |s| && k <= |t|
    requires s[..k] == t[..k]
    ensures PrefixValue(s, k) == PrefixValue(t, k)
  {
    if k > 0 {
      assert s[k - 1] == s[..k][k - 1] == t[..k][k - 1] == t[k - 1];
      assert s[..k - 1] == s[..k][..k - 1] && t[..k - 1] == t[..k][..k - 1];
      PrefixValueLocal(s, t, k - 1);
    }
  }

  /** Reading back a numeral gives the number it was written from. */
  lemma {:induction false} FromToBinary(n: nat, width: nat)
    requires n < Pow2(width)
    ensures FromBinary(ToBinary(n, width)) == n
    decreases width
  {
    if width > 0 {
      var s, p := ToBinary(n, width), ToBinary(n / 2, width - 1);
      assert s[..width - 1] == p[..width - 1];
      PrefixValueLocal(s, p, width - 1);
      FromToBinary(n / 2, width - 1);
    }
  }

  lemma {:induction false} ToBinaryOfPrefix(s: string, k: nat)
    requires IsBinary(s) && k <= |s|
    ensures ToBinary(PrefixValue(s, k), k) == s[..k]
  {
    if k > 0 {
      var n := PrefixValue(s, k);
      assert n / 2 == PrefixValue(s, k - 1) && (n % 2 == 0 <==> s[k - 1] == '0');
      ToBinaryOfPrefix(s, k - 1);
      assert s[..k] == s[..k - 1] + [s[k - 1]];
    }
  }

  /** Writing the value of a binary numeral at its own width gives it back. */
  lemma ToFromBinary(s: string)
    requires IsBinary(s)
    ensures ToBinary(FromBinary(s), |s|) == s
  {
    ToBinaryOfPrefix(s, |s|);
    assert s[..|s|] == s;
  }

  /** The last character of a numeral is the number's lowest bit. */
  lemma LowBitsOfNumeral(n: nat, width: nat)
    requires 0 < width && n < Pow2(width)
    ensures ToBinary(n, width)[width - 1] == Bit(n)
    ensures ToBinary(n, width)[..width - 1] == ToBinary(n / 2, width - 1)
  {
  }

  /** The last two characters of a numeral are its two low bits. */
  lemma TwoLowBits(n: nat, width: nat)
    requires 2 <= width && n < Pow2(width)
    ensures ToBinary(n, width)[width - 2..] == [Bit(n / 2), Bit(n)]
  {
    var s := ToBinary(n, width);
    LowBitsOfNumeral(n, width);
    LowBitsOfNumeral(n / 2, width - 1);
    assert s[width - 2] == ToBinary(n / 2, width - 1)[width - 2];
  }

  /** Distinct numbers have distinct numerals at the same width. */
  lemma ToBinaryInjective(m: nat, n: nat, width: nat)
    requires m < Pow2(width) && n < Pow2(width)
    ensures ToBinary(m, width) == ToBinary(n, width) <==> m == n
  {
    FromToBinary(m, width);
    FromToBinary(n, width);
  }

  /** Every binary numeral of a given width is the numeral of exactly one
      number below 2^width. */
  lemma ToBinaryOnto(s: string)
    requires IsBinary(s)
    ensures FromBinary(s) < Pow2(|s|) && ToBinary(FromBinary(s), |s|) == s
    ensures forall n :: 0 <= n < Pow2(|s|) && ToBinary(n, |s|) == s ==> n == FromBinary(s)
  {
    ToFromBinary(s);
    forall n | 0 <= n < Pow2(|s|) && ToBinary(n, |s|) == s
      ensures n == FromBinary(s)
    {
      FromToBinary(n, |s|);
    }
  }

  predicate IsDigit(c: char) {
    '0' <= c <= '9'
  }

  function DigitChar(d: nat): (c: char)
    requires d < 10
    ensures IsDigit(c)
  {
    "0123456789"[d]
  }

  function DigitValue(c: char): (d: nat)
    requires IsDigit(c)
    ensures d < 10 && DigitChar(d) == c
  {
    (c as int) - ('0' as int)
  }

  /** A decimal numeral as written without padding: one or more digits and
      no leading zero unless the numeral is "0" itself. */
  predicate IsCanonicalDecimal(s: string) {
    |s| >= 1 && (forall i :: 0 <= i < |s| ==> IsDigit(s[i])) && (|s| > 1 ==> s[0] != '0')
  }

  /** The unpadded decimal numeral of `n`, as Python's str(n) writes it. */
  function Decimal(n: nat): (s: string)
    ensures IsCanonicalDecimal(s)
  {
    if n < 10 then [DigitChar(n)] else Decimal(n / 10) + [DigitChar(n % 10)]
  }

  /** The value of a string of decimal digits. */
  function ParseDecimal(s: string): nat
    requires forall i :: 0 <= i < |s| ==> IsDigit(s[i])
  {
    if s == [] then 0 else 10 * ParseDecimal(s[..|s| - 1]) + DigitValue(s[|s| - 1])
  }

  lemma {:induction false} ParseDecimalOfDecimal(n: nat)
    ensures ParseDecimal(Decimal(n)) == n
  {
    if n >= 10 {
      var s := Decimal(n);
      assert s[..|s| - 1] == Decimal(n / 10);
      ParseDecimalOfDecimal(n / 10);
    }
  }

  /** A numeral that starts with a non-zero digit has a non-zero value. */
  lemma {:induction false} ParseDecimalPositive(s: string)
    requires |s| >= 1 && (forall i :: 0 <= i < |s| ==> IsDigit(s[i])) && s[0] != '0'
    ensures ParseDecimal(s) >= 1
  {
    if |s| > 1 {
      ParseDecimalPositive(s[..|s| - 1]);
    }
  }

  lemma {:induction false} DecimalOfParseDecimal(s: string)
    requires IsCanonicalDecimal(s)
    ensures Decimal(ParseDecimal(s)) == s
  {
    if |s| > 1 {
      var p := s[..|s| - 1];
      var q, d := ParseDecimal(p), DigitValue(s[|s| - 1]);
      var n := ParseDecimal(s);
      assert n == 10 * q + d;
      ParseDecimalPositive(p);
      assert n >= 10 && n / 10 == q && n % 10 == d;
      DecimalOfParseDecimal(p);
      assert s == p + [s[|s| - 1]];
    }
  }

  // The numerals of every value of up to five bits, derived width by width
  // from the one-bit ones (each step unfolds ToBinary once), so that lookup
  // tables holding such numerals can be checked row by row.

  lemma OneBitNumerals()
    ensures ToBinary(0, 1) == "0"
    ensures ToBinary(1, 1) == "1"
  {
  }

  lemma TwoBitNumerals()
    ensures ToBinary(0, 2) == "00"
    ensures ToBinary(1, 2) == "01"
    ensures ToBinary(2, 2) == "10"
    ensures ToBinary(3, 2) == "11"
  {
    OneBitNumerals();
    assert ToBinary(0, 2) == ToBinary(0, 1) + "0";
    assert ToBinary(1, 2) == ToBinary(0, 1) + "1";
    assert ToBinary(2, 2) == ToBinary(1, 1) + "0";
    assert ToBinary(3, 2) == ToBinary(1, 1) + "1";
  }

  lemma ThreeBitNumerals()
    ensures ToBinary(0, 3) == "000"
    ensures ToBinary(1, 3) == "001"
    ensures ToBinary(2, 3) == "010"
    ensures ToBinary(3, 3) == "011"
    ensures ToBinary(4, 3) == "100"
    ensures ToBinary(5, 3) == "101"
    ensures ToBinary(6, 3) == "110"
    ensures ToBinary(7, 3) == "111"
  {
    TwoBitNumerals();
    assert ToBinary(0, 3) == ToBinary(0, 2) + "0";
    assert ToBinary(1, 3) == ToBinary(0, 2) + "1";
    assert ToBinary(2, 3) == ToBinary(1, 2) + "0";
    assert ToBinary(3, 3) == ToBinary(1, 2) + "1";
    assert ToBinary(4, 3) == ToBinary(2, 2) + "0";
    assert ToBinary(5, 3) == ToBinary(2, 2) + "1";
    assert ToBinary(6, 3) == ToBinary(3, 2) + "0";
    assert ToBinary(7, 3) == ToBinary(3, 2) + "1";
  }

  lemma FourBitNumerals()
    ensures ToBinary(0, 4) == "0000"
    ensures ToBinary(1, 4) == "0001"
    ensures ToBinary(2, 4) == "0010"
    ensures ToBinary(3, 4) == "0011"
    ensures ToBinary(4, 4) == "0100"
    ensures ToBinary(5, 4) == "0101"
    ensures ToBinary(6, 4) == "0110"
    ensures ToBinary(7, 4) == "0111"
    ensures ToBinary(8, 4) == "1000"
    ensures ToBinary(9, 4) == "1001"
    ensures ToBinary(10, 4) == "1010"
    ensures ToBinary(11, 4) == "1011"
    ensures ToBinary(12, 4) == "1100"
    ensures ToBinary(13, 4) == "1101"
    ensures ToBinary(14, 4) == "1110"
    ensures ToBinary(15, 4) == "1111"
  {
    ThreeBitNumerals();
    assert ToBinary(0, 4) == ToBinary(0, 3) + "0";
    assert ToBinary(1, 4) == ToBinary(0, 3) + "1";
    assert ToBinary(2, 4) == ToBinary(1, 3) + "0";
    assert ToBinary(3, 4) == ToBinary(1, 3) + "1";
    assert ToBinary(4, 4) == ToBinary(2, 3) + "0";
    assert ToBinary(5, 4) == ToBinary(2, 3) + "1";
    assert ToBinary(6, 4) == ToBinary(3, 3) + "0";
    assert ToBinary(7, 4) == ToBinary(3, 3) + "1";
    assert ToBinary(8, 4) == ToBinary(4, 3) + "0";
    assert ToBinary(9, 4) == ToBinary(4, 3) + "1";
    assert ToBinary(10, 4) == ToBinary(5, 3) + "0";
    assert ToBinary(11, 4) == ToBinary(5, 3) + "1";
    assert ToBinary(12, 4) == ToBinary(6, 3) + "0";
    assert ToBinary(13, 4) == ToBinary(6, 3) + "1";
    assert ToBinary(14, 4) == ToBinary(7, 3) + "0";
    assert ToBinary(15, 4) == ToBinary(7, 3) + "1";
  }

  lemma FiveBitNumeralsLow()
    ensures ToBinary(0, 5) == "00000"
    ensures ToBinary(1, 5) == "00001"
    ensures ToBinary(2, 5) == "00010"
    ensures ToBinary(3, 5) == "00011"
    ensures ToBinary(4, 5) == "00100"
    ensures ToBinary(5, 5) == "00101"
    ensures ToBinary(6, 5) == "00110"
    ensures ToBinary(7, 5) == "00111"
    ensures ToBinary(8, 5) == "01000"
    ensures ToBinary(9, 5) == "01001"
    ensures ToBinary(10, 5) == "01010"
    ensures ToBinary(11, 5) == "01011"
    ensures ToBinary(12, 5) == "01100"
    ensures ToBinary(13, 5) == "01101"
    ensures ToBinary(14, 5) == "01110"
    ensures ToBinary(15, 5) == "01111"
  {
    FourBitNumerals();
    assert ToBinary(0, 5) == ToBinary(0, 4) + "0";
    assert ToBinary(1, 5) == ToBinary(0, 4) + "1";
    assert ToBinary(2, 5) == ToBinary(1, 4) + "0";
    assert ToBinary(3, 5) == ToBinary(1, 4) + "1";
    assert ToBinary(4, 5) == ToBinary(2, 4) + "0";
    assert ToBinary(5, 5) == ToBinary(2, 4) + "1";
    assert ToBinary(6, 5) == ToBinary(3, 4) + "0";
    assert ToBinary(7, 5) == ToBinary(3, 4) + "1";
    assert ToBinary(8, 5) == ToBinary(4, 4) + "0";
    assert ToBinary(9, 5) == ToBinary(4, 4) + "1";
    assert ToBinary(10, 5) == ToBinary(5, 4) + "0";
    assert ToBinary(11, 5) == ToBinary(5, 4) + "1";
    assert ToBinary(12, 5) == ToBinary(6, 4) + "0";
    assert ToBinary(13, 5) == ToBinary(6, 4) + "1";
    assert ToBinary(14, 5) == ToBinary(7, 4) + "0";
    assert ToBinary(15, 5) == ToBinary(7, 4) + "1";
  }

  lemma FiveBitNumeralsHigh()
    ensures ToBinary(16, 5) == "10000"
    ensures ToBinary(17, 5) == "10001"
    ensures ToBinary(18, 5) == "10010"
    ensures ToBinary(19, 5) == "10011"
    ensures ToBinary(20, 5) == "10100"
    ensures ToBinary(21, 5) == "10101"
    ensures ToBinary(22, 5) == "10110"
    ensures ToBinary(23, 5) == "10111"
    ensures ToBinary(24, 5) == "11000"
    ensures ToBinary(25, 5) == "11001"
    ensures ToBinary(26, 5) == "11010"
    ensures ToBinary(27, 5) == "11011"
    ensures ToBinary(28, 5) == "11100"
    ensures ToBinary(29, 5) == "11101"
    ensures ToBinary(30, 5) == "11110"
    ensures ToBinary(31, 5) == "11111"
  {
    FourBitNumerals();
    assert ToBinary(16, 5) == ToBinary(8, 4) + "0";
    assert ToBinary(17, 5) == ToBinary(8, 4) + "1";
    assert ToBinary(18, 5) == ToBinary(9, 4) + "0";
    assert ToBinary(19, 5) == ToBinary(9, 4) + "1";
    assert ToBinary(20, 5) == ToBinary(10, 4) + "0";
    assert ToBinary(21, 5) == ToBinary(10, 4) + "1";
    assert ToBinary(22, 5) == ToBinary(11, 4) + "0";
    assert ToBinary(23, 5) == ToBinary(11, 4) + "1";
    assert ToBinary(24, 5) == ToBinary(12, 4) + "0";
    assert ToBinary(25, 5) == ToBinary(12, 4) + "1";
    assert ToBinary(26, 5) == ToBinary(13, 4) + "0";
    assert ToBinary(27, 5) == ToBinary(13, 4) + "1";
    assert ToBinary(28, 5) == ToBinary(14, 4) + "0";
    assert ToBinary(29, 5) == ToBinary(14, 4) + "1";
    assert ToBinary(30, 5) == ToBinary(15, 4) + "0";
    assert ToBinary(31, 5) == ToBinary(15, 4) + "1";
  }

  /** The decimal numerals of 0..31, the two-digit ones derived from the
      one-digit ones. */
  lemma OneDigitNumerals()
    ensures Decimal(0) == "0"
    ensures Decimal(1) == "1"
    ensures Decimal(2) == "2"
    ensures Decimal(3) == "3"
    ensures Decimal(4) == "4"
    ensures Decimal(5) == "5"
    ensures Decimal(6) == "6"
    ensures Decimal(7) == "7"
    ensures Decimal(8) == "8"
    ensures Decimal(9) == "9"
  {
  }

  lemma TeenNumerals()
    ensures Decimal(10) == "10"
    ensures Decimal(11) == "11"
    ensures Decimal(12) == "12"
    ensures Decimal(13) == "13"
    ensures Decimal(14) == "14"
    ensures Decimal(15) == "15"
    ensures Decimal(16) == "16"
    ensures Decimal(17) == "17"
    ensures Decimal(18) == "18"
    ensures Decimal(19) == "19"
  {
    OneDigitNumerals();
    assert Decimal(10) == Decimal(1) + "0";
    assert Decimal(11) == Decimal(1) + "1";
    assert Decimal(12) == Decimal(1) + "2";
    assert Decimal(13) == Decimal(1) + "3";
    assert Decimal(14) == Decimal(1) + "4";
    assert Decimal(15) == Decimal(1) + "5";
    assert Decimal(16) == Decimal(1) + "6";
    assert Decimal(17) == Decimal(1) + "7";
    assert Decimal(18) == Decimal(1) + "8";
    assert Decimal(19) == Decimal(1) + "9";
  }

  lemma TwentyToThirtyOneNumerals()
    ensures Decimal(20) == "20"
    ensures Decimal(21) == "21"
    ensures Decimal(22) == "22"
    ensures Decimal(23) == "23"
    ensures Decimal(24) == "24"
    ensures Decimal(25) == "25"
    ensures Decimal(26) == "26"
    ensures Decimal(27) == "27"
    ensures Decimal(28) == "28"
    ensures Decimal(29) == "29"
    ensures Decimal(30) == "30"
    ensures Decimal(31) == "31"
  {
    OneDigitNumerals();
    assert Decimal(20) == Decimal(2) + "0";
    assert Decimal(21) == Decimal(2) + "1";
    assert Decimal(22) == Decimal(2) + "2";
    assert Decimal(23) == Decimal(2) + "3";
    assert Decimal(24) == Decimal(2) + "4";
    assert Decimal(25) == Decimal(2) + "5";
    assert Decimal(26) == Decimal(2) + "6";
    assert Decimal(27) == Decimal(2) + "7";
    assert Decimal(28) == Decimal(2) + "8";
    assert Decimal(29) == Decimal(2) + "9";
    assert Decimal(30) == Decimal(3) + "0";
    assert Decimal(31) == Decimal(3) + "1";
  }
}
