/** The register encoder: a fixed table from register name to the 5-bit
    register field. */
module Registers {
  import opened Numerals
  import opened Types

  const RegisterTable: map<string, string> := map[
    "x0" := "00000", "x1" := "00001", "x2" := "00010", "x3" := "00011",
    "x4" := "00100", "x5" := "00101", "x6" := "00110", "x7" := "00111",
    "x8" := "01000", "x9" := "01001", "x10" := "01010", "x11" := "01011",
    "x12" := "01100", "x13" := "01101", "x14" := "01110", "x15" := "01111",
    "x16" := "10000", "x17" := "10001", "x18" := "10010", "x19" := "10011",
    "x20" := "10100", "x21" := "10101", "x22" := "10110", "x23" := "10111",
    "x24" := "11000", "x25" := "11001", "x26" := "11010", "x27" := "11011",
    "x28" := "11100", "x29" := "11101", "x30" := "11110", "x31" := "11111"
  ]

  /** The name of register number n: "x" followed by n in decimal. */
  function RegisterName(n: nat): string {
    "x" + Decimal(n)
  }

  /** Reads a register name: an 'x' followed by an unpadded decimal numeral
      below 32. Any other spelling (an ABI alias such as "zero", a leading
      zero, an index of 32 or more) is not a register name. */
  function RegisterIndex(name: string): (r: Option<nat>)
    ensures r.Some? ==> r.value < 32
  {
    if |name| >= 2 && name[0] == 'x' && IsCanonicalDecimal(name[1..]) && ParseDecimal(name[1..]) < 32
    then Some(ParseDecimal(name[1..]))
    else None
  }

  /** Encodes a register name: the names x0..x31 get the 5-bit MSB-first
      numeral of their index; every other string is rejected by name. */
  function Register(name: string): (r: Result<string>)
    ensures r == match RegisterIndex(name)
                 case Some(n) => Success(ToBinary(n, 5))
                 case None => Error(InvalidRegister(name))
  {
    RegisterTableIsGenerated(name);
    if name in RegisterTable then Success(RegisterTable[name])
    else Error(InvalidRegister(name))
  }

  /** The string Python's `register` returns: the table row of a known
      name, and otherwise the message naming it. */
  lemma RegisterText(name: string)
    ensures name in RegisterTable ==> Text(Register(name)) == RegisterTable[name]
    ensures name !in RegisterTable ==> Text(Register(name)) == "Invalid register '" + name + "'"
  {
  }

  /** Nothing is lost by returning text: equal texts come from equal
      results. */
  lemma RegisterTextLossless(a: string, b: string)
    ensures Text(Register(a)) == Text(Register(b)) ==> Register(a) == Register(b)
  {
    if Register(a).Error? {
      MessageIsNotAValue(Register(a).failure);
      if Register(b).Error? {
        MessageInjective(Register(a).failure, Register(b).failure);
      }
    }
    if Register(b).Error? {
      MessageIsNotAValue(Register(b).failure);
    }
  }

  /** RegisterIndex and RegisterName are inverse to each other on 0..31. */
  lemma RegisterIndexInverse(name: string, n: nat)
    ensures RegisterIndex(name) == Some(n) <==> n < 32 && name == RegisterName(n)
  {
    if RegisterIndex(name) == Some(n) {
      DecimalOfParseDecimal(name[1..]);
      assert name == "x" + name[1..];
    }
    if n < 32 && name == RegisterName(n) {
      assert name[1..] == Decimal(n);
      ParseDecimalOfDecimal(n);
    }
  }

  /** The register table holds exactly the names RegisterIndex reads, each
      with the 5-bit numeral of its index. */
  lemma RegisterTableIsGenerated(name: string)
    ensures name in RegisterTable <==> RegisterIndex(name).Some?
    ensures name in RegisterTable ==> RegisterTable[name] == ToBinary(RegisterIndex(name).value, 5)
  {
    if name in RegisterTable {
      RegisterTableKeys(name);
      var n :| n < 32 && name == RegisterName(n);
      RegisterIndexInverse(name, n);
      RegisterTableRow(n);
    }
    if RegisterIndex(name).Some? {
      var n := RegisterIndex(name).value;
      RegisterIndexInverse(name, n);
      RegisterTableRow(n);
    }
  }

  /** Register number n is encoded as the 5-bit MSB-first numeral of n. */
  lemma RegisterEncodes(n: nat)
    requires n < 32
    ensures Register(RegisterName(n)) == Success(ToBinary(n, 5))
  {
    RegisterIndexInverse(RegisterName(n), n);
  }

  /** The encoder is a bijection from the names x0..x31 onto the 5-bit
      numerals: each numeral is the code of exactly one name. */
  lemma RegisterOnto(code: string)
    requires IsBinary(code) && |code| == 5
    ensures FromBinary(code) < 32 && Register(RegisterName(FromBinary(code))) == Success(code)
    ensures forall name :: Register(name) == Success(code) ==> name == RegisterName(FromBinary(code))
  {
    var n := FromBinary(code);
    ToBinaryOnto(code);
    RegisterEncodes(n);
    forall name | Register(name) == Success(code)
      ensures name == RegisterName(n)
    {
      RegisterIndexInverse(name, RegisterIndex(name).value);
    }
  }

  /** Two names with the same code are the same name. */
  lemma RegisterInjective(a: string, b: string)
    ensures Register(a).Success? && Register(a) == Register(b) ==> a == b
  {
    if Register(a).Success? && Register(a) == Register(b) {
      var i, j := RegisterIndex(a).value, RegisterIndex(b).value;
      ToBinaryInjective(i, j, 5);
      RegisterIndexInverse(a, i);
      RegisterIndexInverse(b, j);
    }
  }

  /** ABI aliases, out-of-range indices, padded indices and other case
      spellings are not register names. */
  lemma RegisterRejects()
    ensures Register("x32") == Error(InvalidRegister("x32"))
    ensures Register("zero") == Error(InvalidRegister("zero"))
    ensures Register("sp") == Error(InvalidRegister("sp"))
    ensures Register("x01") == Error(InvalidRegister("x01"))
    ensures Register("X1") == Error(InvalidRegister("X1"))
    ensures Register("x") == Error(InvalidRegister("x"))
    ensures Register("") == Error(InvalidRegister(""))
  {
    assert ParseDecimal("32") == 32 by {
      assert "32"[..1] == "3";
    }
  }

  // How the literal register table is checked against RegisterIndex and
  // ToBinary: each row is established for a literal index, and a case split
  // over 0..31 connects the rows to a symbolic index.

  lemma RegisterTableRow(n: nat)
    requires n < 32
    ensures RegisterName(n) in RegisterTable && RegisterTable[RegisterName(n)] == ToBinary(n, 5)
  {
    RegisterNamesSpelled();
    RegisterTableRowsLow();
    RegisterTableRowsHigh();
    FiveBitNumeralsLow();
    FiveBitNumeralsHigh();
    assert n == 0 || n == 1 || n == 2 || n == 3 || n == 4 || n == 5 || n == 6 || n == 7
      || n == 8 || n == 9 || n == 10 || n == 11 || n == 12 || n == 13 || n == 14 || n == 15
      || n == 16 || n == 17 || n == 18 || n == 19 || n == 20 || n == 21 || n == 22 || n == 23
      || n == 24 || n == 25 || n == 26 || n == 27 || n == 28 || n == 29 || n == 30 || n == 31;
  }

  lemma RegisterTableKeys(name: string)
    requires name in RegisterTable
    ensures exists n :: n < 32 && name == RegisterName(n)
  {
    RegisterNamesSpelled();
  }

  lemma RegisterNamesSpelled()
    ensures RegisterName(0) == "x0"
    ensures RegisterName(1) == "x1"
    ensures RegisterName(2) == "x2"
    ensures RegisterName(3) == "x3"
    ensures RegisterName(4) == "x4"
    ensures RegisterName(5) == "x5"
    ensures RegisterName(6) == "x6"
    ensures RegisterName(7) == "x7"
    ensures RegisterName(8) == "x8"
    ensures RegisterName(9) == "x9"
    ensures RegisterName(10) == "x10"
    ensures RegisterName(11) == "x11"
    ensures RegisterName(12) == "x12"
    ensures RegisterName(13) == "x13"
    ensures RegisterName(14) == "x14"
    ensures RegisterName(15) == "x15"
    ensures RegisterName(16) == "x16"
    ensures RegisterName(17) == "x17"
    ensures RegisterName(18) == "x18"
    ensures RegisterName(19) == "x19"
    ensures RegisterName(20) == "x20"
    ensures RegisterName(21) == "x21"
    ensures RegisterName(22) == "x22"
    ensures RegisterName(23) == "x23"
    ensures RegisterName(24) == "x24"
    ensures RegisterName(25) == "x25"
    ensures RegisterName(26) == "x26"
    ensures RegisterName(27) == "x27"
    ensures RegisterName(28) == "x28"
    ensures RegisterName(29) == "x29"
    ensures RegisterName(30) == "x30"
    ensures RegisterName(31) == "x31"
  {
    OneDigitNumerals();
    TeenNumerals();
    TwentyToThirtyOneNumerals();
  }

  lemma RegisterTableRowsLow()
    ensures "x0" in RegisterTable && RegisterTable["x0"] == "00000"
    ensures "x1" in RegisterTable && RegisterTable["x1"] == "00001"
    ensures "x2" in RegisterTable && RegisterTable["x2"] == "00010"
    ensures "x3" in RegisterTable && RegisterTable["x3"] == "00011"
    ensures "x4" in RegisterTable && RegisterTable["x4"] == "00100"
    ensures "x5" in RegisterTable && RegisterTable["x5"] == "00101"
    ensures "x6" in RegisterTable && RegisterTable["x6"] == "00110"
    ensures "x7" in RegisterTable && RegisterTable["x7"] == "00111"
    ensures "x8" in RegisterTable && RegisterTable["x8"] == "01000"
    ensures "x9" in RegisterTable && RegisterTable["x9"] == "01001"
    ensures "x10" in RegisterTable && RegisterTable["x10"] == "01010"
    ensures "x11" in RegisterTable && RegisterTable["x11"] == "01011"
    ensures "x12" in RegisterTable && RegisterTable["x12"] == "01100"
    ensures "x13" in RegisterTable && RegisterTable["x13"] == "01101"
    ensures "x14" in RegisterTable && RegisterTable["x14"] == "01110"
    ensures "x15" in RegisterTable && RegisterTable["x15"] == "01111"
  {
  }

  lemma RegisterTableRowsHigh()
    ensures "x16" in RegisterTable && RegisterTable["x16"] == "10000"
    ensures "x17" in RegisterTable && RegisterTable["x17"] == "10001"
    ensures "x18" in RegisterTable && RegisterTable["x18"] == "10010"
    ensures "x19" in RegisterTable && RegisterTable["x19"] == "10011"
    ensures "x20" in RegisterTable && RegisterTable["x20"] == "10100"
    ensures "x21" in RegisterTable && RegisterTable["x21"] == "10101"
    ensures "x22" in RegisterTable && RegisterTable["x22"] == "10110"
    ensures "x23" in RegisterTable && RegisterTable["x23"] == "10111"
    ensures "x24" in RegisterTable && RegisterTable["x24"] == "11000"
    ensures "x25" in RegisterTable && RegisterTable["x25"] == "11001"
    ensures "x26" in RegisterTable && RegisterTable["x26"] == "11010"
    ensures "x27" in RegisterTable && RegisterTable["x27"] == "11011"
    ensures "x28" in RegisterTable && RegisterTable["x28"] == "11100"
    ensures "x29" in RegisterTable && RegisterTable["x29"] == "11101"
    ensures "x30" in RegisterTable && RegisterTable["x30"] == "11110"
    ensures "x31" in RegisterTable && RegisterTable["x31"] == "11111"
  {
  }
}
