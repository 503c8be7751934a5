/** The opcode table: a fixed table from format tag to the 7-bit opcode
    field. */
module Opcodes {
  import opened Numerals
  import opened Types

  const OpcodeTable: map<string, string> := map[
    "R" := "0110011",
    "Il" := "0000011",
    "Ii" := "0010011",
    "Ij" := "1100111",
    "S" := "0100011",
    "SB" := "1100011",
    "UJ" := "1101111",
    "U" := "0110111",
    "PS" := "PS"
  ]

  /** The major opcode of each real format as the RISC-V base opcode map
      numbers it (OP, LOAD, OP-IMM, JALR, STORE, BRANCH, JAL, LUI). Every
      32-bit base opcode has its two low bits set. */
  function IsaOpcode(f: Format): (op: nat)
    requires f.IsReal()
    ensures op < Pow2(7) && op % 4 == 3
  {
    match f
    case R => 0x33
    case Il => 0x03
    case Ii => 0x13
    case Ij => 0x67
    case S => 0x23
    case SB => 0x63
    case UJ => 0x6F
    case U => 0x37
  }

  /** The row of the opcode table for a real format is a 7-bit numeral
      whose value is that format's base opcode; the row for the
      pseudo-instructions is "PS". */
  lemma OpcodeTableRow(f: Format)
    ensures f.Tag() in OpcodeTable
    ensures f.IsReal() ==>
              IsBinary(OpcodeTable[f.Tag()]) && |OpcodeTable[f.Tag()]| == 7
              && FromBinary(OpcodeTable[f.Tag()]) == IsaOpcode(f)
    ensures f.PS? ==> OpcodeTable[f.Tag()] == "PS"
  {
  }

  /** The opcode table has no row other than the format tags. */
  lemma OpcodeTableKeys(tag: string)
    requires tag in OpcodeTable
    ensures exists f: Format :: tag == f.Tag()
  {
    assert tag == R.Tag() || tag == Il.Tag() || tag == Ii.Tag() || tag == Ij.Tag() || tag == S.Tag()
      || tag == SB.Tag() || tag == UJ.Tag() || tag == U.Tag() || tag == PS.Tag();
  }

  lemma OpcodeTableIsIsa(tag: string)
    ensures tag in OpcodeTable <==> exists f: Format :: tag == f.Tag()
    ensures forall f: Format :: tag == f.Tag() ==>
      OpcodeTable[tag] == if f.IsReal() then ToBinary(IsaOpcode(f), 7) else "PS"
  {
    forall f: Format
      ensures f.Tag() in OpcodeTable
      ensures OpcodeTable[f.Tag()] == if f.IsReal() then ToBinary(IsaOpcode(f), 7) else "PS"
    {
      OpcodeTableRow(f);
      if f.IsReal() {
        ToFromBinary(OpcodeTable[f.Tag()]);
      }
    }
    if tag in OpcodeTable {
      OpcodeTableKeys(tag);
    }
  }

  /** The opcode field for a format tag: the 7-bit MSB-first numeral of the
      format's base opcode, the text "PS" for the pseudo-instructions, and an
      error naming the tag for any other string. */
  function Opcode(tag: string): (r: Result<string>)
    ensures r.Success? <==> exists f: Format :: tag == f.Tag()
    ensures forall f: Format :: tag == f.Tag() ==>
      r == Success(if f.IsReal() then ToBinary(IsaOpcode(f), 7) else "PS")
    ensures r.Error? ==> r.failure == InvalidFormat(tag)
  {
    OpcodeTableIsIsa(tag);
    if tag in OpcodeTable then Success(OpcodeTable[tag])
    else Error(InvalidFormat(tag))
  }

  /** The string Python's `opcode` returns: the table row of a known tag,
      and otherwise the message naming the tag. */
  lemma OpcodeText(tag: string)
    ensures tag in OpcodeTable ==> Text(Opcode(tag)) == OpcodeTable[tag]
    ensures tag !in OpcodeTable ==> Text(Opcode(tag)) == "Invalid instruction " + tag + "-type "
  {
  }

  /** Nothing is lost by returning text: equal texts come from equal
      results. */
  lemma OpcodeTextLossless(a: string, b: string)
    ensures Text(Opcode(a)) == Text(Opcode(b)) ==> Opcode(a) == Opcode(b)
  {
    if Opcode(a).Error? {
      MessageIsNotAValue(Opcode(a).failure);
      if Opcode(b).Error? {
        MessageInjective(Opcode(a).failure, Opcode(b).failure);
      }
    }
    if Opcode(b).Error? {
      MessageIsNotAValue(Opcode(b).failure);
    }
  }

  /** The eight real formats get pairwise distinct opcode fields. */
  lemma OpcodesDistinct(f: Format, g: Format)
    requires f.IsReal() && g.IsReal()
    ensures Opcode(f.Tag()) == Opcode(g.Tag()) <==> f == g
  {
    ToBinaryInjective(IsaOpcode(f), IsaOpcode(g), 7);
  }

  /** Every opcode field in the table ends in "11", the mark of a 32-bit
      (non-compressed) RISC-V instruction. */
  lemma OpcodesEndIn11(f: Format)
    requires f.IsReal()
    ensures Opcode(f.Tag()).Success? && Opcode(f.Tag()).value[5..] == "11"
  {
    var op := IsaOpcode(f);
    assert Opcode(f.Tag()) == Success(ToBinary(op, 7));
    TwoLowBits(op, 7);
    assert op % 2 == 1 && (op / 2) % 2 == 1;
  }

  /** Strings that are not format tags are rejected, among them the ISA's own
      names I, B and J for the formats the table calls Il/Ii/Ij, SB and UJ. */
  lemma OpcodeRejects()
    ensures Opcode("I") == Error(InvalidFormat("I"))
    ensures Opcode("B") == Error(InvalidFormat("B"))
    ensures Opcode("J") == Error(InvalidFormat("J"))
    ensures Opcode("r") == Error(InvalidFormat("r"))
    ensures Opcode("") == Error(InvalidFormat(""))
  {
  }
}
