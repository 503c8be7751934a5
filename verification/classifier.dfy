/** The mnemonic classifier: a fixed table from mnemonic to format family. */
module Classifier {
  import opened Types

  const InstructionTable: map<string, Format> := map[
    "add" := R, "sub" := R, "sll" := R, "xor" := R, "srl" := R,
    "sra" := R, "or" := R, "and" := R, "lr.d" := R, "sc.d" := R,
    "lb" := Il, "lh" := Il, "lw" := Il, "ld" := Il, "lbu" := Il, "lhu" := Il, "lwu" := Il,
    "addi" := Ii, "slli" := Ii, "xori" := Ii, "srli" := Ii, "srai" := Ii, "ori" := Ii, "andi" := Ii,
    "jalr" := Ij,
    "sb" := S, "sh" := S, "sw" := S, "sd" := S,
    "beq" := SB, "bne" := SB, "blt" := SB, "bge" := SB, "bltu" := SB, "bgeu" := SB,
    "jal" := UJ,
    "lui" := U,
    "mv" := PS, "li" := PS, "j" := PS, "la" := PS
  ]

  /** The mnemonics of each format family, listed family by family. */
  function MnemonicsOf(f: Format): set<string> {
    match f
    case R => {"add", "sub", "sll", "xor", "srl", "sra", "or", "and", "lr.d", "sc.d"}
    case Il => {"lb", "lh", "lw", "ld", "lbu", "lhu", "lwu"}
    case Ii => {"addi", "slli", "xori", "srli", "srai", "ori", "andi"}
    case Ij => {"jalr"}
    case S => {"sb", "sh", "sw", "sd"}
    case SB => {"beq", "bne", "blt", "bge", "bltu", "bgeu"}
    case UJ => {"jal"}
    case U => {"lui"}
    case PS => {"mv", "li", "j", "la"}
  }

  /** Classifies a mnemonic: exactly the mnemonics listed for a family get
      that family's format, and every other string is rejected by name. */
  function Instruction(mnemonic: string): (r: Result<Format>)
    ensures forall f :: r == Success(f) <==> mnemonic in MnemonicsOf(f)
    ensures r.Error? <==> forall f :: mnemonic !in MnemonicsOf(f)
    ensures r.Error? ==> r.failure == InvalidInstruction(mnemonic)
  {
    InstructionTableIsMnemonicsOf(mnemonic);
    if mnemonic in InstructionTable then Success(InstructionTable[mnemonic])
    else Error(InvalidInstruction(mnemonic))
  }

  /** The string Python's `instruction` returns: the format tag of a
      mnemonic in the table, and otherwise the message naming it. */
  function InstructionText(mnemonic: string): (t: string)
    ensures forall f :: Instruction(mnemonic) == Success(f) ==> t == f.Tag()
    ensures Instruction(mnemonic).Error? ==> t == InvalidInstruction(mnemonic).Message()
  {
    Text(TagOf(Instruction(mnemonic)))
  }

  /** The same string, read straight off the table: the tag of a key's row,
      and otherwise "Invalid instruction '<m>'". */
  lemma InstructionTextIsTable(mnemonic: string)
    ensures mnemonic in InstructionTable ==> InstructionText(mnemonic) == InstructionTable[mnemonic].Tag()
    ensures mnemonic !in InstructionTable ==> InstructionText(mnemonic) == "Invalid instruction '" + mnemonic + "'"
  {
  }

  /** Nothing is lost by returning text: equal texts come from equal
      classification results. */
  lemma InstructionTextLossless(a: string, b: string)
    ensures InstructionText(a) == InstructionText(b) ==> Instruction(a) == Instruction(b)
  {
    TagOfLossless(Instruction(a), Instruction(b));
  }

  /** Mnemonics are case-sensitive, and the empty string is no mnemonic. */
  lemma InstructionRejects()
    ensures Instruction("ADD") == Error(InvalidInstruction("ADD"))
    ensures Instruction("") == Error(InvalidInstruction(""))
  {
    forall f: Format
      ensures "ADD" !in MnemonicsOf(f) && "" !in MnemonicsOf(f)
    {
      match f
      case R =>
      case Il =>
      case Ii =>
      case Ij =>
      case S =>
      case SB =>
      case UJ =>
      case U =>
      case PS =>
    }
  }

  // How the literal classifier table is checked against MnemonicsOf: each
  // family's rows are established by one lemma of literal facts, which keeps
  // every proof cheap, and a case split over the families combines them.

  /** Every key of the classifier table is listed under its own family. */
  lemma InstructionTableKeysListed()
    ensures forall m :: m in InstructionTable ==> m in MnemonicsOf(InstructionTable[m])
  {
  }

  /** A mnemonic listed under a family is classified as that family. */
  lemma ListedMnemonicClassified(f: Format, m: string)
    requires m in MnemonicsOf(f)
    ensures m in InstructionTable && InstructionTable[m] == f
  {
    match f
    case R => RowsOfR();
    case Il => RowsOfIl();
    case Ii => RowsOfIi();
    case Ij => RowsOfIj();
    case S => RowsOfS();
    case SB => RowsOfSB();
    case UJ => RowsOfUJ();
    case U => RowsOfU();
    case PS => RowsOfPS();
  }

  lemma RowsOfR()
    ensures forall m :: m in MnemonicsOf(R) ==> m in InstructionTable && InstructionTable[m] == R
  {
    assert InstructionTable["add"] == R;
    assert InstructionTable["sub"] == R;
    assert InstructionTable["sll"] == R;
    assert InstructionTable["xor"] == R;
    assert InstructionTable["srl"] == R;
    assert InstructionTable["sra"] == R;
    assert InstructionTable["or"] == R;
    assert InstructionTable["and"] == R;
    assert InstructionTable["lr.d"] == R;
    assert InstructionTable["sc.d"] == R;
  }

  lemma RowsOfIl()
    ensures forall m :: m in MnemonicsOf(Il) ==> m in InstructionTable && InstructionTable[m] == Il
  {
    assert InstructionTable["lb"] == Il;
    assert InstructionTable["lh"] == Il;
    assert InstructionTable["lw"] == Il;
    assert InstructionTable["ld"] == Il;
    assert InstructionTable["lbu"] == Il;
    assert InstructionTable["lhu"] == Il;
    assert InstructionTable["lwu"] == Il;
  }

  lemma RowsOfIi()
    ensures forall m :: m in MnemonicsOf(Ii) ==> m in InstructionTable && InstructionTable[m] == Ii
  {
    assert InstructionTable["addi"] == Ii;
    assert InstructionTable["slli"] == Ii;
    assert InstructionTable["xori"] == Ii;
    assert InstructionTable["srli"] == Ii;
    assert InstructionTable["srai"] == Ii;
    assert InstructionTable["ori"] == Ii;
    assert InstructionTable["andi"] == Ii;
  }

  lemma RowsOfIj()
    ensures forall m :: m in MnemonicsOf(Ij) ==> m in InstructionTable && InstructionTable[m] == Ij
  {
    assert InstructionTable["jalr"] == Ij;
  }

  lemma RowsOfS()
    ensures forall m :: m in MnemonicsOf(S) ==> m in InstructionTable && InstructionTable[m] == S
  {
    assert InstructionTable["sb"] == S;
    assert InstructionTable["sh"] == S;
    assert InstructionTable["sw"] == S;
    assert InstructionTable["sd"] == S;
  }

  lemma RowsOfSB()
    ensures forall m :: m in MnemonicsOf(SB) ==> m in InstructionTable && InstructionTable[m] == SB
  {
    assert InstructionTable["beq"] == SB;
    assert InstructionTable["bne"] == SB;
    assert InstructionTable["blt"] == SB;
    assert InstructionTable["bge"] == SB;
    assert InstructionTable["bltu"] == SB;
    assert InstructionTable["bgeu"] == SB;
  }

  lemma RowsOfUJ()
    ensures forall m :: m in MnemonicsOf(UJ) ==> m in InstructionTable && InstructionTable[m] == UJ
  {
    assert InstructionTable["jal"] == UJ;
  }

  lemma RowsOfU()
    ensures forall m :: m in MnemonicsOf(U) ==> m in InstructionTable && InstructionTable[m] == U
  {
    assert InstructionTable["lui"] == U;
  }

  lemma RowsOfPS()
    ensures forall m :: m in MnemonicsOf(PS) ==> m in InstructionTable && InstructionTable[m] == PS
  {
    assert InstructionTable["mv"] == PS;
    assert InstructionTable["li"] == PS;
    assert InstructionTable["j"] == PS;
    assert InstructionTable["la"] == PS;
  }

  /** The classifier table and the family lists agree, in both directions. */
  lemma InstructionTableIsMnemonicsOf(m: string)
    ensures m in InstructionTable <==> exists f :: m in MnemonicsOf(f)
    ensures forall f :: m in MnemonicsOf(f) ==> m in InstructionTable && InstructionTable[m] == f
  {
    InstructionTableKeysListed();
    forall f | m in MnemonicsOf(f)
      ensures m in InstructionTable && InstructionTable[m] == f
    {
      ListedMnemonicClassified(f, m);
    }
  }
}
