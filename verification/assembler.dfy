/** What `opcode(instruction(m))` returns: a mnemonic is classified, and
    the text that comes back is looked up in the opcode table. No caller of
    the two lookups appears in the source; since each returns plain text, a
    failed classification would reach the opcode table as a message in place
    of a tag. */
module Assembler {
  import opened Numerals
  import opened Types
  import opened Classifier
  import opened Opcodes

  /** The opcode field of a mnemonic: its format's opcode when the mnemonic
      is classified, and otherwise an error whose message quotes the
      classifier's own message. A failure is never mistaken for a format. */
  lemma ChainedLookups(mnemonic: string)
    ensures Opcode(InstructionText(mnemonic)).Success? <==> Instruction(mnemonic).Success?
    ensures forall f :: Instruction(mnemonic) == Success(f) ==>
      Opcode(InstructionText(mnemonic)) == Success(if f.IsReal() then ToBinary(IsaOpcode(f), 7) else "PS")
    ensures Instruction(mnemonic).Error? ==>
      Opcode(InstructionText(mnemonic)) == Error(InvalidFormat(InvalidInstruction(mnemonic).Message()))
  {
    match Instruction(mnemonic)
    case Success(f) =>
    case Error(e) =>
      MessageIsNotAValue(e);
  }

  /** Exactly mv, li, j and la are pseudo-instructions; their opcode field
      is the text "PS", which is not a binary numeral. */
  lemma PseudoInstructions(mnemonic: string)
    ensures Instruction(mnemonic) == Success(PS) <==> mnemonic in {"mv", "li", "j", "la"}
    ensures Instruction(mnemonic) == Success(PS) ==>
      Opcode(InstructionText(mnemonic)) == Success("PS") && !IsBinary("PS")
  {
    assert MnemonicsOf(PS) == {"mv", "li", "j", "la"};
    ChainedLookups(mnemonic);
    assert "PS"[0] == 'P';
  }

  /** Every other classified mnemonic gets a 7-bit binary opcode field
      ending in "11", and two mnemonics share that field exactly when they
      belong to the same format family. */
  lemma RealInstructionOpcodes(m1: string, m2: string, f1: Format, f2: Format)
    requires Instruction(m1) == Success(f1) && Instruction(m2) == Success(f2)
    requires f1.IsReal() && f2.IsReal()
    ensures IsBinary(Opcode(InstructionText(m1)).value) && |Opcode(InstructionText(m1)).value| == 7
    ensures Opcode(InstructionText(m1)).value[5..] == "11"
    ensures Opcode(InstructionText(m1)) == Opcode(InstructionText(m2)) <==> f1 == f2
  {
    ChainedLookups(m1);
    ChainedLookups(m2);
    OpcodesEndIn11(f1);
    OpcodesDistinct(f1, f2);
  }

  /** The atomic lr.d and sc.d are classified as R-type, so they get the OP
      opcode 0110011 (0x33) rather than the AMO opcode of the A extension. */
  lemma AtomicsGetOpOpcode()
    ensures Opcode(InstructionText("lr.d")) == Success("0110011")
    ensures Opcode(InstructionText("sc.d")) == Success("0110011")
  {
    ChainedLookups("lr.d");
    ChainedLookups("sc.d");
    assert "lr.d" in MnemonicsOf(R) && "sc.d" in MnemonicsOf(R);
    FiveBitNumeralsLow();
    assert ToBinary(0x33, 7) == ToBinary(25, 6) + "1" == ToBinary(12, 5) + "11";
  }
}
