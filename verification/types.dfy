/** Values shared by the lookup tables of the RISC-V assembler: the
    instruction-format families, the reasons a lookup fails, and the result
    of a lookup. */
module Types {
  import opened Numerals

  datatype Option<T> = None | Some(value: T)

  /** Why a lookup failed. Python's `instruction`, `opcode` and `register`
      return the message text in place of a result; Message() reproduces
      that text exactly. */
  datatype Failure =
    | InvalidInstruction(mnemonic: string)
    | InvalidFormat(tag: string)
    | InvalidRegister(name: string)
  {
    function Message(): string {
      match this
      case InvalidInstruction(m) => "Invalid instruction '" + m + "'"
      case InvalidFormat(t) => "Invalid instruction " + t + "-type "
      case InvalidRegister(r) => "Invalid register '" + r + "'"
    }
  }

  datatype Result<T> = Success(value: T) | Error(failure: Failure)

  /** Instruction-format families. Il, Ii and Ij are the I-type loads,
      immediate arithmetic and jalr; SB and UJ are what the RISC-V ISA calls
      B and J; PS marks the pseudo-instructions. */
  datatype Format = R | Il | Ii | Ij | S | SB | UJ | U | PS {
    /** The tag string Python's `instruction` returns for this format. */
    function Tag(): string {
      match this
      case R => "R"
      case Il => "Il"
      case Ii => "Ii"
      case Ij => "Ij"
      case S => "S"
      case SB => "SB"
      case UJ => "UJ"
      case U => "U"
      case PS => "PS"
    }

    /** A format with a real bit layout, as opposed to the pseudo-instructions. */
    predicate IsReal() {
      !PS?
    }
  }

  /** The string Python's lookups return: the value itself on success and
      the message on failure, both in the same string-typed result. */
  function Text(r: Result<string>): string {
    match r
    case Success(v) => v
    case Error(e) => e.Message()
  }

  /** A classification result with the format replaced by its tag, the
      shape of the string Python's `instruction` returns. */
  function TagOf(r: Result<Format>): Result<string> {
    match r
    case Success(f) => Success(f.Tag())
    case Error(e) => Error(e)
  }

  lemma {:induction false} AffixesStrip(prefix: string, x: string, suffix: string)
    ensures (prefix + x + suffix)[|prefix|..|prefix| + |x|] == x
  {
    assert (prefix + x + suffix)[|prefix|..|prefix| + |x|] == (prefix + x)[|prefix|..];
  }

  /** A message names its failure: distinct failures have distinct messages,
      so the offending key can be read back from the text. */
  lemma MessageInjective(e1: Failure, e2: Failure)
    ensures e1.Message() == e2.Message() <==> e1 == e2
  {
    var m1, m2 := e1.Message(), e2.Message();
    if m1 == m2 {
      match e1
      case InvalidInstruction(a) =>
        assert m1[|m1| - 1] == '\'';
        assert m1[8] == 'i';
        if e2.InvalidInstruction? {
          AffixesStrip("Invalid instruction '", a, "'");
          AffixesStrip("Invalid instruction '", e2.mnemonic, "'");
        }
      case InvalidFormat(t) =>
        assert m1[|m1| - 1] == ' ';
        assert m1[8] == 'i';
        if e2.InvalidFormat? {
          AffixesStrip("Invalid instruction ", t, "-type ");
          AffixesStrip("Invalid instruction ", e2.tag, "-type ");
        }
      case InvalidRegister(r) =>
        assert m1[8] == 'r';
        if e2.InvalidRegister? {
          AffixesStrip("Invalid register '", r, "'");
          AffixesStrip("Invalid register '", e2.name, "'");
        }
    }
  }

  /** A message can never be mistaken for a value a lookup returns: it is
      not a format tag, not "PS", and not a binary numeral. */
  lemma MessageIsNotAValue(e: Failure)
    ensures forall f: Format :: e.Message() != f.Tag()
    ensures !IsBinary(e.Message())
  {
    var m := e.Message();
    assert m[0] == 'I' && |m| > 2;
  }

  /** A classification result can be read back from its text: a tag names
      one format, and a message names one failure. */
  lemma TagOfLossless(r1: Result<Format>, r2: Result<Format>)
    ensures Text(TagOf(r1)) == Text(TagOf(r2)) ==> r1 == r2
  {
    if r1.Error? {
      MessageIsNotAValue(r1.failure);
    }
    if r2.Error? {
      MessageIsNotAValue(r2.failure);
    }
    if r1.Error? && r2.Error? {
      MessageInjective(r1.failure, r2.failure);
    }
  }
}
