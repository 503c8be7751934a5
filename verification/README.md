# RISC-V assembler lookup tables, modelled in Dafny

This project models the static lookup layer of a simplified RISC-V assembler written in Python (`src/assembler.py`). The layer has three lookups, each a dictionary literal read with `.get`:

- `instruction` classifies a mnemonic into a format family. The families are R, Il, Ii, Ij (the I-type loads, immediate arithmetic and `jalr`), S, SB, UJ, U, and PS for the pseudo-instructions.
- `opcode` maps a format tag to the 7-bit opcode field, written as a string of `0`/`1` characters, most significant bit first.
- `register` maps `x0`..`x31` to the 5-bit register field, written the same way.

On a miss, each lookup returns an error message in place of a value.

## Structure

- `binary.dfy` (`Numerals`) defines fixed-width MSB-first binary numerals (`ToBinary`, `FromBinary`) and unpadded decimal numerals (`Decimal`, `ParseDecimal`). It proves the round trips between numerals and numbers, in both directions.
- `types.dfy` (`Types`) defines the `Format` families with their tag strings and a `Result` type. A failure is a `Failure` value whose `Message()` is the exact text the Python returns.
- `classifier.dfy` (`Classifier`) holds the mnemonic table as a map literal. It also lists the mnemonics of each family separately (`MnemonicsOf`) and proves the two agree.
- `opcodes.dfy` (`Opcodes`) holds the opcode table as a map literal. It also defines the base opcode of each format as a number (`IsaOpcode`, following the RISC-V base opcode map) and proves that every real format's row is that number's 7-bit numeral and that the PS row is "PS".
- `registers.dfy` (`Registers`) holds the register table as a map literal. It also defines a parser for register names (`RegisterIndex`) and proves that the table is exactly "parse the index, write it in 5-bit binary".
- `assembler.dfy` (`Assembler`) states what `opcode(instruction(m))` would return. No caller of the lookups appears in the source. Both lookups return plain text, so in that composition an error message from the classifier would reach the opcode table as if it were a tag.

The Python functions return one string for both outcomes. Here they return `Result`. `Types.Text` recovers the string the Python returns, and `Classifier.InstructionText`, `Opcodes.OpcodeText` and `Registers.RegisterText` state that string for each lookup. No information is lost in this change. A message identifies its failure (`Types.MessageInjective`), and it can never be confused with a tag, with "PS" or with a binary field (`Types.MessageIsNotAValue`). So equal texts come from equal results, as `Classifier.InstructionTextLossless`, `Opcodes.OpcodeTextLossless` and `Registers.RegisterTextLossless` state.

The comments at src/assembler.py:21-25 list expansions for `mv`, `li`, `j` and `la`, but no code performs them. The table tags the four as `PS` (src/assembler.py:79-82), and `opcode` maps "PS" to the text "PS" (src/assembler.py:99). The model follows the code.

## Model

| member | source | states |
|---|---|---|
| Classifier.Instruction | src/assembler.py:27-87 | A mnemonic is classified as family f exactly when it is one of f's listed mnemonics. It is rejected exactly when no family lists it, and the rejection names the mnemonic. |
| Classifier.InstructionTableIsMnemonicsOf | src/assembler.py:28-83 | The keys of the mnemonic table are exactly the mnemonics listed across all families, and each maps to the family that lists it. This holds in both directions. |
| Classifier.ListedMnemonicClassified | src/assembler.py:29-82 | Every mnemonic listed under a family is a key of the table and maps to that family. For example, lr.d and sc.d map to R. |
| Classifier.InstructionRejects | src/assembler.py:84-87 | "ADD" (mnemonics are case-sensitive) and the empty string are rejected with an error naming them. |
| Classifier.InstructionText | src/assembler.py:84-87 | The string `instruction` returns is the format tag of a classified mnemonic, and otherwise the message of the failure naming the mnemonic. |
| Classifier.InstructionTextIsTable | src/assembler.py:84-87 | The string `instruction` returns is the tag in a key's table row, and otherwise exactly "Invalid instruction '<m>'". |
| Classifier.InstructionTextLossless | src/assembler.py:84-87 | Two mnemonics with the same returned string have the same classification result, so the string loses nothing. |
| Opcodes.OpcodeText | src/assembler.py:101-104 | The string `opcode` returns is the table row of a known tag, and otherwise exactly "Invalid instruction <t>-type ". |
| Opcodes.OpcodeTextLossless | src/assembler.py:101-104 | Two tags with the same returned string have the same result, so the string loses nothing. |
| Opcodes.Opcode | src/assembler.py:89-104 | A tag is accepted exactly when it is one of the nine format tags. A real format gets the 7-bit MSB-first numeral of its base opcode. PS gets the text "PS". Any other tag is rejected, and the error names the tag. |
| Opcodes.OpcodeTableRow | src/assembler.py:90-100 | For each real format, the table row is a 7-character binary string whose value is that format's base opcode (0x33, 0x03, 0x13, 0x67, 0x23, 0x63, 0x6F, 0x37). The PS row is "PS". |
| Opcodes.OpcodeTableIsIsa | src/assembler.py:90-100 | The table has a row for every format tag and no other row. Each real format's row is the numeral of its base opcode, while the PS row is "PS". |
| Opcodes.OpcodesDistinct | src/assembler.py:90-98 | Two real formats share an opcode field exactly when they are the same format. |
| Opcodes.OpcodesEndIn11 | src/assembler.py:90-98 | Every real opcode field ends in "11", the mark of a 32-bit RISC-V instruction. |
| Opcodes.OpcodeRejects | src/assembler.py:101-104 | The ISA's own names I, B and J, a lower-case "r" and the empty string are not tags, and the error names them. |
| Registers.Register | src/assembler.py:112-150 | A name is accepted exactly when it is "x" followed by an unpadded decimal index below 32, and its code is the 5-bit MSB-first numeral of that index. Any other name is rejected with an error naming it. |
| Registers.RegisterText | src/assembler.py:147-150 | The string `register` returns is the table row of a known name, and otherwise exactly "Invalid register '<r>'". |
| Registers.RegisterTextLossless | src/assembler.py:147-150 | Two names with the same returned string have the same result, so the string loses nothing. |
| Registers.RegisterTableIsGenerated | src/assembler.py:113-146 | The register table holds exactly the names RegisterIndex accepts, each with the 5-bit numeral of its index. |
| Registers.RegisterIndexInverse | src/assembler.py:113-146 | Reading a name gives n exactly when n < 32 and the name is "x" followed by n in decimal. |
| Registers.RegisterEncodes | src/assembler.py:113-146 | For every n in 0..31, the name "x"+decimal(n) is encoded as the 5-bit numeral of n. |
| Registers.RegisterOnto | src/assembler.py:113-146 | Every 5-character binary string is the code of exactly one name, x followed by its value. So the encoder is onto the 5-bit fields, with a unique preimage. |
| Registers.RegisterInjective | src/assembler.py:113-146 | Two names that encode to the same field are the same name. |
| Registers.RegisterRejects | src/assembler.py:147-150 | The following are rejected with an error naming them: x32, the ABI aliases zero and sp, the padded x01, the upper-case X1, a bare x and the empty string. |
| Types.MessageInjective | src/assembler.py:84-87 | Distinct failures produce distinct messages, so the offending string can be read back from the text. The cited line pairs, 84-87, 101-104 and 147-150, are the three error returns. |
| Types.TagOfLossless | src/assembler.py:84-87 | A classification result can be read back from its text: equal texts mean equal results, because a tag names one format and a message names one failure. |
| Types.MessageIsNotAValue | src/assembler.py:101-104 | An error message is never a format tag, never "PS", and never a binary string, so it cannot be mistaken for a successful lookup. |
| Assembler.ChainedLookups | src/assembler.py:84-104 | When the classifier's text is fed to `opcode`, the result succeeds exactly when the classification succeeded, and it gives the family's opcode field. After a failed classification, `opcode` rejects the message itself as a tag. |
| Assembler.PseudoInstructions | src/assembler.py:79-82 | Exactly mv, li, j and la are classified as PS. Their opcode field is the text "PS", which is not a binary numeral. |
| Assembler.RealInstructionOpcodes | src/assembler.py:29-98 | Every mnemonic of a real family gets a 7-bit binary opcode field ending in "11". Two such mnemonics share an opcode field exactly when they belong to the same family. |
| Assembler.AtomicsGetOpOpcode | src/assembler.py:38-39 | lr.d and sc.d are classified as R, so their opcode field is 0110011 and not the AMO opcode of the atomic extension. |

## Left out

- `funct3`, `funct7` and `immediate` (src/assembler.py:106-110) have empty bodies, so the file as written does not parse. They have no behaviour to model, and no funct3/funct7 table or immediate encoding is invented here.
- The bit layouts of the formats (src/assembler.py:3-19) appear only in comments. No code assembles an instruction word from them, so there is no format encoder in the model.
- `src/main.py` is not part of this model. It parses command-line arguments, prints usage, and calls `reader`/`writer`, which no shown file defines. This is I/O and calls into code that is not shown.
- Reading and writing assembly files, and splitting lines into tokens, are not shown in the code and would be I/O.
- Python's `.get` accepts any hashable key. The model takes string keys only, because every table has only string keys, and any other key would miss.
