# An 8080 toolchain, verified

This project models an Intel 8080 toolchain written in C and proves what its parts are for: a character-level lexer
that assigns addresses and resolves labels, an encoder from lexed lines to instruction words, a linear-sweep
disassembler, and a processor with a cycle-budgeted run loop. `dafny verify dfyconfig.toml` checks all of it.

The main results are those that cross the stages.

- **Lexing undoes printing** (`RoundTrip.LexingUndoesPrinting`, `RoundTrip.ReadAsMeantExactly`). For every well-formed
  program, lexing its text succeeds in the room guessed for it and yields its lines one for one; and exactly when they
  are read as they are meant, data, registers and addresses included.
- **Comments change nothing** (`RoundTrip.LexingSkipsComments`, `RoundTrip.CommentsAddNothing`). With comment lines,
  blank lines and indentation anywhere, the same lines come out, but for their numbers.
- **Refusal is exact** (`Statements.RefusedExactly`, `Words.KindOfWord`). Whatever follows a mnemonic, its line is an
  error that the assembler stops at exactly when the kinds of the words that follow do not fit.
- **Addresses agree** (`Contiguity.ImageLayout`). For every source that is lexed and assembled without an error, the
  emitted bytes lie without gap or overlap exactly when DS, END, ORG and SET, which the two stages size differently,
  cancel out in front of every line that emits something.
- **Labels resolve** (`Labels.LabelsResolve`, `Labels.ResolvesToItsLabel`). A name resolves forwards and backwards to
  the first label that begins with it; that is its own label exactly when no earlier label begins with it.
- **The sweep inverts assembly** (`Disassembler.SweepInverts`, `Compiler.AssembledListing`), operands as written, exactly
  for the lines whose row in the disassembler is right, and of the jumps those below 256.
- **The disassembler against the manual** (`ManualRows.RowsExactly`, `ManualRows.SweepExactly`). All 256 rows, and the
  sweep over any image, are those of Intel's manual exactly outside a list of bytes, whose rows are stated.
- **The emulator against the manual** (`Conformance.ConformsExactly`, `StepTable`). For each opcode and every machine the
  exact condition under which a step is the manual's; and where it is not, what it is. The flags and the time of every
  opcode are stated too.
- **Execution means the source** (`Toolchain.SourceRuns`). The text of a straight-line program, lexed, assembled and
  loaded, executes line by line as it is written, and the program counter follows the lexer's addresses.
- **Branches too** (`Control.SourceFlows`). For any source whose calls, jumps and returns lead from line to line, the
  emulator goes from line to line with it. `Landing` and `Control.ReachesTarget` say where each assembled branch really
  goes, and when that is where it was sent.
- **The stack is kept** (`Stack.Balanced`, `Stack.ReturnsMatchCalls`) over whole runs, to any depth of nesting.
- **The budget is kept** (`Budget.EndsExactly`, `Budget.BudgetEnds`, `Budget.BudgetKept`). The run loop ends exactly
  when it reaches no trap of instructions that take no time.

## How it is laid out

| files | part |
|---|---|
| `Bits`, `Parity`, `CpuSpec`, `Cpu` | bitwise operators as arithmetic, the parity routines, one instruction as a function on a state, and the processor object that refines it |
| `Manual`, `EmulatorRows`, `Conformance`, `StepTable` | the instruction set of Intel's manual by the fields of the opcode byte, and the emulator's step against it |
| `Stack`, `Partners`, `Budget`, `Pairs`, `FlagRules` | whole runs: stack discipline, pushes and pops that are not inverse, the run loop, 16-bit arithmetic; and when accumulator and flags are right |
| `Opcodes`, `Source`, `LexSpec`, `Lexer` | tables, lexed lines, lexing as functions of text and position, and the lexer object that refines them |
| `Words`, `Statements` | the words of the language, and which operands a statement takes |
| `Scanning`, `Literals`, `Printer`, `Readback`, `RoundTrip`, `Capacity` | reading back what was printed, and the room it takes |
| `Vectors`, `ByteList`, `Encoding`, `Assembler`, `Layout8080` | growable vectors, the linked byte list, the encoders, the assembler object, and the layout of the Intel "8080 Assembly Language Programming Manual", chapter 2 |
| `Addresses`, `Contiguity`, `Labels`, `Examples`, `Landing` | where lines are placed, what symbols mean, sources that go wrong, and where assembled calls and jumps go |
| `Disassembler`, `ManualRows` | the table from bytes to text, and its rows against the manual's |
| `Meaning`, `Running`, `Compiler`, `Toolchain`, `Control` | what lines mean, and from text to execution |

Objects whose C functions update them are classes, and each of their methods is proved equal to a function on values;
the theorems are about those functions.

## What the model says of the code

The model follows the code wherever the code and what it is meant for differ. For each of these differences a lemma
says exactly when what is meant still holds, or shows that it never does.

- The final step of the program counter also applies after jumps and calls, so they land one past their target; a call
  and its return still resume at the call plus 3 (`Landing.CallGoes`, `Stack.ReturnsToCaller`).
- `Parity2` masks with `&&` (`Parity.Parity2Agreement`). The flag it sets after arithmetic says whether the low byte is
  zero (`Parity.ParityFlagsCompared`).
- The high byte of an assembled jump target is or-ed into the low byte's place, LDAX is assembled with 8 for 0xA, and
  PUSH and POP with three bits of the register instead of two of the pair (`Layout8080.IntelExactly`).
- JP and CP read their operand high byte first, CP does not push, JZ does, and CZ, JZ, JNC, JP and CP do not step over
  an operand that they do not use (`Landing.JumpLands`, `Landing.JzCalls`, `Landing.NotTaken`).
- Sixteen rows of the disassembler have a wrong length, name or register: LXI D, RAL, DAD D, LDAX D, DCX D, INR E, STA,
  INX SP, INR M, DCR M, MVI M, MOV E,A, RNC, SBI, RST 3 and JPO; and the twelve bytes that are no instruction have rows
  all the same (`ManualRows.RowsExactly`).
- A symbol behind a register drops the register. A number in a DW is kept as one byte, and a symbol among data is kept
  apart and emits nothing. A DS counts one byte. A printed line is stored with the number of the next, as the counter
  moves on arriving at the newline (`RoundTrip.KeptIsMeant`, `RoundTrip.ReadAsMeantExactly`, `Examples.DwIsOneByte`).
- A data line with a comment, a tab or more than one space behind its arguments reads on: a comment makes it an error,
  and blanks let it take in what stands on the next line (`Readback.DataExactly`, `Examples.BlanksTakeNextLine`).
- SBI is entered in the table as SBB, so it is lexed as a label (`Opcodes.SbiUnknown`).
- Symbols are compared over the length of the name looked up only (`Labels.ResolvesToItsLabel`,
  `Examples.LongerLabelWins`).
- DS is counted as one byte and emits none. END, ENDIF, ENDM, IF, MACRO, ORG and SET are stored under numbers that read
  back as ACI, ADC, ADD, ANA, AND, ANI and CALL, and are assembled as those (`Words.DirectiveBytes`,
  `Contiguity.ImageLayout`, `Examples.DsLeavesGap`, `Examples.DirectiveSource`).
- The source comment says that the number of newlines is always room enough (`Capacity.GuessExact`,
  `Capacity.TwoOnOneLine`).
- Removing the last of several list nodes by index goes through a missing successor (`ByteLists.ByteList.RemoveIdx`).
- MOV B,D copies C (`Running.MovBDCopiesC`). PUSH B, POP D and POP PSW do not match their partners (`Partners`).
- ADC adds the carry it has just made, SBB its own borrow or none, ORA A clears, comparisons complement, and the memory
  forms but ADD M use HL itself (`FlagRules.AccumulatorExactly`). The logic group does not set the zero flag
  (`FlagRules.LogicZero`), arithmetic leaves the auxiliary carry alone, and the parity flag is set for zero after
  arithmetic and for odd parity after logic (`FlagRules.ParityExactly`). `Meaning` takes these flags over from the
  emulator; `Meaning.ArithmeticFlags` and `Meaning.LogicalFlags` say when they are those of the 8080.
- INR and DCR set the carry, INR H counts HL, and INR M and DCR M do not count memory (`FlagRules.InrCarry`,
  `FlagRules.DcrCarry`, `FlagRules.DcrByteCarry`, `FlagRules.InrHCountsHL`, `FlagRules.CountMKeepsMemory`).
- LXI B, LXI SP, LHLD, STA, SBI, CPI and IN end at the wrong place, DCX H counts up, RLC and RRC are not rotations, ADI
  keeps the high byte of its sum, and XTHL stores through what it reads (`Conformance.ConformsExactly`, `StepTable`).
  All moves but those to memory, MOV L,M and MOV A,M are given more time than they take (`StepTable.TimesExactly`).
- A mnemonic that the parser does not know, as NOP, and a statement that begins with a number, a register or a string
  are no error to the lexer, which keeps a line without an instruction for each (`Statements.NotParsedDropped`,
  `Statements.OtherStatements`). Behind MVI and LXI a symbol is taken whatever is written for the register
  (`Statements.RefusedExactly`).
- Words are cut after 63 characters and strings after 62 (`Scanning.LongWordCut`, `Scanning.LongStringCut`), and an
  empty first line is not counted (`RoundTrip.LexingSkipsComments`).
- 0x08 and RST 0 take no time, so the run loop need not end (`Budget.EndsExactly`).

Reads and stores past 64K wrap around. The text past its end reads as NUL. Integers are unbounded but where the C type
shows: bytes, 16-bit words, 32-bit instruction words and the cast of a literal to `int` are written out.

## Model

| member | source | states |
|---|---|---|
| Parity.Parity | src/cpu.h:58-71 | the loop that clears the lowest set bit returns the number of set bits, in exactly as many turns as there are |
| Parity.ClearLowestBit | src/cpu.h:64-68 | `x & (x - 1)` is smaller than x and has exactly one set bit less |
| Parity.ShiftLoop | src/cpu.h:79-85 | the shift loop answers 1 exactly when the set bits among the low ones are even in number |
| Parity.Parity2 | src/cpu.h:73-86 | as written, for every `int` and width, it answers 1 exactly for zero or at width zero |
| Parity.Parity2Meant | src/cpu.h:73-86 | with the mask meant bitwise, for every `int` and width, it answers 1 exactly when the masked bits are even in number |
| Parity.Parity2AsWritten | src/cpu.h:73-86 | as written it only tells zero (or width zero) from everything else, at every width and value |
| Parity.Parity2AsMeant | src/cpu.h:73-86 | the bitwise mask keeps the low bits, of a negative number in two's complement, and the loop counts them |
| Parity.Parity2Agreement | src/cpu.h:73-86 | the written and the meant routine agree exactly on zero, at width zero and where the masked bits are odd in number |
| Parity.ParityFlagsCompared | src/cpu.h:89-104 | after arithmetic the flag says whether the low byte is zero; it agrees with the logic group's flag exactly on the non-zero bytes of even bit count |
| Cpus.Cpu.Exec | src/cpu.c:105-1695 | one call changes registers, flags, memory and program counter exactly as the step on values, and returns its time, -1 or -2 |
| Cpus.Cpu.ExecRow0 | src/cpu.c:113-236 | opcodes 0x00-0x0F, each against its effect on values |
| Cpus.Cpu.ExecRow1 | src/cpu.c:234-300 | opcodes 0x10-0x1F, DCX D's 32-bit borrow included |
| Cpus.Cpu.ExecRow2 | src/cpu.c:298-420 | opcodes 0x20-0x2F, with 0x24 and 0x2B on the whole of HL as coded |
| Cpus.Cpu.ExecRow3 | src/cpu.c:418-530 | opcodes 0x30-0x3F |
| Cpus.Cpu.ExecMov | src/cpu.c:532-840 | the MOV group, 0x42 copying C and 0x76 halting |
| Cpus.Cpu.ExecArith | src/cpu.c:842-1111 | ADD, ADC, SUB and SBB in all their forms |
| Cpus.Cpu.ExecLogic | src/cpu.c:1113-1352 | ANA, XRA, ORA and CMP in all their forms |
| Cpus.Cpu.ExecRowC | src/cpu.c:1355-1521 | opcodes 0xC0-0xCF: POP B, jumps, calls, returns and resets |
| Cpus.Cpu.ExecRowD | src/cpu.c:1523-1568 | opcodes 0xD0-0xDF |
| Cpus.Cpu.ExecRowE | src/cpu.c:1570-1602 | opcodes 0xE0-0xEF, XTHL as coded |
| Cpus.Cpu.ExecRowF | src/cpu.c:1604-1690 | opcodes 0xF0-0xFF, with the flag byte packed and unpacked as coded |
| Cpus.Cpu.ArithSetFlags | src/cpu.h:89-95 | the four flags after a 16-bit result, `ac` untouched |
| Cpus.Cpu.LogicSetFlags | src/cpu.h:97-103 | carry and `ac` cleared, sign and parity from the accumulator, zero untouched |
| Cpus.Cpu.Trap | src/cpu.c:44-51 | an unimplemented opcode puts the program counter back by one and changes nothing else |
| Conformance.ConformsExactly | src/cpu.c:105-1695 | for every machine whose next instruction does not leave the line of execution, stop, read a device or adjust for decimals: registers, memory and program counter are left as Intel's manual has it for the instruction's fields exactly when a stated condition holds beforehand, opcode by opcode |
| StepTable.FlagTable | src/cpu.c:105-1695 | the flags after every step of any opcode, as numbers say them; every opcode not named leaves them alone |
| StepTable.CycleTable | src/cpu.c:105-1695 | every call returns the manual's states for the instruction's operands and for its condition met or not, but for the moves and six opcodes, -1 at an opcode that is not implemented and -2 at HLT |
| StepTable.TimesExactly | src/cpu.c:105-1695 | an implemented instruction takes the manual's states exactly when it is no move but the stores, MOV L,M and MOV A,M, and none of SBB M, ANA M, ADI, RST 0 and XTHL |
| StepTable.AluTable | src/cpu.c:842-1352 | every opcode of the accumulator group changes accumulator and flags alone, to the numbers stated for its row and register |
| StepTable.JumpTable | src/cpu.c:1364-1534 | JNZ, JMP and JNC: taken, they go one past the word behind the opcode, JNZ for z clear; not taken, JNZ steps over its operand and JNC goes on inside it |
| StepTable.SwappedJumps | src/cpu.c:1619-1640 | JP and CP go by the parity flag, one past their operand read high byte first, and else inside it |
| StepTable.CallTable | src/cpu.c:1379-1521 | CALL, CNZ, CZ, JZ, RET and RZ, taken and not, and RST 0 and RST 1 |
| StepTable.IdleTable | src/cpu.c:44-51 | what is not implemented steps back by one, HLT stays, and the bytes that are no instruction and are implemented step on by one |
| StepTable.WrongLoadWords | src/cpu.c:115-434 | LXI B and LXI SP load from one byte too far on, and end at the wrong place |
| StepTable.WrongLoads | src/cpu.c:361-444 | LHLD and STA take one byte for their address |
| StepTable.WrongCounts | src/cpu.c:320-471 | DCX H counts up; INR H, INR M and DCR M count HL |
| StepTable.WrongMoves | src/cpu.c:163-227 | RLC and RRC keep the bit they should move, and MOV B,D copies C |
| StepTable.WrongImmediates | src/cpu.c:1405-1668 | ADI keeps the high byte, ACI adds the carry it makes, SBI does nothing, CPI stays where it is, and IN skips a byte too many |
| StepTable.WrongStack | src/cpu.c:1397-1653 | PUSH B, PUSH PSW with its own order of flags, POP D, POP PSW and XTHL, which stores through the bytes it reads |
| Stack.StepFrame | src/cpu.c:105-1695 | any instruction but those that move the stack pointer keeps it, and changes no byte outside the addresses listed for its opcode |
| Stack.CallEffect | src/cpu.c:1379-1395 | a CALL, or a CNZ or CZ taken, keeps every byte from the stack pointer on, pushes two bytes below it, and lands one past its target |
| Stack.PushEffect | src/cpu.c:1552-1560 | PUSH D, H and PSW keep every byte from the stack pointer on and move it down by two |
| Stack.CloseEffect | src/cpu.c:1355-1362 | POP B and RET move the stack pointer up by two, round the end of memory too, and touch no memory |
| Stack.Balanced | src/cpu.c:1355-1501 | every run nested as CALL…RET and PUSH…POP B, to any depth that fits below the stack pointer, restores it and keeps every byte from it on |
| Stack.ReturnsToCaller | src/cpu.c:1430-1501 | the RET of such a run resumes at its call site plus 3 |
| Stack.ReturnsMatchCalls | src/cpu.c:1430-1501 | the same for every call and return nested anywhere in the run |
| Partners.PushBPopB | src/cpu.c:1355-1403 | PUSH B and POP B restore B, and C exactly when the byte two below the stack pointer was C already; the byte at the stack pointer is lost |
| Partners.PushDPopD | src/cpu.c:1523-1560 | PUSH D and POP D restore E, and D exactly when the byte three below the stack pointer held D already |
| Partners.PushPswPopPsw | src/cpu.c:1604-1653 | PUSH PSW and POP PSW restore the accumulator, the flags exactly when carry is set just if zero and parity both are, and never the stack pointer |
| Landing.CallGoes | src/cpu.c:1379-1501 | a taken CALL, CNZ, CZ or JZ leaves a return address that leads to the call plus 3, and lands one past its operand exactly when its own pushes do not change the operand |
| Landing.CallLands | src/cpu.c:1379-1501 | in every source whose labels do not begin one another a taken call of a label, forward or backward, lands one past the line that carries it, under the same exact condition |
| Landing.JumpGoes | src/cpu.c:1364-1636 | on the fetched bytes, JMP, JNZ with z clear and JNC with the carry clear go one past the operand, JP and CP with the parity flag set one past it with its bytes swapped |
| Landing.JumpLands | src/cpu.c:1374-1636 | taken, JMP and JNC land one past their target exactly when it lies in the first 256 bytes, JP exactly when it is a multiple of 256, and CP, which does not push, exactly when its two bytes are equal |
| Landing.JzCalls | src/cpu.c:1438-1450 | JZ taken is a call: it pushes, and lands one past its target exactly when the two bytes behind its opcode, after its own pushes, are those of the target; if they survive the pushes, exactly when the target lies in the first 256 bytes |
| Landing.NotTaken | src/cpu.c:1364-1636 | not taken, JNZ and CNZ step over their operand, and CZ, JZ, JNC, JP and CP go on inside it |
| Landing.NotImplemented | src/cpu.c:1684-1690 | the remaining calls, jumps and returns that are assembled are trapped |
| FlagRules.AccumulatorExactly | src/cpu.c:842-1352 | for each of the 64 opcodes of the accumulator group and every state, the right accumulator is left exactly when a stated condition holds beforehand |
| FlagRules.LogicZero | src/cpu.h:97-103 | after ANA, XRA and ORA that leave the right accumulator the zero flag is right exactly when it already told whether the result is zero |
| FlagRules.ParityExactly | src/cpu.h:89-104 | after ADD, and SUB of a register, the parity flag is the even parity it is meant to be exactly for zero and for results of an odd number of bits; after the logic instructions that set it from their result, never |
| Meaning.ArithmeticFlags | src/cpu.h:89-95 | the flags of the meaning after arithmetic are those of the 8080 exactly when the result is zero or its bits are odd in number, and the auxiliary carry was right already |
| Meaning.LogicalFlags | src/cpu.h:97-103 | after logic the parity flag of the meaning is never that of the 8080, and the other flags are exactly when the zero flag was right already |
| FlagRules.InrCarry | src/cpu.c:198-521 | INR of C, L and A keeps the carry exactly when it was set just if the register overflows |
| FlagRules.DcrCarry | src/cpu.c:207-521 | DCR of C, H, L and A keeps the carry exactly when it was set just if the register was zero |
| FlagRules.DcrByteCarry | src/cpu.c:146-296 | DCR of B and E keeps the carry exactly when it was clear |
| FlagRules.InrHCountsHL | src/cpu.c:320-330 | INR H counts all of HL and never does what it means |
| FlagRules.CountMKeepsMemory | src/cpu.c:447-471 | INR M and DCR M leave the cell HL points at alone |
| Budget.StepCost | src/cpu.c:105-1695 | every step reports -2 exactly at HLT, -1, no time exactly at 0x08 and RST 0, or 4 to 17 cycles |
| Budget.Run | src/cpu.c:78-99 | watched for any number of turns, the loop has ended exactly when the budget is used up or a status is negative; it leaves the machine as its turns in steps do and returns the last status |
| Budget.FirstStop | src/cpu.c:83-95 | the loop ends after some number of turns whenever some step uses up the budget or reports a negative status |
| Budget.StopsOnce | src/cpu.c:83-95 | and after one number of turns only |
| Budget.BudgetEnds | src/cpu.c:78-99 | for every positive budget and every machine that meets no zero-cost opcode, the loop ends within a quarter of the budget, rounded up |
| Budget.BudgetKept | src/cpu.c:83-98 | a normal exit is reached with at most 16 cycles over; otherwise the last status is the first negative one and the budget was not yet reached |
| Budget.TrapKept | src/cpu.c:172-173 | 0x08 everywhere, or an RST 0 next both here and from address 1, is a trap: its steps take no time and stay in it |
| Budget.EndsExactly | src/cpu.c:78-99 | for every machine and positive budget the loop ends exactly when it reaches no such trap before the budget is used |
| Budget.NopsNeverEnd | src/cpu.c:172-173 | with 0x08 all over the memory the loop ends for no positive budget |
| Pairs.AfterInx | src/cpu.c:135-323 | one INX adds one to its pair modulo 64K, on the word for BC and SP and byte by byte for DE and HL, and keeps the other pairs |
| Pairs.InxRun | src/cpu.c:135-323 | n INX in a row add n modulo 64K to the pair and keep the other pairs, accumulator, flags and memory |
| Pairs.DadRun | src/cpu.c:175-187 | over n DAD B in a row HL + n·BC is the new HL plus 65536 times the number of steps that set the carry |
| Opcodes.FindMnemonic | src/opcode.c:352-367 | the loop answers the code of the first entry with the name, or the table's blank code |
| Opcodes.FindFirst | src/opcode.c:352-367 | a name that is in a table is found at its first entry |
| Opcodes.FindNone | src/opcode.c:352-367 | a name that no entry has gives the blank code |
| Opcodes.NamesFound | src/opcode.c:17-108 | every mnemonic but SBI and OUT is found under its own name |
| Opcodes.NotADirective | src/opcode.c:17-108 | no mnemonic is also a directive's name |
| Opcodes.UnknownName | src/opcode.c:352-367 | a name that begins like no entry's is no instruction |
| Opcodes.SbiUnknown | src/opcode.c:17-108 | SBI is no entry's name, so it reads as a label |
| Words.MnemonicWord | src/opcode.c:17-91 | each mnemonic but SBI and OUT, spelled out letter by letter, is one word, is classified as an instruction and is looked up as that mnemonic |
| Words.DirectiveWord | src/opcode.c:94-105 | each of the eight directives, spelled out, is one word, is classified as a directive and is looked up as that directive |
| Words.KindOfWord | src/lexer.c:546-701 | every word is a literal if it begins with a digit, a register, directive or instruction if it is spelled as one, and else a label |
| Words.DirectiveStatement | src/lexer.c:1078-1145 | a statement that begins with a directive leaves a line with the instruction stated for it, none for EQU, counts one byte, and leaves what follows the word |
| Words.DirectiveBytes | src/assembler.c:528-702 | such a line is assembled to CE 00 for END, 88 for ENDIF, 80 for ENDM, A0 for IF, E6 00 for ORG and CD 00 00 for SET, and to an error exactly for EQU and MACRO |
| Examples.DirectiveSource | src/lexer.c:1078-1145 | a source of nothing but a directive, for each of the eight: its one line and its bytes |
| Lexers.Lexer.LoadSource | src/lexer.c:244-319 | loads a text and makes room for as many lines and symbols as it has newlines |
| Lexers.Lexer.Advance | src/lexer.c:324-338 | one motion keeps the cursor invariant: current character at the position, line one plus the newlines passed |
| Lexers.Lexer.SkipWs | src/lexer.c:379-383 | stops at the first character that is not white space, with the invariant kept |
| Lexers.Lexer.SkipCommentLine | src/lexer.c:388-395 | stops behind the newline that ends the comment; CommentSkipped says where that is on the text |
| Lexers.Lexer.FillString | src/lexer.c:431-445 | takes the characters up to the closing quote or the end of the buffer |
| Lexers.Lexer.FillWord | src/lexer.c:447-472 | takes the characters up to a separator or the end of the buffer |
| Lexers.Lexer.Scan | src/lexer.c:426-479 | leaves the scanned text in the buffer and the cursor past one separator |
| Lexers.Lexer.Next | src/lexer.c:546-701 | the next token, classified, and the cursor after it |
| LexSpec.NextToken | src/lexer.c:546-701 | a token with any text moves the cursor forward; it has no kind exactly when it has no text |
| Lexers.Lexer.ExtractLiteral | src/lexer.c:502-541 | the value of the literal in the buffer, in the base its suffix chooses |
| Lexers.Lexer.ScanDigits | src/lexer.c:485-515 | the length of the leading run of literal characters |
| Lexers.Lexer.ParseReg | src/lexer.c:706-724 | stores the register; accepted exactly for a register token |
| Lexers.Lexer.ParseRegs | src/lexer.c:729-761 | stores both registers; accepted exactly for two register tokens |
| Lexers.Lexer.ParseRegImmediate | src/lexer.c:766-807 | register and immediate, or the symbol alone when the second operand is one |
| Lexers.Lexer.ParseImmediate | src/lexer.c:812-873 | an immediate or a symbol, anything else refused |
| Lexers.Lexer.ParseDataArgument | src/lexer.c:878-921 | appends a literal's byte or a string's characters with their zero, or keeps a symbol |
| Lexers.Lexer.ParseDataLine | src/lexer.c:926-952 | collects arguments until one is refused, the text ends or the line counter moves on; it terminates |
| Lexers.Lexer.Statement | src/lexer.c:1078-1281 | the directive or instruction of a line, its operands and its size |
| Statements.RefusedExactly | src/lexer.c:706-873 | for every mnemonic with one or two operands and any text behind it: the line is an error, keeps no instruction and is not accepted by the assembler exactly when the kinds of the next one or two tokens do not fit |
| Statements.OneOperandRefused | src/lexer.c:706-873 | the same for any operand word or string written behind a mnemonic of one operand |
| Statements.TwoOperandsRefused | src/lexer.c:729-807 | the same for any two behind MOV, MVI and LXI |
| Statements.DataRefusedExactly | src/lexer.c:926-952 | a data line is an error and not accepted exactly when one of its tokens is no number, string or symbol |
| Statements.BareTaken | src/lexer.c:1201-1252 | a mnemonic without operands is taken as it stands |
| Statements.NotParsedDropped | src/lexer.c:1267-1277 | a mnemonic the parser has no case for leaves a line without an instruction and without an error, which the assembler refuses |
| Statements.OtherStatements | src/lexer.c:1021-1290 | a statement that begins with a number, a register or a string leaves such a line too, and nothing at all is an error |
| Lexers.Lexer.AddSymbol | src/lexer.c:108-119 | adds a symbol if there is room, and reports when there is none |
| Lexers.Lexer.AddLine | src/source.c:485-498 | adds a line if there is room, and reports when there is none |
| Lexers.Lexer.Line | src/lexer.c:1021-1299 | one line lexed: the line stored, its symbol, the address counted on, and the status of storing it |
| Lexers.Lexer.GetSymbol | src/lexer.c:150-163 | the first symbol that begins with the name, or none |
| Lexers.Lexer.ResolveLabels | src/lexer.c:986-1016 | every line that names a found symbol gets its address for immediate, and no other line changes |
| Lexers.Lexer.All | src/lexer.c:1304-1336 | lexes the whole text as the function on values does, keeping the cursor invariant; it terminates, for every text in which each comment that the loop comes to ends with a newline |
| Literals.LiteralRead | src/lexer.c:485-541 | every natural number, in decimal or in hexadecimal with H in either case, reads back as that number cast to `int`, from 2^63 on as -1, and the digit scan stops where the digits end |
| Literals.HexadecimalRead | src/lexer.c:502-541 | digits in front of an H are hexadecimal, whatever follows |
| Literals.DecimalRead | src/lexer.c:502-541 | without an H behind them, digits and letters read as the decimal number they begin with |
| Literals.LiteralRoundTrip | src/lexer.c:485-541 | it reads back as itself exactly when it is in the range of `int` |
| Literals.PrefixReadsZero | src/lexer.c:502-541 | a literal with the prefix 0x reads as zero, whatever its digits |
| Literals.LiteralToken | src/lexer.c:546-701 | such a literal is one word and is classified as a literal |
| Scanning.WordRead | src/lexer.c:426-479 | a word is read whole wherever it stands, in front of white space, a comma, an exclamation mark or a comment, and the cursor passes one comma or space behind it |
| Scanning.ColonRead | src/lexer.c:463-479 | a colon behind a word and one separator behind the colon are passed |
| Scanning.LabelRead | src/lexer.c:463-479 | the colon behind a label and one space behind it are passed |
| Scanning.LongWordCut | src/lexer.c:447-472 | a word of more than 62 characters is cut after 63, and the rest begins the next token |
| Scanning.StringRead | src/lexer.c:431-445 | a string of at most 62 characters is read up to its closing quote |
| Scanning.LongStringCut | src/lexer.c:431-445 | a string of more than 62 characters is cut after 62, and one character is lost for its quote |
| Scanning.NewlinesOverLine | src/lexer.c:324-338 | over one line of text the line counter moves on arriving at its newline, and not before |
| Readback.MnemonicToken | src/lexer.c:546-701 | the name of every accepted mnemonic but SBI is one word and reads as that instruction |
| Readback.RegisterToken | src/source.c:381-419 | the name of every register, SP and PSW included, reads as that register |
| Readback.ArgRead | src/lexer.c:546-701 | a printed operand in front of any of these reads as its own token |
| Readback.OperandsRead | src/lexer.c:706-873 | the printed operands of a statement without data are read into their places, and the cursor stops behind them |
| Readback.DataRead | src/lexer.c:926-952 | every argument of a printed data line is read, in order, and none of the next line |
| Readback.DataExactly | src/lexer.c:926-952 | for every data line with blanks, and perhaps a comment, behind its arguments: all its arguments and nothing of the next line are read exactly when nothing but at most one space stands there; else a comment makes it an error, and behind blanks the cursor goes over the newline |
| Examples.BlanksTakeNextLine | src/lexer.c:926-952 | `DB 1` with two blanks behind it takes in the RET of the next line: the text lexes to one erroneous line |
| RoundTrip.LineRead | src/lexer.c:1021-1299 | a printed line is lexed to its label, mnemonic, operands, address and size |
| RoundTrip.CommentSkipped | src/lexer.c:388-395 | where a semicolon or a number sign, any text and a newline stand, the main loop goes on as from behind that newline |
| RoundTrip.LoopReadsItem | src/lexer.c:1304-1336 | from in front of a line of text, a program line, blank or a comment, the main loop comes in front of the next |
| RoundTrip.OneNewlineALine | src/lexer.c:285-299 | the room guessed for a text is one place for each of its lines |
| RoundTrip.LexingSkipsComments | src/lexer.c:1304-1336 | for every text of program lines, indented or not, comment lines and blank lines: there is room, lexing succeeds, and it yields the program lines in order and nothing else, each at its address and numbered by the lines of text passed |
| RoundTrip.CommentsAddNothing | src/lexer.c:1304-1336 | but for those numbers the lines are those of the program in the text, printed alone |
| Examples.CommentThenRet | src/lexer.c:388-395 | a comment line in front of a RET leaves the RET whole |
| RoundTrip.LexingUndoesPrinting | src/lexer.c:1304-1336 | for every well-formed program lexing its text succeeds in the guessed room and yields its lines one for one, each as the lexer keeps it and numbered with the next line's number, with its symbol resolved among all labels |
| RoundTrip.KeptIsMeant | src/lexer.c:766-952 | a line is kept as it is meant, but numbered one too high, exactly when it has no symbol behind a register, no symbol among data and no number in a DW |
| RoundTrip.ReadAsMeantExactly | src/lexer.c:1152-1290 | every line of a program is read as it is meant, at the address it is meant to have and numbered one too high, exactly when each line is one of those and every DS but one at the end is of one byte |
| RoundTrip.AddressesMeant | src/lexer.c:1152-1290 | the addresses up to a line are the meant ones exactly when each line before it is counted with the bytes it stands for |
| Examples.DwIsOneByte | src/lexer.c:1254-1259 | `DW 1` is given one byte, the line behind it lies one too low, and the first line is numbered 2 |
| Capacity.NewlinesCounted | src/lexer.c:285-299 | the newlines passed by the cursor are never more than those counted at loading |
| Capacity.GuessSuffices | src/lexer.c:285-314 | if each statement passes a newline of its own, lexing succeeds in the guessed room, every label has its symbol, and more room would change nothing |
| Capacity.RoomNeeded | src/lexer.c:1304-1336 | for every source and every room lexing succeeds exactly when each statement of the text moves the cursor and there are no more of them than places |
| Capacity.GuessExact | src/lexer.c:285-314 | for every source the guess is enough exactly when no statement gets stuck and there are no more statements than newlines |
| Capacity.ExclamationStuck | src/lexer.c:447-479 | an exclamation mark at the start of a statement is such a place where no room is enough |
| Capacity.TwoOnOneLine | src/lexer.c:285-314 | two statements on one line are reported full |
| Addresses.LineSize | src/lexer.c:1021-1290 | in any source a lexed line has the current address, defines its label there, and counts the bytes the assembler emits for it plus its surplus |
| Addresses.FormSizes | src/lexer.c:1152-1265 | for every mnemonic the lexer parses its size is the assembler's, with one more for DS |
| Addresses.DataConserved | src/assembler.c:452-474 | a data line becomes one instruction a byte, as many as the byte list totals and the lexer advanced, at consecutive addresses, and laid out again the blocks in order |
| Addresses.InstructionAddresses | src/assembler.c:452-702 | the instructions of an accepted line lie at the line's address modulo 64K, those of data a byte after the other |
| Addresses.LoopPlaces | src/lexer.c:1304-1336 | the main loop keeps all lines placed: each behind the last, each label's symbol at its own line's address |
| Addresses.ResolveKeeps | src/lexer.c:986-1016 | resolving a symbol changes nothing of a line's address, label, blocks or size |
| Addresses.SourcePlaced | src/lexer.c:1304-1336 | the lines of every source lexed to its end are placed |
| Contiguity.LineContiguous | src/assembler.c:528-702 | one line's instructions follow an address exactly when they are none or the line has that address |
| Contiguity.AssemSucceeds | src/assembler.c:708-729 | the assembler returns 0 exactly when it accepts every line |
| Contiguity.AssemContiguous | src/assembler.c:708-729 | the instruction vector is contiguous exactly when each emitting line is addressed behind what is emitted before it |
| Contiguity.ImageLayout | src/assembler.c:708-729 | for every source lexed and assembled without error each line's address is the start plus the bytes emitted and the surplus before it, and the vector has no gap or overlap exactly when that surplus is a multiple of 64K at every emitting line |
| Examples.DsLeavesGap | src/lexer.c:1261-1265 | `DS 1` in front of `RET` is lexed and assembled without an error and leaves a gap |
| Contiguity.NoSurplusNoGap | src/lexer.c:1152-1290 | without DS, END, ORG and SET there is no gap and no overlap, and the lexer's end address is that of the last byte plus one |
| Labels.LookupLabel | src/lexer.c:150-163 | looking a name up among the labels of lines finds the first line whose label begins with it |
| Labels.LabelsResolve | src/lexer.c:986-1016 | in every source each line that names a symbol has for immediate the address of the first line, before or after it, whose label begins with that name |
| Labels.ResolvesToItsLabel | src/lexer.c:150-163 | a name resolves to the line that carries it exactly when no earlier label begins with it |
| Labels.PrefixFreeResolves | src/lexer.c:986-1016 | when no label begins another, every name used resolves to the line carrying it |
| Examples.LongerLabelWins | src/lexer.c:150-163 | with the labels LOOPS and LOOP in this order a call of LOOP gets the address of LOOPS |
| Labels.CallReachesLabel | src/assembler.c:440-447 | the operand of an assembled call to a label, read back low byte first, is the address of the label's line |
| Layout8080.ArithBytes | src/assembler.c:162-168 | the or-ed word is the opcode byte of row and register |
| Layout8080.PairBytes | src/assembler.c:191-199 | operation and pair field do not overlap |
| Layout8080.Imm8Bytes | src/assembler.c:204-210 | for a byte immediate the word is opcode and operand byte |
| Layout8080.MviBytes | src/assembler.c:239-246 | for a byte immediate the word is opcode and operand byte |
| Layout8080.LxiBytes | src/assembler.c:225-234 | the word is the opcode and the immediate low byte first |
| Layout8080.CallBytes | src/assembler.c:440-447 | the word is the opcode and the target low byte first |
| Layout8080.JumpBytes | src/assembler.c:340-347 | the high byte is or-ed into the low byte's place and the last byte is zero |
| Layout8080.MovBytes | src/assembler.c:282-295 | the word is 0x40, destination and source |
| Layout8080.StackBytes | src/assembler.c:282-295 | PUSH and POP carry three bits of the register, not two of the pair |
| Layout8080.ReturnCodes | src/assembler.c:352-387 | the return codes by condition |
| Layout8080.CallCodes | src/assembler.c:402-435 | the call codes by condition |
| Layout8080.Encodes | src/assembler.c:528-702 | the or-ed word of every accepted line of fixed size, taken apart into its bytes: opcode and operand, a jump's operand with its halves or-ed |
| Layout8080.UnlexedWords | src/assembler.c:528-702 | the instructions the assembler knows though no source is lexed to them have the manual's opcodes, and the rest of the mnemonics none |
| Layout8080.OpcodeIsIntel | src/assembler.c:162-447 | the opcode byte is the one of Intel's manual, by its register and pair fields, exactly when the operand is one the instruction has (for INX, DAD and LXI the pairs B, D, H and SP, for STAX B and D), the instruction is not LDAX, and a PUSH or POP is of B, D or H |
| Layout8080.IntelExactly | src/assembler.c:528-702 | every line of fixed size is assembled to the bytes of Intel's manual exactly when its opcode is right, its 8-bit immediate a byte and its jump target below 256 |
| Layout8080.ImmediateFits | src/assembler.c:204-246 | an 8-bit immediate survives and leaves its opcode alone exactly when it is a byte |
| Layout8080.TargetsReadBack | src/assembler.c:340-447 | a call's target always reads back; a jump's exactly when its address fits in one byte |
| Vectors.InstrVector.PushBack | src/vector.c:198-205 | contents are all that was pushed, in order; size stays within capacity; at most twice the size was ever copied by growing |
| Vectors.InstrVector.Extend | src/vector.c:210-226 | growing by any size keeps the contents and copies each element once |
| Vectors.ByteVector.PushBack | src/vector.c:48-60 | the same for whole blocks, across both ways of growing |
| Vectors.ByteVector.Extend | src/vector.c:87-102 | growing keeps the contents and copies each element once |
| Assemblers.Assembler.Data | src/assembler.c:452-474 | walks the nodes of the line's byte list and emits their bytes in order, a byte an instruction, at consecutive addresses |
| Assemblers.Assembler.AssemLine | src/assembler.c:528-702 | appends what the line encodes to, a blank instruction and an error for an unknown opcode |
| Assemblers.Assembler.Assem | src/assembler.c:708-729 | appends the instructions of every line in order, stopping at the first that fails |
| Disassembler.ShownExactly | src/disassem.c:15-860 | the row of a line's opcode byte has its mnemonic, registers and length exactly for the lines listed as right |
| ManualRows.RowsExactly | src/disassem.c:15-860 | for all 256 bytes: the row has the name, registers, operand bytes and length that Intel's manual has for the byte's fields exactly outside a list of 28, each of which has the row stated |
| ManualRows.SweepExactly | tools/dis8080.c:39-43 | for every image the sweep lists what the manual has, instruction for instruction, and ends where it does, exactly when every byte at which the manual's sweep stops is outside that list |
| Disassembler.Sweep | tools/dis8080.c:39-43 | the loop lists every instruction it stops at and where it ends; SweepExactly says when that is the manual's listing |
| Disassembler.SweepInverts | tools/dis8080.c:39-43 | over the bytes of any data-free program the sweep stops at each line's address and at the end of the image and recovers mnemonic, registers and the operand as written, exactly when every line's row is right and every jump's target lies in the first 256 bytes |
| Disassembler.Misaligned | tools/dis8080.c:39-43 | a sweep that goes on at a wrong address does not give the listing |
| Compiler.CodeAt | src/assembler.c:708-729 | each line's bytes are found at its offset in the whole image |
| Compiler.AssembledImage | src/assembler.c:708-729 | lines of fixed size are accepted, and their instructions laid out are the lines' bytes in order |
| Compiler.AssembledListing | tools/dis8080.c:39-43 | the same sweep result, operands as written, for what the assembler really emits |
| Meaning.StoresOnly | src/cpu.c:105-1695 | a line that runs as written changes no memory but the addresses it stores to |
| Running.MovRuns | src/cpu.c:532-840 | every MOV but B,D and M,M copies by register name |
| Running.MovBDCopiesC | src/cpu.c:540-543 | MOV B,D does what it means exactly when C and D are equal |
| Running.MviRuns | src/cpu.c:155-161 | MVI to A, B, C, H, L and M stores its operand and skips it |
| Running.FlagsOf | src/cpu.h:89-95 | the flags of a sum or difference kept in 16 bits, in terms of the number itself: carry exactly when it is no byte |
| Running.AddRuns | src/cpu.c:842-905 | ADD of every operand |
| Running.SubRuns | src/cpu.c:969-1039 | SUB of every register, the carry being the borrow |
| Running.LogicRuns | src/cpu.c:1113-1292 | ANA and XRA of every register, ORA of every one but A |
| Running.InxRuns | src/cpu.c:135-323 | INX of every pair is the 16-bit increment |
| Running.DadRuns | src/cpu.c:175-363 | DAD of BC, DE and HL is the 16-bit sum with its carry |
| Running.LxiRuns | src/cpu.c:238-309 | LXI D and H load the operand low byte first and skip it |
| Running.StaxRuns | src/cpu.c:126-133 | STAX B stores the accumulator where BC points |
| Running.PushRuns | src/cpu.c:1552-1592 | PUSH D and H store the pair below the stack pointer, high byte first |
| Running.PopRuns | src/cpu.c:1355-1362 | POP B loads what was pushed and moves the stack pointer up |
| Running.LineRuns | src/cpu.c:105-1695 | one step on the bytes a line is encoded in does what the line means, and ends behind them |
| Compiler.CodeRuns | src/cpu.c:105-1695 | for every straight-line program whose stores miss its code, n steps on the assembled image give the registers, flags and memory that its first n lines mean, and the program counter behind them |
| Toolchain.SourceLexed | src/lexer.c:1304-1336 | the text of a straight-line program is lexed to exactly the lines it means, at the addresses it means, each numbered one too high |
| Toolchain.SourceBuilds | tools/asm8080.c:39-76 | that text builds, into the bytes of its lines in order |
| Toolchain.SourceRuns | src/cpu.c:105-1695 | from text to execution: with the image built from a straight-line source loaded, n steps give what the first n source lines mean, and the program counter is the address the lexer gave the next line |
| Control.FlowRuns | src/cpu.c:105-1695 | with every branch that is assembled and implemented, n steps on the image are n lines of the program, for as long as they lead to lines |
| Control.ReachesTarget | src/assembler.c:340-447 | a branch reaches the target written exactly when it is CALL, CNZ or CZ, a JMP, JNC or JZ below 256, a JP to a multiple of 256 or a CP with two equal bytes |
| Control.ReturnMeetsCall | src/cpu.c:1430-1501 | a return address left by a CALL, CNZ, CZ or JZ line leads to the line behind it |
| Control.LabelsFollowed | src/lexer.c:986-1016 | in every such source a branch to a label lands one past the first line whose label begins with the name exactly when it reaches its target, and there goes on behind that line if it is one byte long, and else at no line |
| Control.FlowBuilds | tools/asm8080.c:39-76 | a source of such lines builds, and every line lies where the lexer put it |
| Control.SourceFlows | src/cpu.c:105-1695 | from any source text of such lines to its execution: n steps are n lines, all branches included, and the program counter is the lexer's address of the line arrived at |
| Toolchain.SegmentList | src/source.c:337-349 | appending a line's arguments gives a list of its blocks in order |
| Toolchain.StoredList | src/source.c:485-498 | the stored line has a list of its own with the same blocks |
| Toolchain.AssembleSource | tools/asm8080.c:39-76 | the lexer and assembler objects run one after the other compute the build of a source, and report which of them failed |
| ByteLists.ByteList.AppendData | src/list.c:221-248 | a fresh node with a copy of the bytes joins the end of the chain; no bytes is an error and changes nothing |
| ByteLists.ByteList.Get | src/list.c:255-265 | the node at an index, or none outside the list |
| ByteLists.ByteList.RemoveEnd | src/list.c:270-293 | the last node leaves the chain and is given back; an empty list stays |
| ByteLists.ByteList.RemoveIdx | src/list.c:298-345 | exactly the indexed node leaves the chain; the missing successor is met exactly for the last of several |
| ByteLists.ByteList.CopyFrom | src/list.c:350-370 | the other list's blocks are appended in order, and that list is not changed |
| ByteLists.ByteList.TotalBytes | src/list.c:181-193 | the number of bytes of all blocks laid end to end |
| ByteLists.ByteList.Destroy | src/list.c:149-168 | every node is given back exactly once, from the last to the first |

## Left out

- Toolchain.SourceRuns: straight-line programs of MOV, MVI, ADD, SUB, ANA, XRA, ORA, INX, DAD, LXI, STAX B, PUSH and POP B; the other instructions are unimplemented or differ from what they mean. Calls, jumps and returns are in Control.SourceFlows.
- Control.SourceFlows: says nothing once a branch leads to no line's beginning: behind a label whose line is longer than one byte, or when CZ, JZ, JNC, JP or CP is not taken, which goes on inside the operand. The branches that trap (Landing.NotImplemented) are not covered.
- Conformance.ConformsExactly: HLT, DAA and IN are not compared, as their effect is not on registers, memory and program counter alone or not on what the model has; StepTable says what the emulator does at them.
- RoundTrip.LexingSkipsComments: comments and blanks stand on lines of their own; behind the operands of a data line they are in Readback.DataExactly.
- Toolchain.SourceBuilds: the byte image is each instruction word's lowest bytes, highest first, as the vector is printed; no tool writes it to a file.
- Lexers.Lexer.All: asks that every comment the main loop comes to ends with a newline, for one without is read past the end of the text.
- RoundTrip.ReadAsMeantExactly: for a string among data its characters and a zero are taken as meant, in a DB as in a DW, as the tests of the repository have it for DB; the address of an undefined symbol is taken to be 0.
- Lexers.Lexer.SkipCommentLine: asks for the newline that ends the comment, for the same reason.
- Lexers.Lexer.AddSymbol: symbol names are not cut or left unterminated at 32 bytes, and an overlong token does not overrun its buffer.
- Assemblers.Assembler.Assem: an empty source, for which the status is never set, is taken to succeed; a missing source is not modelled; and lines as in AssemLine are excluded.
- Assemblers.Assembler.AssemLine: lines whose register lies outside the register table (SP or PSW in arithmetic, MOV, PUSH or POP) are excluded, since the table is read out of range.
- Toolchain.AssembleSource: asks for the same of its text as Lexers.Lexer.All and Assemblers.Assembler.AssemLine; the byte lists of the lines are rebuilt from their blocks between lexing and assembling, since a lexed line is a value here.
- Budget.Run: watches the loop for any given number of turns, since a loop without end has no result; for a budget that is not positive the returned status, never set in the code, is zero.
- Cpus.Cpu.Exec: the shift register and its ports are left out, as the guards of the routine for them can never select either action.
- ByteLists.ByteList.CopyFrom: copying a non-empty list onto itself, which does not end, is excluded.
- ByteLists.ByteList.AppendData: allocation does not fail.
- `byte_list_append_node`, `byte_node_copy` and `byte_node_zero`: the first uses a variable that is never set, the others are not used.
- Mnemonic strings kept beside the codes, the column counter, verbose output and all printing.
- Files, command lines, the display and the emulator's front end.
- `InstrBuffer`, which is marked deprecated, and editing and cloning of source lines.
- Macros, conditional assembly, EQU and ORG, which are recognised and do nothing.
- Interrupts beyond the enable bit.
