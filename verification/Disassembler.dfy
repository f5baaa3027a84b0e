/**
 * The disassembler: a table from the opcode byte to what is printed and how far to move, and the sweep over an
 * image.
 */
module Disassembler {
  import opened Bits
  import opened Opcodes
  import opened Source
  import opened LexSpec
  import opened Vectors
  import opened Encoding
  import opened Layout8080

  /** A table row: the name and registers printed, the number of operand bytes printed, and the length returned. */
  datatype Text = Text(name: string, regs: string, operands: nat, len: nat)

  function Row0(op: byte): Text {
    match op
    case 0x00 => Text("NOP", "", 0, 1) case 0x01 => Text("LXI", "B", 2, 3)
    case 0x02 => Text("STAX", "B", 0, 1) case 0x03 => Text("INX", "B", 0, 1)
    case 0x04 => Text("INR", "B", 0, 1) case 0x05 => Text("DCR", "B", 0, 1)
    case 0x06 => Text("MVI", "B", 1, 2) case 0x07 => Text("RLC", "", 0, 1)
    case 0x08 => Text("NOP", "", 0, 1) case 0x09 => Text("DAD", "B", 0, 1)
    case 0x0A => Text("LDAX", "B", 0, 1) case 0x0B => Text("DCX", "B", 0, 1)
    case 0x0C => Text("INR", "C", 0, 1) case 0x0D => Text("DCR", "C", 0, 1)
    case 0x0E => Text("MVI", "C", 1, 2) case _ => Text("RRC", "", 0, 1)
  }

  function Row1(op: byte): Text {
    match op
    case 0x10 => Text("*NOP", "", 0, 1) case 0x11 => Text("LXI", "D", 2, 1)
    case 0x12 => Text("STAX", "D", 0, 1) case 0x13 => Text("INX", "D", 0, 1)
    case 0x14 => Text("INR", "D", 0, 1) case 0x15 => Text("DCR", "D", 0, 1)
    case 0x16 => Text("MVI", "D", 1, 2) case 0x17 => Text("DAA", "", 0, 1)
    case 0x18 => Text("*NOP", "", 0, 1) case 0x19 => Text("DAD", "H", 0, 1)
    case 0x1A => Text("LDAX", "D", 0, 3) case 0x1B => Text("DCX", "H", 0, 1)
    case 0x1C => Text("INR,", "E", 0, 1) case 0x1D => Text("DCR", "E", 0, 1)
    case 0x1E => Text("MVI", "E", 1, 2) case _ => Text("RAR", "", 0, 1)
  }

  function Row2(op: byte): Text {
    match op
    case 0x20 => Text("*NOP", "", 0, 1) case 0x21 => Text("LXI", "H", 2, 3)
    case 0x22 => Text("SHLD", "", 2, 3) case 0x23 => Text("INX", "H", 0, 1)
    case 0x24 => Text("INR", "H", 0, 1) case 0x25 => Text("DCR", "H", 0, 1)
    case 0x26 => Text("MVI", "H", 1, 2) case 0x27 => Text("DAA", "", 0, 1)
    case 0x28 => Text("*NOP", "", 0, 1) case 0x29 => Text("DAD", "H", 0, 1)
    case 0x2A => Text("LHLD", "", 2, 3) case 0x2B => Text("DCX", "H", 0, 1)
    case 0x2C => Text("INR", "L", 0, 1) case 0x2D => Text("DCR", "L", 0, 1)
    case 0x2E => Text("MVI", "L", 1, 2) case _ => Text("CMA", "", 0, 1)
  }

  function Row3(op: byte): Text {
    match op
    case 0x30 => Text("*NOP", "", 0, 1) case 0x31 => Text("LXI", "SP", 2, 3)
    case 0x32 => Text("SHLD,", "", 2, 3) case 0x33 => Text("INX", "H", 0, 1)
    case 0x34 => Text("INR", "H", 0, 1) case 0x35 => Text("DCR", "H", 0, 1)
    case 0x36 => Text("MVI", "H", 1, 2) case 0x37 => Text("STC", "", 0, 1)
    case 0x38 => Text("*NOP", "", 0, 1) case 0x39 => Text("DAD", "SP", 0, 1)
    case 0x3A => Text("LDA", "", 2, 3) case 0x3B => Text("DCX", "SP", 0, 1)
    case 0x3C => Text("INR", "A", 0, 1) case 0x3D => Text("DCR", "A", 0, 1)
    case 0x3E => Text("MVI", "A", 1, 2) case _ => Text("CMC", "", 0, 1)
  }

  function Letter(r: int): char {
    match r
    case 0 => 'B' case 1 => 'C' case 2 => 'D' case 3 => 'E' case 4 => 'H' case 5 => 'L' case 6 => 'M' case _ => 'A'
  }

  function MovRow(op: byte): Text {
    if op == 0x76 then Text("HLT", "", 0, 1)
    else Text(if op == 0x5F then "MOV," else "MOV", [Letter(op / 8 % 8), ',', Letter(op % 8)], 0, 1)
  }

  function ArithName(row: int): string {
    match row
    case 0 => "ADD" case 1 => "ADC" case 2 => "SUB" case 3 => "SBB"
    case 4 => "ANA" case 5 => "XRA" case 6 => "ORA" case _ => "CMP"
  }

  function RowC(op: byte): Text {
    match op
    case 0xC0 => Text("RNZ", "", 0, 1) case 0xC1 => Text("POP", "B", 0, 1)
    case 0xC2 => Text("JNZ", "", 2, 3) case 0xC3 => Text("JMP", "", 2, 3)
    case 0xC4 => Text("CNZ", "", 2, 3) case 0xC5 => Text("PUSH", "B", 0, 1)
    case 0xC6 => Text("ADI", "", 1, 2) case 0xC7 => Text("RST", "0", 0, 1)
    case 0xC8 => Text("RZ", "", 0, 1) case 0xC9 => Text("RET", "", 0, 1)
    case 0xCA => Text("JZ", "", 2, 3) case 0xCB => Text("*JMP", "", 2, 3)
    case 0xCC => Text("CZ", "", 2, 3) case 0xCD => Text("CALL", "", 2, 3)
    case 0xCE => Text("ACI", "", 1, 2) case _ => Text("RST", "1", 0, 1)
  }

  function RowD(op: byte): Text {
    match op
    case 0xD0 => Text("RNZ", "", 0, 1) case 0xD1 => Text("POP", "D", 0, 1)
    case 0xD2 => Text("JNC", "", 2, 3) case 0xD3 => Text("OUT", "", 1, 2)
    case 0xD4 => Text("CNC", "", 2, 3) case 0xD5 => Text("PUSH", "D", 0, 1)
    case 0xD6 => Text("SUI", "", 1, 2) case 0xD7 => Text("RST", "2", 0, 1)
    case 0xD8 => Text("RC", "", 0, 1) case 0xD9 => Text("*RET", "", 0, 1)
    case 0xDA => Text("JC", "", 2, 3) case 0xDB => Text("IN", "", 1, 2)
    case 0xDC => Text("CC", "", 2, 3) case 0xDD => Text("*CALL", "", 2, 3)
    case 0xDE => Text("XRI", "", 1, 2) case _ => Text("RST", "5", 0, 1)
  }

  function RowE(op: byte): Text {
    match op
    case 0xE0 => Text("RPO", "", 0, 1) case 0xE1 => Text("POP", "H", 0, 1)
    case 0xE2 => Text("JNC", "", 2, 3) case 0xE3 => Text("XTHL", "", 0, 1)
    case 0xE4 => Text("CPO", "", 2, 3) case 0xE5 => Text("PUSH", "H", 0, 1)
    case 0xE6 => Text("ANI", "", 1, 2) case 0xE7 => Text("RST", "4", 0, 1)
    case 0xE8 => Text("RPE", "", 0, 1) case 0xE9 => Text("PCHL", "", 0, 1)
    case 0xEA => Text("JPE", "", 2, 3) case 0xEB => Text("XCHG", "", 0, 1)
    case 0xEC => Text("CPE", "", 2, 3) case 0xED => Text("*CALL", "", 2, 3)
    case 0xEE => Text("XRI", "", 1, 2) case _ => Text("RST", "5", 0, 1)
  }

  function RowF(op: byte): Text {
    match op
    case 0xF0 => Text("RP", "", 0, 1) case 0xF1 => Text("POP", "PSW", 0, 1)
    case 0xF2 => Text("JP", "", 2, 3) case 0xF3 => Text("DI", "", 0, 1)
    case 0xF4 => Text("CP", "", 2, 3) case 0xF5 => Text("PUSH", "PSW", 0, 1)
    case 0xF6 => Text("ORI", "", 1, 2) case 0xF7 => Text("RST", "6", 0, 1)
    case 0xF8 => Text("RM", "", 0, 1) case 0xF9 => Text("SPHL", "", 0, 1)
    case 0xFA => Text("JM", "", 2, 3) case 0xFB => Text("EI", "", 0, 1)
    case 0xFC => Text("CM", "", 2, 3) case 0xFD => Text("*CALL", "", 2, 3)
    case 0xFE => Text("CPI", "", 1, 2) case _ => Text("RST", "7", 0, 1)
  }

  function Disassemble(op: byte): Text {
    if op < 0x10 then Row0(op)
    else if op < 0x20 then Row1(op)
    else if op < 0x30 then Row2(op)
    else if op < 0x40 then Row3(op)
    else if op < 0x80 then MovRow(op)
    else if op < 0xC0 then Text(ArithName(op / 8 % 8), [Letter(op % 8)], 0, 1)
    else if op < 0xD0 then RowC(op)
    else if op < 0xE0 then RowD(op)
    else if op < 0xF0 then RowE(op)
    else RowF(op)
  }

  // ---- one line shown again ----

  /** The registers of a line as they were written. */
  function RegsText(line: LineInfo): string {
    match FormOf(line.instr)
    case OneReg | RegImm8 | RegImm16 => RegName(line.reg0)
    case TwoReg => RegName(line.reg0) + "," + RegName(line.reg1)
    case _ => ""
  }

  /**
   * The lines whose row is right: not where the row misprints (INR E, INR M, DCR M, MVI M, MOV E,A, MOV M,M,
   * DAD D, INX SP, RNC, SBI), gives the wrong length (LXI D), or belongs to another instruction because of the
   * register (PUSH and POP of anything but B, D and H, STAX H and SP) or of the code assembled (LDAX); and
   * with the registers named that the code keeps.
   */
  predicate RowRight(line: LineInfo) {
    match line.instr
    case ADD | ADC | SUB | SBB | ANA | XRA | ORA | CMP => line.reg0 != REG_NONE
    case INR => line.reg0 !in {REG_NONE, REG_E, REG_M}
    case DCR | MVI => line.reg0 !in {REG_NONE, REG_M}
    case MOV =>
      && line.reg0 != REG_NONE && line.reg1 != REG_NONE
      && !(line.reg0 == REG_E && line.reg1 == REG_A)
      && !(line.reg0 == REG_M && line.reg1 == REG_M)
    case DAD | LXI => line.reg0 in {REG_B, REG_H, REG_S}
    case INX | PUSH | POP => line.reg0 in {REG_B, REG_D, REG_H}
    case STAX => line.reg0 in {REG_B, REG_D}
    case LDAX | RNC | SBI => false
    case _ => true
  }

  /** The row of a line's opcode byte prints the line's own name, registers and operand bytes, and has its length. */
  predicate Shown(line: LineInfo)
    requires Lexable(line)
  {
    var t := Disassemble(OpByte(line));
    var size := SizeOf(FormOf(line.instr), line);
    t.name == Name(line.instr) && t.regs == RegsText(line) && t.operands == size - 1 && t.len == size
  }

  lemma ArithNames(m: Mnemonic)
    requires m in {ADD, ADC, SUB, SBB, ANA, XRA, ORA, CMP}
    ensures ArithName(ArithRow(m)) == Name(m)
  {
  }

  lemma ShownArith(line: LineInfo)
    requires Lexable(line) && line.instr in {ADD, ADC, SUB, SBB, ANA, XRA, ORA, CMP}
    ensures Shown(line) <==> RowRight(line)
  {
    hide Row0, Row1, Row2, Row3, MovRow, RowC, RowD, RowE, RowF, Name, ArithName, ArithRow;
    var op := OpByte(line);
    assert op / 8 % 8 == ArithRow(line.instr) && op % 8 == RegBits(line.reg0);
    ArithNames(line.instr);
  }

  lemma ShownMov(line: LineInfo)
    requires Lexable(line) && line.instr == MOV
    ensures Shown(line) <==> RowRight(line)
  {
    hide Row0, Row1, Row2, Row3, RowC, RowD, RowE, RowF, ArithName, ArithRow, Condition, PairBits;
    var op := OpByte(line);
    assert op / 8 % 8 == RegBits(line.reg0) && op % 8 == RegBits(line.reg1);
  }

  lemma ShownCount(line: LineInfo)
    requires Lexable(line) && FormOf(line.instr) == OneReg && line.instr in {INR, DCR}
    ensures Shown(line) <==> RowRight(line)
  {
    hide FormOf, ArithRow, Condition, MovRow, RowC, RowD, RowE, RowF;
  }

  lemma ShownMvi(line: LineInfo)
    requires Lexable(line) && FormOf(line.instr) == RegImm8 && line.instr == MVI
    ensures Shown(line) <==> RowRight(line)
  {
    hide FormOf, ArithRow, Condition, MovRow, RowC, RowD, RowE, RowF;
  }

  lemma ShownPair(line: LineInfo)
    requires Lexable(line) && FormOf(line.instr) == OneReg && line.instr in {DAD, INX}
    ensures Shown(line) <==> RowRight(line)
  {
    hide FormOf, ArithRow, Condition, MovRow, RowC, RowD, RowE, RowF;
  }

  lemma ShownAccumulator(line: LineInfo)
    requires Lexable(line) && FormOf(line.instr) == OneReg && line.instr in {STAX, LDAX}
    ensures Shown(line) <==> RowRight(line)
  {
    hide FormOf, ArithRow, Condition, MovRow, RowC, RowD, RowE, RowF;
  }

  lemma ShownLxi(line: LineInfo)
    requires Lexable(line) && FormOf(line.instr) == RegImm16 && line.instr == LXI
    ensures Shown(line) <==> RowRight(line)
  {
    hide FormOf, ArithRow, Condition, MovRow, RowC, RowD, RowE, RowF;
  }

  lemma ShownStack(line: LineInfo)
    requires Lexable(line) && FormOf(line.instr) == OneReg && line.instr in {PUSH, POP}
    ensures Shown(line) <==> RowRight(line)
  {
    hide FormOf, MovRow, Row0, Row1, Row2, Row3, PairBits;
  }

  lemma ImmediateTexts(line: LineInfo)
    requires TableSafe(line) && line.instr in {ADI, ACI, SUI, SBI, ANI, ORI, CPI}
    ensures line.instr != SBI ==> Disassemble(OpByte(line)) == Text(Name(line.instr), "", 1, 2)
    ensures line.instr == SBI ==> Disassemble(OpByte(line)).name != Name(SBI)
  {
    hide MovRow, Row0, Row1, Row2, Row3, Condition, RegBits, PairBits;
  }

  lemma ShownImmediate(line: LineInfo)
    requires Lexable(line) && FormOf(line.instr) == Imm8 && line.instr in {ADI, ACI, SUI, SBI, ANI, ORI, CPI}
    ensures Shown(line) <==> RowRight(line)
  {
    hide Disassemble, OpByte, Name, RegName, TableSafe, FormOf;
    ImmediateTexts(line);
  }

  lemma JumpTexts(line: LineInfo)
    requires TableSafe(line) && IsJump(line.instr)
    ensures Disassemble(OpByte(line)) == Text(Name(line.instr), "", 2, 3)
  {
    hide MovRow, Row0, Row1, Row2, Row3, ArithRow, RegBits, PairBits;
  }

  lemma ShownJump(line: LineInfo)
    requires Lexable(line) && FormOf(line.instr) == Imm16 && IsJump(line.instr)
    ensures Shown(line) <==> RowRight(line)
  {
    hide Disassemble, OpByte, Name, RegName, TableSafe, FormOf;
    JumpTexts(line);
  }

  lemma CallTexts(line: LineInfo)
    requires TableSafe(line) && line.instr in {CALL, CC, CNZ, CM, CP, CPE, CPO, CZ}
    ensures Disassemble(OpByte(line)) == Text(Name(line.instr), "", 2, 3)
  {
    hide MovRow, Row0, Row1, Row2, Row3, ArithRow, RegBits, PairBits;
  }

  lemma CallMnemonics(m: Mnemonic)
    requires FormOf(m) == Imm16 && !IsJump(m)
    ensures m in {CALL, CC, CNZ, CM, CP, CPE, CPO, CZ}
  {
  }

  lemma ShownCall(line: LineInfo)
    requires Lexable(line) && FormOf(line.instr) == Imm16 && !IsJump(line.instr)
    ensures Shown(line) <==> RowRight(line)
  {
    hide Disassemble, OpByte, Name, RegName, TableSafe, FormOf;
    CallMnemonics(line.instr);
    CallTexts(line);
  }

  /** The returns' rows, by their opcodes. */
  lemma ReturnRows(line: LineInfo)
    requires TableSafe(line) && line.instr in {PCHL, RET, RC, RNC, RZ}
    ensures OpByte(line)
         == match line.instr case PCHL => 0xE9 case RET => 0xC9 case RC => 0xD8 case RNC => 0xD0 case _ => 0xC8
  {
  }

  lemma MoreReturnRows(line: LineInfo)
    requires TableSafe(line) && line.instr in {RNZ, RM, RP, RPE, RPO}
    ensures OpByte(line)
         == match line.instr case RNZ => 0xC0 case RM => 0xF8 case RP => 0xF0 case RPE => 0xE8 case _ => 0xE0
  {
  }

  lemma ReturnTexts(line: LineInfo)
    requires TableSafe(line) && line.instr in {PCHL, RET, RC, RNC, RZ}
    ensures line.instr != RNC ==> Disassemble(OpByte(line)) == Text(Name(line.instr), "", 0, 1)
    ensures line.instr == RNC ==> Disassemble(OpByte(line)).name != Name(RNC)
  {
    hide MovRow, Row0, Row1, Row2, Row3, OpByte;
    ReturnRows(line);
  }

  lemma MoreReturnTexts(line: LineInfo)
    requires TableSafe(line) && line.instr in {RNZ, RM, RP, RPE, RPO}
    ensures Disassemble(OpByte(line)) == Text(Name(line.instr), "", 0, 1)
  {
    hide MovRow, Row0, Row1, Row2, Row3, OpByte;
    MoreReturnRows(line);
  }

  lemma BareMnemonics(m: Mnemonic)
    requires FormOf(m) == Bare
    ensures m in {PCHL, RET, RC, RNC, RZ, RNZ, RM, RP, RPE, RPO}
  {
  }

  lemma ShownReturn(line: LineInfo)
    requires Lexable(line) && FormOf(line.instr) == Bare
    ensures Shown(line) <==> RowRight(line)
  {
    hide Disassemble, OpByte, FormOf, Name, RegName, TableSafe;
    BareMnemonics(line.instr);
    if line.instr in {PCHL, RET, RC, RNC, RZ} {
      ReturnTexts(line);
    } else {
      MoreReturnTexts(line);
    }
  }

  /** Exactly the lines of RowRight are shown with their own name, registers and length. */
  lemma ShownExactly(line: LineInfo)
    requires Lexable(line)
    ensures Shown(line) <==> RowRight(line)
  {
    hide Shown, RowRight, TableSafe;
    var m := line.instr;
    if m in {ADD, ADC, SUB, SBB, ANA, XRA, ORA, CMP} {
      ShownArith(line);
    } else if m == MOV {
      ShownMov(line);
    } else if m in {INR, DCR} {
      ShownCount(line);
    } else if m == MVI {
      ShownMvi(line);
    } else if m in {DAD, INX} {
      ShownPair(line);
    } else if m in {STAX, LDAX} {
      ShownAccumulator(line);
    } else if m == LXI {
      ShownLxi(line);
    } else if m in {PUSH, POP} {
      ShownStack(line);
    } else if FormOf(m) == Bare {
      ShownReturn(line);
    } else if FormOf(m) == Imm8 {
      ShownImmediate(line);
    } else if IsJump(m) {
      ShownJump(line);
    } else {
      ShownCall(line);
    }
  }

  // ---- the sweep ----

  /** One line of the listing: where, and what is printed there; an address is printed high byte first. */
  datatype Listed = Listed(pc: nat, name: string, regs: string, operand: seq<int>)

  function ByteAt(image: seq<byte>, pc: nat): byte { if pc < |image| then image[pc] else 0 }

  function OperandAt(image: seq<byte>, pc: nat, operands: nat): seq<int> {
    match operands
    case 1 => [ByteAt(image, pc + 1)]
    case 2 => [ByteAt(image, pc + 2), ByteAt(image, pc + 1)]
    case _ => []
  }

  function ListedAt(image: seq<byte>, pc: nat): Listed {
    var t := Disassemble(ByteAt(image, pc));
    Listed(pc, t.name, t.regs, OperandAt(image, pc, t.operands))
  }

  predicate LengthOk(t: Text) { 1 <= t.len <= 3 && t.operands <= 2 }

  lemma LowLengths(op: byte)
    ensures LengthOk(Row0(op)) && LengthOk(Row1(op)) && LengthOk(Row2(op)) && LengthOk(Row3(op))
  {
  }

  lemma HighLengths(op: byte)
    ensures LengthOk(RowC(op)) && LengthOk(RowD(op)) && LengthOk(RowE(op)) && LengthOk(RowF(op)) && LengthOk(MovRow(op))
  {
    hide Letter;
  }

  lemma LengthPositive(op: byte)
    ensures 1 <= Disassemble(op).len <= 3 && Disassemble(op).operands <= 2
  {
    hide ArithName, Letter, Row0, Row1, Row2, Row3, RowC, RowD, RowE, RowF, MovRow;
    LowLengths(op);
    HighLengths(op);
  }

  /** The listing from pc on, and where the sweep ends. */
  function Listing(image: seq<byte>, pc: nat): (r: (seq<Listed>, nat))
    decreases |image| - pc
  {
    LengthPositive(ByteAt(image, pc));
    if pc >= |image| then ([], pc)
    else
      var rest := Listing(image, pc + Disassemble(image[pc]).len);
      ([ListedAt(image, pc)] + rest.0, rest.1)
  }

  /** The loop of the disassembler tool. */
  method Sweep(image: seq<byte>) returns (listing: seq<Listed>, end: nat)
    ensures (listing, end) == Listing(image, 0)
  {
    hide Disassemble, ListedAt;
    listing := [];
    var pc := 0;
    assert [] + Listing(image, 0).0 == Listing(image, 0).0;
    while pc < |image|
      invariant var rest := Listing(image, pc);
        Listing(image, 0) == (listing + rest.0, rest.1)
      decreases |image| - pc
    {
      LengthPositive(ByteAt(image, pc));
      ghost var rest := Listing(image, pc + Disassemble(image[pc]).len);
      assert listing + ([ListedAt(image, pc)] + rest.0) == (listing + [ListedAt(image, pc)]) + rest.0;
      listing := listing + [ListedAt(image, pc)];
      pc := pc + Disassemble(image[pc]).len;
    }
    assert listing + [] == listing;
    end := pc;
  }

  // ---- programs ----

  /** Lines of instructions only, each with a byte for its 8-bit immediate. */
  predicate Program(lines: seq<LineInfo>) {
    forall line | line in lines ::
      Lexable(line) && (SizeOf(FormOf(line.instr), line) == 2 ==> 0 <= line.imm < 0x100)
  }

  function ProgramImage(lines: seq<LineInfo>): seq<byte>
    requires Program(lines)
  {
    if lines == [] then [] else EncodedBytes(lines[0]) + ProgramImage(lines[1..])
  }

  /** The operand a line was written with, high byte first. */
  function OperandOf(line: LineInfo): seq<int> {
    match SizeOf(FormOf(line.instr), line)
    case 2 => [line.imm]
    case 3 => [Hi(line.imm), Lo(line.imm)]
    case _ => []
  }

  /** The lines that are read back: their row is right, and a jump's target lies in the first 256 bytes. */
  predicate Recovered(line: LineInfo) {
    RowRight(line) && (IsJump(line.instr) ==> line.imm % 0x1_0000 < 0x100)
  }

  /** The source read back: every line at its address, with its name, registers and operand. */
  function SourceListing(lines: seq<LineInfo>, addr: nat): seq<Listed> {
    if lines == [] then []
    else
      var line := lines[0];
      [Listed(addr, Name(line.instr), RegsText(line), OperandOf(line))]
      + SourceListing(lines[1..], addr + SizeOf(FormOf(line.instr), line))
  }

  /** The bytes of the image at a line. */
  lemma BytesThere(image: seq<byte>, pc: nat, bytes: seq<int>)
    requires pc + |bytes| <= |image| && image[pc..pc + |bytes|] == bytes
    ensures forall i :: 0 <= i < |bytes| ==> ByteAt(image, pc + i) == bytes[i]
    ensures bytes != [] ==> image[pc] == bytes[0]
  {
    var slice := image[pc..pc + |bytes|];
    forall i | 0 <= i < |bytes|
      ensures ByteAt(image, pc + i) == bytes[i]
    {
      assert slice[i] == image[pc + i];
    }
    assert bytes != [] ==> slice[0] == image[pc];
  }

  /** As many operand bytes as the line has are its operand exactly when it is no jump above 255. */
  lemma OperandShown(line: LineInfo, image: seq<byte>, pc: nat)
    requires Program([line]) && pc + SizeOf(FormOf(line.instr), line) <= |image|
    requires image[pc..pc + SizeOf(FormOf(line.instr), line)] == AssembledBytes(line)
    ensures var n := SizeOf(FormOf(line.instr), line) - 1;
      && 0 <= n <= 2
      && (OperandAt(image, pc, n) == OperandOf(line) <==> (IsJump(line.instr) ==> line.imm % 0x1_0000 < 0x100))
  {
    hide OpByte, FormOf, TableSafe, Or, Lo, Hi, ByteAt, IsJump;
    assert line in [line];
    FixedSize(line);
    JumpForm(line);
    JumpHalves(line.imm);
    var bytes := AssembledBytes(line);
    BytesThere(image, pc, bytes);
    if |bytes| == 3 {
      assert ByteAt(image, pc + 1) == bytes[1] && ByteAt(image, pc + 2) == bytes[2];
    } else if |bytes| == 2 {
      assert ByteAt(image, pc + 1) == bytes[1];
    }
  }

  lemma OperandCount(image: seq<byte>, pc: nat, n: nat, line: LineInfo)
    requires n <= 2 && 1 <= SizeOf(FormOf(line.instr), line) <= 3
    ensures |OperandAt(image, pc, n)| == n && |OperandOf(line)| == SizeOf(FormOf(line.instr), line) - 1
  {
    hide FormOf, Lo, Hi, ByteAt;
  }

  /** What the sweep prints at the first line of a program, and where it goes next. */
  lemma FirstListed(line: LineInfo, image: seq<byte>, pc: nat)
    requires Program([line]) && pc + SizeOf(FormOf(line.instr), line) <= |image|
    requires image[pc..pc + SizeOf(FormOf(line.instr), line)] == EncodedBytes(line)
    ensures Disassemble(image[pc]).len == SizeOf(FormOf(line.instr), line)
         && ListedAt(image, pc) == Listed(pc, Name(line.instr), RegsText(line), OperandOf(line))
        <==> Recovered(line)
  {
    hide Disassemble, OpByte, EncodedBytes, AssembledBytes, SizeOf, RowRight, RegsText, Name, OperandAt, OperandOf,
         TableSafe, Fixed, IsJump;
    assert line in [line];
    Encodes(line);
    FirstByte(line);
    FixedSize(line);
    BytesThere(image, pc, EncodedBytes(line));
    assert ByteAt(image, pc) == image[pc] == OpByte(line);
    ShownExactly(line);
    LengthPositive(image[pc]);
    OperandShown(line, image, pc);
    OperandCount(image, pc, Disassemble(image[pc]).operands, line);
  }

  lemma FirstByte(line: LineInfo)
    requires TableSafe(line)
    ensures AssembledBytes(line) != [] && AssembledBytes(line)[0] == OpByte(line)
  {
    hide OpByte, FormOf, Or, Lo, Hi;
  }

  lemma NoLines(image: seq<byte>, pc: nat)
    requires Program([]) && pc <= |image| && image[pc..] == ProgramImage([])
    ensures Listing(image, pc) == (SourceListing([], pc), |image|)
  {
  }

  lemma ListingStep(image: seq<byte>, pc: nat)
    requires pc < |image|
    ensures var after := Listing(image, pc + Disassemble(image[pc]).len);
      Listing(image, pc) == ([ListedAt(image, pc)] + after.0, after.1)
  {
    hide Disassemble, ListedAt;
  }

  lemma SourceStep(line: LineInfo, rest: seq<LineInfo>, pc: nat)
    ensures SourceListing([line] + rest, pc)
         == [Listed(pc, Name(line.instr), RegsText(line), OperandOf(line))]
          + SourceListing(rest, pc + SizeOf(FormOf(line.instr), line))
  {
    hide Name, RegsText, OperandOf, SizeOf;
    assert ([line] + rest)[1..] == rest;
  }

  /** Where the first line's bytes are in the image, and the rest's. */
  lemma ImageStep(line: LineInfo, rest: seq<LineInfo>, image: seq<byte>, pc: nat)
    requires Program([line] + rest) && pc <= |image| && image[pc..] == ProgramImage([line] + rest)
    ensures Program([line]) && Program(rest)
    ensures var size := SizeOf(FormOf(line.instr), line);
      && 0 < size && pc + size <= |image|
      && image[pc..pc + size] == EncodedBytes(line)
      && image[pc + size..] == ProgramImage(rest)
  {
    hide EncodedBytes, FormOf, TableSafe;
    assert ([line] + rest)[1..] == rest && line in [line] + rest;
    assert forall l :: l in rest ==> l in [line] + rest;
    SizeOfBytes(line);
    FixedSize(line);
    var size := SizeOf(FormOf(line.instr), line);
    assert image[pc..pc + size] == image[pc..][..size];
    assert image[pc + size..] == image[pc..][size..];
  }

  /**
   * The sweep over the image of a program reads the program back as it was written, jump targets included, stopping
   * exactly at its instructions and at the end of the image, if and only if every line is one of Recovered.
   */
  lemma {:induction false} SweepInverts(lines: seq<LineInfo>, image: seq<byte>, pc: nat)
    requires Program(lines) && pc <= |image| && image[pc..] == ProgramImage(lines)
    ensures Listing(image, pc) == (SourceListing(lines, pc), |image|)
        <==> forall line | line in lines :: Recovered(line)
    decreases |lines|
  {
    hide Disassemble, Recovered, ListedAt, Program, SizeOf, FormOf, Name, RegsText, OperandOf;
    hide ProgramImage, SourceListing, Listing, EncodedBytes, OpByte;
    if lines == [] {
      NoLines(image, pc);
    } else {
      var line, rest := lines[0], lines[1..];
      assert lines == [line] + rest;
      var size := SizeOf(FormOf(line.instr), line);
      ImageStep(line, rest, image, pc);
      FirstListed(line, image, pc);
      SweepInverts(rest, image, pc + size);
      ListingStep(image, pc);
      SourceStep(line, rest, pc);
      var len := Disassemble(image[pc]).len;
      var first := Listed(pc, Name(line.instr), RegsText(line), OperandOf(line));
      SameHeadAndTail(ListedAt(image, pc), Listing(image, pc + len).0, first, SourceListing(rest, pc + size));
      AllOf(line, rest);
      if len != size {
        Misaligned(rest, image, pc + size, pc + len);
      }
    }
  }

  lemma SameHeadAndTail(a: Listed, x: seq<Listed>, b: Listed, y: seq<Listed>)
    ensures [a] + x == [b] + y <==> a == b && x == y
  {
    if [a] + x == [b] + y {
      assert a == ([a] + x)[0] && b == ([b] + y)[0];
      assert x == ([a] + x)[1..] && y == ([b] + y)[1..];
    }
  }

  lemma AllOf(line: LineInfo, rest: seq<LineInfo>)
    ensures (forall l | l in [line] + rest :: Recovered(l))
        <==> Recovered(line) && forall l | l in rest :: Recovered(l)
  {
    hide Recovered;
    assert line in [line] + rest;
    assert forall l :: l in rest ==> l in [line] + rest;
  }

  lemma SizeOfBytes(line: LineInfo)
    requires Program([line])
    ensures |EncodedBytes(line)| == SizeOf(FormOf(line.instr), line)
  {
    hide EncodedBytes, OpByte, FormOf;
    assert line in [line];
    Encodes(line);
    FixedSize(line);
  }

  /** A sweep that continues at the wrong place does not give the listing from the right one. */
  lemma Misaligned(lines: seq<LineInfo>, image: seq<byte>, pc: nat, wrong: nat)
    requires Program(lines) && pc <= |image| && image[pc..] == ProgramImage(lines) && wrong != pc
    ensures Listing(image, wrong) != (SourceListing(lines, pc), |image|)
  {
    hide Disassemble, EncodedBytes, RegsText, Name, FormOf, OperandOf, Lexable;
    if wrong < |image| {
      assert Listing(image, wrong).0[0].pc == wrong;
    }
    if lines != [] {
      assert SourceListing(lines, pc)[0].pc == pc;
    }
  }
}
