/**
 * The assembler's bytes against the instruction layout of the 8080 (Intel 8080 Assembly Language Programming
 * Manual, chapter 2): fields added up in decimal places of 8 and 16 instead of shifts and ors.
 */
module Layout8080 {
  import opened Bits
  import opened Opcodes
  import opened Source
  import opened LexSpec
  import opened Vectors
  import opened Encoding

  function ArithRow(m: Mnemonic): (n: nat)
    ensures n < 8
  {
    match m
    case ADC => 1 case ACI => 1
    case SUB => 2 case SUI => 2
    case SBB => 3 case SBI => 3
    case ANA => 4 case ANI => 4
    case XRA => 5 case XRI => 5
    case ORA => 6 case ORI => 6
    case CMP => 7 case CPI => 7
    case _ => 0
  }

  /** The condition number of a conditional jump, call or return. */
  function Condition(m: Mnemonic): (n: nat)
    ensures n < 8
  {
    match m
    case JZ => 1 case CZ => 1 case RZ => 1
    case JNC => 2 case RNC => 2
    case JC => 3 case CC => 3 case RC => 3
    case CPO => 4 case RPO => 4
    case CPE => 5 case RPE => 5
    case JP => 6 case CP => 6 case RP => 6
    case JM => 7 case CM => 7 case RM => 7
    case _ => 0
  }

  /** The opcode byte a line is assembled to. */
  function OpByte(line: LineInfo): (op: int)
    requires TableSafe(line)
    ensures 0 <= op < 0x100
  {
    match line.instr
    case ADD | ADC | SUB | SBB | ANA | XRA | ORA | CMP => 0x80 + 8 * ArithRow(line.instr) + RegBits(line.reg0)
    case ADI | ACI | SUI | SBI | ANI | ORI | CPI => 0xC6 + 8 * ArithRow(line.instr)
    case MVI => 6 + 8 * RegBits(line.reg0)
    case LXI => 1 + 0x10 * PairBits(line.reg0)
    case DAD => 9 + 0x10 * PairBits(line.reg0)
    case INX => 3 + 0x10 * PairBits(line.reg0)
    case STAX => 2 + 0x10 * PairBits(line.reg0)
    case LDAX => 8 + 0x10 * PairBits(line.reg0)
    case INR => 4 + 8 * RegBits(line.reg0)
    case DCR => 5 + 8 * RegBits(line.reg0)
    case PCHL => 0xE9
    case MOV => 0x40 + 8 * RegBits(line.reg0) + RegBits(line.reg1)
    case PUSH => 0xC5 + 8 * RegBits(line.reg0)
    case POP => 0xC1 + 8 * RegBits(line.reg0)
    case JMP => 0xC3
    case JZ | JNC | JC | JP | JM => 0xC2 + 8 * Condition(line.instr)
    case CALL => 0xCD
    case CC | CNZ | CM | CP | CPE | CPO | CZ => 0xC4 + 8 * Condition(line.instr)
    case RET => 0xC9
    case RC | RNC | RZ | RNZ | RM | RP | RPE | RPO => 0xC0 + 8 * Condition(line.instr)
    case _ => 0
  }

  /** The mnemonics the lexer accepts with operands of a fixed size, that is, all but data and space. */
  predicate Fixed(m: Mnemonic) {
    FormOf(m) !in {Data, Space, Unsupported}
  }

  predicate IsJump(m: Mnemonic) { m.JP? || m.JMP? || m.JC? || m.JNC? || m.JZ? || m.JM? }

  /** Lines as the lexer leaves them: a second register only for MOV. */
  predicate Lexable(line: LineInfo) {
    Fixed(line.instr) && TableSafe(line) && (line.instr != MOV ==> line.reg1 == REG_NONE)
  }

  function EncodedBytes(line: LineInfo): seq<byte>
    requires Lexable(line)
  {
    match Encode(line)
    case Word(word, size) => InstrBytes(Instr(word, 0, size))
    case _ => []
  }

  // ---- one lemma for each writer ----

  lemma Powers()
    ensures Pow2(2) == 4 && Pow2(3) == 8 && Pow2(6) == 0x40 && Pow2(4) == 0x10
    ensures Pow2(7) == 0x80 && Pow2(8) == 0x100 && Pow2(11) == 0x800 && Pow2(14) == 0x4000
    ensures Pow2(16) == 0x1_0000 && Pow2(17) == 0x2_0000 && Pow2(19) == 0x8_0000 && Pow2(22) == 0x40_0000
    ensures Pow2(20) == 0x10_0000 && Pow2(0) == 1
  {
  }

  lemma ArithCodes(m: Mnemonic)
    requires m in {ADD, ADC, SUB, SBB, ANA, XRA, ORA, CMP}
    ensures ArithCode(m) == 8 * (0x10 + ArithRow(m))
  {
    hide Or, Shl, Pow2;
    Powers();
    ShlBy(1, 7, 0x80);
    ShlBy(ArithRow(m), 3, 8);
    OrField(1, 8 * ArithRow(m), 7, 0x80);
  }

  lemma ArithBytes(m: Mnemonic, r: Reg)
    requires InTable(r) && m in {ADD, ADC, SUB, SBB, ANA, XRA, ORA, CMP}
    ensures ArithWord(m, r) == 0x80 + 8 * ArithRow(m) + RegBits(r)
  {
    hide Or, ArithCode, Pow2;
    Powers();
    ArithCodes(m);
    OrField(0x10 + ArithRow(m), RegBits(r), 3, 8);
  }

  lemma SingleBytes(op: nat, r: Reg)
    requires InTable(r) && op < 8
    ensures SingleWord(op, r) == op + 8 * RegBits(r)
  {
    hide Or, Shl, Pow2;
    Powers();
    ShlBy(RegBits(r), 3, 8);
    OrField(RegBits(r), op, 3, 8);
  }

  lemma PairBytes(op: nat, r: Reg)
    requires op < 0x10
    ensures PairWord(op, r) == op + 0x10 * PairBits(r)
  {
    hide Or, Shl, Pow2;
    Powers();
    ShlBy(PairBits(r), 4, 0x10);
    OrField(PairBits(r), op, 4, 0x10);
  }

  lemma Imm8Bytes(op: nat, imm: int)
    requires op < 8 && 0 <= imm < 0x100
    ensures Imm8Word(op, imm) == 0x100 * (0xC6 + 8 * op) + imm
  {
    hide Or, Shl, Pow2;
    Powers();
    ShlBy(3, 14, 0x4000);
    ShlBy(op, 11, 0x800);
    ShlBy(6, 8, 0x100);
    OrField(3, 0x800 * op, 14, 0x4000);
    OrField(0x18 + op, 0x600, 11, 0x800);
    OrField(0xC6 + 8 * op, imm, 8, 0x100);
  }

  lemma MviBytes(r: Reg, imm: int)
    requires InTable(r) && 0 <= imm < 0x100
    ensures MviWord(r, imm) == 0x100 * (6 + 8 * RegBits(r)) + imm
  {
    hide Or, Shl, Pow2;
    Powers();
    ShlBy(6, 8, 0x100);
    ShlBy(RegBits(r), 11, 0x800);
    OrField(RegBits(r), 0x600, 11, 0x800);
    OrField(6 + 8 * RegBits(r), imm, 8, 0x100);
  }

  lemma U32Bytes(imm: int)
    ensures U32(imm) % 0x100 == Lo(imm)
    ensures U32(imm) / 0x100 % 0x100 == Hi(imm)
  {
    var q, t := imm / 0x1_0000_0000, U32(imm) / 0x100;
    ModMultiple(U32(imm), 0x100_0000 * q);
    ModMultiple(t, 0x1_0000 * q);
  }

  lemma ModMultiple(u: int, q: int)
    ensures (0x100 * q + u) % 0x100 == u % 0x100
    ensures (0x100 * q + u) / 0x100 == q + u / 0x100
  {
  }

  /** The two halves of an address operand: low byte shifted up, high byte shifted down. */
  lemma AddressHalves(imm: int)
    ensures Shl(And(U32(imm), 0xFF), 8) == 0x100 * Lo(imm)
    ensures Shr(And(U32(imm), 0xFF00), 8) == Hi(imm)
    ensures And(U32(imm), 0xFF00) == 0x100 * Hi(imm)
  {
    hide Shl, Shr, And, U32, Lo, Hi;
    var u := U32(imm);
    U32Bytes(imm);
    AndLowByte(u);
    AndHighByte(u);
    SplitByte(Lo(imm));
    SplitByte(0x100 * Hi(imm));
  }

  lemma LxiBytes(r: Reg, imm: int)
    ensures LxiWord(r, imm) == 0x1_0000 * (1 + 0x10 * PairBits(r)) + 0x100 * Lo(imm) + Hi(imm)
  {
    hide Or, Shl, Pow2, Shr, And, U32, Lo, Hi;
    Powers();
    var p := PairBits(r);
    AddressHalves(imm);
    ShlBy(1, 16, 0x1_0000);
    ShlBy(p, 20, 0x10_0000);
    OrField(p, 0x1_0000, 20, 0x10_0000);
    OrField(1 + 0x10 * p, 0x100 * Lo(imm), 16, 0x1_0000);
    OrField(0x100 * (1 + 0x10 * p) + Lo(imm), Hi(imm), 8, 0x100);
  }

  lemma CallBytes(m: Mnemonic, imm: int)
    ensures CallWord(m, imm) == 0x1_0000 * CallCode(m) + 0x100 * Lo(imm) + Hi(imm)
  {
    hide Or, Shl, Pow2, Shr, And, U32, Lo, Hi, CallCode;
    Powers();
    var c := CallCode(m);
    AddressHalves(imm);
    ShlBy(c, 16, 0x1_0000);
    OrField(c, 0x100 * Lo(imm), 16, 0x1_0000);
    OrField(0x100 * c + Lo(imm), Hi(imm), 8, 0x100);
  }

  /** A jump's two target bytes are the or of both halves, and zero. */
  lemma JumpBytes(m: Mnemonic, imm: int)
    requires IsJump(m)
    ensures JumpWord(m, imm)
         == 0x1_0000 * (if m == JMP then 0xC3 else 0xC2 + 8 * Condition(m)) + 0x100 * Or(Lo(imm), Hi(imm))
    ensures Or(Lo(imm), Hi(imm)) < 0x100
  {
    hide Or, Shl, Pow2, Shr, And, U32, Lo, Hi, JumpCode, Condition;
    Powers();
    var op := if m == JMP then 0xC3 else 0xC2 + 8 * Condition(m);
    AddressHalves(imm);
    JumpCodes(m);
    OrField(op, 0x100 * Lo(imm), 16, 0x1_0000);
    OrBytes(0x100 * op + Lo(imm), Hi(imm));
    OrLowBits(op, Lo(imm), Hi(imm), 8, 0x100);

  }

  /** The condition field or-ed into a code, but where it is zero. */
  function WithField(code: nat, k: nat, n: nat): nat { if k == 0 then code else Or(code, Shl(k, n)) }

  lemma JumpShape(m: Mnemonic)
    requires IsJump(m)
    ensures var code := Or(Shl(3, 22), Shl(1, 17));
      JumpCode(m) == if m == JMP then Or(code, Shl(1, 16)) else WithField(code, Condition(m), 19)
  {
    hide Or, Shl;
  }

  lemma JumpCodes(m: Mnemonic)
    requires IsJump(m)
    ensures JumpCode(m) == 0x1_0000 * (if m == JMP then 0xC3 else 0xC2 + 8 * Condition(m))
  {
    hide Or, Shl, Pow2, JumpCode, Condition, IsJump;
    Powers();
    JumpShape(m);
    ShlBy(3, 22, 0x40_0000);
    ShlBy(1, 17, 0x2_0000);
    ShlBy(1, 16, 0x1_0000);
    var k := Condition(m);
    ShlBy(k, 19, 0x8_0000);
    OrField(3, 0x2_0000, 22, 0x40_0000);
    OrField(0x61, 0x1_0000, 17, 0x2_0000);
    OrLowBits(3, 0x2_0000, 0x8_0000 * k, 22, 0x40_0000);
    OrField(k, 0x2_0000, 19, 0x8_0000);
  }

  lemma CallShape(m: Mnemonic)
    requires m in {CALL, CC, CNZ, CM, CP, CPE, CPO, CZ}
    ensures var code := Or(Shl(3, 6), Shl(1, 2));
      CallCode(m) == if m == CALL then Or(Or(code, Shl(1, 3)), 1) else WithField(code, Condition(m), 3)
  {
    hide Or, Shl;
  }

  lemma CallCodes(m: Mnemonic)
    requires m in {CALL, CC, CNZ, CM, CP, CPE, CPO, CZ}
    ensures CallCode(m) == if m == CALL then 0xCD else 0xC4 + 8 * Condition(m)
  {
    hide Or, Shl, Pow2, CallCode, Condition;
    Powers();
    CallShape(m);
    var k := Condition(m);
    ShlBy(3, 6, 0x40);
    ShlBy(1, 2, 4);
    ShlBy(k, 3, 8);
    ShlBy(1, 3, 8);
    OrField(3, 4, 6, 0x40);
    OrLowBits(3, 4, 8 * k, 6, 0x40);
    OrField(k, 4, 3, 8);
    OrLowBits(3, 4, 8, 6, 0x40);
    OrField(1, 4, 3, 8);
    OrField(0x33, 1, 2, 4);
  }

  lemma ReturnShape(m: Mnemonic)
    requires m in {RET, RC, RNC, RZ, RNZ, RM, RP, RPE, RPO}
    ensures ReturnCode(m) == if m == RET then Or(Shl(3, 6), 9) else WithField(Shl(3, 6), Condition(m), 3)
  {
    hide Or, Shl;
  }

  lemma ReturnCodes(m: Mnemonic)
    requires m in {RET, RC, RNC, RZ, RNZ, RM, RP, RPE, RPO}
    ensures ReturnCode(m) == if m == RET then 0xC9 else 0xC0 + 8 * Condition(m)
  {
    hide Or, Shl, Pow2, ReturnCode, Condition;
    Powers();
    ReturnShape(m);
    var k := Condition(m);
    ShlBy(3, 6, 0x40);
    ShlBy(k, 3, 8);
    OrField(3, 8 * k, 6, 0x40);
    OrField(3, 9, 6, 0x40);
  }

  lemma MoveCodes()
    ensures MoveCode(MOV) == 0x40 && MoveCode(PUSH) == 0xC5 && MoveCode(POP) == 0xC1
  {
    hide Or, Shl, Pow2;
    Powers();
    ShlBy(1, 6, 0x40);
    ShlBy(3, 6, 0x40);
    OrField(3, 5, 6, 0x40);
    OrField(3, 1, 6, 0x40);
  }

  lemma MovBytes(d: Reg, s: Reg)
    requires InTable(d) && InTable(s)
    ensures MoveWord(MOV, d, s) == 0x40 + 8 * RegBits(d) + RegBits(s)
  {
    hide Or, Shl, Pow2, RegBits, MoveCode;
    Powers();
    MoveCodes();
    ShlBy(RegBits(d), 3, 8);
    OrField(1, 8 * RegBits(d), 6, 0x40);
    OrField(8 + RegBits(d), RegBits(s), 3, 8);
  }

  lemma StackBytes(d: Reg)
    requires InTable(d)
    ensures MoveWord(PUSH, d, REG_NONE) == 0xC5 + 8 * RegBits(d)
    ensures MoveWord(POP, d, REG_NONE) == 0xC1 + 8 * RegBits(d)
  {
    hide Or, Shl, Pow2, RegBits, MoveCode;
    Powers();
    MoveCodes();
    NoRegister();
    var b := RegBits(d);
    ShlBy(b, 3, 8);
    OrLowBits(3, 5, 8 * b, 6, 0x40);
    OrLowBits(3, 1, 8 * b, 6, 0x40);
    OrField(b, 5, 3, 8);
    OrField(b, 1, 3, 8);
    OrField(0xC5 + 8 * b, 0, 0, 1);
    OrField(0xC1 + 8 * b, 0, 0, 1);
  }

  lemma NoRegister()
    ensures RegBits(REG_NONE) == 0
  {
  }

  /**
   * The bytes a line is assembled to: its opcode byte and its operand, low byte first in calls and LXI, but in
   * jumps the or of the two halves and a zero.
   */
  function AssembledBytes(line: LineInfo): seq<int>
    requires TableSafe(line)
  {
    match SizeOf(FormOf(line.instr), line)
    case 2 => [OpByte(line), line.imm]
    case 3 =>
      if IsJump(line.instr) then [OpByte(line), Or(Lo(line.imm), Hi(line.imm)), 0]
      else [OpByte(line), Lo(line.imm), Hi(line.imm)]
    case _ => [OpByte(line)]
  }

  lemma BytesOf(a: int, b: int, c: int)
    requires 0 <= a < 0x100 && 0 <= b < 0x100 && 0 <= c < 0x100
    ensures InstrBytes(Instr(0x100 * a + b, 0, 2)) == [a, b]
    ensures InstrBytes(Instr(0x1_0000 * a + 0x100 * b + c, 0, 3)) == [a, b, c]
  {
  }

  lemma LowOfByte(x: int)
    requires 0 <= x < 0x100
    ensures InstrBytes(Instr(x, 0, 1)) == [x]
  {
  }

  lemma ArithLine(line: LineInfo)
    requires TableSafe(line) && line.instr in {ADD, ADC, SUB, SBB, ANA, XRA, ORA, CMP}
    ensures Encode(line) == Word(OpByte(line), 1)
  {
    hide ArithWord, RegBits, ArithRow, Encode, OpByte;
    ArithParts(line);
    ArithBytes(line.instr, line.reg0);
  }

  lemma ArithParts(line: LineInfo)
    requires TableSafe(line) && line.instr in {ADD, ADC, SUB, SBB, ANA, XRA, ORA, CMP}
    ensures InTable(line.reg0) && Encode(line) == Word(ArithWord(line.instr, line.reg0), 1)
    ensures OpByte(line) == 0x80 + 8 * ArithRow(line.instr) + RegBits(line.reg0)
  {
    hide ArithWord, RegBits, ArithRow;
  }

  lemma SingleLine(line: LineInfo)
    requires TableSafe(line) && line.instr in {INR, DCR}
    ensures Encode(line) == Word(OpByte(line), 1)
  {
    hide SingleWord, RegBits;
    SingleBytes(4, line.reg0);
    SingleBytes(5, line.reg0);
  }

  lemma PairLine(line: LineInfo)
    requires TableSafe(line) && line.instr in {DAD, INX, STAX, LDAX}
    ensures Encode(line) == Word(OpByte(line), 1)
  {
    hide PairWord, PairBits, Encode, OpByte;
    var op := match line.instr case DAD => 9 case INX => 3 case STAX => 2 case _ => 8;
    PairParts(line, op);
    PairBytes(op, line.reg0);
  }

  lemma PairParts(line: LineInfo, op: nat)
    requires TableSafe(line) && line.instr in {DAD, INX, STAX, LDAX}
    requires op == match line.instr case DAD => 9 case INX => 3 case STAX => 2 case _ => 8
    ensures Encode(line) == Word(PairWord(op, line.reg0), 1) && OpByte(line) == op + 0x10 * PairBits(line.reg0)
  {
    hide PairWord, PairBits;
  }

  lemma MoveLine(line: LineInfo)
    requires TableSafe(line) && line.instr in {MOV, PUSH, POP}
    requires line.instr != MOV ==> line.reg1 == REG_NONE
    ensures Encode(line) == Word(OpByte(line), 1)
  {
    hide MoveWord, RegBits;
    if line.instr == MOV {
      MovBytes(line.reg0, line.reg1);
    } else {
      StackBytes(line.reg0);
    }
  }

  lemma ReturnLine(line: LineInfo)
    requires TableSafe(line) && line.instr in {PCHL, RET, RC, RNC, RZ, RNZ, RM, RP, RPE, RPO}
    ensures Encode(line) == Word(OpByte(line), 1)
  {
    hide ReturnCode, Condition, Encode, OpByte;
    ReturnParts(line);
    if line.instr != PCHL {
      ReturnCodes(line.instr);
    }
  }

  lemma ReturnParts(line: LineInfo)
    requires TableSafe(line) && line.instr in {PCHL, RET, RC, RNC, RZ, RNZ, RM, RP, RPE, RPO}
    ensures Encode(line) == Word(if line.instr == PCHL then 0xE9 else ReturnCode(line.instr), 1)
    ensures OpByte(line)
         == match line.instr case PCHL => 0xE9 case RET => 0xC9 case _ => 0xC0 + 8 * Condition(line.instr)
  {
    hide ReturnCode, Condition;
  }

  lemma OneByteMnemonics(line: LineInfo)
    requires Lexable(line) && SizeOf(FormOf(line.instr), line) == 1
    ensures line.instr in
      {ADD, ADC, SUB, SBB, ANA, XRA, ORA, CMP, INR, DCR, DAD, INX, STAX, LDAX, MOV, PUSH, POP,
       PCHL, RET, RC, RNC, RZ, RNZ, RM, RP, RPE, RPO}
  {
    hide TableSafe;
  }

  lemma OneByte(line: LineInfo)
    requires Lexable(line) && SizeOf(FormOf(line.instr), line) == 1
    ensures EncodedBytes(line) == [OpByte(line)]
  {
    hide Encode, OpByte, TableSafe, InstrBytes, FormOf, SizeOf;
    OneByteMnemonics(line);
    var m := line.instr;
    if m in {ADD, ADC, SUB, SBB, ANA, XRA, ORA, CMP} {
      ArithLine(line);
    } else if m in {INR, DCR} {
      SingleLine(line);
    } else if m in {DAD, INX, STAX, LDAX} {
      PairLine(line);
    } else if m in {MOV, PUSH, POP} {
      MoveLine(line);
    } else {
      ReturnLine(line);
    }
    LowOfByte(OpByte(line));
  }

  lemma ImmRows(line: LineInfo)
    requires Lexable(line) && FormOf(line.instr) == Imm8
    ensures Encode(line) == Word(Imm8Word(ArithRow(line.instr), line.imm), 2)
    ensures OpByte(line) == 0xC6 + 8 * ArithRow(line.instr)
  {
    hide Imm8Word;
  }

  lemma MviLine(line: LineInfo)
    requires Lexable(line) && line.instr == MVI
    ensures Encode(line) == Word(MviWord(line.reg0, line.imm), 2)
    ensures OpByte(line) == 6 + 8 * RegBits(line.reg0)
  {
    hide MviWord, RegBits;
  }

  lemma TwoBytes(line: LineInfo)
    requires Lexable(line) && SizeOf(FormOf(line.instr), line) == 2
    requires 0 <= line.imm < 0x100
    ensures EncodedBytes(line) == [OpByte(line), line.imm]
  {
    hide Imm8Word, MviWord, RegBits, ArithRow, InstrBytes, Encode, OpByte;
    if line.instr == MVI {
      MviLine(line);
      MviBytes(line.reg0, line.imm);
    } else {
      ImmRows(line);
      Imm8Bytes(ArithRow(line.instr), line.imm);
    }
    BytesOf(OpByte(line), line.imm, 0);
  }

  lemma LxiLine(line: LineInfo)
    requires TableSafe(line) && line.instr == LXI
    ensures Encode(line) == Word(0x1_0000 * OpByte(line) + 0x100 * Lo(line.imm) + Hi(line.imm), 3)
  {
    hide LxiWord, PairBits, Lo, Hi;
    LxiBytes(line.reg0, line.imm);
  }

  lemma JumpLine(line: LineInfo)
    requires TableSafe(line) && IsJump(line.instr)
    ensures Or(Lo(line.imm), Hi(line.imm)) < 0x100
    ensures Encode(line) == Word(0x1_0000 * OpByte(line) + 0x100 * Or(Lo(line.imm), Hi(line.imm)), 3)
  {
    hide JumpWord, Or, Lo, Hi, Condition;
    JumpBytes(line.instr, line.imm);
  }

  lemma CallLine(line: LineInfo)
    requires TableSafe(line) && line.instr in {CALL, CC, CNZ, CM, CP, CPE, CPO, CZ}
    ensures Encode(line) == Word(0x1_0000 * OpByte(line) + 0x100 * Lo(line.imm) + Hi(line.imm), 3)
  {
    hide CallWord, CallCode, Lo, Hi, Condition;
    CallBytes(line.instr, line.imm);
    CallCodes(line.instr);
  }

  lemma ThreeByteMnemonics(line: LineInfo)
    requires Lexable(line) && SizeOf(FormOf(line.instr), line) == 3
    ensures line.instr == LXI || IsJump(line.instr) || line.instr in {CALL, CC, CNZ, CM, CP, CPE, CPO, CZ}
  {
    hide TableSafe;
  }

  lemma ThreeBytes(line: LineInfo)
    requires Lexable(line) && SizeOf(FormOf(line.instr), line) == 3
    ensures EncodedBytes(line) == AssembledBytes(line)
  {
    hide Encode, OpByte, TableSafe, Or, Lo, Hi, InstrBytes, FormOf, SizeOf;
    ThreeByteMnemonics(line);
    BytesOf(OpByte(line), Lo(line.imm), Hi(line.imm));
    if line.instr == LXI {
      LxiLine(line);
    } else if IsJump(line.instr) {
      JumpLine(line);
      BytesOf(OpByte(line), Or(Lo(line.imm), Hi(line.imm)), 0);
    } else {
      CallLine(line);
    }
  }

  /**
   * The or-ed and shifted word of every accepted line with a byte for its 8-bit immediate, taken apart into as
   * many bytes as the lexer counted.
   */
  lemma Encodes(line: LineInfo)
    requires Lexable(line)
    requires SizeOf(FormOf(line.instr), line) == 2 ==> 0 <= line.imm < 0x100
    ensures EncodedBytes(line) == AssembledBytes(line)
  {
    hide EncodedBytes, OpByte, FormOf, Lexable;
    var size := SizeOf(FormOf(line.instr), line);
    FixedSize(line);
    if size == 1 {
      OneByte(line);
    } else if size == 2 {
      TwoBytes(line);
    } else {
      ThreeBytes(line);
    }
  }

  lemma FixedSize(line: LineInfo)
    requires Lexable(line)
    ensures 1 <= SizeOf(FormOf(line.instr), line) <= 3
  {
  }

  /** An 8-bit immediate survives, and leaves its opcode alone, exactly when it is a byte. */
  lemma ImmediateFits(line: LineInfo)
    requires Lexable(line) && SizeOf(FormOf(line.instr), line) == 2
    ensures EncodedBytes(line) == AssembledBytes(line) <==> 0 <= line.imm < 0x100
  {
    hide OpByte, FormOf, Encode, TableSafe;
    if 0 <= line.imm < 0x100 {
      TwoBytes(line);
    }
    if EncodedBytes(line) == AssembledBytes(line) {
      assert EncodedBytes(line)[1] == line.imm;
    }
  }

  // ---- the manual's layout ----

  /** The three bits of a register or of memory, or -1 for what is neither. */
  function IntelReg(r: Reg): int {
    match r
    case REG_B => 0 case REG_C => 1 case REG_D => 2 case REG_E => 3
    case REG_H => 4 case REG_L => 5 case REG_M => 6 case REG_A => 7
    case _ => -1
  }

  /** The two bits of a register pair, with the stack pointer or the status word for the fourth, or -1. */
  function IntelPair(r: Reg, fourth: Reg): int {
    match r
    case REG_B => 0 case REG_D => 1 case REG_H => 2
    case _ => if r == fourth then 3 else -1
  }

  /** An opcode with a field in it, or -1 when the field is not one. */
  function WithFieldAt(op: int, field: int, place: int): int { if field < 0 then -1 else op + place * field }

  /** The opcode byte the manual gives, by its register, pair and condition fields; -1 for operands it does not have. */
  function IntelOp(line: LineInfo): int {
    match line.instr
    case ADD | ADC | SUB | SBB | ANA | XRA | ORA | CMP =>
      WithFieldAt(0x80 + 8 * ArithRow(line.instr), IntelReg(line.reg0), 1)
    case ADI | ACI | SUI | SBI | ANI | ORI | CPI => 0xC6 + 8 * ArithRow(line.instr)
    case INR => WithFieldAt(4, IntelReg(line.reg0), 8)
    case DCR => WithFieldAt(5, IntelReg(line.reg0), 8)
    case MVI => WithFieldAt(6, IntelReg(line.reg0), 8)
    case MOV =>
      if line.reg0 == REG_M && line.reg1 == REG_M then -1
      else if IntelReg(line.reg0) < 0 then -1
      else WithFieldAt(0x40 + 8 * IntelReg(line.reg0), IntelReg(line.reg1), 1)
    case LXI => WithFieldAt(0x01, IntelPair(line.reg0, REG_S), 0x10)
    case INX => WithFieldAt(0x03, IntelPair(line.reg0, REG_S), 0x10)
    case DAD => WithFieldAt(0x09, IntelPair(line.reg0, REG_S), 0x10)
    case STAX => if line.reg0 in {REG_B, REG_D} then 0x02 + 0x10 * IntelPair(line.reg0, REG_S) else -1
    case LDAX => if line.reg0 in {REG_B, REG_D} then 0x0A + 0x10 * IntelPair(line.reg0, REG_S) else -1
    case POP => WithFieldAt(0xC1, IntelPair(line.reg0, REG_PSW), 0x10)
    case PUSH => WithFieldAt(0xC5, IntelPair(line.reg0, REG_PSW), 0x10)
    case JMP => 0xC3
    case JZ | JNC | JC | JP | JM => 0xC2 + 8 * Condition(line.instr)
    case CALL => 0xCD
    case CC | CNZ | CM | CP | CPE | CPO | CZ => 0xC4 + 8 * Condition(line.instr)
    case RET => 0xC9
    case RC | RNC | RZ | RNZ | RM | RP | RPE | RPO => 0xC0 + 8 * Condition(line.instr)
    case PCHL => 0xE9
    case _ => -1
  }

  /** The bytes the manual gives: the opcode, then the operand, low byte first. */
  function IntelBytes(line: LineInfo): seq<int> {
    match SizeOf(FormOf(line.instr), line)
    case 2 => [IntelOp(line), line.imm]
    case 3 => [IntelOp(line), Lo(line.imm), Hi(line.imm)]
    case _ => [IntelOp(line)]
  }

  /**
   * The lines with the right opcode: their operand is one the instruction has, and the instruction is not LDAX,
   * which gets the wrong code.
   */
  predicate OpcodeRight(line: LineInfo) {
    match line.instr
    case ADD | ADC | SUB | SBB | ANA | XRA | ORA | CMP | INR | DCR | MVI => line.reg0 != REG_NONE
    case MOV => line.reg0 != REG_NONE && line.reg1 != REG_NONE && !(line.reg0 == REG_M && line.reg1 == REG_M)
    case LXI | INX | DAD => line.reg0 in {REG_B, REG_D, REG_H, REG_S}
    case STAX => line.reg0 in {REG_B, REG_D}
    case PUSH | POP => line.reg0 in {REG_B, REG_D, REG_H}
    case LDAX => false
    case _ => true
  }

  lemma RegisterOpcode(line: LineInfo)
    requires Lexable(line)
    requires line.instr in {ADD, ADC, SUB, SBB, ANA, XRA, ORA, CMP, INR, DCR, MVI, MOV}
    ensures OpByte(line) == IntelOp(line) <==> OpcodeRight(line)
  {
    hide ArithRow, FormOf;
  }

  lemma PairOpcode(line: LineInfo)
    requires Lexable(line) && line.instr in {LXI, INX, DAD, STAX, LDAX, PUSH, POP}
    ensures OpByte(line) == IntelOp(line) <==> OpcodeRight(line)
  {
    hide FormOf;
  }

  lemma FixedOpcode(line: LineInfo)
    requires Lexable(line)
    requires line.instr !in {ADD, ADC, SUB, SBB, ANA, XRA, ORA, CMP, INR, DCR, MVI, MOV, LXI, INX, DAD, STAX, LDAX}
    requires line.instr !in {PUSH, POP}
    ensures OpByte(line) == IntelOp(line) && OpcodeRight(line)
  {
    hide ArithRow, Condition;
  }

  lemma OpcodeIsIntel(line: LineInfo)
    requires Lexable(line)
    ensures OpByte(line) == IntelOp(line) <==> OpcodeRight(line)
  {
    hide OpByte, IntelOp, OpcodeRight, Lexable;
    if line.instr in {ADD, ADC, SUB, SBB, ANA, XRA, ORA, CMP, INR, DCR, MVI, MOV} {
      RegisterOpcode(line);
    } else if line.instr in {LXI, INX, DAD, STAX, LDAX, PUSH, POP} {
      PairOpcode(line);
    } else {
      FixedOpcode(line);
    }
  }

  /**
   * Every line of fixed size is assembled to the bytes the manual gives exactly when its opcode is right, its 8-bit
   * immediate is a byte, and its target, if it is a jump, lies in the first 256 bytes.
   */
  lemma IntelExactly(line: LineInfo)
    requires Lexable(line)
    ensures EncodedBytes(line) == IntelBytes(line) <==>
      && OpcodeRight(line)
      && (SizeOf(FormOf(line.instr), line) == 2 ==> 0 <= line.imm < 0x100)
      && (IsJump(line.instr) ==> line.imm % 0x1_0000 < 0x100)
  {
    hide EncodedBytes, OpByte, IntelOp, FormOf, Fixed, TableSafe, OpcodeRight, Lo, Hi, Or, IsJump;
    var size := SizeOf(FormOf(line.instr), line);
    FixedSize(line);
    OpcodeIsIntel(line);
    JumpForm(line);
    if size == 2 && !(0 <= line.imm < 0x100) {
      NotABytes(EncodedBytes(line), IntelOp(line), line.imm);
    } else {
      Encodes(line);
      if IsJump(line.instr) {
        JumpHalves(line.imm);
        JumpBytes(line.instr, line.imm);
      }
    }
  }

  lemma NotABytes(bytes: seq<byte>, op: int, imm: int)
    requires !(0 <= imm < 0x100)
    ensures bytes != [op, imm]
  {
    assert |bytes| > 1 ==> bytes[1] != [op, imm][1];
  }

  lemma JumpForm(line: LineInfo)
    requires Lexable(line)
    ensures IsJump(line.instr) ==> SizeOf(FormOf(line.instr), line) == 3
  {
  }

  /** The or of the two halves and a zero are the halves themselves exactly when the high one is zero. */
  lemma JumpHalves(imm: int)
    ensures Or(Lo(imm), Hi(imm)) == Lo(imm) && 0 == Hi(imm) <==> imm % 0x1_0000 < 0x100
  {
    hide Or, Lo, Hi;
    WordOfBytes(imm);
    if Hi(imm) == 0 {
      OrField(Lo(imm), 0, 0, 1);
    }
  }

  /** What the processor reads as the target of a three-byte instruction. */
  function Target(bytes: seq<int>): int
    requires |bytes| == 3
  {
    bytes[1] + 0x100 * bytes[2]
  }

  /** A call's target is the address it was given; a jump's is so exactly when that fits in one byte. */
  lemma TargetsReadBack(line: LineInfo)
    requires Lexable(line) && FormOf(line.instr) == Imm16
    ensures |EncodedBytes(line)| == 3
    ensures !IsJump(line.instr) ==> Target(EncodedBytes(line)) == line.imm % 0x1_0000
    ensures IsJump(line.instr)
        ==> (Target(EncodedBytes(line)) == line.imm % 0x1_0000 <==> line.imm % 0x1_0000 < 0x100)
  {
    hide OpByte, FormOf, EncodedBytes, Lexable, Or, Lo, Hi;
    ThreeBytes(line);
    WordOfBytes(line.imm);
    if IsJump(line.instr) {
      JumpBytes(line.instr, line.imm);
      if Hi(line.imm) == 0 {
        OrField(Lo(line.imm), 0, 0, 1);
      }
    }
  }

  lemma WordOfBytes(x: int)
    ensures x % 0x1_0000 == Lo(x) + 0x100 * Hi(x)
  {
  }

  // ---- what the lexer never hands over ----

  lemma RotateCodes()
    ensures ArithCode(RLC) == 7 && ArithCode(RRC) == 0xF && ArithCode(RAR) == 0x1F
  {
    hide Shl, Or, Pow2, ArithCode;
    RotateShapes();
    Powers();
    ShlBy(1, 3, 8);
    ShlBy(3, 3, 8);
    OrField(1, 7, 3, 8);
    OrField(3, 7, 3, 8);
  }

  lemma RotateShapes()
    ensures ArithCode(RLC) == 7 && ArithCode(RRC) == Or(Shl(1, 3), 7) && ArithCode(RAR) == Or(Shl(3, 3), 7)
  {
    hide Shl, Or;
  }

  lemma OrNone(x: nat)
    ensures Or(x, 0) == x
  {
  }

  lemma MoveNone(m: Mnemonic)
    ensures MoveWord(m, REG_NONE, REG_NONE) == MoveCode(m)
  {
    hide Or, Shl, MoveCode;
    assert Shl(0, 3) == 0 by { ShlBy(0, 3, 8); }
    OrNone(MoveCode(m));
  }

  lemma UnlexedRotates(line: LineInfo)
    requires line.reg0 == REG_NONE && line.instr in {RLC, RRC, RAR}
    ensures TableSafe(line)
    ensures Encode(line) == Word(match line.instr case RLC => 0x07 case RRC => 0x0F case _ => 0x1F, 1)
  {
    hide ArithCode, Or;
    RotateCodes();
    OrNone(ArithCode(line.instr));
  }

  lemma UnlexedMoves(line: LineInfo)
    requires line.reg0 == REG_NONE && line.reg1 == REG_NONE && line.instr in {SPHL, XCHG, CMA, DAA}
    ensures TableSafe(line)
    ensures Encode(line)
         == Word(match line.instr case SPHL => 0xF9 case XCHG => 0xEB case CMA => 0x2F case _ => 0x27, 1)
  {
    hide MoveWord;
    MoveNone(line.instr);
  }

  lemma UnlexedOperands(line: LineInfo)
    requires line.instr in {DCX, XRI} && (line.instr == XRI ==> 0 <= line.imm < 0x100)
    ensures TableSafe(line)
    ensures Encode(line) ==
      if line.instr == DCX then Word(0x0B + 0x10 * PairBits(line.reg0), 1) else Word(0xEE00 + line.imm, 2)
  {
    hide PairWord, Imm8Word, PairBits;
    if line.instr == DCX {
      PairBytes(0xB, line.reg0);
    } else {
      Imm8Bytes(5, line.imm);
    }
  }

  lemma Unencoded(line: LineInfo)
    requires line.instr in {AND, IN, JPE, JPO, LDA, LHLD, NOP, OUT, RAA, RAL, STA, XTHL}
    ensures TableSafe(line) && Encode(line) == Unknown
  {
  }

  /**
   * The instructions the assembler knows though no source is lexed to them, without a register or with the pair of a
   * DCX and the byte of an XRI: each has the manual's opcode, and the rest of the mnemonics none.
   */
  lemma UnlexedWords(line: LineInfo)
    requires line.reg1 == REG_NONE && (line.instr != DCX ==> line.reg0 == REG_NONE)
    requires line.instr in
      {RLC, RRC, RAR, CMA, DAA, DCX, XRI, SPHL, XCHG, AND, IN, JPE, JPO, LDA, LHLD, NOP, OUT, RAA, RAL, STA, XTHL}
    requires line.instr == XRI ==> 0 <= line.imm < 0x100
    ensures TableSafe(line)
    ensures Encode(line) ==
      match line.instr
      case RLC => Word(0x07, 1) case RRC => Word(0x0F, 1) case RAR => Word(0x1F, 1)
      case CMA => Word(0x2F, 1) case DAA => Word(0x27, 1) case DCX => Word(0x0B + 0x10 * PairBits(line.reg0), 1)
      case XRI => Word(0xEE00 + line.imm, 2) case SPHL => Word(0xF9, 1) case XCHG => Word(0xEB, 1)
      case _ => Unknown
  {
    hide Encode, TableSafe, PairBits;
    if line.instr in {RLC, RRC, RAR} {
      UnlexedRotates(line);
    } else if line.instr in {SPHL, XCHG, CMA, DAA} {
      UnlexedMoves(line);
    } else if line.instr in {DCX, XRI} {
      UnlexedOperands(line);
    } else {
      Unencoded(line);
    }
  }
}
