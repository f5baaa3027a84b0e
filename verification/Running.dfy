/** One emulator step on one compiled line is the line's meaning. */
module Running {
  import opened Bits
  import opened Opcodes
  import opened Source
  import opened LexSpec
  import opened Encoding
  import opened Layout8080
  import opened Parity
  import C = CpuSpec
  import opened Meaning

  /** The bytes stand at the program counter, before the end of the address space. */
  predicate Fetched(s: C.State, bytes: seq<int>) {
    s.pc + |bytes| <= 0x1_0000 && forall i :: 0 <= i < |bytes| ==> s.mem[s.pc + i] == bytes[i]
  }

  /** The state in which a line leaves the emulator. */
  predicate StepsTo(s: C.State, m: Machine, size: nat) { C.Step(s) == Running(m, C.Wrap(s.pc + size)) }

  // ---- registers by number and by name ----

  lemma OperandIs(s: C.State, r: Reg)
    requires Single(r)
    ensures C.Operand(s, RegBits(r)) == Get(MachineOf(s), r)
  {
  }

  lemma SetOperandIs(s: C.State, r: Reg, v: byte)
    requires Single(r)
    ensures C.SetOperand(s, RegBits(r), v) == Running(Put(MachineOf(s), r, v), s.pc)
  {
  }

  lemma Bytes(w: word)
    ensures C.Pair(Hi(w), Lo(w)) == w
  {
  }

  lemma OfPair(hi: byte, lo: byte)
    ensures Hi(C.Pair(hi, lo)) == hi && Lo(C.Pair(hi, lo)) == lo
  {
  }

  lemma BitsDiffer(d: Reg, r: Reg)
    requires Single(d) && Single(r)
    ensures RegBits(d) == RegBits(r) <==> d == r
    ensures RegBits(REG_B) == 0 && RegBits(REG_D) == 2 && RegBits(REG_M) == 6 && RegBits(REG_A) == 7
  {
  }

  // ---- one lemma for each instruction ----

  lemma MovRuns(s: C.State, d: Reg, r: Reg)
    requires Single(d) && Single(r) && C.Opcode(s) == 0x40 + 8 * RegBits(d) + RegBits(r)
    requires !(d == REG_B && r == REG_D) && !(d == REG_M && r == REG_M)
    ensures StepsTo(s, Put(MachineOf(s), d, Get(MachineOf(s), r)), 1)
  {
    hide RegBits, Get, Put, C.Operand, C.SetOperand, C.Row0, C.Row1, C.Row2, C.Row3, C.ArithGroup, C.LogicGroup, C.RowC,
         C.RowD, C.RowE, C.RowF;
    var op := C.Opcode(s);
    assert op / 8 % 8 == RegBits(d) && op % 8 == RegBits(r);
    BitsDiffer(d, REG_B);
    BitsDiffer(d, REG_M);
    BitsDiffer(r, REG_D);
    BitsDiffer(r, REG_M);
    OperandIs(s, r);
    SetOperandIs(s, d, Get(MachineOf(s), r));
  }

  /** MOV B,D agrees with its meaning exactly when C and D hold the same, for C is what is copied. */
  lemma MovBDCopiesC(s: C.State)
    requires C.Opcode(s) == 0x42
    ensures StepsTo(s, Put(MachineOf(s), REG_B, Get(MachineOf(s), REG_D)), 1) <==> s.c == s.d
  {
    hide C.Row0, C.Row1, C.Row2, C.Row3, C.ArithGroup, C.LogicGroup, C.RowC, C.RowD, C.RowE, C.RowF;
  }

  lemma FetchTwo(s: C.State, op: int, imm: int)
    requires Fetched(s, [op, imm])
    ensures C.Opcode(s) == op && C.Arg(s, 1) == imm
  {
    var bytes := [op, imm];
    assert s.mem[s.pc + 0] == bytes[0];
    assert s.mem[s.pc + 1] == bytes[1];
  }

  lemma MviRunsLow(s: C.State, r: Reg, imm: byte)
    requires r in {REG_B, REG_C, REG_H} && C.Opcode(s) == 6 + 8 * RegBits(r) && C.Arg(s, 1) == imm
    ensures StepsTo(s, Put(MachineOf(s), r, imm), 2)
  {
    hide C.MovGroup, C.ArithGroup, C.LogicGroup, C.RowC, C.RowD, C.RowE, C.RowF, C.Row1, C.Row3;
    hide Or, And, Hi, Lo, C.Pair, C.Write, C.Read, C.Arg;
    match r
    case REG_B => case REG_C => case REG_H =>
  }

  lemma MviRunsHigh(s: C.State, r: Reg, imm: byte)
    requires r in {REG_A, REG_L, REG_M} && C.Opcode(s) == 6 + 8 * RegBits(r) && C.Arg(s, 1) == imm
    ensures StepsTo(s, Put(MachineOf(s), r, imm), 2)
  {
    hide C.MovGroup, C.ArithGroup, C.LogicGroup, C.RowC, C.RowD, C.RowE, C.RowF, C.Row0, C.Row1;
    hide Or, And, Hi, Lo, C.Pair, C.Write, C.Read, C.Arg;
    match r
    case REG_A => case REG_L => case REG_M =>
  }

  lemma MviRuns(s: C.State, r: Reg, imm: int)
    requires r in {REG_A, REG_B, REG_C, REG_H, REG_L, REG_M} && 0 <= imm < 0x100
    requires Fetched(s, [6 + 8 * RegBits(r), imm])
    ensures StepsTo(s, Put(MachineOf(s), r, imm), 2)
  {
    hide StepsTo, Put, Fetched, C.Arg;
    FetchTwo(s, 6 + 8 * RegBits(r), imm);
    if r in {REG_B, REG_C, REG_H} {
      MviRunsLow(s, r, imm);
    } else {
      MviRunsHigh(s, r, imm);
    }
  }

  lemma SignBit(x: int)
    ensures x / 0x80 % 2 == 1 <==> x % 0x100 >= 0x80
  {
    var q, r := x / 0x100, x % 0x100;
    assert x == 0x100 * q + r;
    assert x / 0x80 == 2 * q + r / 0x80;
  }

  /** The flags of a result kept in 16 bits, in terms of the result itself. */
  lemma FlagsOf(cc: C.Flags, result: int)
    requires -0x100 < result < 0x200
    ensures var w, r := C.Wrap(result), result % 0x100;
      Lo(w) == r && C.ArithFlags(cc, w) == cc.(z := r == 0, s := r >= 0x80, p := r == 0, cy := result != r)
  {
    hide ArithParity, C.Wrap;
    LowKept(result);
    ParityFlagsCompared(result % 0x100);
    SignBit(C.Wrap(result));
  }

  lemma LowKept(result: int)
    requires -0x100 < result < 0x200
    ensures C.Wrap(result) % 0x100 == result % 0x100
    ensures C.Wrap(result) > 0xFF <==> result != result % 0x100
  {
    var w := C.Wrap(result);
    assert w == if result < 0 then result + 0x1_0000 else result;
    assert (result + 0x1_0000) % 0x100 == result % 0x100;
  }

  lemma AddRuns(s: C.State, r: Reg)
    requires Single(r) && C.Opcode(s) == 0x80 + RegBits(r)
    ensures StepsTo(s, Arithmetic(MachineOf(s), s.a + Get(MachineOf(s), r)), 1)
  {
    hide RegBits, Get, C.Operand, C.ArithFlags, C.Row0, C.Row1, C.Row2, C.Row3, C.MovGroup, C.LogicGroup,
         C.RowC, C.RowD, C.RowE, C.RowF;
    var op := C.Opcode(s);
    assert op / 8 % 8 == 0 && op % 8 == RegBits(r);
    OperandIs(s, r);
    FlagsOf(s.cc, s.a + Get(MachineOf(s), r));
  }

  lemma SubRuns(s: C.State, r: Reg)
    requires Single(r) && r != REG_M && C.Opcode(s) == 0x90 + RegBits(r)
    ensures StepsTo(s, Arithmetic(MachineOf(s), s.a - Get(MachineOf(s), r)), 1)
  {
    hide RegBits, Get, C.Operand, C.ArithFlags, C.Row0, C.Row1, C.Row2, C.Row3, C.MovGroup, C.LogicGroup,
         C.RowC, C.RowD, C.RowE, C.RowF;
    var op := C.Opcode(s);
    assert op / 8 % 8 == 2 && op % 8 == RegBits(r);
    BitsDiffer(r, REG_M);
    OperandIs(s, r);
    FlagsOf(s.cc, s.a - Get(MachineOf(s), r));
  }

  lemma LogicRuns(s: C.State, row: nat, r: Reg)
    requires row in {4, 5, 6} && Single(r) && r != REG_M && !(row == 6 && r == REG_A)
    requires C.Opcode(s) == 0x80 + 8 * row + RegBits(r)
    ensures var v := Get(MachineOf(s), r);
      var ans := if row == 4 then And(s.a, v) else if row == 5 then Xor(s.a, v) else Or(s.a, v);
      StepsTo(s, Logical(MachineOf(s), ans % 0x100), 1)
  {
    hide RegBits, Get, C.Operand, And, Or, Xor, PopCount, C.Row0, C.Row1, C.Row2, C.Row3, C.MovGroup, C.ArithGroup,
         C.RowC, C.RowD, C.RowE, C.RowF;
    var op := C.Opcode(s);
    assert op / 8 % 8 == row && op % 8 == RegBits(r);
    BitsDiffer(r, REG_M);
    BitsDiffer(r, REG_A);
    OperandIs(s, r);
  }

  /** The byte-wise increment is the 16-bit one. */
  lemma IncPair(hi: byte, lo: byte)
    ensures C.Pair(C.IncHi(hi, lo), C.IncLo(lo)) == (C.Pair(hi, lo) + 1) % 0x1_0000
  {
  }

  lemma InxRuns(s: C.State, r: Reg)
    requires Paired(r) && C.Opcode(s) == 3 + 0x10 * PairBits(r)
    ensures StepsTo(s, Increment(MachineOf(s), r), 1)
  {
    hide C.MovGroup, C.ArithGroup, C.LogicGroup, C.RowC, C.RowD, C.RowE, C.RowF, C.Pair, C.IncLo, C.IncHi, Or, And,
         Hi, Lo;
    IncPair(s.d, s.e);
    IncPair(s.h, s.l);
    OfPair(C.IncHi(s.d, s.e), C.IncLo(s.e));
    OfPair(C.IncHi(s.h, s.l), C.IncLo(s.l));
    HalvesWrap(C.Pair(s.b, s.c) + 1);
  }

  lemma DadRuns(s: C.State, r: Reg)
    requires r in {REG_B, REG_D, REG_H} && C.Opcode(s) == 9 + 0x10 * PairBits(r)
    ensures StepsTo(s, AddPair(MachineOf(s), r), 1)
  {
    hide C.MovGroup, C.ArithGroup, C.LogicGroup, C.RowC, C.RowD, C.RowE, C.RowF, C.Pair, Or, And, Hi, Lo;
    var m := MachineOf(s);
    HalvesWrap(GetPair(m, REG_H) + GetPair(m, r));
  }

  lemma LxiRuns(s: C.State, r: Reg, imm: int)
    requires r in {REG_D, REG_H} && Fetched(s, [1 + 0x10 * PairBits(r), Lo(imm), Hi(imm)])
    ensures StepsTo(s, PutPair(MachineOf(s), r, imm % 0x1_0000), 3)
  {
    hide C.MovGroup, C.ArithGroup, C.LogicGroup, C.RowC, C.RowD, C.RowE, C.RowF, C.Row0, C.Row3, Or, And, Hi, Lo;
    var bytes := [1 + 0x10 * PairBits(r), Lo(imm), Hi(imm)];
    assert s.mem[s.pc + 0] == bytes[0];
    assert s.mem[s.pc + 1] == bytes[1];
    assert s.mem[s.pc + 2] == bytes[2];
    assert C.Arg(s, 1) == Lo(imm) && C.Arg(s, 2) == Hi(imm);
    HalvesWrap(imm);
  }

  lemma StaxRuns(s: C.State)
    requires C.Opcode(s) == 2
    ensures var m := MachineOf(s);
      StepsTo(s, m.(mem := C.Write(m.mem, GetPair(m, REG_B), m.a)), 1)
  {
    hide C.Row1, C.Row2, C.Row3, C.MovGroup, C.ArithGroup, C.LogicGroup, C.RowC, C.RowD, C.RowE, C.RowF, Or, And, Hi,
         Lo;
  }

  lemma PushRuns(s: C.State, r: Reg)
    requires r in {REG_D, REG_H} && C.Opcode(s) == 0xC5 + 8 * RegBits(r)
    ensures StepsTo(s, PushPair(MachineOf(s), GetPair(MachineOf(s), r)), 1)
  {
    hide C.Row0, C.Row1, C.Row2, C.Row3, C.MovGroup, C.ArithGroup, C.LogicGroup, C.RowC, C.RowF, Or, And, Hi, Lo,
         C.Pair;
    OfPair(s.d, s.e);
    OfPair(s.h, s.l);
  }

  lemma PopRuns(s: C.State)
    requires C.Opcode(s) == 0xC1
    ensures var m := MachineOf(s);
      StepsTo(s, PutPair(m, REG_B, C.ReadWord(m.mem, m.sp)).(sp := C.Wrap(m.sp + 2)), 1)
  {
    hide C.Row0, C.Row1, C.Row2, C.Row3, C.MovGroup, C.ArithGroup, C.LogicGroup, C.RowD, C.RowE, C.RowF, Or, And, Hi,
         Lo, C.Pair;
    OfPair(C.Read(s.mem, s.sp + 1), C.Read(s.mem, s.sp));
  }

  // ---- a line ----

  /** What the lines that run are compiled to. */
  lemma ShapeOf(line: LineInfo)
    requires Runs(line) && Lexable(line)
    ensures var bytes := EncodedBytes(line);
      && bytes == AssembledBytes(line) && bytes[0] == OpByte(line)
      && |bytes| == (match line.instr case MVI => 2 case LXI => 3 case _ => 1)
      && (line.instr == MVI ==> bytes == [OpByte(line), line.imm])
      && (line.instr == LXI ==> bytes == [OpByte(line), Lo(line.imm), Hi(line.imm)])
  {
    hide EncodedBytes, OpByte, RegBits, PairBits, Or, Lo, Hi;
    Encodes(line);
  }

  lemma OpcodeOf(line: LineInfo)
    requires Runs(line) && TableSafe(line)
    ensures match line.instr
      case MOV => OpByte(line) == 0x40 + 8 * RegBits(line.reg0) + RegBits(line.reg1)
      case MVI => OpByte(line) == 6 + 8 * RegBits(line.reg0)
      case ADD => OpByte(line) == 0x80 + RegBits(line.reg0)
      case SUB => OpByte(line) == 0x90 + RegBits(line.reg0)
      case ANA => OpByte(line) == 0xA0 + RegBits(line.reg0)
      case XRA => OpByte(line) == 0xA8 + RegBits(line.reg0)
      case ORA => OpByte(line) == 0xB0 + RegBits(line.reg0)
      case INX => OpByte(line) == 3 + 0x10 * PairBits(line.reg0)
      case DAD => OpByte(line) == 9 + 0x10 * PairBits(line.reg0)
      case LXI => OpByte(line) == 1 + 0x10 * PairBits(line.reg0)
      case STAX => OpByte(line) == 2
      case PUSH => OpByte(line) == 0xC5 + 8 * RegBits(line.reg0)
      case POP => OpByte(line) == 0xC1
      case _ => true
  {
  }

  lemma LogicalIs(m: Machine, r: Reg)
    requires Single(r)
    ensures And(m.a, Get(m, r)) == And(m.a, Get(m, r)) % 0x100
  {
    hide And, Get;
  }

  lemma AluRuns(line: LineInfo, s: C.State)
    requires Runs(line) && TableSafe(line) && line.instr in {ADD, SUB, ANA, XRA, ORA} && C.Opcode(s) == OpByte(line)
    ensures StepsTo(s, Do(line, MachineOf(s)), 1)
  {
    hide OpByte, RegBits, StepsTo, Arithmetic, Logical, Get, Or, And, Xor, TableSafe;
    var r := line.reg0;
    OpcodeOf(line);
    match line.instr
    case ADD => AddRuns(s, r);
    case SUB => SubRuns(s, r);
    case ANA => LogicRuns(s, 4, r); LogicalIs(MachineOf(s), r);
    case XRA => LogicRuns(s, 5, r);
    case ORA => LogicRuns(s, 6, r);
  }

  lemma PairLineRuns(line: LineInfo, s: C.State)
    requires Runs(line) && TableSafe(line) && line.instr in {INX, DAD, STAX, PUSH, POP} && C.Opcode(s) == OpByte(line)
    ensures StepsTo(s, Do(line, MachineOf(s)), 1)
  {
    hide OpByte, RegBits, PairBits, StepsTo, PutPair, GetPair, Increment, AddPair, PushPair, TableSafe;
    OpcodeOf(line);
    match line.instr
    case INX => InxRuns(s, line.reg0);
    case DAD => DadRuns(s, line.reg0);
    case STAX => StaxRuns(s);
    case PUSH => PushRuns(s, line.reg0);
    case POP => PopRuns(s);
  }

  /** The step on a compiled line does what the line means, and ends behind it. */
  lemma LineRuns(line: LineInfo, s: C.State)
    requires Runs(line) && Lexable(line) && Fetched(s, EncodedBytes(line))
    ensures StepsTo(s, Do(line, MachineOf(s)), |EncodedBytes(line)|)
  {
    hide EncodedBytes, OpByte, RegBits, PairBits, AssembledBytes, StepsTo, Put, PutPair, PushPair, Increment, AddPair,
         Get, TableSafe, Fixed;
    hide Or, And, Xor, Lo, Hi, Arithmetic, Logical;
    ShapeOf(line);
    OpcodeOf(line);
    assert s.mem[s.pc + 0] == EncodedBytes(line)[0];
    match line.instr
    case MOV => MovRuns(s, line.reg0, line.reg1);
    case MVI => MviRuns(s, line.reg0, line.imm);
    case LXI => LxiRuns(s, line.reg0, line.imm);
    case ADD | SUB | ANA | XRA | ORA => AluRuns(line, s);
    case INX | DAD | STAX | PUSH | POP => PairLineRuns(line, s);
  }
}
