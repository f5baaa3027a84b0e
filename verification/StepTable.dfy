/**
 * The emulator's step opcode by opcode, for what Conformance leaves open: where jumps and restarts go, what is left by
 * the instructions that never do what they are meant to, the flags after every opcode, and the time of every opcode.
 */
module StepTable {
  import opened Bits
  import opened CpuSpec
  import opened EmulatorRows
  import I = Manual
  import P = Parity

  // ---- time ----

  /** Whether the condition of a call or return is met, as the emulator tests it. */
  predicate Met(op: byte, cc: Flags) {
    match op
    case 0xC4 => !cc.z
    case 0xC8 => cc.z
    case 0xCC => cc.z
    case 0xF4 => cc.p
    case _ => false
  }

  /** The moves that are given ten states. */
  predicate TenStates(op: byte) {
    op in {0x46, 0x4E, 0x56, 0x5E, 0x66, 0x67, 0x68, 0x69, 0x6A, 0x6B, 0x6C, 0x6D}
  }

  /** The manual's states, but for moves, 0x08, SBB M, ANA M, ADI, RST 0 and XTHL; -1 at a trap, and -2 at HLT. */
  function Time(op: byte, cc: Flags): int {
    if Trapped(op) then -1
    else if op == 0x76 then -2
    else if 0x40 <= op < 0x80 then if TenStates(op) then 10 else 7
    else
      match op
      case 0x08 => 0
      case 0x9E => 4
      case 0xA6 => 4
      case 0xC6 => 4
      case 0xC7 => 0
      case 0xE3 => 14
      case _ => I.States(I.Decode(op), Met(op, cc))
  }

  lemma Time0(s: State, op: byte)
    requires 0x00 <= op < 0x10
    ensures Status(Row0(s, op)) == Time(op, s.cc)
  {
    hide I.Decode, SetOperand, And, Or, Read, Write, Arg, Skip, ArithFlags, LogicFlags, Push, Call, Return, JumpTo;
    if op < 0x08 {
      I.DecodedLow(op, 0);
    } else {
      I.DecodedLow(op, 1);
    }
  }

  lemma Time1(s: State, op: byte)
    requires 0x10 <= op < 0x20
    ensures Status(Row1(s, op)) == Time(op, s.cc)
  {
    hide I.Decode, SetOperand, And, Or, Read, Write, Arg, Skip, ArithFlags, LogicFlags, Push, Call, Return, JumpTo;
    if op < 0x18 {
      I.DecodedLow(op, 2);
    } else {
      I.DecodedLow(op, 3);
    }
  }

  lemma Time2(s: State, op: byte)
    requires 0x20 <= op < 0x30
    ensures Status(Row2(s, op)) == Time(op, s.cc)
  {
    hide I.Decode, SetOperand, And, Or, Read, Write, Arg, Skip, ArithFlags, LogicFlags, Push, Call, Return, JumpTo;
    if op < 0x28 {
      I.DecodedLow(op, 4);
    } else {
      I.DecodedLow(op, 5);
    }
  }

  lemma Time3(s: State, op: byte)
    requires 0x30 <= op < 0x40
    ensures Status(Row3(s, op)) == Time(op, s.cc)
  {
    hide I.Decode, SetOperand, And, Or, Read, Write, Arg, Skip, ArithFlags, LogicFlags, Push, Call, Return, JumpTo;
    if op < 0x38 {
      I.DecodedLow(op, 6);
    } else {
      I.DecodedLow(op, 7);
    }
  }

  lemma TimeC(s: State, op: byte)
    requires 0xC0 <= op < 0xD0
    ensures Status(RowC(s, op)) == Time(op, s.cc)
  {
    hide I.Decode, SetOperand, And, Or, Read, Write, Arg, Skip, ArithFlags, LogicFlags, Push, Call, Return, JumpTo;
    if op < 0xC8 {
      I.DecodedHigh(op, 0);
    } else {
      I.DecodedHigh(op, 1);
    }
  }

  lemma TimeD(s: State, op: byte)
    requires 0xD0 <= op < 0xE0
    ensures Status(RowD(s, op)) == Time(op, s.cc)
  {
    hide I.Decode, SetOperand, And, Or, Read, Write, Arg, Skip, ArithFlags, LogicFlags, Push, Call, Return, JumpTo;
    if op < 0xD8 {
      I.DecodedHigh(op, 2);
    } else {
      I.DecodedHigh(op, 3);
    }
  }

  lemma TimeE(s: State, op: byte)
    requires 0xE0 <= op < 0xF0
    ensures Status(RowE(s, op)) == Time(op, s.cc)
  {
    hide I.Decode, SetOperand, And, Or, Read, Write, Arg, Skip, ArithFlags, LogicFlags, Push, Call, Return, JumpTo;
    if op < 0xE8 {
      I.DecodedHigh(op, 4);
    } else {
      I.DecodedHigh(op, 5);
    }
  }

  lemma TimeF(s: State, op: byte)
    requires 0xF0 <= op
    ensures Status(RowF(s, op)) == Time(op, s.cc)
  {
    hide I.Decode, SetOperand, And, Or, Read, Write, Arg, Skip, ArithFlags, LogicFlags, Push, Call, Return, JumpTo;
    if op < 0xF8 {
      I.DecodedHigh(op, 6);
    } else {
      I.DecodedHigh(op, 7);
    }
  }

  lemma TimeMov(s: State, op: byte)
    requires 0x40 <= op < 0x80
    ensures Status(MovGroup(s, op)) == Time(op, s.cc)
  {
    hide WithReg, Reg8;
    MovRows(s, op);
  }

  lemma TimeAlu(s: State, op: byte)
    requires 0x80 <= op < 0xC0
    ensures Status(if op < 0xA0 then ArithGroup(s, op) else LogicGroup(s, op)) == Time(op, s.cc)
  {
    hide ArithFlags, LogicFlags, P.LogicParity, And, Or, Xor, Operand, Pair, Lo, Hi;
  }

  /** The value every call of the emulator returns: a trap, a halt, or the time of the opcode and its condition. */
  lemma CycleTable(s: State)
    ensures Cycles(s) == Time(Opcode(s), s.cc)
  {
    hide Execute, Time, Status, Row0, Row1, Row2, Row3, MovGroup, ArithGroup, LogicGroup, RowC, RowD, RowE, RowF;
    var op := Opcode(s);
    Dispatch(s, op);
    if op < 0x10 {
      Time0(s, op);
    } else if op < 0x20 {
      Time1(s, op);
    } else if op < 0x30 {
      Time2(s, op);
    } else if op < 0x40 {
      Time3(s, op);
    } else if op < 0x80 {
      TimeMov(s, op);
    } else if op < 0xC0 {
      TimeAlu(s, op);
    } else if op < 0xD0 {
      TimeC(s, op);
    } else if op < 0xE0 {
      TimeD(s, op);
    } else if op < 0xF0 {
      TimeE(s, op);
    } else {
      TimeF(s, op);
    }
  }

  /** The moves that are given the manual's states: the stores, and MOV L,M and MOV A,M. */
  predicate MoveInTime(op: byte) { op in {0x6E, 0x70, 0x71, 0x72, 0x73, 0x74, 0x75, 0x77, 0x7E} }

  /** What is implemented takes the manual's states exactly when it is none of the other moves and of five more. */
  lemma TimesExactly(op: byte, cc: Flags)
    requires !Trapped(op) && op != 0x76 && I.Decode(op) != I.Undefined
    ensures Time(op, cc) == I.States(I.Decode(op), Met(op, cc)) <==>
      (0x40 <= op < 0x80 ==> MoveInTime(op)) && op !in {0x9E, 0xA6, 0xC6, 0xC7, 0xE3}
  {
    hide I.Decode, Trapped;
    if op < 0x40 || 0xC0 <= op {
      HighTimes(op, cc);
    } else {
      MiddleTimes(op, cc);
    }
  }

  lemma MiddleTimes(op: byte, cc: Flags)
    requires 0x40 <= op < 0xC0 && op != 0x76
    ensures I.States(I.Decode(op), Met(op, cc)) ==
      if op < 0x80 then if op % 8 == 6 || 0x70 <= op < 0x78 then 7 else 5
      else if op % 8 == 6 then 7 else 4
  {
  }

  lemma HighTimes(op: byte, cc: Flags)
    ensures I.States(I.Decode(0xC6), Met(0xC6, cc)) == 7 && I.States(I.Decode(0xC7), Met(0xC7, cc)) == 11
    ensures I.States(I.Decode(0xE3), Met(0xE3, cc)) == 18
    ensures I.Decode(0x08) == I.Undefined
  {
    hide I.Decode;
    I.DecodedHigh(0xC6, 0);
    I.DecodedHigh(0xC7, 0);
    I.DecodedHigh(0xE3, 4);
    I.DecodedLow(0x08, 1);
  }

  // ---- the accumulator group ----

  /** What is left in the accumulator by the opcodes 0x80 to 0xBF. */
  function AluLeft(s: State, op: byte): byte {
    var r, v, hl := op % 8, Reg8(s, op % 8), Pair16(s, 2);
    match op
    case 0x89 => s.a
    case 0x8E | 0x96 | 0xA6 | 0xB7 => 0
    case 0x9E => if s.a < hl - 1 then 0xFF else 0
    case 0xAE | 0xB6 => s.h
    case 0xBE => 0xFF - s.h
    case _ =>
      if op < 0x88 then (s.a + v) % 0x100
      else if op < 0x90 then (s.a + v + One(s.a + v > 0xFF)) % 0x100
      else if op < 0x98 then (s.a - v) % 0x100
      else if op < 0xA0 then (s.a - v + One(r < 4 && s.a < v)) % 0x100
      else if op < 0xA8 then And(s.a, v)
      else if op < 0xB0 then Xor(s.a, v) % 0x100
      else if op < 0xB8 then Or(s.a, v) % 0x100
      else 0xFF - v
  }

  function AluFlags(s: State, op: byte): Flags {
    var v, hl, odd := Reg8(s, op % 8), Pair16(s, 2), PopCount(s.a) % 2 == 1;
    match op
    case 0x89 => s.cc
    case 0x8E | 0x96 => s.cc.(z := s.a + hl == 0, s := false, p := odd, cy := s.a + hl > 0xFFFF)
    case 0x9E => s.cc.(s := s.a < hl, p := odd, cy := s.a < hl)
    case 0xAE | 0xB6 | 0xBE => Masked(s.cc, s.a)
    case _ =>
      if op < 0x90 then Flagged(s.cc, s.a + v)
      else if op < 0xA0 then Flagged(s.cc, s.a - v)
      else Masked(s.cc, AluLeft(s, op))
  }

  predicate AluLeaves(s: State, op: byte, f: Effect) {
    if op == 0x89 then f == Unimplemented
    else f.Go? && f.s == s.(a := AluLeft(s, op), cc := AluFlags(s, op))
  }

  lemma AddTable(s: State, op: byte)
    requires 0x80 <= op < 0x90
    ensures AluLeaves(s, op, ArithGroup(s, op))
  {
    hide ArithGroup, Reg8, Flagged, Masked, PopCount;
    if op < 0x88 {
      AddRows(s, op - 0x80);
    } else if op == 0x8E {
      ArithMemoryRows(s);
    } else {
      AdcRows(s, op - 0x88);
    }
    Places(op);
  }

  lemma Places(op: byte)
    requires 0x80 <= op
    ensures op < 0x88 ==> op % 8 == op - 0x80
    ensures 0x88 <= op < 0x90 ==> op % 8 == op - 0x88
    ensures 0x90 <= op < 0x98 ==> op % 8 == op - 0x90
    ensures 0x98 <= op < 0xA0 ==> op % 8 == op - 0x98
    ensures 0xA0 <= op < 0xA8 ==> op % 8 == op - 0xA0
    ensures 0xA8 <= op < 0xB0 ==> op % 8 == op - 0xA8
    ensures 0xB0 <= op < 0xB8 ==> op % 8 == op - 0xB0
    ensures 0xB8 <= op < 0xC0 ==> op % 8 == op - 0xB8
  {
  }

  lemma SubTable(s: State, op: byte)
    requires 0x90 <= op < 0xA0
    ensures AluLeaves(s, op, ArithGroup(s, op))
  {
    hide ArithGroup, Reg8, Flagged, Masked, PopCount;
    if op == 0x96 {
      ArithMemoryRows(s);
    } else if op == 0x9E {
      SbbMemoryRow(s);
    } else if op < 0x98 {
      SubRows(s, op - 0x90);
    } else {
      SbbRows(s, op - 0x98);
    }
    Places(op);
  }

  lemma LogicTable(s: State, op: byte)
    requires 0xA0 <= op < 0xC0
    ensures AluLeaves(s, op, LogicGroup(s, op))
  {
    hide LogicGroup, Reg8, Masked, PopCount, And, Or, Xor;
    Places(op);
    if op in {0xAE, 0xB6, 0xBE} {
      LogicOddRows(s);
    } else if op in {0xA6, 0xB7} {
      LogicClearRows(s);
    } else if op < 0xA8 {
      LogicRows(s, 4, op - 0xA0);
    } else if op < 0xB0 {
      LogicRows(s, 5, op - 0xA8);
    } else if op < 0xB8 {
      LogicRows(s, 6, op - 0xB0);
    } else {
      LogicRows(s, 7, op - 0xB8);
    }
  }

  lemma Ran(s: State)
    ensures match Execute(s, Opcode(s))
      case Go(t, time) => Step(s) == On(t, 1)
      case Halt => Step(s) == s
      case Unimplemented => Step(s) == On(s, -1)
  {
    hide Execute;
  }

  /** Every opcode of the accumulator group: the accumulator and the flags left, and nothing else. */
  lemma AluTable(s: State)
    requires 0x80 <= Opcode(s) < 0xC0 && Opcode(s) != 0x89
    ensures Step(s) == On(s.(a := AluLeft(s, Opcode(s)), cc := AluFlags(s, Opcode(s))), 1)
  {
    hide Execute, ArithGroup, LogicGroup, AluLeft, AluFlags, Step;
    var op := Opcode(s);
    Dispatch(s, op);
    Ran(s);
    if op < 0x90 {
      AddTable(s, op);
    } else if op < 0xA0 {
      SubTable(s, op);
    } else {
      LogicTable(s, op);
    }
  }

  // ---- flags ----

  /** The flags after any opcode. */
  function FlagsLeft(s: State): Flags {
    var op, de, hl := Opcode(s), Pair16(s, 1), Pair16(s, 2);
    if 0x80 <= op < 0xC0 then AluFlags(s, op)
    else
      match op
      case 0x09 => s.cc.(cy := hl + Pair16(s, 0) > 0xFFFF)
      case 0x19 => s.cc.(cy := hl + de > 0xFFFF)
      case 0x29 => s.cc.(cy := 2 * hl > 0xFFFF)
      case 0x1B => s.cc.(cy := de == 0)
      case 0x0C => Flagged(s.cc, s.c + 1)
      case 0x2C => Flagged(s.cc, s.l + 1)
      case 0x3C => Flagged(s.cc, s.a + 1)
      case 0x05 => Flagged(s.cc, (s.b - 1) % 0x100)
      case 0x1D => Flagged(s.cc, (s.e - 1) % 0x100)
      case 0x0D => Flagged(s.cc, s.c - 1)
      case 0x25 => Flagged(s.cc, s.h - 1)
      case 0x2D => Flagged(s.cc, s.l - 1)
      case 0x3D => Flagged(s.cc, s.a - 1)
      case 0x24 | 0x34 => Flagged(s.cc, hl + 1)
      case 0x35 => Flagged(s.cc, hl - 1)
      case 0x07 => s.cc.(cy := s.a >= 0x80)
      case 0x0F => s.cc.(cy := s.a % 2 == 1)
      case 0xC6 | 0xCE => Flagged(s.cc, s.a + Imm8(s))
      case 0xE6 | 0xF6 => Masked(s.cc, s.a)
      case 0xF1 => Unpacked(Peek(s, s.sp))
      case _ => s.cc
  }

  predicate SetsFlags(op: byte) {
    op in {0x05, 0x07, 0x09, 0x0C, 0x0D, 0x0F, 0x19, 0x1B, 0x1D, 0x24, 0x25, 0x29, 0x2C, 0x2D, 0x34, 0x35, 0x3C, 0x3D,
           0xC6, 0xCE, 0xE6, 0xF1, 0xF6}
  }

  lemma FlagsUntouched(s: State, op: byte)
    requires !SetsFlags(op) && !(0x80 <= op < 0xC0) && Execute(s, op).Go?
    ensures Execute(s, op).s.cc == s.cc
  {
    hide Read, Write, Arg, And, Or, PackFlags, ReadWord, Hi, Lo, Wrap, Pair, ArithFlags, LogicFlags;
  }

  lemma FlagsOfInr(s: State)
    requires Opcode(s) in {0x0C, 0x2C, 0x3C}
    ensures Execute(s, Opcode(s)).Go? && Execute(s, Opcode(s)).s.cc == FlagsLeft(s)
  {
    hide Execute, Row0, Row1, Row2, Row3, Flagged, WithReg, WithPair, Pair16, AluFlags, Peek, Imm8, Unpacked;
    Dispatch(s, Opcode(s));
    InrRows(s);
  }

  lemma FlagsOfHL(s: State)
    requires Opcode(s) in {0x24, 0x34, 0x35}
    ensures Execute(s, Opcode(s)).Go? && Execute(s, Opcode(s)).s.cc == FlagsLeft(s)
  {
    hide Execute, Row0, Row1, Row2, Row3, Flagged, WithReg, WithPair, Pair16, AluFlags, Peek, Imm8, Unpacked;
    Dispatch(s, Opcode(s));
    CountHLRows(s);
  }

  lemma FlagsOfDcr(s: State)
    requires Opcode(s) in {0x0D, 0x25, 0x2D, 0x3D}
    ensures Execute(s, Opcode(s)).Go? && Execute(s, Opcode(s)).s.cc == FlagsLeft(s)
  {
    hide Execute, Row0, Row1, Row2, Row3, Flagged, WithReg, WithPair, Pair16, AluFlags, Peek, Imm8, Unpacked;
    Dispatch(s, Opcode(s));
    DcrRows(s);
  }

  lemma FlagsOfDcrByte(s: State)
    requires Opcode(s) in {0x05, 0x1D}
    ensures Execute(s, Opcode(s)).Go? && Execute(s, Opcode(s)).s.cc == FlagsLeft(s)
  {
    hide Execute, Row0, Row1, Row2, Row3, Flagged, WithReg, WithPair, Pair16, AluFlags, Peek, Imm8, Unpacked;
    Dispatch(s, Opcode(s));
    DcrByteRows(s);
  }

  lemma FlagsOfWords(s: State)
    requires Opcode(s) in {0x07, 0x09, 0x0F, 0x19, 0x1B, 0x29}
    ensures Execute(s, Opcode(s)).Go? && Execute(s, Opcode(s)).s.cc == FlagsLeft(s)
  {
    hide Execute, Row0, Row1, Row2, WithPair, Pair16, RotatedLeft, RotatedRight;
    Dispatch(s, Opcode(s));
    DadRows(s);
    DcxRows(s);
    RotateRows(s);
  }

  lemma FlagsOfImmediates(s: State)
    requires Opcode(s) in {0xC6, 0xCE, 0xE6, 0xF1, 0xF6}
    ensures Execute(s, Opcode(s)).Go? && Execute(s, Opcode(s)).s.cc == FlagsLeft(s)
  {
    hide Execute, RowC, RowE, RowF, Flagged, Masked, Unpacked, Peek, Imm8, And, Or, AluFlags, Pair16, One;
    Dispatch(s, Opcode(s));
    AddImmediateRows(s);
    MaskImmediateRows(s);
    PopRows(s);
  }

  /** The flags after every step, of any opcode. */
  lemma FlagTable(s: State)
    ensures Step(s).cc == FlagsLeft(s)
  {
    hide Execute, Step, AluFlags, AluLeft, Flagged, Masked, Unpacked, Peek, Imm8, Pair16;
    var op := Opcode(s);
    Ran(s);
    if op == 0x89 {
      TrappedRows(s, op);
      assert AluFlags(s, 0x89) == s.cc by { NoAdc(s); }
    } else if 0x80 <= op < 0xC0 {
      AluTable(s);
    } else if op in {0x0C, 0x2C, 0x3C} {
      FlagsOfInr(s);
    } else if op in {0x24, 0x34, 0x35} {
      FlagsOfHL(s);
    } else if op in {0x0D, 0x25, 0x2D, 0x3D} {
      FlagsOfDcr(s);
    } else if op in {0x05, 0x1D} {
      FlagsOfDcrByte(s);
    } else if op in {0x07, 0x09, 0x0F, 0x19, 0x1B, 0x29} {
      FlagsOfWords(s);
    } else if op in {0xC6, 0xCE, 0xE6, 0xF1, 0xF6} {
      FlagsOfImmediates(s);
    } else if Execute(s, op).Go? {
      FlagsUntouched(s, op);
    }
  }

  lemma NoAdc(s: State)
    ensures AluFlags(s, 0x89) == s.cc
  {
  }

  // ---- those that never do what is meant ----

  lemma OnTwice(s: State, m: int)
    ensures On(On(s, m), 1) == On(s, m + 1)
  {
  }

  /** LXI B and SP. */
  lemma WrongLoadWords(s: State)
    ensures Opcode(s) == 0x01 ==> Step(s) == On(s.(b := Peek(s, s.pc + 3), c := Peek(s, s.pc + 2)), 1)
    ensures Opcode(s) == 0x31 ==> Step(s) == On(s.(sp := 0x100 * Peek(s, s.pc + 3) + Peek(s, s.pc + 2)), 4)
  {
    hide Execute, Row0, Row3, Peek, Step, On;
    Dispatch(s, Opcode(s));
    Ran(s);
    LoadWordRows(s);
    OnTwice(s.(sp := 0x100 * Peek(s, s.pc + 3) + Peek(s, s.pc + 2)), 3);
  }

  /** LHLD and STA, which take one byte for their address. */
  lemma WrongLoads(s: State)
    ensures Opcode(s) == 0x2A ==> Step(s) == On(s.(l := Peek(s, Imm8(s)), h := Peek(s, Imm8(s) + 1)), 2)
    ensures Opcode(s) == 0x32 ==> Step(s) == On(Poke(s, Imm8(s), s.a), 2)
  {
    hide Execute, Row2, Row3, Peek, Poke, Imm8, Step, On;
    Dispatch(s, Opcode(s));
    Ran(s);
    LoadRows(s);
    StoreRows(s);
    OnTwice(s.(l := Peek(s, Imm8(s)), h := Peek(s, Imm8(s) + 1)), 1);
    OnTwice(Poke(s, Imm8(s), s.a), 1);
  }

  /** DCX H, INR H, INR M and DCR M. */
  lemma WrongCounts(s: State)
    ensures var hl := Pair16(s, 2);
      && (Opcode(s) == 0x2B ==> Step(s) == On(WithPair(s, 2, hl + 1), 1))
      && (Opcode(s) == 0x24 ==> Step(s) == On(WithPair(s, 2, hl + 1).(cc := Flagged(s.cc, hl + 1)), 1))
      && (Opcode(s) == 0x34
          ==> Step(s) == On(s.(h := (hl + 1) / 0x100 % 0x100, l := 0xFF, cc := Flagged(s.cc, hl + 1)), 1))
      && (Opcode(s) == 0x35
          ==> Step(s) == On(s.(h := (hl - 1) / 0x100 % 0x100, l := 0xFF, cc := Flagged(s.cc, hl - 1)), 1))
  {
    hide Execute, Row2, Row3, Flagged, WithPair, Pair16, Step;
    Dispatch(s, Opcode(s));
    Ran(s);
    CountHLRows(s);
    DcxRows(s);
  }

  /** RLC, RRC and MOV B,D. */
  lemma WrongMoves(s: State)
    ensures Opcode(s) == 0x07 ==> Step(s) == On(s.(a := RotatedLeft(s.a), cc := s.cc.(cy := s.a >= 0x80)), 1)
    ensures Opcode(s) == 0x0F ==> Step(s) == On(s.(a := RotatedRight(s.a), cc := s.cc.(cy := s.a % 2 == 1)), 1)
    ensures Opcode(s) == 0x42 ==> Step(s) == On(s.(b := s.c), 1)
  {
    hide Execute, Row0, MovGroup, RotatedLeft, RotatedRight, Step;
    Dispatch(s, Opcode(s));
    Ran(s);
    RotateRows(s);
    MovRows(s, 0x42);
  }

  /** ADI, ACI, SBI and CPI; and IN, which skips a byte too many. */
  lemma WrongImmediates(s: State)
    ensures var v := Imm8(s);
      && (Opcode(s) == 0xC6 ==> Step(s) == On(s.(a := (s.a + v) / 0x100, cc := Flagged(s.cc, s.a + v)), 2))
      && (Opcode(s) == 0xCE
          ==> Step(s) == On(s.(a := (s.a + v + One(s.a + v > 0xFF)) % 0x100, cc := Flagged(s.cc, s.a + v)), 2))
    ensures Opcode(s) == 0xDE ==> Step(s) == On(s, 1)
    ensures Opcode(s) == 0xFE ==> Step(s) == s
    ensures Opcode(s) == 0xDB ==> Step(s) == On(s, 3)
  {
    hide Execute, RowC, RowD, RowF, Flagged, Imm8, Step;
    Dispatch(s, Opcode(s));
    Ran(s);
    AddImmediateRows(s);
    StillRows(s);
  }

  /** PUSH B and PSW, POP D and PSW, and XTHL. */
  lemma WrongStack(s: State)
    ensures Opcode(s) == 0xC5 ==>
      Step(s) == On(Poke(Poke(s, s.sp - 1, s.b), s.sp, s.c).(sp := (s.sp - 2) % 0x1_0000), 1)
    ensures Opcode(s) == 0xF5 ==> Step(s) == On(Pushed(s, s.a, Packed(s.cc)), 1)
    ensures Opcode(s) == 0xD1 ==> Step(s) == On(Raised(s).(d := Peek(s, s.sp - 1), e := Peek(s, s.sp)), 1)
    ensures Opcode(s) == 0xF1 ==> Step(s) == On(s.(a := Peek(s, s.sp + 1), cc := Unpacked(Peek(s, s.sp))), 3)
    ensures var lo, hi := Peek(s, s.sp), Peek(s, s.sp + 1);
      Opcode(s) == 0xE3 ==> Step(s) == On(Poke(Poke(s.(l := lo, h := hi), lo, s.l), hi, s.h), 1)
  {
    hide Execute, RowC, RowD, RowE, RowF, Peek, Poke, Pushed, Packed, Unpacked, Step;
    Dispatch(s, Opcode(s));
    Ran(s);
    PushRows(s);
    PopRows(s);
    ExchangeRows(s);
  }

  // ---- leaving the line ----

  /** Jumps, taken and not: where they land, one past what they read, and that nothing else changes. */
  lemma JumpTable(s: State)
    ensures Opcode(s) == 0xC2 ==> Step(s) == if s.cc.z then On(s, 3) else s.(pc := (Imm16(s) + 1) % 0x1_0000)
    ensures Opcode(s) == 0xC3 ==> Step(s) == s.(pc := (Imm16(s) + 1) % 0x1_0000)
    ensures Opcode(s) == 0xD2 ==> Step(s) == if s.cc.cy then On(s, 1) else s.(pc := (Imm16(s) + 1) % 0x1_0000)
  {
    hide Execute, RowC, RowD, Peek, Imm16, Step;
    Dispatch(s, Opcode(s));
    Ran(s);
    JumpRows(s);
  }

  /** JP and CP, which test the parity flag and read their operand high byte first. */
  lemma SwappedJumps(s: State)
    requires Opcode(s) in {0xF2, 0xF4}
    ensures var swapped := 0x100 * Peek(s, s.pc + 1) + Peek(s, s.pc + 2);
      Step(s) == if s.cc.p then s.(pc := (swapped + 1) % 0x1_0000) else On(s, 1)
  {
    hide Execute, RowF, Peek, Step;
    Dispatch(s, Opcode(s));
    Ran(s);
    JumpRows(s);
  }

  /** Calls, returns and restarts. */
  lemma CallTable(s: State)
    ensures Opcode(s) == 0xCD ==> Step(s) == On(Called(s), 1)
    ensures Opcode(s) == 0xC4 ==> Step(s) == if s.cc.z then On(s, 3) else On(Called(s), 1)
    ensures Opcode(s) in {0xCA, 0xCC} ==> Step(s) == if s.cc.z then On(Called(s), 1) else On(s, 1)
    ensures Opcode(s) == 0xC9 ==> Step(s) == On(Returned(s), 1)
    ensures Opcode(s) == 0xC8 ==> Step(s) == if s.cc.z then On(Returned(s), 1) else On(s, 1)
    ensures Opcode(s) == 0xC7 ==> Step(s) == s.(pc := 1)
    ensures Opcode(s) == 0xCF ==> Step(s) == s.(sp := s.pc, pc := 9)
  {
    hide Execute, RowC, Called, Returned, Step;
    Dispatch(s, Opcode(s));
    Ran(s);
    CallRows(s);
    RestartRows(s);
  }

  /** What is not implemented steps back by one, and so do HLT and the bytes without a meaning where they are. */
  lemma IdleTable(s: State)
    ensures Trapped(Opcode(s)) ==> Step(s) == On(s, -1)
    ensures Opcode(s) == 0x76 ==> Step(s) == s
    ensures Opcode(s) in {0x08, 0x10, 0x20, 0x28, 0x30, 0x38} ==> Step(s) == On(s, 1)
  {
    hide Execute, Row0, Row1, Row2, Row3, MovGroup, Step, Trapped;
    Dispatch(s, Opcode(s));
    Ran(s);
    TrappedRows(s, Opcode(s));
    IdleRows(s);
    MovRows(s, 0x76);
  }
}
