/**
 * The emulator's step against the manual's instruction, for every instruction that does not leave the line of
 * execution: what each is meant to do, exactly when the emulator does it, and what it does where it never can.
 * Registers, memory and program counter are compared here, the flags in FlagTable.
 */
module Conformance {
  import opened Bits
  import opened CpuSpec
  import opened EmulatorRows
  import I = Manual
  import F = FlagRules
  import P = Parity

  /** Jumps, calls, returns and restarts; see Leaving. */
  predicate Leaves(i: I.Instruction) {
    i.ReturnIf? || i.Ret? || i.Pchl? || i.JumpIf? || i.Jmp? || i.CallIf? || i.Call? || i.Rst?
  }

  /** The instructions compared: not those that leave, stop, adjust for decimals or read a device. */
  predicate Compared(i: I.Instruction) { !Leaves(i) && !i.Hlt? && !i.Daa? && !i.In? && !i.Undefined? }

  // ---- what is meant ----

  /** The status word: sign, zero, auxiliary carry, parity and carry, and a fixed one. */
  function StatusByte(cc: Flags): byte {
    0x80 * One(cc.s) + 0x40 * One(cc.z) + 0x10 * One(cc.ac) + 4 * One(cc.p) + 2 + One(cc.cy)
  }

  /** What an instruction does, its flags apart. */
  function Does(i: I.Instruction, s: State): State {
    var t := On(s, 1 + I.OperandBytes(i));
    match i
    case Lxi(p) => WithPair(t, p, Imm16(s))
    case Dad(p) => WithPair(t, 2, Pair16(s, 2) + Pair16(s, p))
    case Stax(p) => Poke(t, Pair16(s, p), s.a)
    case Ldax(p) => t.(a := Peek(s, Pair16(s, p)))
    case Shld => Poke(Poke(t, Imm16(s), s.l), Imm16(s) + 1, s.h)
    case Lhld => t.(l := Peek(s, Imm16(s)), h := Peek(s, Imm16(s) + 1))
    case Sta => Poke(t, Imm16(s), s.a)
    case Lda => t.(a := Peek(s, Imm16(s)))
    case Inx(p) => WithPair(t, p, Pair16(s, p) + 1)
    case Dcx(p) => WithPair(t, p, Pair16(s, p) - 1)
    case Inr(r) => WithReg(t, r, (Reg8(s, r) + 1) % 0x100)
    case Dcr(r) => WithReg(t, r, (Reg8(s, r) - 1) % 0x100)
    case Mvi(r) => WithReg(t, r, Imm8(s))
    case Rlc => t.(a := 2 * s.a % 0x100 + s.a / 0x80)
    case Rrc => t.(a := s.a / 2 + 0x80 * (s.a % 2))
    case Ral => t.(a := 2 * s.a % 0x100 + One(s.cc.cy))
    case Rar => t.(a := s.a / 2 + 0x80 * One(s.cc.cy))
    case Cma => t.(a := 0xFF - s.a)
    case Mov(r, from) => WithReg(t, r, Reg8(s, from))
    case Alu(row, r) => t.(a := F.MeantA(s, row, Reg8(s, r)))
    case AluImm(row) => t.(a := F.MeantA(s, row, Imm8(s)))
    case Pop(p) => if p == 3 then Raised(t).(a := Peek(s, s.sp + 1)) else WithPair(Raised(t), p, Top(s))
    case Push(p) =>
      if p == 3 then Pushed(t, s.a, StatusByte(s.cc))
      else Pushed(t, Pair16(s, p) / 0x100, Pair16(s, p) % 0x100)
    case Xthl => Poke(Poke(t.(l := Peek(s, s.sp), h := Peek(s, s.sp + 1)), s.sp, s.l), s.sp + 1, s.h)
    case Xchg => t.(d := s.h, e := s.l, h := s.d, l := s.e)
    case Sphl => t.(sp := Pair16(s, 2))
    case Di => t.(intEnable := false)
    case Ei => t.(intEnable := true)
    case _ => t
  }

  /** The same but for the flags. */
  predicate Same(s: State, t: State) { s == t.(cc := s.cc) }

  // ---- when it is done ----

  /** Those that never do what is meant; Deviations says what they do. */
  predicate Never(op: byte) {
    op in {0x01, 0x24, 0x2A, 0x2B, 0x31, 0x32, 0x34, 0x35, 0xDE, 0xF1, 0xF5, 0xFE}
  }

  /** A byte of memory after XTHL has stored L and then H through the two bytes it read. */
  function StoredThrough(s: State, addr: int): byte {
    if addr % 0x1_0000 == Peek(s, s.sp + 1) then s.h
    else if addr % 0x1_0000 == Peek(s, s.sp) then s.l
    else Peek(s, addr)
  }

  /** A byte of memory after the top of the stack has been exchanged with HL. */
  function Exchanged(s: State, addr: int): byte {
    if addr % 0x1_0000 == (s.sp + 1) % 0x1_0000 then s.h
    else if addr % 0x1_0000 == s.sp then s.l
    else Peek(s, addr)
  }

  predicate SameAt(s: State, addr: int) { StoredThrough(s, addr) == Exchanged(s, addr) }

  /** What must hold beforehand for the emulator to do what is meant. */
  predicate Conforms(s: State) {
    var op := Opcode(s);
    if Trapped(op) || Never(op) then false
    else if 0x80 <= op < 0xC0 then F.RightWhen(s, op / 8 % 8, op % 8, Reg8(s, op % 8))
    else
      match op
      case 0x07 => s.a < 0x80
      case 0x0F => s.a % 2 == 0
      case 0x42 => s.c == s.d
      case 0xC5 => Peek(s, s.sp) == s.c == Peek(s, s.sp - 2)
      case 0xC6 => (s.a + Imm8(s)) / 0x100 == (s.a + Imm8(s)) % 0x100
      case 0xCE => s.cc.cy == (s.a + Imm8(s) > 0xFF)
      case 0xD1 => Peek(s, s.sp - 1) == Peek(s, s.sp + 1)
      case 0xE3 =>
        SameAt(s, s.sp) && SameAt(s, s.sp + 1) && SameAt(s, Peek(s, s.sp)) && SameAt(s, Peek(s, s.sp + 1))
      case _ => true
  }

  predicate Right(s: State) { Same(Step(s), Does(I.Decode(Opcode(s)), s)) }

  // ---- one group after another ----

  /** The effect of this instruction before the last step of the program counter, and its place in the table. */
  lemma Compare(s: State, i: I.Instruction, t: State)
    requires I.Decode(Opcode(s)) == i
    requires Execute(s, Opcode(s)).Go? && Execute(s, Opcode(s)).s == t
    ensures Right(s) <==> Same(On(t, 1), Does(i, s))
  {
    hide Execute, Does, I.Decode;
  }

  // ---- loads and stores ----

  lemma LoadsDo(s: State)
    ensures Same(On(s.(a := Peek(s, Pair16(s, 0))), 1), Does(I.Ldax(0), s))
    ensures Same(On(s.(a := Peek(s, Pair16(s, 1))), 1), Does(I.Ldax(1), s))
    ensures Same(On(On(s.(a := Peek(s, Imm16(s))), 2), 1), Does(I.Lda, s))
    ensures Same(On(Poke(s, Pair16(s, 0), s.a), 1), Does(I.Stax(0), s))
  {
    hide Peek, Imm16;
  }

  lemma LxiMeans(s: State, p: nat)
    ensures Does(I.Lxi(p), s) == WithPair(On(s, 3), p, Imm16(s))
  {
    hide WithPair, On, Imm16;
  }

  lemma LoadWordsDo(s: State)
    ensures Same(On(On(s.(d := Peek(s, s.pc + 2), e := Peek(s, s.pc + 1)), 2), 1), Does(I.Lxi(1), s))
    ensures Same(On(On(s.(h := Peek(s, s.pc + 2), l := Peek(s, s.pc + 1)), 2), 1), Does(I.Lxi(2), s))
  {
    hide Peek, Does;
    LxiMeans(s, 1);
    LxiMeans(s, 2);
  }

  lemma LoadsRight(s: State)
    requires Opcode(s) in {0x02, 0x0A, 0x1A, 0x3A}
    ensures Right(s)
  {
    hide Execute, Row0, Row1, Row2, Row3, I.Decode, Does, On, Same, Right, Peek, Poke, Imm16, Pair16;
    var op := Opcode(s);
    Dispatch(s, op);
    LoadRows(s);
    StoreRows(s);
    LoadsDo(s);
    if op == 0x02 {
      I.DecodedLow(op, 0);
      Compare(s, I.Stax(0), Poke(s, Pair16(s, 0), s.a));
    } else if op == 0x0A {
      I.DecodedLow(op, 1);
      Compare(s, I.Ldax(0), s.(a := Peek(s, Pair16(s, 0))));
    } else if op == 0x1A {
      I.DecodedLow(op, 3);
      Compare(s, I.Ldax(1), s.(a := Peek(s, Pair16(s, 1))));
    } else {
      I.DecodedLow(op, 7);
      Compare(s, I.Lda, On(s.(a := Peek(s, Imm16(s))), 2));
    }
  }

  lemma LoadWordsRight(s: State)
    requires Opcode(s) in {0x11, 0x21}
    ensures Right(s)
  {
    hide Execute, Row0, Row1, Row2, Row3, I.Decode, Does, On, Same, Right, Peek;
    var op := Opcode(s);
    Dispatch(s, op);
    LoadWordRows(s);
    LoadWordsDo(s);
    if op == 0x11 {
      I.DecodedLow(op, 2);
      Compare(s, I.Lxi(1), On(s.(d := Peek(s, s.pc + 2), e := Peek(s, s.pc + 1)), 2));
    } else {
      I.DecodedLow(op, 4);
      Compare(s, I.Lxi(2), On(s.(h := Peek(s, s.pc + 2), l := Peek(s, s.pc + 1)), 2));
    }
  }

  lemma KeepsPlaces()
    ensures forall s, p, v :: WithPair(s, p, v).pc == s.pc
    ensures forall s, r, v :: WithReg(s, r, v).pc == s.pc
    ensures forall s, addr, v :: Poke(s, addr, v).pc == s.pc
    ensures forall s, hi, lo :: Pushed(s, hi, lo).pc == s.pc
  {
  }

  /** Every instruction compared ends behind its operand. */
  lemma Place(i: I.Instruction, s: State)
    ensures Does(i, s).pc == (s.pc + 1 + I.OperandBytes(i)) % 0x1_0000
  {
    hide Peek, F.MeantA, Pair16, Reg8, Imm8, Imm16, Top, StatusByte, I.OperandBytes, WithPair, WithReg, Poke, Pushed;
    KeepsPlaces();
  }

  /** An instruction that ends elsewhere is not done. */
  lemma Misplaced(s: State, i: I.Instruction)
    requires I.Decode(Opcode(s)) == i && Step(s).pc != (s.pc + 1 + I.OperandBytes(i)) % 0x1_0000
    ensures !Right(s)
  {
    hide Step, Does, I.Decode;
    Place(i, s);
  }

  lemma StepPlace(s: State)
    requires Execute(s, Opcode(s)).Go?
    ensures Step(s).pc == (Execute(s, Opcode(s)).s.pc + 1) % 0x1_0000
  {
    hide Execute;
  }

  /** LXI B and SP, LHLD and STA end at the wrong place. */
  lemma LoadsWrong(s: State)
    requires Opcode(s) in {0x01, 0x2A, 0x31, 0x32}
    ensures !Right(s)
  {
    hide Execute, Row0, Row1, Row2, Row3, I.Decode, Step, Right, Peek, Imm8;
    var op := Opcode(s);
    Dispatch(s, op);
    LoadWordRows(s);
    LoadRows(s);
    StoreRows(s);
    StepPlace(s);
    if op == 0x01 {
      I.DecodedLow(op, 0);
      Misplaced(s, I.Lxi(0));
    } else if op == 0x2A {
      I.DecodedLow(op, 5);
      Misplaced(s, I.Lhld);
    } else {
      I.DecodedLow(op, 6);
      Misplaced(s, if op == 0x31 then I.Lxi(3) else I.Sta);
    }
  }

  lemma MviDoes(s: State, r: nat)
    requires r < 8
    ensures Same(On(On(WithReg(s, r, Imm8(s)), 1), 1), Does(I.Mvi(r), s))
  {
    hide Imm8;
  }

  lemma MviRight(s: State, r: nat)
    requires r in {0, 1, 4, 5, 6, 7} && Opcode(s) == 6 + 8 * r
    ensures Right(s)
  {
    hide Execute, Row0, Row1, Row2, Row3, I.Decode, Does, On, Same, Right, WithReg, Imm8;
    Dispatch(s, Opcode(s));
    MviRows(s);
    MoreMviRows(s);
    MviDoes(s, r);
    I.DecodedLow(Opcode(s), r);
    Compare(s, I.Mvi(r), On(WithReg(s, r, Imm8(s)), 1));
  }

  // ---- words ----

  lemma WordsDo(s: State, p: nat)
    ensures Same(On(WithPair(s, p, Pair16(s, p) + 1), 1), Does(I.Inx(p), s))
    ensures Same(On(WithPair(s, p, Pair16(s, p) - 1), 1), Does(I.Dcx(p), s))
    ensures Same(On(Summed(s, Pair16(s, 2) + Pair16(s, p)).s, 1), Does(I.Dad(p), s))
  {
    hide Pair16;
  }

  lemma StackPair(s: State)
    ensures Pair16(s, 3) == s.sp
  {
  }

  lemma InxRight(s: State, p: nat)
    requires p < 4 && Opcode(s) == 3 + 0x10 * p
    ensures Right(s)
  {
    hide Execute, Row0, Row1, Row2, Row3, I.Decode, Does, On, Same, Right, Pair16, WithPair;
    Dispatch(s, Opcode(s));
    InxRows(s);
    StackPair(s);
    WordsDo(s, p);
    I.DecodedLow(Opcode(s), 2 * p);
    Compare(s, I.Inx(p), WithPair(s, p, Pair16(s, p) + 1));
  }

  lemma DadRight(s: State, p: nat)
    requires p < 3 && Opcode(s) == 9 + 0x10 * p
    ensures Right(s)
  {
    hide Execute, Row0, Row1, Row2, Row3, I.Decode, Does, On, Same, Right, Pair16, WithPair;
    Dispatch(s, Opcode(s));
    DadRows(s);
    WordsDo(s, p);
    I.DecodedLow(Opcode(s), 2 * p + 1);
    Compare(s, I.Dad(p), Summed(s, Pair16(s, 2) + Pair16(s, p)).s);
  }

  lemma DcxDoes(s: State)
    ensures Same(On(WithPair(s, 1, Pair16(s, 1) - 1).(cc := s.cc.(cy := Pair16(s, 1) == 0)), 1), Does(I.Dcx(1), s))
    ensures !Same(On(WithPair(s, 2, Pair16(s, 2) + 1), 1), Does(I.Dcx(2), s))
  {
    NotBoth(s.h, s.l);
  }

  lemma NotBoth(h: byte, l: byte)
    ensures var hl := 0x100 * h + l;
      (hl + 1) % 0x1_0000 % 0x100 != (hl - 1) % 0x1_0000 % 0x100
  {
  }

  /** DCX H counts up. */
  lemma DcxConforms(s: State, p: nat)
    requires 1 <= p < 4 && Opcode(s) == 0xB + 0x10 * p
    ensures Right(s) <==> p != 2
  {
    hide Execute, Row0, Row1, Row2, Row3, I.Decode, Does, On, Same, Right, Pair16, WithPair;
    Dispatch(s, Opcode(s));
    DcxRows(s);
    StackPair(s);
    WordsDo(s, p);
    DcxDoes(s);
    I.DecodedLow(Opcode(s), 2 * p + 1);
    Compare(s, I.Dcx(p), Execute(s, Opcode(s)).s);
  }

  // ---- counting bytes ----

  lemma CountsDo(s: State, r: nat, cc: Flags)
    requires r < 8
    ensures Same(On(WithReg(s, r, (Reg8(s, r) + 1) % 0x100).(cc := cc), 1), Does(I.Inr(r), s))
    ensures Same(On(WithReg(s, r, (Reg8(s, r) - 1) % 0x100).(cc := cc), 1), Does(I.Dcr(r), s))
  {
    hide Reg8;
  }

  lemma InrRight(s: State, r: nat)
    requires r in {1, 5, 7} && Opcode(s) == 4 + 8 * r
    ensures Right(s)
  {
    hide Execute, Row0, Row1, Row2, Row3, I.Decode, Does, On, Same, Right, Flagged, WithReg;
    Dispatch(s, Opcode(s));
    InrRows(s);
    var v: int := Reg8(s, r);
    CountsDo(s, r, Flagged(s.cc, v + 1));
    I.DecodedLow(Opcode(s), r);
    Compare(s, I.Inr(r), WithReg(s, r, (v + 1) % 0x100).(cc := Flagged(s.cc, v + 1)));
  }

  lemma DcrRight(s: State, r: nat)
    requires r in {1, 4, 5, 7} && Opcode(s) == 5 + 8 * r
    ensures Right(s)
  {
    hide Execute, Row0, Row1, Row2, Row3, I.Decode, Does, On, Same, Right, Flagged, WithReg;
    Dispatch(s, Opcode(s));
    DcrRows(s);
    var v: int := Reg8(s, r);
    CountsDo(s, r, Flagged(s.cc, v - 1));
    I.DecodedLow(Opcode(s), r);
    Compare(s, I.Dcr(r), WithReg(s, r, (v - 1) % 0x100).(cc := Flagged(s.cc, v - 1)));
  }

  lemma DcrByteRight(s: State, r: nat)
    requires r in {0, 3} && Opcode(s) == 5 + 8 * r
    ensures Right(s)
  {
    hide Execute, Row0, Row1, Row2, Row3, I.Decode, Does, On, Same, Right, Flagged, WithReg;
    Dispatch(s, Opcode(s));
    DcrByteRows(s);
    var v: int := Reg8(s, r);
    CountsDo(s, r, Flagged(s.cc, (v - 1) % 0x100));
    I.DecodedLow(Opcode(s), r);
    Compare(s, I.Dcr(r), WithReg(s, r, (v - 1) % 0x100).(cc := Flagged(s.cc, (v - 1) % 0x100)));
  }

  lemma CountHLDoes(s: State, cc: Flags)
    ensures !Same(On(WithPair(s, 2, Pair16(s, 2) + 1).(cc := cc), 1), Does(I.Inr(4), s))
    ensures forall h, l :: !Same(On(s.(h := h, l := l, cc := cc), 1), Does(I.Inr(6), s))
    ensures forall h, l :: !Same(On(s.(h := h, l := l, cc := cc), 1), Does(I.Dcr(6), s))
  {
    LowMoves(s.h, s.l);
    CellMoves(s, 1);
    CellMoves(s, -1);
  }

  lemma LowMoves(h: byte, l: byte)
    ensures (0x100 * h + l + 1) % 0x1_0000 % 0x100 != l
  {
  }

  /** Counting a cell changes it. */
  lemma CellMoves(s: State, d: int)
    requires d == 1 || d == -1
    ensures Poke(s, Pair16(s, 2), (Peek(s, Pair16(s, 2)) + d) % 0x100).mem != s.mem
  {
    var at := Pair16(s, 2);
    assert Poke(s, at, (Peek(s, at) + d) % 0x100).mem[at] != s.mem[at];
  }

  /** INR H, INR M and DCR M. */
  lemma CountHLWrong(s: State)
    requires Opcode(s) in {0x24, 0x34, 0x35}
    ensures !Right(s)
  {
    hide Execute, Row0, Row1, Row2, Row3, I.Decode, Does, On, Same, Right, Flagged, WithPair;
    var op := Opcode(s);
    Dispatch(s, op);
    CountHLRows(s);
    CountHLDoes(s, Flagged(s.cc, Pair16(s, 2) + 1));
    CountHLDoes(s, Flagged(s.cc, Pair16(s, 2) - 1));
    if op == 0x24 {
      I.DecodedLow(op, 4);
      Compare(s, I.Inr(4), Execute(s, op).s);
    } else {
      I.DecodedLow(op, 6);
      Compare(s, if op == 0x34 then I.Inr(6) else I.Dcr(6), Execute(s, op).s);
    }
  }

  // ---- the accumulator alone ----

  lemma RlcDoes(s: State, cy: bool)
    ensures Same(On(s.(a := RotatedLeft(s.a), cc := s.cc.(cy := cy)), 1), Does(I.Rlc, s)) <==> s.a < 0x80
  {
  }

  lemma RrcDoes(s: State, cy: bool)
    ensures Same(On(s.(a := RotatedRight(s.a), cc := s.cc.(cy := cy)), 1), Does(I.Rrc, s)) <==> s.a % 2 == 0
  {
  }

  lemma CmaDoes(s: State)
    ensures Same(On(s.(a := 0xFF - s.a), 1), Does(I.Cma, s))
  {
  }

  lemma RotatesConform(s: State)
    requires Opcode(s) in {0x07, 0x0F, 0x2F}
    ensures Right(s) <==> (Opcode(s) == 0x07 ==> s.a < 0x80) && (Opcode(s) == 0x0F ==> s.a % 2 == 0)
  {
    hide Execute, Row0, Row1, Row2, Row3, I.Decode, Does, On, Same, Right, RotatedLeft, RotatedRight;
    var op := Opcode(s);
    Dispatch(s, op);
    RotateRows(s);
    IdleRows(s);
    RlcDoes(s, s.a >= 0x80);
    RrcDoes(s, s.a % 2 == 1);
    CmaDoes(s);
    if op == 0x07 {
      I.DecodedLow(op, 0);
      Compare(s, I.Rlc, Execute(s, op).s);
    } else if op == 0x0F {
      I.DecodedLow(op, 1);
      Compare(s, I.Rrc, Execute(s, op).s);
    } else {
      I.DecodedLow(op, 5);
      Compare(s, I.Cma, Execute(s, op).s);
    }
  }

  // ---- moves and the accumulator group ----

  lemma MovDoes(s: State, r: nat, from: nat)
    requires r < 8 && from < 8
    ensures Same(On(WithReg(s, r, Reg8(s, from)), 1), Does(I.Mov(r, from), s))
  {
    hide Reg8;
  }

  lemma MovBDDoes(s: State)
    ensures Same(On(WithReg(s, 0, s.c), 1), Does(I.Mov(0, 2), s)) <==> s.c == s.d
  {
  }

  lemma MovConforms(s: State)
    requires 0x40 <= Opcode(s) < 0x80 && Opcode(s) != 0x76
    ensures Right(s) <==> (Opcode(s) == 0x42 ==> s.c == s.d)
  {
    hide Execute, MovGroup, Does, On, Same, Right, WithReg, Reg8;
    var op := Opcode(s);
    Dispatch(s, op);
    MovRows(s, op);
    var r, from := op / 8 % 8, op % 8;
    assert op == 0x40 + 8 * r + from;
    MovDoes(s, r, from);
    MovBDDoes(s);
    Compare(s, I.Mov(r, from), Execute(s, op).s);
  }

  lemma AluDoes(s: State, row: nat, r: nat)
    ensures Does(I.Alu(row, r), s) == On(s, 1).(a := F.MeantA(s, row, Reg8(s, r)))
  {
    hide Reg8, F.MeantA;
  }

  /** Of the accumulator group only ADC C touches more than accumulator and flags. */
  lemma AluStep(s: State)
    requires 0x80 <= Opcode(s) < 0xC0
    ensures Step(s).pc == if Opcode(s) == 0x89 then (s.pc - 1) % 0x1_0000 else (s.pc + 1) % 0x1_0000
    ensures Step(s) == s.(a := Step(s).a, cc := Step(s).cc, pc := Step(s).pc)
  {
    hide ArithFlags, LogicFlags, P.LogicParity, And, Or, Xor, Operand, Pair, Lo, Hi, Row0, Row1, Row2, Row3, MovGroup,
         RowC, RowD, RowE, RowF;
  }

  lemma AluConforms(s: State)
    requires 0x80 <= Opcode(s) < 0xC0
    ensures Right(s) <==>
      Opcode(s) != 0x89 && F.RightWhen(s, Opcode(s) / 8 % 8, Opcode(s) % 8, Reg8(s, Opcode(s) % 8))
  {
    hide Step, Does, F.MeantA, F.RightWhen, Reg8, Operand;
    var op := Opcode(s);
    OperandIs(s, op % 8);
    F.AccumulatorExactly(s);
    AluStep(s);
    AluDoes(s, op / 8 % 8, op % 8);
  }

  // ---- immediates and the rest ----

  lemma AluImmDoes(s: State, row: nat)
    ensures Does(I.AluImm(row), s) == On(s, 2).(a := F.MeantA(s, row, Imm8(s)))
  {
    hide Imm8, F.MeantA;
  }

  lemma MeantImmediates(s: State, v: byte)
    ensures F.MeantA(s, 0, v) == (s.a + v) % 0x100 && F.MeantA(s, 1, v) == (s.a + v + One(s.cc.cy)) % 0x100
    ensures F.MeantA(s, 4, v) == And(s.a, v) && F.MeantA(s, 6, v) == Or(s.a, v) % 0x100
  {
    hide And, Or, Xor;
  }

  lemma ImmediateDoes(s: State, row: nat, a: byte, cc: Flags)
    ensures Same(On(On(s.(a := a, cc := cc), 1), 1), Does(I.AluImm(row), s)) <==> a == F.MeantA(s, row, Imm8(s))
  {
    hide Does, F.MeantA, Imm8;
    AluImmDoes(s, row);
  }

  lemma ImmediatesConform(s: State)
    requires Opcode(s) in {0xC6, 0xCE, 0xE6, 0xF6}
    ensures Right(s) <==>
      && (Opcode(s) == 0xC6 ==> (s.a + Imm8(s)) / 0x100 == (s.a + Imm8(s)) % 0x100)
      && (Opcode(s) == 0xCE ==> s.cc.cy == (s.a + Imm8(s) > 0xFF))
  {
    hide Execute, RowC, RowE, RowF, I.Decode, Does, On, Same, Right, Imm8, F.MeantA, And, Or, Flagged, Masked;
    var op, v := Opcode(s), Imm8(s);
    Dispatch(s, op);
    AddImmediateRows(s);
    MaskImmediateRows(s);
    MeantImmediates(s, v);
    F.SameCarry(s.a + v, One(s.a + v > 0xFF), One(s.cc.cy));
    var t := Execute(s, op).s;
    if op == 0xC6 {
      I.DecodedHigh(op, 0);
      ImmediateDoes(s, 0, (s.a + v) / 0x100, Flagged(s.cc, s.a + v));
      Compare(s, I.AluImm(0), t);
    } else if op == 0xCE {
      I.DecodedHigh(op, 1);
      ImmediateDoes(s, 1, (s.a + v + One(s.a + v > 0xFF)) % 0x100, Flagged(s.cc, s.a + v));
      Compare(s, I.AluImm(1), t);
    } else if op == 0xE6 {
      I.DecodedHigh(op, 4);
      ImmediateDoes(s, 4, And(s.a, v), Masked(s.cc, s.a));
      Compare(s, I.AluImm(4), t);
    } else {
      I.DecodedHigh(op, 6);
      ImmediateDoes(s, 6, Or(s.a, v) % 0x100, Masked(s.cc, s.a));
      Compare(s, I.AluImm(6), t);
    }
  }

  /** SBI and CPI end at the wrong place. */
  lemma StillWrong(s: State)
    requires Opcode(s) in {0xDE, 0xFE}
    ensures !Right(s)
  {
    hide Execute, RowD, RowF, I.Decode, Step, Right;
    var op := Opcode(s);
    Dispatch(s, op);
    StillRows(s);
    StepPlace(s);
    if op == 0xDE {
      I.DecodedHigh(op, 3);
      Misplaced(s, I.AluImm(3));
    } else {
      I.DecodedHigh(op, 7);
      Misplaced(s, I.AluImm(7));
    }
  }

  lemma SimpleDo(s: State)
    ensures Same(On(s, 1), Does(I.Nop, s)) && Same(On(On(s, 1), 1), Does(I.Out, s))
  {
  }

  lemma SwitchesDo(s: State)
    ensures Same(On(s.(intEnable := false), 1), Does(I.Di, s))
    ensures Same(On(s.(intEnable := true), 1), Does(I.Ei, s))
  {
  }

  lemma SphlDoes(s: State)
    ensures Same(On(s.(sp := Pair16(s, 2)), 1), Does(I.Sphl, s))
  {
    hide Pair16;
  }

  lemma SimpleRight(s: State)
    requires Opcode(s) in {0x00, 0xD3, 0xF3, 0xF9, 0xFB}
    ensures Right(s)
  {
    hide Execute, Row0, RowD, RowE, RowF, I.Decode, Does, On, Same, Right, Pair16;
    var op := Opcode(s);
    Dispatch(s, op);
    IdleRows(s);
    StillRows(s);
    ExchangeRows(s);
    SimpleDo(s);
    SwitchesDo(s);
    SphlDoes(s);
    if op == 0x00 {
      I.DecodedLow(op, 0);
      Compare(s, I.Nop, s);
    } else if op == 0xD3 {
      I.DecodedHigh(op, 2);
      Compare(s, I.Out, On(s, 1));
    } else if op == 0xF3 {
      I.DecodedHigh(op, 6);
      Compare(s, I.Di, Execute(s, op).s);
    } else {
      I.DecodedHigh(op, 7);
      Compare(s, if op == 0xF9 then I.Sphl else I.Ei, Execute(s, op).s);
    }
  }

  // ---- the stack ----

  lemma PushMeans(s: State, p: nat)
    ensures Does(I.Push(p), s)
         == if p == 3 then Pushed(On(s, 1), s.a, StatusByte(s.cc))
            else Pushed(On(s, 1), Pair16(s, p) / 0x100, Pair16(s, p) % 0x100)
  {
    hide Pushed, On, Pair16, StatusByte;
  }

  lemma PushedOn(s: State, hi: byte, lo: byte)
    ensures Same(On(Pushed(s, hi, lo), 1), Pushed(On(s, 1), hi, lo))
  {
  }

  lemma PushDoes(s: State)
    ensures Same(On(Pushed(s, s.d, s.e), 1), Does(I.Push(1), s))
    ensures Same(On(Pushed(s, s.h, s.l), 1), Does(I.Push(2), s))
  {
    hide Pushed, On, Does, Same;
    PushMeans(s, 1);
    PushMeans(s, 2);
    PushedOn(s, s.d, s.e);
    PushedOn(s, s.h, s.l);
  }

  lemma Distinct(a: int, d: int)
    requires 0 < d < 0x1_0000
    ensures a % 0x1_0000 != (a - d) % 0x1_0000
  {
  }

  lemma StoresAgree(m: Memory, y: word, z: word, v: byte)
    requires y != z
    ensures m[y := v] == m[z := v] <==> m[y] == v == m[z]
  {
    if m[y := v] == m[z := v] {
      assert m[y := v][y] == m[z := v][y] && m[y := v][z] == m[z := v][z];
    }
  }

  /** PUSH B stores C at the stack pointer itself. */
  lemma PushBDoes(s: State)
    ensures Same(On(Poke(Poke(s, s.sp - 1, s.b), s.sp, s.c).(sp := (s.sp - 2) % 0x1_0000), 1), Does(I.Push(0), s))
       <==> Peek(s, s.sp) == s.c == Peek(s, s.sp - 2)
  {
    hide Does;
    PushMeans(s, 0);
    Distinct(s.sp, 1);
    Distinct(s.sp, 2);
    Distinct(s.sp - 1, 1);
    StoresAgree(Poke(s, s.sp - 1, s.b).mem, s.sp, (s.sp - 2) % 0x1_0000, s.c);
  }

  lemma PackedWrong(cc: Flags)
    ensures Packed(cc) != StatusByte(cc)
  {
  }

  lemma PushPswDoes(s: State)
    ensures !Same(On(Pushed(s, s.a, Packed(s.cc)), 1), Does(I.Push(3), s))
  {
    hide Packed, StatusByte, Does;
    PushMeans(s, 3);
    PackedWrong(s.cc);
    var at := (s.sp - 2) % 0x1_0000;
    assert Pushed(s, s.a, Packed(s.cc)).mem[at] == Packed(s.cc);
    assert Does(I.Push(3), s).mem[at] == StatusByte(s.cc);
  }

  lemma PushesConform(s: State)
    requires Opcode(s) in {0xC5, 0xD5, 0xE5, 0xF5}
    ensures Right(s) <==>
      Opcode(s) != 0xF5 && (Opcode(s) == 0xC5 ==> Peek(s, s.sp) == s.c == Peek(s, s.sp - 2))
  {
    hide Execute, RowC, RowD, RowE, RowF, I.Decode, Does, On, Same, Right, Peek, Poke, Pushed, Packed;
    var op := Opcode(s);
    Dispatch(s, op);
    PushRows(s);
    PushDoes(s);
    PushBDoes(s);
    PushPswDoes(s);
    var t := Execute(s, op).s;
    if op == 0xC5 {
      I.DecodedHigh(op, 0);
      Compare(s, I.Push(0), t);
    } else if op == 0xD5 {
      I.DecodedHigh(op, 2);
      Compare(s, I.Push(1), t);
    } else if op == 0xE5 {
      I.DecodedHigh(op, 4);
      Compare(s, I.Push(2), t);
    } else {
      I.DecodedHigh(op, 6);
      Compare(s, I.Push(3), t);
    }
  }

  lemma PopsDo(s: State)
    ensures Same(On(WithPair(Raised(s), 0, Top(s)), 1), Does(I.Pop(0), s))
    ensures Same(On(Raised(s).(d := Peek(s, s.sp - 1), e := Peek(s, s.sp)), 1), Does(I.Pop(1), s))
       <==> Peek(s, s.sp - 1) == Peek(s, s.sp + 1)
  {
    hide Peek;
  }

  /** POP D takes D from below the stack pointer, and POP PSW moves the program counter instead of the stack pointer. */
  lemma PopsConform(s: State)
    requires Opcode(s) in {0xC1, 0xD1, 0xF1}
    ensures Right(s) <==> Opcode(s) != 0xF1 && (Opcode(s) == 0xD1 ==> Peek(s, s.sp - 1) == Peek(s, s.sp + 1))
  {
    hide Execute, RowC, RowD, RowF, I.Decode, Does, Same, Right, Peek, Step, Unpacked, WithPair, Top;
    var op := Opcode(s);
    Dispatch(s, op);
    PopBRow(s);
    PopRows(s);
    PopsDo(s);
    StepPlace(s);
    if op == 0xC1 {
      I.DecodedHigh(op, 0);
      Compare(s, I.Pop(0), Execute(s, op).s);
    } else if op == 0xD1 {
      I.DecodedHigh(op, 2);
      Compare(s, I.Pop(1), Execute(s, op).s);
    } else {
      I.DecodedHigh(op, 6);
      Misplaced(s, I.Pop(3));
    }
  }

  /** Two memories that differ at four places at most are equal when they are there. */
  lemma FourPlaces(m: Memory, n: Memory, a: word, b: word, c: word, d: word)
    requires forall at: word :: at !in {a, b, c, d} ==> m[at] == n[at]
    ensures m == n <==> m[a] == n[a] && m[b] == n[b] && m[c] == n[c] && m[d] == n[d]
  {
  }

  /** What the two pairs of stores leave, place by place. */
  lemma BothExchanges(s: State, at: word)
    ensures var lo, hi := Peek(s, s.sp), Peek(s, s.sp + 1);
      && Poke(Poke(s, lo, s.l), hi, s.h).mem[at] == StoredThrough(s, at)
      && Poke(Poke(s, s.sp, s.l), s.sp + 1, s.h).mem[at] == Exchanged(s, at)
      && (at !in {s.sp, (s.sp + 1) % 0x1_0000, lo, hi} ==> StoredThrough(s, at) == Exchanged(s, at))
  {
  }

  lemma XthlMeans(s: State)
    ensures var lo, hi := Peek(s, s.sp), Peek(s, s.sp + 1);
      Does(I.Xthl, s) == On(s, 1).(l := lo, h := hi, mem := Poke(Poke(s, s.sp, s.l), s.sp + 1, s.h).mem)
  {
    hide Peek;
  }

  lemma XthlDoes(s: State)
    ensures var lo, hi := Peek(s, s.sp), Peek(s, s.sp + 1);
      Same(On(Poke(Poke(s.(l := lo, h := hi), lo, s.l), hi, s.h), 1), Does(I.Xthl, s))
      <==> SameAt(s, s.sp) && SameAt(s, s.sp + 1) && SameAt(s, lo) && SameAt(s, hi)
  {
    hide Peek, Does, StoredThrough, Exchanged;
    XthlMeans(s);
    var lo, hi, next := Peek(s, s.sp), Peek(s, s.sp + 1), (s.sp + 1) % 0x1_0000;
    var m, n := Poke(Poke(s, lo, s.l), hi, s.h).mem, Poke(Poke(s, s.sp, s.l), s.sp + 1, s.h).mem;
    forall at: word
      ensures m[at] == StoredThrough(s, at) && n[at] == Exchanged(s, at)
      ensures at !in {s.sp, next, lo, hi} ==> m[at] == n[at]
    {
      BothExchanges(s, at);
    }
    FourPlaces(m, n, s.sp, next, lo, hi);
    NextPlace(s);
  }

  lemma NextPlace(s: State)
    ensures SameAt(s, s.sp + 1) <==> SameAt(s, (s.sp + 1) % 0x1_0000)
  {
  }

  lemma XthlConforms(s: State)
    requires Opcode(s) == 0xE3
    ensures Right(s) <==>
      SameAt(s, s.sp) && SameAt(s, s.sp + 1) && SameAt(s, Peek(s, s.sp)) && SameAt(s, Peek(s, s.sp + 1))
  {
    hide Execute, RowE, I.Decode, Does, On, Same, Right, Peek, Poke, SameAt;
    Dispatch(s, Opcode(s));
    ExchangeRows(s);
    XthlDoes(s);
    I.DecodedHigh(Opcode(s), 4);
    Compare(s, I.Xthl, Execute(s, Opcode(s)).s);
  }

  // ---- all of them ----

  lemma TrappedWrong(s: State)
    requires Trapped(Opcode(s))
    ensures !Right(s)
  {
    hide Execute, I.Decode, Right, Trapped;
    TrappedRows(s, Opcode(s));
    var i := I.Decode(Opcode(s));
    Elsewhere(s.pc, 1 + I.OperandBytes(i));
    Misplaced(s, i);
  }

  lemma Elsewhere(pc: word, n: nat)
    requires n <= 3
    ensures (pc - 1) % 0x1_0000 != (pc + n) % 0x1_0000
  {
  }

  /** The opcodes compared and implemented, outside the moves and the accumulator group. */
  lemma CoveredLow(op: byte)
    requires op < 0x40 && Compared(I.Decode(op)) && !Trapped(op)
    ensures op in {0x00, 0x01, 0x02, 0x03, 0x05, 0x06, 0x07, 0x09, 0x0A, 0x0C, 0x0D, 0x0E, 0x0F, 0x11, 0x13, 0x19,
                   0x1A, 0x1B, 0x1D, 0x21, 0x23, 0x24, 0x25, 0x26, 0x29, 0x2A, 0x2B, 0x2C, 0x2D, 0x2E, 0x2F, 0x31,
                   0x32, 0x33, 0x34, 0x35, 0x36, 0x3A, 0x3B, 0x3C, 0x3D, 0x3E}
  {
  }

  lemma CoveredHigh(op: byte)
    requires 0xC0 <= op && Compared(I.Decode(op)) && !Trapped(op)
    ensures op in {0xC1, 0xC5, 0xC6, 0xCE, 0xD1, 0xD3, 0xD5, 0xDE, 0xE3, 0xE5, 0xE6, 0xF1, 0xF3, 0xF5, 0xF6, 0xF9,
                   0xFB, 0xFE}
  {
  }

  lemma CoveredMiddle(op: byte)
    requires 0x40 <= op < 0xC0
    ensures Compared(I.Decode(op)) ==> op != 0x76
    ensures Trapped(op) <==> op == 0x89
    ensures !Never(op)
  {
  }

  lemma LowConforms(s: State)
    requires Opcode(s) < 0x40 && Compared(I.Decode(Opcode(s))) && !Trapped(Opcode(s))
    ensures Right(s) <==> Conforms(s)
  {
    hide I.Decode, Compared, Right, Peek, Trapped, F.RightWhen;
    var op := Opcode(s);
    CoveredLow(op);
    if op in {0x02, 0x0A, 0x1A, 0x3A} {
      LoadsRight(s);
    } else if op in {0x11, 0x21} {
      LoadWordsRight(s);
    } else if op in {0x01, 0x2A, 0x31, 0x32} {
      LoadsWrong(s);
    } else if op in {0x06, 0x0E, 0x26, 0x2E, 0x36, 0x3E} {
      MviRight(s, op / 8);
    } else if op in {0x03, 0x13, 0x23, 0x33} {
      InxRight(s, op / 0x10);
    } else if op in {0x09, 0x19, 0x29} {
      DadRight(s, op / 0x10);
    } else if op in {0x1B, 0x2B, 0x3B} {
      DcxConforms(s, op / 0x10);
    } else if op in {0x0C, 0x2C, 0x3C} {
      InrRight(s, op / 8);
    } else if op in {0x0D, 0x25, 0x2D, 0x3D} {
      DcrRight(s, op / 8);
    } else if op in {0x05, 0x1D} {
      DcrByteRight(s, op / 8);
    } else if op in {0x24, 0x34, 0x35} {
      CountHLWrong(s);
    } else if op in {0x07, 0x0F, 0x2F} {
      RotatesConform(s);
    } else {
      SimpleRight(s);
    }
  }

  lemma HighConforms(s: State)
    requires 0xC0 <= Opcode(s) && Compared(I.Decode(Opcode(s))) && !Trapped(Opcode(s))
    ensures Right(s) <==> Conforms(s)
  {
    hide I.Decode, Compared, Right, Peek, Trapped, F.RightWhen, SameAt, Imm8;
    var op := Opcode(s);
    CoveredHigh(op);
    if op in {0xC6, 0xCE, 0xE6, 0xF6} {
      ImmediatesConform(s);
    } else if op in {0xDE, 0xFE} {
      StillWrong(s);
    } else if op in {0xC5, 0xD5, 0xE5, 0xF5} {
      PushesConform(s);
    } else if op in {0xC1, 0xD1, 0xF1} {
      PopsConform(s);
    } else if op == 0xE3 {
      XthlConforms(s);
    } else {
      SimpleRight(s);
    }
  }

  /**
   * For every machine whose next instruction is one of those compared: the emulator leaves the registers, the memory
   * and the program counter that the manual has for it exactly when Conforms holds beforehand.
   */
  lemma ConformsExactly(s: State)
    requires Compared(I.Decode(Opcode(s)))
    ensures Right(s) <==> Conforms(s)
  {
    hide I.Decode, Compared, Right, Trapped, F.RightWhen, Peek, SameAt, Imm8, Reg8;
    var op := Opcode(s);
    if Trapped(op) {
      TrappedWrong(s);
    } else if op < 0x40 {
      LowConforms(s);
    } else if op < 0x80 {
      CoveredMiddle(op);
      MovConforms(s);
    } else if op < 0xC0 {
      CoveredMiddle(op);
      AluConforms(s);
    } else {
      HighConforms(s);
    }
  }
}
