/**
 * The rows of the emulator's table one by one, in terms of registers, memory and numbers alone: what each opcode leaves
 * before the program counter's last step, and the time it takes.
 */
module EmulatorRows {
  import opened Bits
  import opened Parity
  import opened CpuSpec
  import F = FlagRules

  // ---- the machine ----

  function Peek(s: State, addr: int): byte { s.mem[addr % 0x1_0000] }

  function Poke(s: State, addr: int, v: byte): State { s.(mem := s.mem[addr % 0x1_0000 := v]) }

  function On(s: State, n: int): State { s.(pc := (s.pc + n) % 0x1_0000) }

  function Imm8(s: State): byte { Peek(s, s.pc + 1) }

  function Imm16(s: State): word { 0x100 * Peek(s, s.pc + 2) + Peek(s, s.pc + 1) }

  /** Pairs are numbered BC, DE, HL and the stack pointer. */
  function Pair16(s: State, p: nat): word {
    match p
    case 0 => 0x100 * s.b + s.c
    case 1 => 0x100 * s.d + s.e
    case 2 => 0x100 * s.h + s.l
    case _ => s.sp
  }

  function WithPair(s: State, p: nat, v: int): State {
    var w: word := v % 0x1_0000;
    match p
    case 0 => s.(b := w / 0x100, c := w % 0x100)
    case 1 => s.(d := w / 0x100, e := w % 0x100)
    case 2 => s.(h := w / 0x100, l := w % 0x100)
    case _ => s.(sp := w)
  }

  /** Registers are numbered B, C, D, E, H, L, the cell HL points at, and A. */
  function Reg8(s: State, r: nat): byte {
    match r
    case 0 => s.b case 1 => s.c case 2 => s.d case 3 => s.e case 4 => s.h case 5 => s.l
    case 6 => Peek(s, 0x100 * s.h + s.l)
    case _ => s.a
  }

  function WithReg(s: State, r: nat, v: byte): State {
    match r
    case 0 => s.(b := v) case 1 => s.(c := v) case 2 => s.(d := v) case 3 => s.(e := v)
    case 4 => s.(h := v) case 5 => s.(l := v)
    case 6 => Poke(s, 0x100 * s.h + s.l, v)
    case _ => s.(a := v)
  }

  function One(b: bool): nat { if b then 1 else 0 }

  /** Two bytes below the stack pointer, the high one above the low one. */
  function Pushed(s: State, hi: byte, lo: byte): State {
    Poke(Poke(s, s.sp - 1, hi), s.sp - 2, lo).(sp := (s.sp - 2) % 0x1_0000)
  }

  /** The word at the stack pointer. */
  function Top(s: State): word { 0x100 * Peek(s, s.sp + 1) + Peek(s, s.sp) }

  function Raised(s: State): State { s.(sp := (s.sp + 2) % 0x1_0000) }

  /** The flags after a result: zero and sign of its low byte, parity set for zero, carry when 16 bits hold no byte. */
  function Flagged(cc: Flags, x: int): Flags {
    cc.(z := x % 0x100 == 0, s := x % 0x100 >= 0x80, p := x % 0x100 == 0, cy := x % 0x1_0000 > 0xFF)
  }

  /** The flags after a logic instruction: sign and odd parity, and both carries clear. */
  function Masked(cc: Flags, a: byte): Flags {
    cc.(s := a >= 0x80, p := PopCount(a) % 2 == 1, cy := false, ac := false)
  }

  // ---- loads and stores ----

  lemma ReadIs(s: State, addr: int)
    ensures Read(s.mem, addr) == Peek(s, addr)
  {
  }

  lemma ArgIs(s: State)
    ensures Arg(s, 1) == Imm8(s)
  {
  }

  lemma ArgsAre(s: State)
    ensures Arg(s, 1) == Peek(s, s.pc + 1) && Arg(s, 2) == Peek(s, s.pc + 2) && Arg(s, 3) == Peek(s, s.pc + 3)
  {
  }

  lemma WordIs(s: State)
    ensures ReadWord(s.mem, s.pc + 1) == Imm16(s)
  {
    hide Read, Peek;
    ReadIs(s, s.pc + 1);
    ReadIs(s, s.pc + 2);
  }

  lemma LoadWordRows(s: State)
    ensures Row0(s, 0x01) == Go(s.(b := Peek(s, s.pc + 3), c := Peek(s, s.pc + 2)), 10)
    ensures Row1(s, 0x11) == Go(On(s.(d := Peek(s, s.pc + 2), e := Peek(s, s.pc + 1)), 2), 10)
    ensures Row2(s, 0x21) == Go(On(s.(h := Peek(s, s.pc + 2), l := Peek(s, s.pc + 1)), 2), 10)
    ensures Row3(s, 0x31) == Go(On(s.(sp := 0x100 * Peek(s, s.pc + 3) + Peek(s, s.pc + 2)), 3), 10)
  {
    hide Peek, Arg;
    ArgsAre(s);
  }

  lemma LdaxRows(s: State)
    ensures Row0(s, 0x0A) == Go(s.(a := Peek(s, Pair16(s, 0))), 7)
    ensures Row1(s, 0x1A) == Go(s.(a := Peek(s, Pair16(s, 1))), 7)
  {
    hide Read, Peek;
    ReadIs(s, Pair16(s, 0));
    ReadIs(s, Pair16(s, 1));
  }

  lemma LhldRow(s: State)
    ensures Row2(s, 0x2A) == Go(On(s.(l := Peek(s, Imm8(s)), h := Peek(s, Imm8(s) + 1)), 1), 16)
  {
    hide Read, Peek, Imm8;
    hide Arg;
    ArgIs(s);
    ReadIs(s, Imm8(s));
    ReadIs(s, Imm8(s) + 1);
  }

  lemma LdaRow(s: State)
    ensures Row3(s, 0x3A) == Go(On(s.(a := Peek(s, Imm16(s))), 2), 13)
  {
    hide Read, Peek, Imm16, ReadWord;
    WordIs(s);
    ReadIs(s, Imm16(s));
  }

  lemma LoadRows(s: State)
    ensures Row0(s, 0x0A) == Go(s.(a := Peek(s, Pair16(s, 0))), 7)
    ensures Row1(s, 0x1A) == Go(s.(a := Peek(s, Pair16(s, 1))), 7)
    ensures Row2(s, 0x2A) == Go(On(s.(l := Peek(s, Imm8(s)), h := Peek(s, Imm8(s) + 1)), 1), 16)
    ensures Row3(s, 0x3A) == Go(On(s.(a := Peek(s, Imm16(s))), 2), 13)
  {
    hide Row0, Row1, Row2, Row3, Peek, On, Imm8, Imm16, Pair16;
    LdaxRows(s);
    LhldRow(s);
    LdaRow(s);
  }

  lemma StoreRows(s: State)
    ensures Row0(s, 0x02) == Go(Poke(s, Pair16(s, 0), s.a), 7)
    ensures Row3(s, 0x32) == Go(On(Poke(s, Imm8(s), s.a), 1), 13)
  {
    hide Peek, Arg, Imm8;
    ArgIs(s);
  }

  lemma MviRows(s: State)
    ensures Row0(s, 0x06) == Go(On(WithReg(s, 0, Imm8(s)), 1), 7)
    ensures Row0(s, 0x0E) == Go(On(WithReg(s, 1, Imm8(s)), 1), 7)
    ensures Row2(s, 0x26) == Go(On(WithReg(s, 4, Imm8(s)), 1), 7)
    ensures Row2(s, 0x2E) == Go(On(WithReg(s, 5, Imm8(s)), 1), 7)
  {
    hide Peek, Arg, Imm8;
    ArgIs(s);
  }

  lemma MoreMviRows(s: State)
    ensures Row3(s, 0x36) == Go(On(WithReg(s, 6, Imm8(s)), 1), 10)
    ensures Row3(s, 0x3E) == Go(On(WithReg(s, 7, Imm8(s)), 1), 7)
  {
    hide Peek, Arg, Imm8;
    ArgIs(s);
  }

  // ---- words ----

  lemma InxRows(s: State)
    ensures Row0(s, 0x03) == Go(WithPair(s, 0, Pair16(s, 0) + 1), 5)
    ensures Row1(s, 0x13) == Go(WithPair(s, 1, Pair16(s, 1) + 1), 5)
    ensures Row2(s, 0x23) == Go(WithPair(s, 2, Pair16(s, 2) + 1), 5)
    ensures Row3(s, 0x33) == Go(WithPair(s, 3, s.sp + 1), 5)
  {
    Halves(Pair16(s, 0) + 1);
    NextHalves(s.d, s.e);
    NextHalves(s.h, s.l);
    hide Hi, Lo;
  }

  lemma Halves(x: int)
    ensures Hi(x) == x % 0x1_0000 / 0x100 && Lo(x) == x % 0x1_0000 % 0x100
  {
    HalvesWrap(x);
  }

  /** Counting byte by byte counts the word. */
  lemma NextHalves(hi: byte, lo: byte)
    ensures var w := (0x100 * hi + lo + 1) % 0x1_0000;
      IncHi(hi, lo) == w / 0x100 && IncLo(lo) == w % 0x100
  {
  }

  lemma DecrementedDE(s: State)
    ensures SetDE(s, Wrap(Pair16(s, 1) - 1)) == WithPair(s, 1, Pair16(s, 1) - 1)
  {
    Halves(Wrap(Pair16(s, 1) - 1));
    hide Hi, Lo;
  }

  lemma DcxRows(s: State)
    ensures Row1(s, 0x1B)
         == Go(WithPair(s, 1, Pair16(s, 1) - 1).(cc := s.cc.(cy := Pair16(s, 1) == 0)), 5)
    ensures Row2(s, 0x2B) == Go(WithPair(s, 2, Pair16(s, 2) + 1), 5)
    ensures Row3(s, 0x3B) == Go(WithPair(s, 3, s.sp - 1), 5)
  {
    hide Hi, Lo;
    DecrementedDE(s);
    Halves(Pair16(s, 2) + 1);
  }

  lemma DadIs(s: State, rp: word)
    ensures Dad(s, rp) == Summed(s, Pair16(s, 2) + rp)
  {
    hide Hi, Lo;
    Halves(Pair16(s, 2) + rp);
  }

  lemma DadRows(s: State)
    ensures Row0(s, 0x09) == Summed(s, Pair16(s, 2) + Pair16(s, 0))
    ensures Row1(s, 0x19) == Summed(s, Pair16(s, 2) + Pair16(s, 1))
    ensures Row2(s, 0x29) == Summed(s, 2 * Pair16(s, 2))
  {
    hide Dad, Summed;
    DadIs(s, Pair16(s, 0));
    DadIs(s, Pair16(s, 1));
    DadIs(s, Pair16(s, 2));
  }

  function Summed(s: State, sum: nat): Effect {
    Go(WithPair(s, 2, sum).(cc := s.cc.(cy := sum > 0xFFFF)), 10)
  }

  // ---- counting bytes ----

  lemma SignOf(w: word)
    ensures w / 0x80 % 2 == 1 <==> w % 0x100 >= 0x80
  {
    var q, r := w / 0x100, w % 0x100;
    assert w == 0x100 * q + r;
    assert w / 0x80 == 2 * q + r / 0x80;
  }

  lemma FlagsAre(cc: Flags, x: int)
    ensures ArithFlags(cc, Wrap(x)) == Flagged(cc, x)
  {
    hide ArithParity;
    var w: word := x % 0x1_0000;
    HalvesWrap(x);
    assert w % 0x100 == Lo(x) == x % 0x100;
    SignOf(w);
    ParityFlagsCompared(x % 0x100);
  }

  lemma InrRows(s: State)
    ensures Row0(s, 0x0C) == Go(WithReg(s, 1, (s.c + 1) % 0x100).(cc := Flagged(s.cc, s.c + 1)), 5)
    ensures Row2(s, 0x2C) == Go(WithReg(s, 5, (s.l + 1) % 0x100).(cc := Flagged(s.cc, s.l + 1)), 5)
    ensures Row3(s, 0x3C) == Go(WithReg(s, 7, (s.a + 1) % 0x100).(cc := Flagged(s.cc, s.a + 1)), 5)
  {
    hide ArithFlags, Flagged;
    FlagsAre(s.cc, s.c + 1);
    FlagsAre(s.cc, s.l + 1);
    FlagsAre(s.cc, s.a + 1);
  }

  lemma DcrRows(s: State)
    ensures Row0(s, 0x0D) == Go(WithReg(s, 1, (s.c - 1) % 0x100).(cc := Flagged(s.cc, s.c - 1)), 5)
    ensures Row2(s, 0x25) == Go(WithReg(s, 4, (s.h - 1) % 0x100).(cc := Flagged(s.cc, s.h - 1)), 5)
    ensures Row2(s, 0x2D) == Go(WithReg(s, 5, (s.l - 1) % 0x100).(cc := Flagged(s.cc, s.l - 1)), 5)
    ensures Row3(s, 0x3D) == Go(WithReg(s, 7, (s.a - 1) % 0x100).(cc := Flagged(s.cc, s.a - 1)), 5)
  {
    hide ArithFlags, Flagged, Wrap;
    FlagsAre(s.cc, s.c - 1);
    FlagsAre(s.cc, s.h - 1);
    FlagsAre(s.cc, s.l - 1);
    FlagsAre(s.cc, s.a - 1);
    F.WrapByte(s.c - 1);
    F.WrapByte(s.h - 1);
    F.WrapByte(s.l - 1);
    F.WrapByte(s.a - 1);
  }

  /** DCR of B and E cuts its result to a byte before it sets the flags. */
  lemma DcrByteRows(s: State)
    ensures Row0(s, 0x05) == Go(WithReg(s, 0, (s.b - 1) % 0x100).(cc := Flagged(s.cc, (s.b - 1) % 0x100)), 5)
    ensures Row1(s, 0x1D) == Go(WithReg(s, 3, (s.e - 1) % 0x100).(cc := Flagged(s.cc, (s.e - 1) % 0x100)), 5)
  {
    hide ArithFlags, Flagged;
    FlagsAre(s.cc, (s.b - 1) % 0x100);
    FlagsAre(s.cc, (s.e - 1) % 0x100);
  }

  lemma InrHRow(s: State)
    ensures var hl := Pair16(s, 2);
      Row2(s, 0x24) == Go(WithPair(s, 2, hl + 1).(cc := Flagged(s.cc, hl + 1)), 5)
  {
    hide ArithFlags, Flagged, Wrap, Hi, Lo;
    FlagsAre(s.cc, Pair16(s, 2) + 1);
    Halves(Pair16(s, 2) + 1);
  }

  lemma HighIs(x: int)
    ensures Hi(x) == x / 0x100 % 0x100
  {
  }

  lemma CountMRows(s: State)
    ensures var hl := Pair16(s, 2);
      && Row3(s, 0x34) == Go(s.(h := (hl + 1) / 0x100 % 0x100, l := 0xFF, cc := Flagged(s.cc, hl + 1)), 10)
      && Row3(s, 0x35) == Go(s.(h := (hl - 1) / 0x100 % 0x100, l := 0xFF, cc := Flagged(s.cc, hl - 1)), 10)
  {
    hide ArithFlags, Flagged, Wrap, Hi;
    FlagsAre(s.cc, Pair16(s, 2) + 1);
    FlagsAre(s.cc, Pair16(s, 2) - 1);
    HighIs(Pair16(s, 2) + 1);
    HighIs(Pair16(s, 2) - 1);
  }

  /** INR H, INR M and DCR M count all of HL; the last two then set L. */
  lemma CountHLRows(s: State)
    ensures var hl := Pair16(s, 2);
      && Row2(s, 0x24) == Go(WithPair(s, 2, hl + 1).(cc := Flagged(s.cc, hl + 1)), 5)
      && Row3(s, 0x34) == Go(s.(h := (hl + 1) / 0x100 % 0x100, l := 0xFF, cc := Flagged(s.cc, hl + 1)), 10)
      && Row3(s, 0x35) == Go(s.(h := (hl - 1) / 0x100 % 0x100, l := 0xFF, cc := Flagged(s.cc, hl - 1)), 10)
  {
    hide Row2, Row3, Flagged, WithPair, Pair16;
    InrHRow(s);
    CountMRows(s);
  }

  // ---- the accumulator alone ----

  /** RLC keeps bit 7 where it is. */
  function RotatedLeft(a: byte): byte { if a < 0x80 then 2 * a else if a < 0xC0 then 2 * a - 0x80 else 2 * a - 0x100 }

  /** RRC keeps bit 0 where it is. */
  function RotatedRight(a: byte): byte { if a % 4 == 1 then a / 2 + 1 else a / 2 }

  lemma RotateRows(s: State)
    ensures Row0(s, 0x07) == Go(s.(a := RotatedLeft(s.a), cc := s.cc.(cy := s.a >= 0x80)), 4)
    ensures Row0(s, 0x0F) == Go(s.(a := RotatedRight(s.a), cc := s.cc.(cy := s.a % 2 == 1)), 4)
  {
    hide And, Or;
    TopBit(s.a);
    LowBit(s.a);
  }

  lemma {:induction false} OrBit(x: nat, n: nat)
    ensures Or(x, Pow2(n)) == if Shr(x, n) % 2 == 1 then x else x + Pow2(n)
  {
    var p := Pow2(n);
    if n == 0 {
      OrStep(x, 1);
      assert Or(x / 2, 0) == x / 2;
    } else {
      OrBit(x / 2, n - 1);
      assert p / 2 == Pow2(n - 1) && p % 2 == 0;
      OrStep(x, p);
    }
  }

  lemma {:induction false} AndBit(x: nat, n: nat)
    ensures And(x, Pow2(n)) == if Shr(x, n) % 2 == 1 then Pow2(n) else 0
  {
    if n == 0 {
      assert And(x / 2, 0) == 0;
    } else {
      AndBit(x / 2, n - 1);
      AndDouble(x, Pow2(n - 1));
    }
  }

  lemma Bit7(x: nat)
    ensures Pow2(7) == 0x80 && Shr(x, 7) == x / 0x80 && Pow2(0) == 1 && Shr(x, 0) == x
  {
    hide LowBits, Shl;
    assert Pow2(7) == 0x80;
    Split(x, 7);
    ShlIsProduct(Shr(x, 7), 7);
  }

  lemma TopBit(a: byte)
    ensures Lo(Or(2 * a, And(a, 0x80))) == RotatedLeft(a)
  {
    hide And, Or, Shr, Pow2;
    Bit7(a);
    Bit7(2 * a);
    AndBit(a, 7);
    OrBit(2 * a, 7);
    assert Or(2 * a, 0) == 2 * a by { OrNothing(2 * a); }
  }

  lemma OrNothing(x: nat)
    ensures Or(x, 0) == x
  {
  }

  lemma LowBit(a: byte)
    ensures And(a, 1) == a % 2 && Lo(Or(a / 2, And(a, 1))) == RotatedRight(a)
  {
    hide And, Or, Shr, Pow2;
    Bit7(a);
    Bit7(a / 2);
    AndBit(a, 0);
    OrBit(a / 2, 0);
    OrNothing(a / 2);
  }

  lemma IdleRows(s: State)
    ensures Row0(s, 0x00) == Go(s, 4) && Row0(s, 0x08) == Go(s, 0)
    ensures Row1(s, 0x10) == Go(s, 4) && Row2(s, 0x20) == Go(s, 4) && Row2(s, 0x28) == Go(s, 4)
    ensures Row3(s, 0x30) == Go(s, 4) && Row3(s, 0x38) == Go(s, 4)
    ensures Row2(s, 0x2F) == Go(s.(a := 0xFF - s.a), 4)
  {
  }

  // ---- moves and the accumulator group ----

  /** MOV B,D copies C. */
  lemma MovRows(s: State, op: byte)
    requires 0x40 <= op < 0x80
    ensures MovGroup(s, op) ==
      if op == 0x76 then Halt
      else Go(WithReg(s, op / 8 % 8, if op == 0x42 then s.c else Reg8(s, op % 8)),
              if op in {0x46, 0x4E, 0x56, 0x5E, 0x66, 0x67, 0x68, 0x69, 0x6A, 0x6B, 0x6C, 0x6D} then 10 else 7)
  {
    var d, r := op / 8 % 8, op % 8;
    assert op == 0x40 + 8 * d + r;
    assert Operand(s, r) == Reg8(s, r) && SetOperand(s, d, Operand(s, r)) == WithReg(s, d, Reg8(s, r))
        && SetOperand(s, d, s.c) == WithReg(s, d, s.c);
    hide Operand, SetOperand, Reg8, WithReg;
  }

  lemma Fields(group: nat, r: nat)
    requires group < 8 && r < 8
    ensures var op := 0x80 + 8 * group + r;
      op / 8 % 8 == group && op % 8 == r
  {
  }

  lemma OperandIs(s: State, r: nat)
    requires r < 8
    ensures Operand(s, r) == Reg8(s, r)
  {
  }

  lemma AddRows(s: State, r: nat)
    requires r < 8
    ensures var v := Reg8(s, r);
      ArithGroup(s, 0x80 + r)
        == Go(s.(a := (s.a + v) % 0x100, cc := Flagged(s.cc, s.a + v)), if r == 6 then 7 else 4)
  {
    hide Operand, Reg8, ArithFlags, Flagged, LogicParity;
    Fields(0, r);
    OperandIs(s, r);
    FlagsAre(s.cc, s.a + Reg8(s, r));
  }

  /** ADC C is not implemented. */
  lemma AdcRows(s: State, r: nat)
    requires r < 8 && r != 6
    ensures var v := Reg8(s, r);
      ArithGroup(s, 0x88 + r) ==
        if r == 1 then Unimplemented
        else Go(s.(a := (s.a + v + One(s.a + v > 0xFF)) % 0x100, cc := Flagged(s.cc, s.a + v)), 4)
  {
    hide Operand, Reg8, ArithFlags, Flagged, LogicParity;
    Fields(1, r);
    OperandIs(s, r);
    FlagsAre(s.cc, s.a + Reg8(s, r));
    F.CarryOf(s.cc, s.a + Reg8(s, r));
  }

  lemma SubRows(s: State, r: nat)
    requires r < 8 && r != 6
    ensures var v := Reg8(s, r);
      ArithGroup(s, 0x90 + r) == Go(s.(a := (s.a - v) % 0x100, cc := Flagged(s.cc, s.a - v)), 4)
  {
    hide Operand, Reg8, ArithFlags, Flagged, LogicParity, Wrap, Lo;
    Fields(2, r);
    OperandIs(s, r);
    FlagsAre(s.cc, s.a - Reg8(s, r));
    F.WrapByte(s.a - Reg8(s, r));
  }

  /** SBB adds its own borrow for B to E, and none for the others. */
  lemma SbbRows(s: State, r: nat)
    requires r < 8 && r != 6
    ensures var v := Reg8(s, r);
      ArithGroup(s, 0x98 + r)
        == Go(s.(a := (s.a - v + One(r < 4 && s.a < v)) % 0x100, cc := Flagged(s.cc, s.a - v)), 4)
  {
    hide Operand, Reg8, ArithFlags, Flagged, LogicParity, Wrap, Lo;
    Fields(3, r);
    OperandIs(s, r);
    var x := s.a - Reg8(s, r);
    FlagsAre(s.cc, x);
    F.WrapByte(x);
    F.WrapByteAgain(x, 1);
    F.CarryOf(s.cc, Wrap(x));
  }

  /** The memory forms of ADC, SUB and SBB add or take away HL itself, and keep the top byte of 32 bits. */
  lemma ArithMemoryRows(s: State)
    ensures var hl := Pair16(s, 2);
      var summed := Go(s.(a := 0, cc := s.cc.(z := s.a + hl == 0, s := false, p := PopCount(s.a) % 2 == 1,
                                              cy := s.a + hl > 0xFFFF)), 7);
      ArithGroup(s, 0x8E) == summed && ArithGroup(s, 0x96) == summed
  {
    hide Operand, PopCount, ArithFlags;
    F.TopByte(s.a, Pair16(s, 2), Bit(s.a + Pair16(s, 2) > 0xFFFF));
  }

  lemma SbbMemoryRow(s: State)
    ensures var hl := Pair16(s, 2);
      ArithGroup(s, 0x9E)
        == Go(s.(a := if s.a < hl - 1 then 0xFF else 0,
                 cc := s.cc.(s := s.a < hl, p := PopCount(s.a) % 2 == 1, cy := s.a < hl)), 4)
  {
    hide Operand, PopCount, ArithFlags;
    var hl := Pair16(s, 2);
    F.BorrowOfHL(s.a, hl);
    BorrowedWord(s.a, hl);
  }

  lemma BorrowedWord(a: byte, hl: word)
    ensures var ans := (a - hl) % 0x1_0000_0000;
      (ans > 0xFFFF <==> a < hl) && (ans >= 0x8000_0000 <==> a < hl)
  {
    var ans := (a - hl) % 0x1_0000_0000;
    assert ans == if a < hl then a - hl + 0x1_0000_0000 else a - hl;
  }

  /** What ANA, XRA, ORA and CMP, which complements, leave. */
  function MaskedBy(group: nat, a: byte, v: byte): byte {
    match group
    case 4 => And(a, v)
    case 5 => Xor(a, v) % 0x100
    case 6 => Or(a, v) % 0x100
    case _ => 0xFF - v
  }

  lemma LogicRows(s: State, group: nat, r: nat)
    requires 4 <= group < 8 && r < 8 && r != 6 && !(group == 6 && r == 7)
    ensures var a := MaskedBy(group, s.a, Reg8(s, r));
      LogicGroup(s, 0x80 + 8 * group + r) == Go(s.(a := a, cc := Masked(s.cc, a)), 4)
  {
    hide Operand, Reg8, And, Or, Xor, PopCount;
    var op, v := 0x80 + 8 * group + r, Operand(s, r);
    Fields(group, r);
    OperandIs(s, r);
    F.AndByte(s.a, v);
    assert op !in {0xA6, 0xAE, 0xB6, 0xB7, 0xBE};
  }

  /** The memory forms work on HL itself, and ORA A is an exclusive or. */
  lemma LogicOddRows(s: State)
    ensures LogicGroup(s, 0xAE) == Go(s.(a := s.h, cc := Masked(s.cc, s.a)), 7)
    ensures LogicGroup(s, 0xB6) == Go(s.(a := s.h, cc := Masked(s.cc, s.a)), 7)
    ensures LogicGroup(s, 0xBE) == Go(s.(a := 0xFF - s.h, cc := Masked(s.cc, s.a)), 7)
  {
    hide Operand, And, Or, Xor, PopCount, Pair;
    F.XorHigh(s.a, s.h, s.l);
    F.NotHigh(s.h, s.l);
  }

  lemma LogicClearRows(s: State)
    ensures LogicGroup(s, 0xA6) == Go(s.(a := 0, cc := Masked(s.cc, 0)), 4)
    ensures LogicGroup(s, 0xB7) == Go(s.(a := 0, cc := Masked(s.cc, 0)), 4)
  {
    hide Operand, And, Or, Xor, PopCount, Pair;
    F.XorSelf(s.a);
    F.Accumulator(s);
    assert Hi(And(s.a, Pair(s.h, s.l))) == 0;
  }

  lemma AddImmediateRows(s: State)
    ensures var v := Imm8(s);
      && RowC(s, 0xC6) == Go(On(s.(a := (s.a + v) / 0x100, cc := Flagged(s.cc, s.a + v)), 1), 4)
      && RowC(s, 0xCE)
         == Go(On(s.(a := (s.a + v + One(s.a + v > 0xFF)) % 0x100, cc := Flagged(s.cc, s.a + v)), 1), 7)
  {
    hide ArithFlags, Flagged, Peek, Read;
    var v := Arg(s, 1);
    assert v == Imm8(s) by { ArgIs(s); }
    FlagsAre(s.cc, s.a + v);
    F.CarryOf(s.cc, s.a + v);
    assert Hi(s.a + v) == (s.a + v) / 0x100;
  }

  lemma MaskImmediateRows(s: State)
    ensures var v := Imm8(s);
      && RowE(s, 0xE6) == Go(On(s.(a := And(s.a, v), cc := Masked(s.cc, s.a)), 1), 7)
      && RowF(s, 0xF6) == Go(On(s.(a := Or(s.a, v) % 0x100, cc := Masked(s.cc, s.a)), 1), 7)
  {
    hide And, Or, PopCount, Peek, Read;
    ArgIs(s);
    F.AndByte(s.a, Imm8(s));
  }

  /** SBI only takes its time, and CPI stays where it is. */
  lemma StillRows(s: State)
    ensures RowD(s, 0xDE) == Go(s, 7) && RowF(s, 0xFE) == Go(On(s, -1), 7)
    ensures RowD(s, 0xD3) == Go(On(s, 1), 10) && RowD(s, 0xDB) == Go(On(s, 2), 10)
    ensures RowF(s, 0xF3) == Go(s.(intEnable := false), 4) && RowF(s, 0xFB) == Go(s.(intEnable := true), 4)
  {
  }

  // ---- the stack ----

  /** Five flags in a byte, from bit 0: zero, sign, parity, carry, auxiliary carry. */
  function Packed(cc: Flags): byte { One(cc.z) + 2 * One(cc.s) + 4 * One(cc.p) + 8 * One(cc.cy) + 0x10 * One(cc.ac) }

  lemma PushRows(s: State)
    ensures RowC(s, 0xC5)
         == Go(Poke(Poke(s, s.sp - 1, s.b), s.sp, s.c).(sp := (s.sp - 2) % 0x1_0000), 11)
    ensures RowD(s, 0xD5) == Go(Pushed(s, s.d, s.e), 11) && RowE(s, 0xE5) == Go(Pushed(s, s.h, s.l), 11)
    ensures RowF(s, 0xF5) == Go(Pushed(s, s.a, Packed(s.cc)), 11)
  {
  }

  /** The flags that POP PSW makes of a byte: the carry is set when the bits of both zero and parity are. */
  function Unpacked(psw: byte): Flags {
    Flags(psw % 2 == 1, psw / 2 % 2 == 1, psw / 4 % 2 == 1, psw % 2 == 1 && psw / 4 % 2 == 1, psw / 0x10 % 2 == 1)
  }

  lemma PopBRow(s: State)
    ensures RowC(s, 0xC1) == Go(WithPair(Raised(s), 0, Top(s)), 10)
  {
  }

  lemma PopRows(s: State)
    ensures RowD(s, 0xD1) == Go(Raised(s).(d := Peek(s, s.sp - 1), e := Peek(s, s.sp)), 10)
    ensures RowF(s, 0xF1) == Go(On(s.(a := Peek(s, s.sp + 1), cc := Unpacked(Peek(s, s.sp))), 2), 10)
  {
    MaskFive(Peek(s, s.sp));
    hide And;
  }

  lemma MaskFive(x: byte)
    ensures And(x, 5) == 5 <==> x % 2 == 1 && x / 4 % 2 == 1
  {
    assert And(x, 5) == 2 * And(x / 2, 2) + x % 2;
    assert And(x / 2, 2) == 2 * And(x / 4, 1);
    assert And(x / 4, 1) == x / 4 % 2;
  }

  lemma ExchangeRows(s: State)
    ensures var lo, hi := Peek(s, s.sp), Peek(s, s.sp + 1);
      RowE(s, 0xE3) == Go(Poke(Poke(s.(l := lo, h := hi), lo, s.l), hi, s.h), 14)
    ensures RowF(s, 0xF9) == Go(s.(sp := Pair16(s, 2)), 5)
  {
  }

  // ---- leaving the line ----

  /** The return address pushed, and the target read after that. */
  function Called(s: State): State {
    var ret := (s.pc + 2) % 0x1_0000;
    var t := Pushed(s, ret / 0x100, ret % 0x100);
    t.(pc := 0x100 * Peek(t, s.pc + 2) + Peek(t, s.pc + 1))
  }

  function Returned(s: State): State { Raised(s).(pc := Top(s)) }

  lemma PushedIs(s: State, hi: byte, lo: byte)
    ensures Push(s, hi, lo) == Pushed(s, hi, lo)
  {
  }

  lemma CalledIs(s: State)
    ensures Call(s) == Called(s) && Return(s) == Returned(s)
  {
    hide Push, Pushed, Hi, Lo;
    var ret := (s.pc + 2) % 0x1_0000;
    PushedIs(s, ret / 0x100, ret % 0x100);
    Halves(ret);
  }

  lemma JumpRows(s: State)
    ensures RowC(s, 0xC2) == Go(if s.cc.z then On(s, 2) else s.(pc := Imm16(s)), 10)
    ensures RowC(s, 0xC3) == Go(s.(pc := Imm16(s)), 10)
    ensures RowD(s, 0xD2) == Go(if s.cc.cy then s else s.(pc := Imm16(s)), 10)
    ensures var swapped := s.(pc := 0x100 * Peek(s, s.pc + 1) + Peek(s, s.pc + 2));
      && RowF(s, 0xF2) == Go(if s.cc.p then swapped else s, 10)
      && RowF(s, 0xF4) == if s.cc.p then Go(swapped, 17) else Go(s, 11)
  {
    hide Peek, Arg, Imm16, ReadWord;
    ArgsAre(s);
    WordIs(s);
  }

  lemma CallRows(s: State)
    ensures RowC(s, 0xCD) == Go(Called(s), 17)
    ensures RowC(s, 0xC4) == if s.cc.z then Go(On(s, 2), 11) else Go(Called(s), 17)
    ensures RowC(s, 0xCC) == if s.cc.z then Go(Called(s), 17) else Go(s, 11)
    ensures RowC(s, 0xCA) == Go(if s.cc.z then Called(s) else s, 10)
    ensures RowC(s, 0xC9) == Go(Returned(s), 10)
    ensures RowC(s, 0xC8) == if s.cc.z then Go(Returned(s), 11) else Go(s, 5)
  {
    CalledIs(s);
    hide Call, Return, Called, Returned;
  }

  lemma RestartRows(s: State)
    ensures RowC(s, 0xC7) == Go(s.(pc := 0), 0) && RowC(s, 0xCF) == Go(s.(sp := s.pc, pc := 8), 11)
  {
  }

  // ---- nothing at all ----

  /** The bytes for which nothing is implemented. */
  predicate Trapped(op: byte) {
    op in {0x04, 0x0B, 0x12, 0x14, 0x15, 0x16, 0x17, 0x18, 0x1C, 0x1E, 0x1F, 0x22, 0x27, 0x37, 0x39, 0x3F, 0x89,
           0xC0, 0xCB, 0xD0, 0xD4, 0xD6, 0xD7, 0xD8, 0xD9, 0xDA, 0xDC, 0xDD, 0xDF, 0xE0, 0xE1, 0xE2, 0xE4, 0xE7,
           0xE8, 0xE9, 0xEA, 0xEB, 0xEC, 0xED, 0xEE, 0xEF, 0xF0, 0xF7, 0xF8, 0xFA, 0xFC, 0xFD, 0xFF}
  }

  lemma TrappedLow(s: State, op: byte)
    requires op < 0x40
    ensures Execute(s, op) == Unimplemented <==> Trapped(op)
  {
    hide SetOperand, And, Or, Read, Write, Arg, Skip, SetBC, SetDE, SetHL, ArithFlags;
  }

  lemma TrappedMiddle(s: State, op: byte)
    requires 0x40 <= op < 0xC0
    ensures Execute(s, op) == Unimplemented <==> Trapped(op)
  {
    hide SetOperand, Operand, And, Or, Xor, ArithFlags, LogicFlags, Wrap, Pair, Lo, Hi;
  }

  lemma TrappedHigh(s: State, op: byte)
    requires 0xC0 <= op
    ensures Execute(s, op) == Unimplemented <==> Trapped(op)
  {
    hide And, Or, ArithFlags, LogicFlags, Push, Call, Return, Read, Write, Arg, Skip, JumpTo, JumpSwapped, PackFlags,
         UnpackFlags;
  }

  lemma TrappedRows(s: State, op: byte)
    ensures Execute(s, op) == Unimplemented <==> Trapped(op)
  {
    hide Execute, Trapped;
    if op < 0x40 {
      TrappedLow(s, op);
    } else if op < 0xC0 {
      TrappedMiddle(s, op);
    } else {
      TrappedHigh(s, op);
    }
  }
}
