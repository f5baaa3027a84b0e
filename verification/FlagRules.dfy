/**
 * The accumulator group, INR and DCR against what the 8080 is meant to do: for every opcode, exactly when the
 * emulator leaves the right accumulator, carry or zero flag.
 */
module FlagRules {
  import opened Bits
  import opened Parity
  import opened CpuSpec

  // ---- INR and DCR, which are meant to leave the carry alone ----

  lemma CountIs(s: State, r: int, ans: word)
    requires 0 <= r < 8 && r != 6 && Execute(s, Opcode(s)) == Count(s, r, ans)
    ensures Operand(Step(s), r) == Lo(ans) && Step(s).cc.cy == (ans > 0xFF)
  {
    hide Execute, Lo, ArithParity;
  }

  lemma IncOpcode(s: State, r: int)
    requires r in {1, 5, 7} && Opcode(s) == 4 + 8 * r
    ensures Operand(s, r) + 1 <= 0x100 && Execute(s, Opcode(s)) == Count(s, r, Operand(s, r) + 1)
  {
    hide Count, MovGroup, ArithGroup, LogicGroup, RowC, RowD, RowE, RowF, Read, Pair;
  }

  lemma DecOpcode(s: State, r: int)
    requires r in {1, 4, 5, 7} && Opcode(s) == 5 + 8 * r
    ensures Execute(s, Opcode(s)) == Count(s, r, Wrap(Operand(s, r) - 1))
  {
    hide Count, MovGroup, ArithGroup, LogicGroup, RowC, RowD, RowE, RowF, Read, Pair, Wrap;
  }

  lemma DecByteOpcode(s: State, r: int)
    requires r in {0, 3} && Opcode(s) == 5 + 8 * r
    ensures Execute(s, Opcode(s)) == Count(s, r, (Operand(s, r) - 1) % 0x100)
  {
    hide Count, MovGroup, ArithGroup, LogicGroup, RowC, RowD, RowE, RowF, Read, Pair, Wrap;
  }

  /** INR of C, L and A keeps the carry exactly when it was set just if the register overflows. */
  lemma InrCarry(s: State, r: int)
    requires r in {1, 5, 7} && Opcode(s) == 4 + 8 * r
    ensures Operand(Step(s), r) == (Operand(s, r) + 1) % 0x100
    ensures Step(s).cc.cy == s.cc.cy <==> (s.cc.cy <==> Operand(s, r) == 0xFF)
  {
    hide Execute, Step, Count, Operand;
    IncOpcode(s, r);
    CountIs(s, r, Operand(s, r) + 1);
  }

  /** DCR of C, H, L and A keeps it exactly when it was set just if the register was zero. */
  lemma DcrCarry(s: State, r: int)
    requires r in {1, 4, 5, 7} && Opcode(s) == 5 + 8 * r
    ensures Operand(Step(s), r) == (Operand(s, r) - 1) % 0x100
    ensures Step(s).cc.cy == s.cc.cy <==> (s.cc.cy <==> Operand(s, r) == 0)
  {
    hide Execute, Step, Count, Operand;
    DecOpcode(s, r);
    CountIs(s, r, Wrap(Operand(s, r) - 1));
    WrapByte(Operand(s, r) - 1);
  }

  /** DCR of B and E, whose result is cut to a byte first, keeps it exactly when it was clear. */
  lemma DcrByteCarry(s: State, r: int)
    requires r in {0, 3} && Opcode(s) == 5 + 8 * r
    ensures Operand(Step(s), r) == (Operand(s, r) - 1) % 0x100
    ensures Step(s).cc.cy == s.cc.cy <==> !s.cc.cy
  {
    hide Execute, Step, Count, Operand;
    DecByteOpcode(s, r);
    CountIs(s, r, (Operand(s, r) - 1) % 0x100);
  }

  /** A difference of bytes kept in 16 bits: its low byte, and when it is over 0xFF. */
  lemma WrapByte(x: int)
    requires -0x100 < x < 0x100
    ensures Lo(Wrap(x)) == x % 0x100 && (Wrap(x) > 0xFF <==> x < 0)
    ensures Lo(Wrap(x) + 1) == (x + 1) % 0x100
  {
    assert Wrap(x) == if x < 0 then x + 0x1_0000 else x;
    assert x < 0 ==> x % 0x100 == x + 0x100 == (x + 0x1_0000) % 0x100;
    assert x < -1 ==> (x + 1) % 0x100 == x + 0x101 == (x + 0x1_0001) % 0x100;
  }

  /** INR H counts the whole of HL, so it never leaves H one more and L as it was. */
  lemma InrHCountsHL(s: State)
    requires Opcode(s) == 0x24
    ensures Pair(Step(s).h, Step(s).l) == Wrap(Pair(s.h, s.l) + 1)
    ensures !(Step(s).h == (s.h + 1) % 0x100 && Step(s).l == s.l)
  {
    hide Step, Pair, Wrap;
    IncHLStep(s);
    NextLow(s.h, s.l);
    PairOfHalves(Pair(s.h, s.l) as int + 1);
  }

  lemma IncHLStep(s: State)
    requires Opcode(s) == 0x24
    ensures Step(s).h == Hi(Pair(s.h, s.l) + 1) && Step(s).l == Lo(Pair(s.h, s.l) + 1)
  {
    hide Row0, Row1, Row3, MovGroup, ArithGroup, LogicGroup, RowC, RowD, RowE, RowF, Read, Pair, Wrap, Hi, Lo,
         ArithFlags;
  }

  lemma NextLow(h: byte, l: byte)
    ensures Lo(Pair(h, l) + 1) == (l + 1) % 0x100
  {
  }

  lemma PairOfHalves(x: int)
    ensures Pair(Hi(x), Lo(x)) == Wrap(x)
  {
    HalvesWrap(x);
    var w := x % 0x1_0000;
    assert w == 0x100 * (w / 0x100) + w % 0x100;
  }

  /** INR M and DCR M change HL and leave the cell it points at alone. */
  lemma CountMKeepsMemory(s: State)
    requires Opcode(s) in {0x34, 0x35}
    ensures Step(s).mem == s.mem && Step(s).l == 0xFF
  {
    hide Row0, Row1, Row2, MovGroup, ArithGroup, LogicGroup, RowC, RowD, RowE, RowF, Read;
  }

  // ---- the accumulator group ----

  /** What the instruction is meant to leave in the accumulator; a comparison leaves it alone. */
  function MeantA(s: State, row: int, v: byte): byte {
    match row
    case 0 => (s.a + v) % 0x100
    case 1 => (s.a + v + Bit(s.cc.cy)) % 0x100
    case 2 => (s.a - v) % 0x100
    case 3 => (s.a - v - Bit(s.cc.cy)) % 0x100
    case 4 => And(s.a, v)
    case 5 => Xor(s.a, v) % 0x100
    case 6 => Or(s.a, v) % 0x100
    case _ => s.a
  }

  /**
   * When that is what it leaves. ADC adds the carry it has just made; ADC C is not implemented; SBB adds its own
   * borrow for B to E and none for the others; the memory forms but ADD M work on HL itself, of which only the high
   * byte, or nothing, comes through; ORA A clears; and comparisons complement.
   */
  predicate RightWhen(s: State, row: int, r: int, v: byte) {
    var carry, hl := Bit(s.cc.cy), Pair(s.h, s.l);
    match row
    case 1 =>
      if r == 1 then (v + carry) % 0x100 == 0
      else if r == 6 then (s.a + v + carry) % 0x100 == 0
      else s.cc.cy <==> s.a + v > 0xFF
    case 2 => r == 6 ==> s.a == v
    case 3 =>
      if r == 6 then (s.a - v - carry) % 0x100 == if s.a < hl - 1 then 0xFF else 0
      else if r < 4 then s.a >= v && !s.cc.cy
      else !s.cc.cy
    case 4 => r == 6 ==> And(s.a, v) == 0
    case 5 => r == 6 ==> Xor(s.a, v) % 0x100 == s.h
    case 6 => if r == 6 then Or(s.a, v) % 0x100 == s.h else r == 7 ==> s.a == 0
    case 7 => s.a == 0xFF - if r == 6 then s.h else v
    case _ => true
  }

  lemma {:induction false} XorLow(b: nat, x: nat, y: nat, n: nat)
    requires x < Pow2(n) && y < Pow2(n)
    ensures Xor(x, Pow2(n) * b + y) == Pow2(n) * b + Xor(x, y) && Xor(x, y) < Pow2(n)
  {
    hide Xor;
    if n == 0 {
      assert Xor(0, b) == b && Xor(0, 0) == 0 by { XorNone(b); }
    } else {
      var p := Pow2(n - 1);
      assert Pow2(n) * b == 2 * (p * b);
      XorLow(b, x / 2, y / 2, n - 1);
      XorStep(x, 2 * (p * b) + y);
      XorStep(x, y);
      assert (2 * (p * b) + y) / 2 == p * b + y / 2;
    }
  }

  lemma XorNone(b: nat)
    ensures Xor(0, b) == b && Xor(0, 0) == 0
  {
  }

  lemma XorStep(x: nat, y: nat)
    ensures Xor(x, y) == 2 * Xor(x / 2, y / 2) + if x % 2 != y % 2 then 1 else 0
  {
    if x == 0 || y == 0 {
      assert Xor(0, y / 2) == y / 2 && Xor(x / 2, 0) == x / 2;
    }
  }

  /** Of the exclusive or of a byte and a word the high byte is the word's. */
  lemma XorHigh(a: byte, h: byte, l: byte)
    ensures Hi(Xor(a, Pair(h, l))) == h
  {
    hide Xor;
    assert Pow2(8) == 0x100;
    XorLow(h, a, l, 8);
  }

  /** The accumulator after an effect; an unimplemented opcode leaves it. */
  function After(s: State, f: Effect): byte { if f.Go? then f.s.a else s.a }

  lemma CarryOf(cc: Flags, ans: word)
    ensures ArithFlags(cc, ans).cy == (ans > 0xFF)
  {
    hide ArithParity, Lo;
  }

  /** Adding one carry for another is right only when they are the same. */
  lemma SameCarry(x: int, c: nat, d: nat)
    requires c <= 1 && d <= 1
    ensures Lo(x + c) == (x + d) % 0x100 <==> c == d
  {
    var q, r := x / 0x100, x % 0x100;
    DivideSum(r + c, q, 0x100);
    DivideSum(r + d, q, 0x100);
  }

  lemma TopByte(a: byte, hl: word, c: nat)
    requires c <= 1
    ensures (a + hl + c) / 0x100_0000 % 0x100 == 0
  {
    assert 0 <= a + hl + c < 0x100_0000;
  }

  /** What the additions leave in the accumulator. */
  lemma Additions(s: State, op: byte)
    requires 0x80 <= op < 0x90
    ensures var v, hl := Operand(s, op % 8), Pair(s.h, s.l);
      After(s, ArithGroup(s, op)) ==
        if op < 0x88 then Lo(s.a + v)
        else if op == 0x89 then s.a
        else if op == 0x8E then (s.a + hl + Bit(s.a + hl > 0xFFFF)) / 0x100_0000 % 0x100
        else Lo(s.a + v + Bit(s.a + v > 0xFF))
  {
    hide Operand, LogicParity, ArithFlags, Lo, Pair;
    var v := Operand(s, op % 8);
    CarryOf(s.cc, s.a + v);
  }

  lemma AddPlain(s: State, op: byte, v: byte)
    requires 0x80 <= op < 0x88 && v == Operand(s, op % 8)
    ensures After(s, ArithGroup(s, op)) == MeantA(s, 0, v)
  {
    hide Operand, ArithGroup, After;
    Additions(s, op);
  }

  lemma AddCarry(s: State, op: byte, v: byte)
    requires 0x88 <= op < 0x90 && v == Operand(s, op % 8)
    ensures After(s, ArithGroup(s, op)) == MeantA(s, 1, v) <==> RightWhen(s, 1, op % 8, v)
  {
    hide Operand, ArithGroup, After, Lo, Pair;
    Additions(s, op);
    if op == 0x89 {
      SameSum(s.a, v + Bit(s.cc.cy));
    } else if op == 0x8E {
      TopByte(s.a, Pair(s.h, s.l), Bit(s.a + Pair(s.h, s.l) > 0xFFFF));
    } else {
      assert op % 8 !in {1, 6};
      SameCarry(s.a + v, Bit(s.a + v > 0xFF), Bit(s.cc.cy));
    }
  }

  lemma AddRow(s: State, op: byte)
    requires 0x80 <= op < 0x90
    ensures var row, r := op / 8 % 8, op % 8;
      var v := Operand(s, r);
      After(s, ArithGroup(s, op)) == MeantA(s, row, v) <==> RightWhen(s, row, r, v)
  {
    hide Operand, ArithGroup, After, MeantA;
    var v := Operand(s, op % 8);
    if op < 0x88 {
      assert op / 8 % 8 == 0;
      AddPlain(s, op, v);
    } else {
      assert op / 8 % 8 == 1;
      AddCarry(s, op, v);
    }
  }

  lemma SameSum(a: byte, n: nat)
    requires n <= 0x100
    ensures a == (a + n) % 0x100 <==> n % 0x100 == 0
  {
  }

  /** A borrow added instead of taken away is right only when there is neither. */
  lemma SameBorrow(x: int, c: nat, d: nat)
    requires -0x100 < x < 0x100 && c <= 1 && d <= 1
    ensures Lo(Wrap(x) + c) == (x - d) % 0x100 <==> c == 0 && d == 0
  {
    hide Wrap, Lo;
    WrapByte(x);
    WrapByteAgain(x, c);
    SameDifference(x, c, d);
  }

  lemma WrapByteAgain(x: int, c: nat)
    requires -0x100 < x < 0x100 && c <= 1
    ensures Lo(Wrap(x) + c) == (x + c) % 0x100
  {
    WrapByte(x);
  }

  lemma SameDifference(x: int, c: nat, d: nat)
    requires c <= 1 && d <= 1
    ensures (x + c) % 0x100 == (x - d) % 0x100 <==> c == 0 && d == 0
  {
    var q, r := x / 0x100, x % 0x100;
    DivideSum(r + c, q, 0x100);
    DivideSum(r - d, q, 0x100);
  }

  lemma SubtractRow(s: State, op: byte)
    requires 0x90 <= op < 0x98
    ensures var v := Operand(s, op % 8);
      After(s, ArithGroup(s, op)) == MeantA(s, 2, v) <==> RightWhen(s, 2, op % 8, v)
  {
    hide Operand, LogicParity, ArithFlags, Lo, Pair, Wrap;
    var v, hl := Operand(s, op % 8), Pair(s.h, s.l);
    WrapByte(s.a - v);
    TopByte(s.a, hl, Bit(s.a + hl > 0xFFFF));
    SameByte(s.a, v);
    assert op / 8 % 8 == 2 && (op == 0x96 <==> op % 8 == 6);
  }

  lemma SameByte(a: byte, v: byte)
    ensures (a - v) % 0x100 == 0 <==> a == v
  {
  }

  lemma BorrowRow(s: State, op: byte)
    requires 0x98 <= op < 0xA0
    ensures var v := Operand(s, op % 8);
      After(s, ArithGroup(s, op)) == MeantA(s, 3, v) <==> RightWhen(s, 3, op % 8, v)
  {
    hide Operand, LogicParity, ArithFlags, Lo, Pair, Wrap;
    var v, hl := Operand(s, op % 8), Pair(s.h, s.l);
    var ans := Wrap(s.a - v);
    assert op / 8 % 8 == 3 && op == 0x98 + op % 8;
    if op == 0x9E {
      BorrowOfHL(s.a, hl);
    } else {
      CarryOf(s.cc, ans);
      WrapByte(s.a - v);
      SameBorrow(s.a - v, Bit(ans > 0xFF), Bit(s.cc.cy));
      SameBorrow(s.a - v, 0, Bit(s.cc.cy));
    }
  }

  lemma SubRow(s: State, op: byte)
    requires 0x90 <= op < 0xA0
    ensures var row, r := op / 8 % 8, op % 8;
      var v := Operand(s, r);
      After(s, ArithGroup(s, op)) == MeantA(s, row, v) <==> RightWhen(s, row, r, v)
  {
    hide Operand, ArithGroup, After, MeantA, RightWhen;
    if op < 0x98 {
      SubtractRow(s, op);
    } else {
      BorrowRow(s, op);
    }
  }

  /** What SBB M leaves: the top byte of a 32-bit difference and its own carry. */
  lemma BorrowOfHL(a: byte, hl: word)
    ensures var ans := (a - hl) % 0x1_0000_0000;
      (ans + Bit(ans > 0xFFFF)) % 0x1_0000_0000 / 0x100_0000 % 0x100 == if a < hl - 1 then 0xFF else 0
  {
    var ans := (a - hl) % 0x1_0000_0000;
    if a >= hl {
      assert ans == a - hl;
    } else {
      assert ans == a - hl + 0x1_0000_0000;
      if a == hl - 1 {
        assert ans + 1 == 0x1_0000_0000;
      } else {
        assert 0xFFFF_0000 <= ans + 1 < 0x1_0000_0000;
      }
    }
  }

  /** The forms with an effect of their own: the memory forms and ORA A. */
  lemma OddLogic(s: State, op: byte)
    requires op in {0xA6, 0xAE, 0xB6, 0xB7, 0xBE}
    ensures var row, r := op / 8 % 8, op % 8;
      var v := Operand(s, r);
      After(s, LogicGroup(s, op)) == MeantA(s, row, v) <==> RightWhen(s, row, r, v)
  {
    hide Operand, LogicFlags, And, Or, Xor, Pair;
    if op == 0xB7 {
      Accumulator(s);
      XorSelf(s.a);
      OrSelf(s.a);
    } else {
      XorHigh(s.a, s.h, s.l);
      NotHigh(s.h, s.l);
    }
  }

  lemma PlainLogic(s: State, op: byte)
    requires 0xA0 <= op < 0xC0 && op !in {0xA6, 0xAE, 0xB6, 0xB7, 0xBE}
    ensures var row, r := op / 8 % 8, op % 8;
      var v := Operand(s, r);
      After(s, LogicGroup(s, op)) == MeantA(s, row, v) <==> RightWhen(s, row, r, v)
  {
    hide Operand, LogicFlags, And, Or, Xor, Pair, Hi;
    var v := Operand(s, op % 8);
    assert And(s.a, v) == Lo(And(s.a, v)) by { AndByte(s.a, v); }
  }

  lemma AndByte(a: byte, v: byte)
    ensures And(a, v) == Lo(And(a, v))
  {
    hide And;
  }

  lemma LogicRow(s: State, op: byte)
    requires 0xA0 <= op < 0xC0
    ensures var row, r := op / 8 % 8, op % 8;
      var v := Operand(s, r);
      After(s, LogicGroup(s, op)) == MeantA(s, row, v) <==> RightWhen(s, row, r, v)
  {
    hide Operand, LogicGroup, After, MeantA, RightWhen;
    if op in {0xA6, 0xAE, 0xB6, 0xB7, 0xBE} {
      OddLogic(s, op);
    } else {
      PlainLogic(s, op);
    }
  }

  lemma Accumulator(s: State)
    ensures Operand(s, 7) == s.a
  {
  }

  lemma {:induction false} XorSelf(x: nat)
    ensures Xor(x, x) == 0
  {
    if x > 0 {
      XorSelf(x / 2);
    }
  }

  lemma {:induction false} OrSelf(x: nat)
    ensures Or(x, x) == x
  {
    if x > 0 {
      OrSelf(x / 2);
    }
  }

  lemma NotHigh(h: byte, l: byte)
    ensures Hi(0xFFFF - Pair(h, l)) == 0xFF - h
  {
  }

  /**
   * For every opcode of the accumulator group and every state: the emulator leaves the accumulator that is meant
   * exactly when RightWhen holds beforehand.
   */
  lemma AccumulatorExactly(s: State)
    requires 0x80 <= Opcode(s) < 0xC0
    ensures var row, r := Opcode(s) / 8 % 8, Opcode(s) % 8;
      var v := Operand(s, r);
      Step(s).a == MeantA(s, row, v) <==> RightWhen(s, row, r, v)
  {
    hide ArithGroup, LogicGroup, Execute, Operand, MeantA, RightWhen, Row0, Row1, Row2, Row3, MovGroup, RowC, RowD,
         RowE, RowF;
    Dispatch(s, Opcode(s));
    NotHalted(s, Opcode(s));
    if Opcode(s) < 0x90 {
      AddRow(s, Opcode(s));
    } else if Opcode(s) < 0xA0 {
      SubRow(s, Opcode(s));
    } else {
      LogicRow(s, Opcode(s));
    }
  }

  lemma NotHalted(s: State, op: byte)
    requires 0x80 <= op < 0xC0
    ensures Step(s).a == After(s, Execute(s, Opcode(s)))
  {
    hide Execute;
  }

  /**
   * The logic instructions leave the zero flag as it was; where they leave the right accumulator, the flag is right
   * exactly when it already told whether the result is zero.
   */
  lemma LogicZero(s: State)
    requires 0xA0 <= Opcode(s) < 0xB8
    ensures var row, r := Opcode(s) / 8 % 8, Opcode(s) % 8;
      var v := Operand(s, r);
      RightWhen(s, row, r, v) ==> (Step(s).cc.z == (Step(s).a == 0) <==> (s.cc.z <==> MeantA(s, row, v) == 0))
  {
    hide Step, Operand, MeantA, RightWhen;
    AccumulatorExactly(s);
    ZeroKept(s);
  }

  lemma ZeroKept(s: State)
    requires 0xA0 <= Opcode(s) < 0xB8
    ensures Step(s).cc.z == s.cc.z
  {
    hide Row0, Row1, Row2, Row3, MovGroup, ArithGroup, RowC, RowD, RowE, RowF, And, Or, Xor, Operand, PopCount;
  }

  // ---- the parity flag ----

  /** ADD, and SUB of a register; and the logic instructions whose flags are set from their own result. */
  predicate AddsOrSubtracts(op: int) { 0x80 <= op < 0x88 || (0x90 <= op < 0x98 && op != 0x96) }

  predicate Masks(op: int) { 0xA0 <= op < 0xB8 && op != 0xAE && op != 0xB6 }

  lemma ArithParityKept(s: State, op: byte)
    requires AddsOrSubtracts(op)
    ensures var s1 := ArithGroup(s, op).s;
      ArithGroup(s, op).Go? && s1.cc.p == ArithParity(s1.a)
  {
    hide Operand, ArithParity, Pair, Read;
  }

  lemma LogicParityKept(s: State, op: byte)
    requires Masks(op)
    ensures var s1 := LogicGroup(s, op).s;
      LogicGroup(s, op).Go? && s1.cc.p == LogicParity(s1.a)
  {
    hide Operand, LogicParity, Pair, Read, And, Or, Xor;
  }

  lemma FlagsAfter(s: State)
    requires 0x80 <= Opcode(s) < 0xC0 && Execute(s, Opcode(s)).Go?
    ensures Step(s).a == Execute(s, Opcode(s)).s.a && Step(s).cc == Execute(s, Opcode(s)).s.cc
  {
    hide Execute;
  }

  /**
   * The parity flag is meant to be set for an even number of bits. After an addition or subtraction it is right exactly
   * for zero and for results whose bits are odd in number, and after a logic instruction never.
   */
  lemma ParityExactly(s: State)
    requires AddsOrSubtracts(Opcode(s)) || Masks(Opcode(s))
    ensures var a := Step(s).a;
      Step(s).cc.p == (PopCount(a) % 2 == 0) <==> AddsOrSubtracts(Opcode(s)) && (a == 0 || PopCount(a) % 2 == 1)
  {
    hide Step, PopCount, Execute, ArithGroup, LogicGroup, ArithParity;
    Dispatch(s, Opcode(s));
    if AddsOrSubtracts(Opcode(s)) {
      ArithParityKept(s, Opcode(s));
      NoBits();
    } else {
      LogicParityKept(s, Opcode(s));
    }
    FlagsAfter(s);
    ParityFlagsCompared(Step(s).a);
  }
}
