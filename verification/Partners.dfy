/** The pushes and pops that are not each other's inverse, and exactly when they still restore a register. */
module Partners {
  import opened Bits
  import opened CpuSpec

  lemma TwoSteps(s: State)
    ensures StepN(s, 2) == Step(Step(s))
  {
    hide Step;
    assert StepN(s, 1) == Step(s);
  }

  /** The addresses around the stack pointer are different ones. */
  lemma Apart(sp: word)
    ensures Wrap(sp) == sp && Wrap(sp - 1) != sp && Wrap(sp - 2) != sp && Wrap(sp - 1) != Wrap(sp - 2)
    ensures Wrap(sp - 3) != Wrap(sp - 1) && Wrap(sp - 3) != Wrap(sp - 2)
    ensures Wrap(Wrap(sp - 2) + 1) == Wrap(sp - 1) && Wrap(Wrap(sp - 2) - 1) == Wrap(sp - 3)
    ensures Wrap(Wrap(sp - 2) + 2) == sp
    ensures Wrap(Wrap(sp - 2)) == Wrap(sp - 2)
  {
  }

  /**
   * PUSH B stores C at the stack pointer, not two below it: a POP B behind it restores B, and C exactly when the
   * byte two below was C already; and the byte at the stack pointer is lost.
   */
  lemma PushBPopB(s: State)
    requires Opcode(s) == 0xC5 && Opcode(Step(s)) == 0xC1
    ensures var t := StepN(s, 2);
      && t.sp == s.sp && t.b == s.b && Read(t.mem, s.sp) == s.c
      && (t.c == s.c <==> Read(s.mem, s.sp - 2) == s.c)
  {
    hide Row0, Row1, Row2, Row3, MovGroup, ArithGroup, LogicGroup, RowD, RowE, RowF, Wrap;
    TwoSteps(s);
    Apart(s.sp);
  }

  lemma PushDStep(s: State)
    requires Opcode(s) == 0xD5
    ensures Step(s) == Skip(Push(s, s.d, s.e), 1)
  {
    hide Row0, Row1, Row2, Row3, MovGroup, ArithGroup, LogicGroup, RowC, RowE, RowF, Push, Wrap;
  }

  lemma PopDStep(s: State)
    requires Opcode(s) == 0xD1
    ensures Step(s)
         == Skip(s.(e := Read(s.mem, s.sp), d := Read(s.mem, s.sp - 1), sp := Wrap(s.sp + 2)), 1)
  {
    hide Row0, Row1, Row2, Row3, MovGroup, ArithGroup, LogicGroup, RowC, RowE, RowF, Read, Wrap;
  }

  /**
   * POP D reads D from below the stack pointer: behind a PUSH D it restores E, and D exactly when the byte three
   * below held D already.
   */
  lemma PushDPopD(s: State)
    requires Opcode(s) == 0xD5 && Opcode(Step(s)) == 0xD1
    ensures var t := StepN(s, 2);
      && t.sp == s.sp && t.e == s.e
      && (t.d == s.d <==> Read(s.mem, s.sp - 3) == s.d)
  {
    hide Step, Wrap;
    TwoSteps(s);
    PushDStep(s);
    PopDStep(Step(s));
    Apart(s.sp);
  }

  lemma PackedBits(cc: Flags)
    ensures var u := UnpackFlags(PackFlags(cc));
      u.z == cc.z && u.s == cc.s && u.p == cc.p && u.ac == cc.ac && u.cy == (cc.z && cc.p)
  {
    hide And;
    var x := PackFlags(cc);
    LowThree(x);
  }

  /** Masking with 5 tells the bits 0 and 2. */
  lemma LowThree(x: byte)
    ensures And(x, 5) == 5 <==> x % 2 == 1 && x / 4 % 2 == 1
  {
    assert And(x, 5) == 2 * And(x / 2, 2) + x % 2;
    assert And(x / 2, 2) == 2 * And(x / 4, 1);
    assert And(x / 4, 1) == x / 4 % 2;
  }

  lemma PushPswStep(s: State)
    requires Opcode(s) == 0xF5
    ensures Step(s) == Skip(Push(s, s.a, PackFlags(s.cc)), 1)
  {
    hide Row0, Row1, Row2, Row3, MovGroup, ArithGroup, LogicGroup, RowC, RowD, RowE, Push, PackFlags, Wrap;
  }

  lemma PopPswStep(s: State)
    requires Opcode(s) == 0xF1
    ensures Step(s) == Skip(Skip(s.(a := Read(s.mem, s.sp + 1), cc := UnpackFlags(Read(s.mem, s.sp))), 2), 1)
  {
    hide Row0, Row1, Row2, Row3, MovGroup, ArithGroup, LogicGroup, RowC, RowD, RowE, UnpackFlags, Read, Wrap;
  }

  /**
   * POP PSW moves the program counter instead of the stack pointer, and tests the carry with two bits: behind a
   * PUSH PSW it restores the accumulator, and the flags exactly when the carry is set just if zero and parity both
   * are; the stack pointer stays two below.
   */
  lemma PushPswPopPsw(s: State)
    requires Opcode(s) == 0xF5 && Opcode(Step(s)) == 0xF1
    ensures var t := StepN(s, 2);
      && t.a == s.a && t.sp == Wrap(s.sp - 2) && t.pc == Wrap(s.pc + 4)
      && (t.cc == s.cc <==> (s.cc.cy <==> s.cc.z && s.cc.p))
  {
    hide Step, PackFlags, UnpackFlags, Wrap;
    TwoSteps(s);
    PushPswStep(s);
    PopPswStep(Step(s));
    Apart(s.sp);
    PackedBits(s.cc);
    SkipFour(s.pc);
  }

  lemma SkipFour(pc: word)
    ensures Wrap(Wrap(Wrap(pc + 1) + 2) + 1) == Wrap(pc + 4)
  {
  }
}
