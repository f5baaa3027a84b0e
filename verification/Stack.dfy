/** The stack discipline of whole runs: what calls, returns, pushes and pops nested to any depth leave alone. */
module Stack {
  import opened Bits
  import opened CpuSpec

  /** PUSH D, PUSH H and PUSH PSW, the pushes that store below the stack pointer. */
  predicate IsPush(op: byte) { op == 0xD5 || op == 0xE5 || op == 0xF5 }

  /** A call that is taken: CALL, CNZ on z clear, CZ on z set, and JZ, which calls, on z set. */
  predicate IsCall(s: State) {
    var op := Opcode(s);
    op == 0xCD || (op == 0xC4 && !s.cc.z) || ((op == 0xCC || op == 0xCA) && s.cc.z)
  }

  predicate IsReturn(s: State) {
    Opcode(s) == 0xC9 || (Opcode(s) == 0xC8 && s.cc.z)
  }

  /** The opcodes that may move the stack pointer. */
  predicate MovesStack(op: byte) {
    op in {0x31, 0x33, 0x3B, 0xC1, 0xC4, 0xC5, 0xC8, 0xC9, 0xCA, 0xCC, 0xCD, 0xCF, 0xD1, 0xD5, 0xE5, 0xF5, 0xF9}
  }

  /** Where an opcode that leaves the stack pointer alone stores, if it stores. */
  function Stores(s: State, op: byte): set<word> {
    if op == 0x02 then {Pair(s.b, s.c)}
    else if op == 0x32 then {Arg(s, 1) as word}
    else if op == 0x36 || (0x70 <= op < 0x78 && op != 0x76) then {Pair(s.h, s.l)}
    else if op == 0xE3 then {Read(s.mem, s.sp) as word, Read(s.mem, s.sp + 1) as word}
    else {}
  }

  /** Memory is the same at every address from `from` upwards. */
  ghost predicate SameFrom(m: Memory, m': Memory, from: word) {
    forall i {:trigger m'[i]} :: from <= i < 0x1_0000 ==> m'[i] == m[i]
  }

  ghost predicate Framed(s: State, op: byte, f: Effect) {
    f.Go? ==> f.s.sp == s.sp && forall i: word {:trigger f.s.mem[i]} :: i !in Stores(s, op) ==> f.s.mem[i] == s.mem[i]
  }

  /** An opcode that cannot move the stack pointer here: outside MovesStack, or its call or return untaken. */
  predicate KeepsStack(s: State) {
    var op := Opcode(s);
    !MovesStack(op) || (op in {0xC4, 0xC8, 0xCA, 0xCC} && !IsCall(s) && !IsReturn(s))
  }

  lemma CountFrame(s: State, r: int, ans: word)
    requires r != 6
    ensures var f := Count(s, r, ans); f.Go? && f.s.sp == s.sp && f.s.mem == s.mem
  {
    hide ArithFlags;
  }

  lemma FrameRow01(s: State, op: byte)
    ensures op < 0x10 ==> Framed(s, op, Row0(s, op))
    ensures 0x10 <= op < 0x20 ==> Framed(s, op, Row1(s, op))
  {
    hide ArithFlags, Or, And, Lo, Hi, Count;
    CountFrame(s, 0, (s.b - 1) % 0x100);
    CountFrame(s, 1, s.c + 1);
    CountFrame(s, 1, Wrap(s.c - 1));
    CountFrame(s, 3, (s.e - 1) % 0x100);
  }

  lemma FrameRow2(s: State, op: byte)
    ensures Framed(s, op, Row2(s, op))
  {
    hide ArithFlags, Count, Lo, Hi, Wrap;
    CountFrame(s, 4, Wrap(s.h - 1));
    CountFrame(s, 5, s.l + 1);
    CountFrame(s, 5, Wrap(s.l - 1));
  }

  lemma FrameRow3(s: State, op: byte)
    requires op !in {0x31, 0x33, 0x3B}
    ensures Framed(s, op, Row3(s, op))
  {
    hide ArithFlags, Count, Lo, Hi;
    CountFrame(s, 7, s.a + 1);
    CountFrame(s, 7, Wrap(s.a - 1));
  }

  lemma SetOperandFrame(s: State, r: int, v: byte)
    ensures SetOperand(s, r, v).sp == s.sp
    ensures forall i: word :: i != Pair(s.h, s.l) || r != 6 ==> SetOperand(s, r, v).mem[i] == s.mem[i]
  {
  }

  lemma FrameMov(s: State, op: byte)
    requires 0x40 <= op < 0x80
    ensures Framed(s, op, MovGroup(s, op))
  {
    hide Operand, SetOperand;
    SetOperandFrame(s, op / 8 % 8, if op == 0x42 then s.c else Operand(s, op % 8));
  }

  lemma FrameAlu(s: State, op: byte)
    requires 0x80 <= op < 0xC0
    ensures Framed(s, op, ArithGroup(s, op)) && Framed(s, op, LogicGroup(s, op))
  {
    hide ArithFlags, LogicFlags, Operand;
  }

  lemma FrameControl(s: State)
    requires KeepsStack(s) && Opcode(s) >= 0xC0
    ensures Framed(s, Opcode(s), Execute(s, Opcode(s)))
  {
    hide Execute, ArithFlags, LogicFlags;
    Dispatch(s, Opcode(s));
  }

  /** Every opcode that keeps the stack pointer stores only where Stores says. */
  lemma StepFrame(s: State)
    requires KeepsStack(s)
    ensures Step(s).sp == s.sp
    ensures forall i: word {:trigger Step(s).mem[i]} :: i !in Stores(s, Opcode(s)) ==> Step(s).mem[i] == s.mem[i]
  {
    hide Execute, Row0, Row1, Row2, Row3, MovGroup, ArithGroup, LogicGroup, Stores;
    var op := Opcode(s);
    Dispatch(s, op);
    if op < 0x20 {
      FrameRow01(s, op);
    } else if op < 0x30 {
      FrameRow2(s, op);
    } else if op < 0x40 {
      FrameRow3(s, op);
    } else if op < 0x80 {
      FrameMov(s, op);
    } else if op < 0xC0 {
      FrameAlu(s, op);
    } else {
      FrameControl(s);
    }
  }

  // ---- balanced runs ----

  /** The shape of a run that takes off the stack exactly what it puts there. */
  datatype Run =
    | Empty
    | Plain(rest: Run)
    | Subroutine(body: Run, rest: Run)
    | Saved(body: Run, rest: Run)

  /** How far below its start the stack pointer goes. */
  function Depth(r: Run): nat {
    match r
    case Empty => 0
    case Plain(rest) => Depth(rest)
    case Subroutine(body, rest) => Max(2 + Depth(body), Depth(rest))
    case Saved(body, rest) => Max(2 + Depth(body), Depth(rest))
  }

  function Max(x: nat, y: nat): nat { if x < y then y else x }

  function Length(r: Run): nat {
    match r
    case Empty => 0
    case Plain(rest) => 1 + Length(rest)
    case Subroutine(body, rest) => 2 + Length(body) + Length(rest)
    case Saved(body, rest) => 2 + Length(body) + Length(rest)
  }

  /**
   * The machine, started at s, goes through a run of this shape: between a call or push and the matching
   * return or pop comes a balanced body, and every other instruction stores below the stack pointer, if at all.
   */
  ghost predicate Follows(s: State, r: Run)
    decreases r
  {
    match r
    case Empty => true
    case Plain(rest) =>
      && KeepsStack(s)
      && (forall i | i in Stores(s, Opcode(s)) :: i < s.sp)
      && Follows(Step(s), rest)
    case Subroutine(body, rest) =>
      && IsCall(s)
      && Follows(Step(s), body)
      && IsReturn(StepN(Step(s), Length(body)))
      && Follows(Step(StepN(Step(s), Length(body))), rest)
    case Saved(body, rest) =>
      && IsPush(Opcode(s))
      && Follows(Step(s), body)
      && Opcode(StepN(Step(s), Length(body))) == 0xC1
      && Follows(Step(StepN(Step(s), Length(body))), rest)
  }

  /** Which of the machine's primitives each bracketing opcode is. */
  lemma Brackets(s: State)
    ensures IsCall(s) ==> Step(s) == Skip(Call(s), 1)
    ensures IsReturn(s) ==> Step(s) == Skip(Return(s), 1)
    ensures Opcode(s) == 0xC1 ==> Step(s).sp == Wrap(s.sp + 2) && Step(s).mem == s.mem
  {
    hide Execute, ArithFlags, LogicFlags, Call, Skip, Return, JumpTo, Push;
    Dispatch(s, Opcode(s));
    SkipFrame(s, 1);
    SkipFrame(s.(c := Read(s.mem, s.sp), b := Read(s.mem, s.sp + 1), sp := Wrap(s.sp + 2)), 1);
  }

  lemma PushIs(s: State)
    requires IsPush(Opcode(s))
    ensures exists hi, lo :: Step(s) == Skip(Push(s, hi, lo), 1)
  {
    hide Execute, ArithFlags, LogicFlags, Skip, JumpTo, JumpSwapped, Push, PackFlags, UnpackFlags;
    Dispatch(s, Opcode(s));
  }

  lemma SkipFrame(s: State, n: int)
    ensures Skip(s, n) == s.(pc := Wrap(s.pc + n))
  {
  }

  lemma PairOfBytes(w: word)
    ensures Pair(Hi(w), Lo(w)) == w
  {
  }

  lemma PushFrame(s: State, hi: byte, lo: byte)
    requires s.sp >= 2
    ensures Push(s, hi, lo).sp == s.sp - 2
    ensures ReadWord(Push(s, hi, lo).mem, s.sp - 2) == Pair(hi, lo)
    ensures SameFrom(s.mem, Push(s, hi, lo).mem, s.sp)
  {
  }

  /** An instruction that keeps the stack pointer and stores below it leaves the stack alone. */
  lemma PlainEffect(s: State)
    requires KeepsStack(s) && forall i | i in Stores(s, Opcode(s)) :: i < s.sp
    ensures Step(s).sp == s.sp && SameFrom(s.mem, Step(s).mem, s.sp)
  {
    hide Step, KeepsStack, Stores;
    StepFrame(s);
    forall i: word | s.sp <= i
      ensures Step(s).mem[i] == s.mem[i]
    {
      assert i !in Stores(s, Opcode(s));
    }
  }

  lemma NoSteps(s: State)
    ensures StepN(s, 0) == s && SameFrom(s.mem, s.mem, s.sp)
  {
  }

  lemma SameFromTrans(m0: Memory, m1: Memory, m2: Memory, from: word, from': word)
    requires SameFrom(m0, m1, from) && SameFrom(m1, m2, from') && from' <= from
    ensures SameFrom(m0, m2, from)
  {
  }

  lemma CallIs(s: State)
    ensures var s1 := Push(s, Hi(Wrap(s.pc + 2)), Lo(Wrap(s.pc + 2)));
      Call(s) == s1.(pc := ReadWord(s1.mem, s.pc + 1))
  {
    hide Push, ReadWord, Wrap, Hi, Lo;
  }

  /** A taken call leaves its own address plus 2 on the stack, and goes to its target plus 1. */
  lemma CallEffect(s: State)
    requires IsCall(s) && s.sp >= 2
    ensures Step(s).sp == s.sp - 2
    ensures ReadWord(Step(s).mem, s.sp - 2) == Wrap(s.pc + 2)
    ensures SameFrom(s.mem, Step(s).mem, s.sp)
    ensures Step(s).pc == Wrap(ReadWord(Step(s).mem, s.pc + 1) + 1)
  {
    hide Step, Push, Call, IsCall, ReadWord, Wrap, Hi, Lo;
    Brackets(s);
    CallIs(s);
    var ret := Wrap(s.pc + 2);
    PairOfBytes(ret);
    PushFrame(s, Hi(ret), Lo(ret));
  }

  lemma PushEffect(s: State)
    requires IsPush(Opcode(s)) && s.sp >= 2
    ensures Step(s).sp == s.sp - 2
    ensures SameFrom(s.mem, Step(s).mem, s.sp)
  {
    hide Step, Push;
    PushIs(s);
    var hi, lo :| Step(s) == Skip(Push(s, hi, lo), 1);
    PushFrame(s, hi, lo);
  }

  lemma CloseEffect(s: State)
    requires IsReturn(s) || Opcode(s) == 0xC1
    ensures Step(s).sp == Wrap(s.sp + 2)
    ensures Step(s).mem == s.mem
    ensures IsReturn(s) ==> Step(s).pc == Wrap(ReadWord(s.mem, s.sp) + 1)
  {
    hide Step;
    Brackets(s);
  }

  lemma {:induction false} StepNAdd(s: State, m: nat, n: nat)
    ensures StepN(StepN(s, m), n) == StepN(s, m + n)
  {
    hide Step;
    if n != 0 {
      StepNAdd(s, m, n - 1);
    }
  }

  lemma {:induction false} StepNFirst(s: State, n: nat)
    ensures StepN(Step(s), n) == StepN(s, n + 1)
  {
    hide Step;
    StepNAdd(s, 1, n);
    assert StepN(s, 1) == Step(StepN(s, 0));
  }

  lemma AfterBracket(s: State, body: Run)
    ensures StepN(s, 2 + Length(body)) == Step(StepN(Step(s), Length(body)))
  {
    hide Step;
    StepNFirst(s, Length(body));
  }

  /**
   * Any balanced run whose depth fits below the stack pointer restores the stack pointer and keeps every
   * byte at or above it.
   */
  lemma {:induction false} Balanced(s: State, r: Run)
    requires Follows(s, r) && Depth(r) <= s.sp
    ensures StepN(s, Length(r)).sp == s.sp
    ensures SameFrom(s.mem, StepN(s, Length(r)).mem, s.sp)
    decreases Length(r)
  {
    hide Step, StepN, Opcode, KeepsStack, IsCall, IsReturn, IsPush, Stores, SameFrom, ReadWord, Wrap;
    match r
    case Empty =>
      NoSteps(s);
    case Plain(rest) =>
      PlainEffect(s);
      Balanced(Step(s), rest);
      SameFromTrans(s.mem, Step(s).mem, StepN(Step(s), Length(rest)).mem, s.sp, s.sp);
      StepNFirst(s, Length(rest));
    case Subroutine(body, rest) =>
      CallEffect(s);
      BracketClosed(s, body, rest);
    case Saved(body, rest) =>
      PushEffect(s);
      BracketClosed(s, body, rest);
  }

  /** One bracket, opened by a step that lowers sp by two and closed by one that raises it, around a body. */
  lemma {:induction false} BracketClosed(s: State, body: Run, rest: Run)
    requires s.sp >= 2 + Depth(body) && Depth(rest) <= s.sp
    requires Step(s).sp == s.sp - 2 && SameFrom(s.mem, Step(s).mem, s.sp)
    requires Follows(Step(s), body)
    requires var t := StepN(Step(s), Length(body));
             (IsReturn(t) || Opcode(t) == 0xC1) && Follows(Step(t), rest)
    ensures StepN(s, 2 + Length(body) + Length(rest)).sp == s.sp
    ensures SameFrom(s.mem, StepN(s, 2 + Length(body) + Length(rest)).mem, s.sp)
    decreases 1 + Length(body) + Length(rest)
  {
    hide Step, StepN, Opcode, IsReturn, SameFrom, Wrap;
    var t := StepN(Step(s), Length(body));
    Balanced(Step(s), body);
    CloseEffect(t);
    WrapWord(t.sp + 2);
    assert Step(t).sp == s.sp && Step(t).mem == t.mem;
    Balanced(Step(t), rest);
    SameFromTrans(s.mem, Step(s).mem, t.mem, s.sp, s.sp - 2);
    SameFromTrans(s.mem, t.mem, StepN(Step(t), Length(rest)).mem, s.sp, s.sp);
    AfterBracket(s, body);
    StepNAdd(s, 2 + Length(body), Length(rest));
  }

  /** In front of a subroutine's return the call's return address is on top of the stack. */
  lemma BodyKeeps(s: State, body: Run)
    requires Follows(s, Subroutine(body, Empty)) && 2 + Depth(body) <= s.sp
    ensures var t := StepN(Step(s), Length(body));
      t.sp == s.sp - 2 && IsReturn(t) && ReadWord(t.mem, t.sp) == Wrap(s.pc + 2)
  {
    hide Step, StepN, Opcode, IsCall, IsReturn, ReadWord, SameFrom, Wrap;
    CallEffect(s);
    Balanced(Step(s), body);
    SameWord(Step(s).mem, StepN(Step(s), Length(body)).mem, s.sp - 2);
  }

  lemma WholeBracket(s: State, body: Run)
    requires Follows(s, Subroutine(body, Empty)) && 2 + Depth(body) <= s.sp
    ensures StepN(s, 2 + Length(body)).sp == s.sp && SameFrom(s.mem, StepN(s, 2 + Length(body)).mem, s.sp)
  {
    hide Step, StepN, Opcode, IsCall, IsReturn, ReadWord, SameFrom, Wrap, Follows, Length, Depth;
    OneBracket(body);
    Balanced(s, Subroutine(body, Empty));
  }

  lemma OneBracket(body: Run)
    ensures Length(Subroutine(body, Empty)) == 2 + Length(body)
    ensures Depth(Subroutine(body, Empty)) <= 2 + Depth(body)
  {
  }

  /** Each return resumes just after its own call: at the call's address plus 3, whatever the body did. */
  lemma ReturnsToCaller(s: State, body: Run)
    requires Follows(s, Subroutine(body, Empty)) && 2 + Depth(body) <= s.sp
    ensures var t := StepN(s, 2 + Length(body));
      t.pc == Wrap(s.pc + 3) && t.sp == s.sp && SameFrom(s.mem, t.mem, s.sp)
  {
    hide *;
    BodyKeeps(s, body);
    CloseEffect(StepN(Step(s), Length(body)));
    WrapTwice(s.pc);
    AfterBracket(s, body);
    WholeBracket(s, body);
  }

  lemma WrapWord(x: word)
    ensures Wrap(x) == x
  {
  }

  lemma WrapTwice(pc: word)
    ensures Wrap(Wrap(pc + 2) + 1) == Wrap(pc + 3)
  {
  }

  lemma SameWord(m: Memory, m': Memory, at: word)
    requires SameFrom(m, m', at) && at <= 0xFFFE
    ensures ReadWord(m', at) == ReadWord(m, at)
  {
  }

  /** What each bracket of a run promises its own caller, collected over the whole nest. */
  ghost predicate EveryReturnMatches(s: State, r: Run)
    decreases r
  {
    match r
    case Empty => true
    case Plain(rest) => EveryReturnMatches(Step(s), rest)
    case Subroutine(body, rest) =>
      var t := StepN(s, 2 + Length(body));
      && t.pc == Wrap(s.pc + 3)
      && EveryReturnMatches(Step(s), body)
      && EveryReturnMatches(t, rest)
    case Saved(body, rest) =>
      && EveryReturnMatches(Step(s), body)
      && EveryReturnMatches(StepN(s, 2 + Length(body)), rest)
  }

  /** In any balanced run, at every level of nesting, each return resumes at its call site plus 3. */
  lemma {:induction false} ReturnsMatchCalls(s: State, r: Run)
    requires Follows(s, r) && Depth(r) <= s.sp
    ensures EveryReturnMatches(s, r)
    decreases r
  {
    hide Step, StepN, Opcode, KeepsStack, IsCall, IsReturn, IsPush, Stores, SameFrom, ReadWord, Wrap;
    match r
    case Empty =>
    case Plain(rest) =>
      PlainEffect(s);
      ReturnsMatchCalls(Step(s), rest);
    case Subroutine(body, rest) =>
      CallEffect(s);
      ReturnsToCaller(s, body);
      ReturnsMatchCalls(Step(s), body);
      AfterBracket(s, body);
      ReturnsMatchCalls(StepN(s, 2 + Length(body)), rest);
    case Saved(body, rest) =>
      PushEffect(s);
      ReturnsMatchCalls(Step(s), body);
      AfterBracket(s, body);
      Balanced(s, Saved(body, Empty)) by {
        assert Follows(Step(StepN(Step(s), Length(body))), Empty);
      }
      ReturnsMatchCalls(StepN(s, 2 + Length(body)), rest);
  }
}
