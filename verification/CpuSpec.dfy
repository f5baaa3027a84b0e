/**
 * The state of the emulated 8080 and `cpu_exec` as a function on it, every opcode as the emulator
 * handles it. Addresses wrap at 64K.
 */
module CpuSpec {
  import opened Bits
  import opened Parity

  type Memory = m: seq<byte> | |m| == 0x1_0000 witness seq(0x1_0000, _ => 0)

  /** The condition codes; `p` is one bit whose sense depends on who set it, see Parity. */
  datatype Flags = Flags(z: bool, s: bool, p: bool, cy: bool, ac: bool)

  datatype State = State(
    a: byte, b: byte, c: byte, d: byte, e: byte, h: byte, l: byte,
    sp: word, pc: word, mem: Memory, cc: Flags, intEnable: bool)

  /** What one opcode does before the final increment of the program counter. */
  datatype Effect = Go(s: State, time: nat) | Halt | Unimplemented

  function Pair(hi: byte, lo: byte): word { 0x100 * hi + lo }

  function Wrap(x: int): word { x % 0x1_0000 }

  function Read(m: Memory, addr: int): byte { m[Wrap(addr)] }

  function Write(m: Memory, addr: int, v: byte): Memory { m[Wrap(addr) := v] }

  function ReadWord(m: Memory, addr: int): word { Pair(Read(m, addr + 1), Read(m, addr)) }

  function Bit(b: bool): nat { if b then 1 else 0 }

  function ArithFlags(cc: Flags, ans: word): Flags {
    cc.(z := Lo(ans) == 0, s := ans / 0x80 % 2 == 1, cy := ans > 0xFF, p := ArithParity(Lo(ans)))
  }

  function LogicFlags(cc: Flags, a: byte): Flags {
    cc.(cy := false, ac := false, s := a >= 0x80, p := LogicParity(a))
  }

  /** The operand numbered by three opcode bits; 6 is the memory cell HL points at. */
  function Operand(s: State, r: int): byte {
    match r
    case 0 => s.b
    case 1 => s.c
    case 2 => s.d
    case 3 => s.e
    case 4 => s.h
    case 5 => s.l
    case 6 => Read(s.mem, Pair(s.h, s.l))
    case _ => s.a
  }

  function SetOperand(s: State, r: int, v: byte): State {
    match r
    case 0 => s.(b := v)
    case 1 => s.(c := v)
    case 2 => s.(d := v)
    case 3 => s.(e := v)
    case 4 => s.(h := v)
    case 5 => s.(l := v)
    case 6 => s.(mem := Write(s.mem, Pair(s.h, s.l), v))
    case _ => s.(a := v)
  }

  /** The n-th byte after the opcode. */
  function Arg(s: State, n: nat): byte { Read(s.mem, s.pc + n) }

  function Skip(s: State, n: int): State { s.(pc := Wrap(s.pc + n)) }

  function SetBC(s: State, v: int): State { s.(b := Hi(v), c := Lo(v)) }
  function SetDE(s: State, v: int): State { s.(d := Hi(v), e := Lo(v)) }
  function SetHL(s: State, v: int): State { s.(h := Hi(v), l := Lo(v)) }

  /** INR, and DCR where the result is kept in 16 bits, so that a borrow reaches the carry test. */
  function Count(s: State, r: int, ans: word): Effect {
    Go(SetOperand(s, r, Lo(ans)).(cc := ArithFlags(s.cc, ans)), 5)
  }

  /** DAD: 16-bit addition into HL, with the carry out in `cy`. */
  function Dad(s: State, rp: word): Effect {
    var res := Pair(s.h, s.l) + rp;
    Go(SetHL(s, res).(cc := s.cc.(cy := res > 0xFFFF)), 10)
  }

  /** The byte-wise INX of DE and HL: the high byte moves when the low byte wraps to zero. */
  function IncLo(lo: byte): byte { (lo + 1) % 0x100 }
  function IncHi(hi: byte, lo: byte): byte { if IncLo(lo) == 0 then (hi + 1) % 0x100 else hi }

  function Row0(s: State, op: byte): Effect {
    match op
    case 0x00 => Go(s, 4)
    case 0x01 => Go(s.(b := Arg(s, 3), c := Arg(s, 2)), 10)
    case 0x02 => Go(s.(mem := Write(s.mem, Pair(s.b, s.c), s.a)), 7)
    case 0x03 => Go(SetBC(s, Pair(s.b, s.c) + 1), 5)
    case 0x05 => Count(s, 0, (s.b - 1) % 0x100)
    case 0x06 => Go(Skip(s.(b := Arg(s, 1)), 1), 7)
    case 0x07 => Go(s.(a := Lo(Or(2 * s.a, And(s.a, 0x80))), cc := s.cc.(cy := s.a / 0x80 != 0)), 4)
    case 0x08 => Go(s, 0)
    case 0x09 => Dad(s, Pair(s.b, s.c))
    case 0x0A => Go(s.(a := Read(s.mem, Pair(s.b, s.c))), 7)
    case 0x0C => Count(s, 1, s.c + 1)
    case 0x0D => Count(s, 1, Wrap(s.c - 1))
    case 0x0E => Go(Skip(s.(c := Arg(s, 1)), 1), 7)
    case 0x0F => Go(s.(a := Lo(Or(s.a / 2, And(s.a, 1))), cc := s.cc.(cy := And(s.a, 1) != 0)), 4)
    case _ => Unimplemented
  }

  function Row1(s: State, op: byte): Effect {
    match op
    case 0x10 => Go(s, 4)
    case 0x11 => Go(Skip(s.(d := Arg(s, 2), e := Arg(s, 1)), 2), 10)
    case 0x13 => Go(s.(e := IncLo(s.e), d := IncHi(s.d, s.e)), 5)
    case 0x19 => Dad(s, Pair(s.d, s.e))
    case 0x1A => Go(s.(a := Read(s.mem, Pair(s.d, s.e))), 7)
    case 0x1B =>
      var de := Pair(s.d, s.e);
      Go(SetDE(s, Wrap(de - 1)).(cc := s.cc.(cy := de == 0)), 5)
    case 0x1D => Count(s, 3, (s.e - 1) % 0x100)
    case _ => Unimplemented
  }

  function Row2(s: State, op: byte): Effect {
    var hl := Pair(s.h, s.l);
    match op
    case 0x20 => Go(s, 4)
    case 0x21 => Go(Skip(s.(l := Arg(s, 1), h := Arg(s, 2)), 2), 10)
    case 0x23 => Go(s.(l := IncLo(s.l), h := IncHi(s.h, s.l)), 5)
    case 0x24 => Go(SetHL(s, hl + 1).(cc := ArithFlags(s.cc, Wrap(hl + 1))), 5)
    case 0x25 => Count(s, 4, Wrap(s.h - 1))
    case 0x26 => Go(Skip(s.(h := Arg(s, 1)), 1), 7)
    case 0x28 => Go(s, 4)
    case 0x29 => Dad(s, hl)
    case 0x2A => Go(Skip(s.(l := Read(s.mem, Arg(s, 1)), h := Read(s.mem, Arg(s, 1) + 1)), 1), 16)
    case 0x2B => Go(SetHL(s, hl + 1), 5)
    case 0x2C => Count(s, 5, s.l + 1)
    case 0x2D => Count(s, 5, Wrap(s.l - 1))
    case 0x2E => Go(Skip(s.(l := Arg(s, 1)), 1), 7)
    case 0x2F => Go(s.(a := 0xFF - s.a), 4)
    case _ => Unimplemented
  }

  function Row3(s: State, op: byte): Effect {
    var hl := Pair(s.h, s.l);
    match op
    case 0x30 => Go(s, 4)
    case 0x31 => Go(Skip(s.(sp := Pair(Arg(s, 3), Arg(s, 2))), 3), 10)
    case 0x32 => Go(Skip(s.(mem := Write(s.mem, Arg(s, 1), s.a)), 1), 13)
    case 0x33 => Go(s.(sp := Wrap(s.sp + 1)), 5)
    case 0x34 => Go(s.(cc := ArithFlags(s.cc, Wrap(hl + 1)), h := Hi(hl + 1), l := 0xFF), 10)
    case 0x35 => Go(s.(cc := ArithFlags(s.cc, Wrap(hl - 1)), h := Hi(hl - 1), l := 0xFF), 10)
    case 0x36 => Go(Skip(s.(mem := Write(s.mem, hl, Arg(s, 1))), 1), 10)
    case 0x38 => Go(s, 4)
    case 0x3A => Go(Skip(s.(a := Read(s.mem, ReadWord(s.mem, s.pc + 1))), 2), 13)
    case 0x3B => Go(s.(sp := Wrap(s.sp - 1)), 5)
    case 0x3C => Count(s, 7, s.a + 1)
    case 0x3D => Count(s, 7, Wrap(s.a - 1))
    case 0x3E => Go(Skip(s.(a := Arg(s, 1)), 1), 7)
    case _ => Unimplemented
  }

  /** The MOV group; 0x42, MOV B,D, copies C, and 0x76 halts. */
  function MovGroup(s: State, op: byte): Effect {
    var dst, src := op / 8 % 8, op % 8;
    var time := if (src == 6 && dst < 5) || 0x67 <= op <= 0x6D then 10 else 7;
    if op == 0x76 then Halt
    else Go(SetOperand(s, dst, if op == 0x42 then s.c else Operand(s, src)), time)
  }

  /** Addition, subtraction and their carry forms; the memory forms 0x8E, 0x96 and 0x9E use HL itself. */
  function ArithGroup(s: State, op: byte): Effect {
    var g, r := op / 8 % 8, op % 8;
    var v, hl := Operand(s, r), Pair(s.h, s.l);
    if g == 0 then
      Go(s.(a := Lo(s.a + v), cc := ArithFlags(s.cc, s.a + v)), if r == 6 then 7 else 4)
    else if op == 0x89 then Unimplemented
    else if op == 0x8E || op == 0x96 then
      var ans := s.a + hl;
      var cy := ans > 0xFFFF;
      Go(s.(a := (ans + Bit(cy)) / 0x100_0000 % 0x100,
            cc := s.cc.(z := ans == 0, s := false, p := LogicParity(s.a), cy := cy)), 7)
    else if g == 1 then
      var cc := ArithFlags(s.cc, s.a + v);
      Go(s.(a := Lo(s.a + v + Bit(cc.cy)), cc := cc), 4)
    else if op == 0x9E then
      var ans := (s.a - hl) % 0x1_0000_0000;
      var cy := ans > 0xFFFF;
      Go(s.(a := (ans + Bit(cy)) % 0x1_0000_0000 / 0x100_0000 % 0x100,
            cc := s.cc.(s := ans >= 0x8000_0000, p := LogicParity(s.a), cy := cy)), 4)
    else
      var ans := Wrap(s.a - v);
      var cc := ArithFlags(s.cc, ans);
      var borrow := if 0x98 <= op <= 0x9B then Bit(cc.cy) else 0;
      Go(s.(a := Lo(ans + borrow), cc := cc), 4)
  }

  /**
   * AND, exclusive or, or, and "compare", which complements. The memory forms use HL itself, 0xAE, 0xB6
   * and 0xBE set the flags from the old accumulator, and 0xB7, ORA A, is an exclusive or.
   */
  function LogicGroup(s: State, op: byte): Effect {
    var g, r := op / 8 % 8, op % 8;
    var v, hl := Operand(s, r), Pair(s.h, s.l);
    if op == 0xAE || op == 0xB6 then
      Go(s.(a := Hi(Xor(s.a, hl)), cc := LogicFlags(s.cc, s.a)), 7)
    else if op == 0xBE then
      Go(s.(a := Hi(0xFFFF - hl), cc := LogicFlags(s.cc, s.a)), 7)
    else
      var a := if op == 0xA6 then Hi(And(s.a, hl))
               else if g == 4 then Lo(And(s.a, v))
               else if g == 5 || op == 0xB7 then Lo(Xor(s.a, v))
               else if g == 6 then Lo(Or(s.a, v))
               else 0xFF - v;
      Go(s.(a := a, cc := LogicFlags(s.cc, a)), 4)
  }

  /** Two stores below the stack pointer, high byte first. */
  function Push(s: State, hi: byte, lo: byte): State {
    s.(mem := Write(Write(s.mem, s.sp - 1, hi), s.sp - 2, lo), sp := Wrap(s.sp - 2))
  }

  /** Call: the return address is the last operand byte; the target is read after the two stores. */
  function Call(s: State): State {
    var ret := Wrap(s.pc + 2);
    var s1 := Push(s, Hi(ret), Lo(ret));
    s1.(pc := ReadWord(s1.mem, s.pc + 1))
  }

  function Return(s: State): State {
    s.(pc := ReadWord(s.mem, s.sp), sp := Wrap(s.sp + 2))
  }

  function JumpTo(s: State): State { s.(pc := ReadWord(s.mem, s.pc + 1)) }

  /** JP and CP read their operand high byte first. */
  function JumpSwapped(s: State): State { s.(pc := Pair(Arg(s, 1), Arg(s, 2))) }

  function PackFlags(cc: Flags): byte {
    Bit(cc.z) + 2 * Bit(cc.s) + 4 * Bit(cc.p) + 8 * Bit(cc.cy) + 0x10 * Bit(cc.ac)
  }

  function UnpackFlags(psw: byte): Flags {
    Flags(psw % 2 == 1, psw / 2 % 2 == 1, psw / 4 % 2 == 1, And(psw, 5) == 5, psw / 0x10 % 2 == 1)
  }

  function RowC(s: State, op: byte): Effect {
    match op
    case 0xC1 => Go(s.(c := Read(s.mem, s.sp), b := Read(s.mem, s.sp + 1), sp := Wrap(s.sp + 2)), 10)
    case 0xC2 => Go(if !s.cc.z then JumpTo(s) else Skip(s, 2), 10)
    case 0xC3 => Go(JumpTo(s), 10)
    case 0xC4 => if !s.cc.z then Go(Call(s), 17) else Go(Skip(s, 2), 11)
    case 0xC5 =>
      Go(s.(mem := Write(Write(s.mem, s.sp - 1, s.b), s.sp, s.c), sp := Wrap(s.sp - 2)), 11)
    case 0xC6 =>
      var ans := s.a + Arg(s, 1);
      Go(Skip(s.(cc := ArithFlags(s.cc, ans), a := Hi(ans)), 1), 4)
    case 0xC7 => Go(s.(pc := 0), 0)
    case 0xC8 => if s.cc.z then Go(Return(s), 11) else Go(s, 5)
    case 0xC9 => Go(Return(s), 10)
    case 0xCA => Go(if s.cc.z then Call(s) else s, 10)
    case 0xCC => if s.cc.z then Go(Call(s), 17) else Go(s, 11)
    case 0xCD => Go(Call(s), 17)
    case 0xCE =>
      var ans := s.a + Arg(s, 1);
      var cc := ArithFlags(s.cc, ans);
      Go(Skip(s.(cc := cc, a := Lo(ans + Bit(cc.cy))), 1), 7)
    case 0xCF => Go(s.(sp := s.pc, pc := 8), 11)
    case _ => Unimplemented
  }

  function RowD(s: State, op: byte): Effect {
    match op
    case 0xD1 => Go(s.(e := Read(s.mem, s.sp), d := Read(s.mem, s.sp - 1), sp := Wrap(s.sp + 2)), 10)
    case 0xD2 => Go(if !s.cc.cy then JumpTo(s) else s, 10)
    case 0xD3 => Go(Skip(s, 1), 10)
    case 0xD5 => Go(Push(s, s.d, s.e), 11)
    case 0xDB => Go(Skip(s, 2), 10)
    case 0xDE => Go(s, 7)
    case _ => Unimplemented
  }

  function RowE(s: State, op: byte): Effect {
    match op
    case 0xE3 =>
      var (lo, hi) := (Read(s.mem, s.sp), Read(s.mem, s.sp + 1));
      Go(s.(l := lo, h := hi, mem := Write(Write(s.mem, lo, s.l), hi, s.h)), 14)
    case 0xE5 => Go(Push(s, s.h, s.l), 11)
    case 0xE6 => Go(Skip(s.(a := Lo(And(s.a, Arg(s, 1))), cc := LogicFlags(s.cc, s.a)), 1), 7)
    case _ => Unimplemented
  }

  function RowF(s: State, op: byte): Effect {
    match op
    case 0xF1 =>
      Go(Skip(s.(a := Read(s.mem, s.sp + 1), cc := UnpackFlags(Read(s.mem, s.sp))), 2), 10)
    case 0xF2 => Go(if s.cc.p then JumpSwapped(s) else s, 10)
    case 0xF3 => Go(s.(intEnable := false), 4)
    case 0xF4 => if s.cc.p then Go(JumpSwapped(s), 17) else Go(s, 11)
    case 0xF5 => Go(Push(s, s.a, PackFlags(s.cc)), 11)
    case 0xF6 => Go(Skip(s.(a := Lo(Or(s.a, Arg(s, 1))), cc := LogicFlags(s.cc, s.a)), 1), 7)
    case 0xFB => Go(s.(intEnable := true), 4)
    case 0xF9 => Go(s.(sp := Pair(s.h, s.l)), 5)
    case 0xFE => Go(Skip(s, -1), 7)
    case _ => Unimplemented
  }

  function Opcode(s: State): byte { s.mem[s.pc] }

  function Execute(s: State, op: byte): Effect {
    if op < 0x10 then Row0(s, op)
    else if op < 0x20 then Row1(s, op)
    else if op < 0x30 then Row2(s, op)
    else if op < 0x40 then Row3(s, op)
    else if op < 0x80 then MovGroup(s, op)
    else if op < 0xA0 then ArithGroup(s, op)
    else if op < 0xC0 then LogicGroup(s, op)
    else if op < 0xD0 then RowC(s, op)
    else if op < 0xE0 then RowD(s, op)
    else if op < 0xF0 then RowE(s, op)
    else RowF(s, op)
  }

  /** Which part of the opcode table decides, without looking into it. */
  lemma Dispatch(s: State, op: byte)
    ensures op < 0x10 ==> Execute(s, op) == Row0(s, op)
    ensures 0x10 <= op < 0x20 ==> Execute(s, op) == Row1(s, op)
    ensures 0x20 <= op < 0x30 ==> Execute(s, op) == Row2(s, op)
    ensures 0x30 <= op < 0x40 ==> Execute(s, op) == Row3(s, op)
    ensures 0x40 <= op < 0x80 ==> Execute(s, op) == MovGroup(s, op)
    ensures 0x80 <= op < 0xA0 ==> Execute(s, op) == ArithGroup(s, op)
    ensures 0xA0 <= op < 0xC0 ==> Execute(s, op) == LogicGroup(s, op)
    ensures 0xC0 <= op < 0xD0 ==> Execute(s, op) == RowC(s, op)
    ensures 0xD0 <= op < 0xE0 ==> Execute(s, op) == RowD(s, op)
    ensures 0xE0 <= op < 0xF0 ==> Execute(s, op) == RowE(s, op)
    ensures 0xF0 <= op ==> Execute(s, op) == RowF(s, op)
  {
    hide Row0, Row1, Row2, Row3, MovGroup, ArithGroup, LogicGroup, RowC, RowD, RowE, RowF;
  }

  /** The return value of `cpu_exec`: the cycles, -2 for HLT, -1 for an unimplemented opcode. */
  function Status(f: Effect): int {
    match f
    case Go(_, time) => time
    case Halt => -2
    case Unimplemented => -1
  }

  /** One `cpu_exec`: the state after it, with the program counter stepped, or stepped back at a trap. */
  function Step(s: State): State {
    match Execute(s, Opcode(s))
    case Go(s1, _) => Skip(s1, 1)
    case Halt => s
    case Unimplemented => Skip(s, -1)
  }

  function Cycles(s: State): int { Status(Execute(s, Opcode(s))) }

  function StepN(s: State, n: nat): State {
    if n == 0 then s else Step(StepN(s, n - 1))
  }
}
