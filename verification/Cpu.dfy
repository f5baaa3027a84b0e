/** The emulated processor: registers, flags and 64K of memory, updated in place one instruction at a time. */
module Cpus {
  import opened Bits
  import opened Parity
  import opened CpuSpec

  class Cpu {
    var a: byte
    var b: byte
    var c: byte
    var d: byte
    var e: byte
    var h: byte
    var l: byte
    var sp: word
    var pc: word
    const memory: array<byte>
    var cc: Flags
    var intEnable: bool

    ghost predicate Valid() reads this { memory.Length == 0x1_0000 }

    ghost function State(): State
      requires Valid()
      reads this, memory
    {
      CpuSpec.State(a, b, c, d, e, h, l, sp, pc, memory[..], cc, intEnable)
    }

    constructor ()
      ensures Valid() && fresh(memory)
      ensures a == b == c == d == e == h == l == 0 && sp == pc == 0 && !intEnable
      ensures cc == Flags(false, false, false, false, false)
    {
      memory := new byte[0x1_0000](_ => 0);
      a, b, c, d, e, h, l, sp, pc := 0, 0, 0, 0, 0, 0, 0, 0, 0;
      cc := Flags(false, false, false, false, false);
      intEnable := false;
    }

    /** The part of an instruction's effect that a case of the switch has had, and the time it reports. */
    ghost predicate Did(before: State, f: Effect, time: int)
      requires Valid()
      reads this, memory
    {
      match f
      case Go(s, t) => State() == s && time == t
      case Halt => State() == before && time == -2
      case Unimplemented => State() == Skip(before, -1) && time == -1
    }

    // ---- memory and operands ----

    method Store(addr: int, v: byte)
      requires Valid()
      modifies memory
      ensures State() == old(State()).(mem := Write(old(State()).mem, addr, v))
    {
      memory[Wrap(addr)] := v;
    }

    method Load(addr: int) returns (v: byte)
      requires Valid()
      ensures v == Read(State().mem, addr)
    {
      v := memory[Wrap(addr)];
    }

    method LoadWord(addr: int) returns (v: word)
      requires Valid()
      ensures v == ReadWord(State().mem, addr)
    {
      v := Pair(memory[Wrap(addr + 1)], memory[Wrap(addr)]);
    }

    method GetOperand(r: int) returns (v: byte)
      requires Valid()
      ensures v == Operand(State(), r)
    {
      match r
      case 0 => v := b;
      case 1 => v := c;
      case 2 => v := d;
      case 3 => v := e;
      case 4 => v := h;
      case 5 => v := l;
      case 6 => v := memory[Wrap(Pair(h, l))];
      case _ => v := a;
    }

    method PutOperand(r: int, v: byte)
      requires Valid()
      modifies this, memory
      ensures Valid() && State() == SetOperand(old(State()), r, v)
    {
      match r
      case 0 => b := v;
      case 1 => c := v;
      case 2 => d := v;
      case 3 => e := v;
      case 4 => h := v;
      case 5 => l := v;
      case 6 => memory[Wrap(Pair(h, l))] := v;
      case _ => a := v;
    }

    // ---- flags ----

    method ArithSetFlags(ans: word)
      requires Valid()
      modifies this`cc
      ensures cc == ArithFlags(old(cc), ans)
    {
      hide CountLow, LogicalAnd, Pow2, ArithParity;
      cc := cc.(z := ans % 0x100 == 0, s := ans / 0x80 % 2 == 1, cy := ans > 0xFF);
      ParityFlagsCompared(Lo(ans));
      var even := Parity2(ans % 0x100, 16);
      cc := cc.(p := even == 1);
    }

    method LogicSetFlags()
      requires Valid()
      modifies this`cc
      ensures cc == LogicFlags(old(cc), a)
    {
      cc := cc.(cy := false, ac := false, s := a >= 0x80);
      var n, _ := Parity.Parity(a);
      cc := cc.(p := n % 2 == 1);
    }

    // ---- pieces the cases share ----

    /** Undoes the step of the program counter that an unimplemented instruction will not have. */
    method Trap()
      requires Valid()
      modifies this`pc
      ensures State() == Skip(old(State()), -1)
    {
      pc := Wrap(pc - 1);
    }

    method Advance(n: nat)
      requires Valid()
      modifies this`pc
      ensures State() == Skip(old(State()), n)
    {
      pc := Wrap(pc + n);
    }

    /** INR and DCR: the operand and the flags from a result kept in 16 bits. */
    method CountOperand(r: int, ans: word)
      requires Valid()
      modifies this, memory
      ensures Valid()
      ensures State() == SetOperand(old(State()), r, Lo(ans)).(cc := ArithFlags(old(cc), ans))
    {
      hide ArithFlags, SetOperand, Lo;
      FlagsApart(State(), r, Lo(ans), ArithFlags(cc, ans));
      ArithSetFlags(ans);
      PutOperand(r, Lo(ans));
    }

    method AddToHL(rp: word)
      requires Valid()
      modifies this
      ensures Valid() && Dad(old(State()), rp) == Go(State(), 10)
    {
      var res := Pair(h, l) + rp;
      h, l := Hi(res), Lo(res);
      cc := cc.(cy := res > 0xFFFF);
    }

    method PushBytes(hi: byte, lo: byte)
      requires Valid()
      modifies this`sp, memory
      ensures Valid() && State() == Push(old(State()), hi, lo)
    {
      memory[Wrap(sp - 1)] := hi;
      memory[Wrap(sp - 2)] := lo;
      sp := Wrap(sp - 2);
    }

    method CallTarget()
      requires Valid()
      modifies this, memory
      ensures Valid() && State() == Call(old(State()))
    {
      var ret := Wrap(pc + 2);
      PushBytes(Hi(ret), Lo(ret));
      pc := LoadWord(pc + 1);
    }

    method ReturnFromCall()
      requires Valid()
      modifies this
      ensures Valid() && State() == Return(old(State()))
    {
      hide ReadWord, Read, Pair, Wrap;
      pc := LoadWord(sp);
      sp := Wrap(sp + 2);
    }

    method Jump()
      requires Valid()
      modifies this
      ensures Valid() && State() == JumpTo(old(State()))
    {
      pc := LoadWord(pc + 1);
    }

    // ---- the switch, a row of opcodes at a time ----

    method ExecRow0(op: byte) returns (time: int)
      requires Valid()
      modifies this, memory
      ensures Valid() && Did(old(State()), Row0(old(State()), op), time)
    {
      hide Or, And, Xor, Lo, Hi, Pair, Wrap, Read, ReadWord, Write, ArithFlags, LogicFlags, SetOperand, Push, Call,
           Return, JumpTo, JumpSwapped, PackFlags, UnpackFlags, ArithParity, LogicParity, PopCount, Bit, Operand, Dad;
      time := 0;
      match op
      case 0x00 => time := 4;
      case 0x01 => b := Load(pc + 3); c := Load(pc + 2); time := 10;
      case 0x02 => Store(Pair(b, c), a); time := 7;
      case 0x03 => var res := Pair(b, c) + 1; b, c := Hi(res), Lo(res); time := 5;
      case 0x05 => CountOperand(0, (b - 1) % 0x100); time := 5;
      case 0x06 => b := Load(pc + 1); Advance(1); time := 7;
      case 0x07 =>
        var prev: int := a;
        a := Lo(Or(2 * prev, And(prev, 0x80)));
        cc := cc.(cy := prev / 0x80 != 0);
        time := 4;
      case 0x08 =>
      case 0x09 => AddToHL(Pair(b, c)); time := 10;
      case 0x0A => a := Load(Pair(b, c)); time := 7;
      case 0x0C => CountOperand(1, c + 1); time := 5;
      case 0x0D => CountOperand(1, Wrap(c - 1)); time := 5;
      case 0x0E => c := Load(pc + 1); Advance(1); time := 7;
      case 0x0F =>
        var prev := a;
        a := Lo(Or(prev / 2, And(prev, 1)));
        cc := cc.(cy := And(prev, 1) != 0);
        time := 4;
      case _ => Trap(); time := -1;
    }

    method ExecRow1(op: byte) returns (time: int)
      requires Valid()
      modifies this, memory
      ensures Valid() && Did(old(State()), Row1(old(State()), op), time)
    {
      hide Or, And, Xor, Lo, Hi, Pair, Wrap, Read, ReadWord, Write, ArithFlags, LogicFlags, SetOperand, Push, Call,
           Return, JumpTo, JumpSwapped, PackFlags, UnpackFlags, ArithParity, LogicParity, PopCount, Bit, Operand, Dad;
      BorrowPair(Pair(d, e));
      match op
      case 0x10 => time := 4;
      case 0x11 => d := Load(pc + 2); e := Load(pc + 1); Advance(2); time := 10;
      case 0x13 =>
        e := (e + 1) % 0x100;
        if e == 0 { d := (d + 1) % 0x100; }
        time := 5;
      case 0x19 => AddToHL(Pair(d, e)); time := 10;
      case 0x1A => a := Load(Pair(d, e)); time := 7;
      case 0x1B =>
        var res := (Pair(d, e) - 1) % 0x1_0000_0000;
        d, e := Hi(res), Lo(res);
        cc := cc.(cy := res > 0xFFFF);
        time := 5;
      case 0x1D => CountOperand(3, (e - 1) % 0x100); time := 5;
      case _ => Trap(); time := -1;
    }

    method ExecRow2(op: byte) returns (time: int)
      requires Valid()
      modifies this, memory
      ensures Valid() && Did(old(State()), Row2(old(State()), op), time)
    {
      hide Or, And, Xor, Lo, Hi, Pair, Wrap, Read, ReadWord, Write, ArithFlags, LogicFlags, SetOperand, Push, Call,
           Return, JumpTo, JumpSwapped, PackFlags, UnpackFlags, ArithParity, LogicParity, PopCount, Bit, Operand, Dad;
      Halves(Pair(h, l) + 1);
      Halves(Pair(h, l) - 1);
      match op
      case 0x20 => time := 4;
      case 0x21 => l := Load(pc + 1); h := Load(pc + 2); Advance(2); time := 10;
      case 0x23 =>
        l := (l + 1) % 0x100;
        if l == 0 { h := (h + 1) % 0x100; }
        time := 5;
      case 0x24 =>
        var hl := Wrap(Pair(h, l) + 1);
        ArithSetFlags(hl);
        h, l := Hi(hl), Lo(hl);
        time := 5;
      case 0x25 => CountOperand(4, Wrap(h - 1)); time := 5;
      case 0x26 => h := Load(pc + 1); Advance(1); time := 7;
      case 0x28 => time := 4;
      case 0x29 => AddToHL(Pair(h, l)); time := 10;
      case 0x2A =>
        var at: int := Load(pc + 1);
        l := Load(at);
        h := Load(at + 1);
        Advance(1);
        time := 16;
      case 0x2B => var hl := Wrap(Pair(h, l) + 1); h, l := Hi(hl), Lo(hl); time := 5;
      case 0x2C => CountOperand(5, l + 1); time := 5;
      case 0x2D => CountOperand(5, Wrap(l - 1)); time := 5;
      case 0x2E => l := Load(pc + 1); Advance(1); time := 7;
      case 0x2F => a := 0xFF - a; time := 4;
      case _ => Trap(); time := -1;
    }

    method ExecRow3(op: byte) returns (time: int)
      requires Valid()
      modifies this, memory
      ensures Valid() && Did(old(State()), Row3(old(State()), op), time)
    {
      hide Or, And, Xor, Lo, Hi, Pair, Wrap, Read, Write, ArithFlags, LogicFlags, SetOperand, Push, Call, Return,
           JumpTo, JumpSwapped, PackFlags, UnpackFlags, ArithParity, LogicParity, PopCount, Bit, Operand, Dad;
      Halves(Pair(h, l) + 1);
      Halves(Pair(h, l) - 1);
      match op
      case 0x30 => time := 4;
      case 0x31 => sp := LoadWord(pc + 2); Advance(3); time := 10;
      case 0x32 => var at := Load(pc + 1); Store(at, a); Advance(1); time := 13;
      case 0x33 => sp := Wrap(sp + 1); time := 5;
      case 0x34 =>
        var hl := Wrap(Pair(h, l) + 1);
        ArithSetFlags(hl);
        h, l := Hi(hl), 0xFF;
        time := 10;
      case 0x35 =>
        var hl := Wrap(Pair(h, l) - 1);
        ArithSetFlags(hl);
        h, l := Hi(hl), 0xFF;
        time := 10;
      case 0x36 => var v := Load(pc + 1); Store(Pair(h, l), v); Advance(1); time := 10;
      case 0x38 => time := 4;
      case 0x3A => var at := LoadWord(pc + 1); a := Load(at); Advance(2); time := 13;
      case 0x3B => sp := Wrap(sp - 1); time := 5;
      case 0x3C => CountOperand(7, a + 1); time := 5;
      case 0x3D => CountOperand(7, Wrap(a - 1)); time := 5;
      case 0x3E => a := Load(pc + 1); Advance(1); time := 7;
      case _ => Trap(); time := -1;
    }

    method ExecMov(op: byte) returns (time: int)
      requires Valid()
      modifies this, memory
      ensures Valid() && Did(old(State()), MovGroup(old(State()), op), time)
    {
      hide Or, And, Xor, Lo, Hi, Pair, Wrap, Read, ReadWord, Write, ArithFlags, LogicFlags, SetOperand, Push, Call,
           Return, JumpTo, JumpSwapped, PackFlags, UnpackFlags, ArithParity, LogicParity, PopCount, Bit, Dad;
      if op == 0x76 {
        return -2;
      }
      var v := GetOperand(if op == 0x42 then 1 else op % 8);
      PutOperand(op / 8 % 8, v);
      time := if (op % 8 == 6 && op / 8 % 8 < 5) || 0x67 <= op <= 0x6D then 10 else 7;
    }

    method ExecArith(op: byte) returns (time: int)
      requires Valid()
      modifies this, memory
      ensures Valid() && Did(old(State()), ArithGroup(old(State()), op), time)
    {
      hide Or, And, Xor, Lo, Hi, Pair, Wrap, Read, ReadWord, Write, ArithFlags, LogicFlags, SetOperand, Push, Call,
           Return, JumpTo, JumpSwapped, PackFlags, UnpackFlags, ArithParity, PopCount, Bit, Operand, Dad;
      var g := op / 8 % 8;
      var v := GetOperand(op % 8);
      var hl := Pair(h, l);
      if g == 0 {
        var ans := a + v;
        ArithSetFlags(ans);
        a := Lo(ans);
        time := if op % 8 == 6 then 7 else 4;
      } else if op == 0x89 {
        Trap();
        time := -1;
      } else if op == 0x8E || op == 0x96 {
        var ans := a + hl;
        var n, _ := Parity.Parity(a);
        cc := cc.(z := ans == 0, s := false, p := n % 2 == 1, cy := ans > 0xFFFF);
        a := (ans + Bit(cc.cy)) / 0x100_0000 % 0x100;
        time := 7;
      } else if g == 1 {
        var ans := a + v;
        ArithSetFlags(ans);
        a := Lo(ans + Bit(cc.cy));
        time := 4;
      } else if op == 0x9E {
        var ans := (a - hl) % 0x1_0000_0000;
        var n, _ := Parity.Parity(a);
        cc := cc.(s := ans >= 0x8000_0000, p := n % 2 == 1, cy := ans > 0xFFFF);
        a := (ans + Bit(cc.cy)) % 0x1_0000_0000 / 0x100_0000 % 0x100;
        time := 4;
      } else {
        var ans := Wrap(a - v);
        ArithSetFlags(ans);
        a := Lo(ans + if 0x98 <= op <= 0x9B then Bit(cc.cy) else 0);
        time := 4;
      }
    }

    method ExecLogic(op: byte) returns (time: int)
      requires Valid()
      modifies this, memory
      ensures Valid() && Did(old(State()), LogicGroup(old(State()), op), time)
    {
      hide Or, And, Xor, Lo, Hi, Pair, Wrap, Read, ReadWord, Write, ArithFlags, LogicFlags, SetOperand, Push, Call,
           Return, JumpTo, JumpSwapped, PackFlags, UnpackFlags, ArithParity, LogicParity, PopCount, Bit, Operand, Dad;
      var g := op / 8 % 8;
      var v := GetOperand(op % 8);
      var hl := Pair(h, l);
      if op == 0xAE || op == 0xB6 {
        var ans := Xor(a, hl);
        LogicSetFlags();
        a := Hi(ans);
        time := 7;
      } else if op == 0xBE {
        LogicSetFlags();
        a := Hi(0xFFFF - hl);
        time := 7;
      } else {
        if op == 0xA6 {
          a := Hi(And(a, hl));
        } else if g == 4 {
          a := Lo(And(a, v));
        } else if g == 5 || op == 0xB7 {
          a := Lo(Xor(a, v));
        } else if g == 6 {
          a := Lo(Or(a, v));
        } else {
          a := 0xFF - v;
        }
        LogicSetFlags();
        time := 4;
      }
    }

    method ExecRowC(op: byte) returns (time: int)
      requires Valid()
      modifies this, memory
      ensures Valid() && Did(old(State()), RowC(old(State()), op), time)
    {
      hide Or, And, Xor, Lo, Hi, Pair, Wrap, Read, ReadWord, Write, ArithFlags, LogicFlags, SetOperand, Push, Call,
           Return, JumpTo, JumpSwapped, PackFlags, UnpackFlags, ArithParity, LogicParity, PopCount, Bit, Operand, Dad;
      time := 0;
      match op
      case 0xC1 => c := Load(sp); b := Load(sp + 1); sp := Wrap(sp + 2); time := 10;
      case 0xC2 => if !cc.z { Jump(); } else { Advance(2); } time := 10;
      case 0xC3 => Jump(); time := 10;
      case 0xC4 => time := if !cc.z then 17 else 11; if !cc.z { CallTarget(); } else { Advance(2); }
      case 0xC5 => Store(sp - 1, b); Store(sp, c); sp := Wrap(sp - 2); time := 11;
      case 0xC6 =>
        var v := Load(pc + 1);
        var ans := a + v;
        ArithSetFlags(ans);
        a := Hi(ans);
        Advance(1);
        time := 4;
      case 0xC7 => pc := 0;
      case 0xC8 => time := if cc.z then 11 else 5; if cc.z { ReturnFromCall(); }
      case 0xC9 => ReturnFromCall(); time := 10;
      case 0xCA => if cc.z { CallTarget(); } time := 10;
      case 0xCC => time := if cc.z then 17 else 11; if cc.z { CallTarget(); }
      case 0xCD => CallTarget(); time := 17;
      case 0xCE =>
        var v := Load(pc + 1);
        var ans := a + v;
        ArithSetFlags(ans);
        a := Lo(ans + Bit(cc.cy));
        Advance(1);
        time := 7;
      case 0xCF => sp := pc; pc := 8; time := 11;
      case _ => Trap(); time := -1;
    }

    method ExecRowD(op: byte) returns (time: int)
      requires Valid()
      modifies this, memory
      ensures Valid() && Did(old(State()), RowD(old(State()), op), time)
    {
      hide Or, And, Xor, Lo, Hi, Pair, Wrap, Read, ReadWord, Write, ArithFlags, LogicFlags, SetOperand, Push, Call,
           Return, JumpTo, JumpSwapped, PackFlags, UnpackFlags, ArithParity, LogicParity, PopCount, Bit, Operand, Dad;
      match op
      case 0xD1 => e := Load(sp); d := Load(sp - 1); sp := Wrap(sp + 2); time := 10;
      case 0xD2 => if !cc.cy { Jump(); } time := 10;
      case 0xD3 => Advance(1); time := 10;
      case 0xD5 => PushBytes(d, e); time := 11;
      case 0xDB => Advance(2); time := 10;
      case 0xDE => time := 7;
      case _ => Trap(); time := -1;
    }

    method ExecRowE(op: byte) returns (time: int)
      requires Valid()
      modifies this, memory
      ensures Valid() && Did(old(State()), RowE(old(State()), op), time)
    {
      hide Or, And, Xor, Lo, Hi, Pair, Wrap, Read, ReadWord, Write, ArithFlags, LogicFlags, SetOperand, Push, Call,
           Return, JumpTo, JumpSwapped, PackFlags, UnpackFlags, ArithParity, LogicParity, PopCount, Bit, Operand, Dad;
      match op
      case 0xE3 =>
        var oldL, oldH := l, h;
        var sp1 := Load(sp);
        var sp2 := Load(sp + 1);
        l, h := sp1, sp2;
        Store(sp1, oldL);
        Store(sp2, oldH);
        time := 14;
      case 0xE5 => PushBytes(h, l); time := 11;
      case 0xE6 =>
        var v := Load(pc + 1);
        var ans := And(a, v);
        LogicSetFlags();
        a := Lo(ans);
        Advance(1);
        time := 7;
      case _ => Trap(); time := -1;
    }

    method ExecRowF(op: byte) returns (time: int)
      requires Valid()
      modifies this, memory
      ensures Valid() && Did(old(State()), RowF(old(State()), op), time)
    {
      hide Or, And, Xor, Lo, Hi, Pair, Wrap, Read, ReadWord, Write, ArithFlags, LogicFlags, SetOperand, Push, Call,
           Return, JumpTo, JumpSwapped, PackFlags, UnpackFlags, ArithParity, LogicParity, PopCount, Bit, Operand, Dad;
      match op
      case 0xF1 =>
        a := Load(sp + 1);
        var psw := Load(sp);
        cc := UnpackFlags(psw);
        Advance(2);
        time := 10;
      case 0xF2 => if cc.p { JumpHighFirst(); } time := 10;
      case 0xF3 => intEnable := false; time := 4;
      case 0xF4 => time := if cc.p then 17 else 11; if cc.p { JumpHighFirst(); }
      case 0xF5 => PushBytes(a, PackFlags(cc)); time := 11;
      case 0xF6 =>
        var v := Load(pc + 1);
        var ans := Or(a, v);
        LogicSetFlags();
        a := Lo(ans);
        Advance(1);
        time := 7;
      case 0xFB => intEnable := true; time := 4;
      case 0xF9 => sp := Pair(h, l); time := 5;
      case 0xFE => Trap(); time := 7;
      case _ => Trap(); time := -1;
    }

    method JumpHighFirst()
      requires Valid()
      modifies this`pc
      ensures State() == JumpSwapped(old(State()))
    {
      pc := Pair(memory[Wrap(pc + 1)], memory[Wrap(pc + 2)]);
    }

    method ExecOpcode(op: byte) returns (time: int)
      requires Valid()
      modifies this, memory
      ensures Valid() && Did(old(State()), Execute(old(State()), op), time)
    {
      hide Row0, Row1, Row2, Row3, MovGroup, ArithGroup, LogicGroup, RowC, RowD, RowE, RowF, Execute, Did;
      Dispatch(State(), op);
      if op < 0x10 { time := ExecRow0(op); }
      else if op < 0x20 { time := ExecRow1(op); }
      else if op < 0x30 { time := ExecRow2(op); }
      else if op < 0x40 { time := ExecRow3(op); }
      else if op < 0x80 { time := ExecMov(op); }
      else if op < 0xA0 { time := ExecArith(op); }
      else if op < 0xC0 { time := ExecLogic(op); }
      else if op < 0xD0 { time := ExecRowC(op); }
      else if op < 0xE0 { time := ExecRowD(op); }
      else if op < 0xF0 { time := ExecRowE(op); }
      else { time := ExecRowF(op); }
    }

    /** One instruction: every opcode changes the machine as its step on values does, and reports its status. */
    method Exec() returns (status: int)
      requires Valid()
      modifies this, memory
      ensures Valid() && State() == Step(old(State())) && status == Cycles(old(State()))
    {
      hide Execute, Wrap;
      status := ExecOpcode(memory[pc]);
      if status < 0 {
        return;
      }
      pc := Wrap(pc + 1);
    }
  }

  /** Setting the flags and setting an operand do not interfere. */
  lemma FlagsApart(s: State, r: int, v: byte, cc: Flags)
    ensures SetOperand(s.(cc := cc), r, v) == SetOperand(s, r, v).(cc := cc)
  {
  }

  lemma Halves(x: int)
    ensures Hi(Wrap(x)) == Hi(x) && Lo(Wrap(x)) == Lo(x)
  {
    HalvesWrap(x);
  }

  /** DCX D in 32 bits: the halves of the 16-bit difference, and a carry when it wrapped. */
  lemma BorrowPair(de: word)
    ensures var res := (de - 1) % 0x1_0000_0000;
      Hi(res) == Hi(Wrap(de - 1)) && Lo(res) == Lo(Wrap(de - 1)) && (res > 0xFFFF <==> de == 0)
  {
    HalvesWrap(de - 1);
    if de == 0 {
      assert (de - 1) % 0x1_0000_0000 == 0xFFFF_FFFF;
    } else {
      assert (de - 1) % 0x1_0000_0000 == de - 1;
    }
  }
}
