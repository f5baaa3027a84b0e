/** Where the processor goes when it executes the assembled calls and jumps of a source, taken or not. */
module Landing {
  import opened Bits
  import opened Opcodes
  import opened Source
  import opened LexSpec
  import opened Encoding
  import opened Layout8080
  import opened Labels
  import C = CpuSpec
  import R = Running
  import opened Stack

  // ---- the bytes ----

  /** The opcodes of the calls and jumps that are both assembled and implemented. */
  function OpOf(m: Mnemonic): byte {
    match m
    case CALL => 0xCD case CNZ => 0xC4 case CZ => 0xCC case CP => 0xF4
    case JMP => 0xC3 case JNC => 0xD2 case JZ => 0xCA case JP => 0xF2
    case _ => 0
  }

  lemma CallBytesAt(line: LineInfo)
    requires Lexable(line) && line.instr in {CALL, CNZ, CZ, CP}
    ensures EncodedBytes(line) == [OpOf(line.instr), Lo(line.imm), Hi(line.imm)]
  {
    hide EncodedBytes, Lo, Hi, Or;
    Encodes(line);
  }

  /** A jump's operand as assembled: the or of the two halves of its target, and a zero. */
  function JumpLow(imm: int): nat { Or(Lo(imm), Hi(imm)) }

  lemma JumpBytesAt(line: LineInfo)
    requires Lexable(line) && line.instr in {JMP, JNC, JZ, JP}
    ensures EncodedBytes(line) == [OpOf(line.instr), JumpLow(line.imm), 0]
    ensures JumpLow(line.imm) < 0x100
  {
    hide EncodedBytes, Lo, Hi, Or, OpByte, OpOf, FormOf, SizeOf, Lexable;
    JumpForm(line);
    Encodes(line);
    JumpBytes(line.instr, line.imm);
  }

  lemma JumpForm(line: LineInfo)
    requires Lexable(line) && line.instr in {JMP, JNC, JZ, JP}
    ensures SizeOf(FormOf(line.instr), line) == 3 && OpByte(line) == OpOf(line.instr)
  {
  }

  lemma Fetch3(s: C.State, op: int, lo: int, hi: int)
    requires R.Fetched(s, [op, lo, hi])
    ensures s.pc + 2 < 0x1_0000 && C.Opcode(s) == op && s.mem[s.pc + 1] == lo && s.mem[s.pc + 2] == hi
  {
    var bytes := [op, lo, hi];
    assert s.mem[s.pc + 0] == bytes[0];
    assert s.mem[s.pc + 1] == bytes[1];
    assert s.mem[s.pc + 2] == bytes[2];
  }

  // ---- calls ----

  /** A byte of memory after a call has pushed its return address over it, or not. */
  function PushedByte(s: C.State, addr: word): byte {
    if addr == C.Wrap(s.sp - 1) then Hi(C.Wrap(s.pc + 2))
    else if addr == C.Wrap(s.sp - 2) then Lo(C.Wrap(s.pc + 2))
    else s.mem[addr]
  }

  /** The operand of a call, which is read after the pushes, is still this one then. */
  predicate OperandSurvives(s: C.State, lo: int, hi: int)
    requires s.pc + 2 < 0x1_0000
  {
    PushedByte(s, s.pc + 1) == lo && PushedByte(s, s.pc + 2) == hi
  }

  lemma PushLeaves(s: C.State, addr: word)
    ensures var ret := C.Wrap(s.pc + 2);
      C.Push(s, Hi(ret), Lo(ret)).mem[addr] == PushedByte(s, addr)
    ensures C.Push(s, Hi(C.Wrap(s.pc + 2)), Lo(C.Wrap(s.pc + 2))).sp == C.Wrap(s.sp - 2)
  {
    hide Hi, Lo;
    assert C.Wrap(s.sp - 1) != C.Wrap(s.sp - 2);
  }

  lemma PushedWord(s: C.State, hi: byte, lo: byte)
    ensures C.ReadWord(C.Push(s, hi, lo).mem, C.Wrap(s.sp - 2)) == C.Pair(hi, lo)
  {
    hide C.Pair;
    assert C.Wrap(C.Wrap(s.sp - 2) + 1) == C.Wrap(s.sp - 1) != C.Wrap(s.sp - 2);
  }

  lemma OneMore(x: int)
    ensures C.Wrap(C.Wrap(x) + 1) == C.Wrap(x + 1)
  {
  }

  lemma SamePair(h: byte, l: byte, hi: byte, lo: byte)
    ensures C.Wrap(C.Pair(h, l) + 1) == C.Wrap(C.Pair(hi, lo) + 1) <==> h == hi && l == lo
  {
    var x: int, y: int := C.Pair(h, l), C.Pair(hi, lo);
    assert C.Wrap(x + 1) == if x == 0xFFFF then 0 else x + 1;
    assert C.Wrap(y + 1) == if y == 0xFFFF then 0 else y + 1;
  }

  /** The whole step of a call taken: the return address pushed, and the operand read after that. */
  lemma CallSteps(s: C.State, op: int, lo: byte, hi: byte)
    requires R.Fetched(s, [op, lo, hi]) && IsCall(s)
    ensures s.pc + 2 < 0x1_0000
    ensures var ret := C.Wrap(s.pc + 2);
      var operand := C.Pair(PushedByte(s, s.pc + 2), PushedByte(s, s.pc + 1));
      C.Step(s) == C.Push(s, Hi(ret), Lo(ret)).(pc := C.Wrap(operand + 1))
  {
    hide C.Step, C.Push, C.Call, Lo, Hi, C.Pair, C.ReadWord, IsCall, PushedByte, C.Wrap;
    Fetch3(s, op, lo, hi);
    var ret := C.Wrap(s.pc + 2);
    Brackets(s);
    CallIs(s);
    PushLeaves(s, s.pc + 1);
    PushLeaves(s, s.pc + 2);
    OperandWord(C.Push(s, Hi(ret), Lo(ret)).mem, s.pc + 1);
    StepPlaces(s);
  }

  /**
   * A call taken, by CALL, CNZ, CZ or JZ: it leaves on the stack the address that a return takes to the call plus 3,
   * and lands one past its operand exactly when its own pushes do not change the operand.
   */
  lemma CallGoes(s: C.State, op: int, lo: byte, hi: byte)
    requires R.Fetched(s, [op, lo, hi]) && IsCall(s)
    ensures s.pc + 2 < 0x1_0000
    ensures var t := C.Step(s);
      && t.sp == C.Wrap(s.sp - 2) && C.Wrap(C.ReadWord(t.mem, t.sp) + 1) == C.Wrap(s.pc + 3)
      && (t.pc == C.Wrap(C.Pair(hi, lo) + 1) <==> OperandSurvives(s, lo, hi))
  {
    hide C.Step, C.Push, Lo, Hi, C.Pair, C.ReadWord, IsCall, PushedByte, C.Wrap, R.Fetched;
    CallSteps(s, op, lo, hi);
    var ret := C.Wrap(s.pc + 2);
    PushLeaves(s, s.pc);
    PushedWord(s, Hi(ret), Lo(ret));
    PairOfBytes(ret);
    OneMore(s.pc + 2);
    SamePair(PushedByte(s, s.pc + 2), PushedByte(s, s.pc + 1), hi, lo);
  }

  lemma OperandWord(mem: C.Memory, at: word)
    requires at < 0xFFFF
    ensures C.ReadWord(mem, at) == C.Pair(mem[at + 1], mem[at])
  {
  }

  lemma StepPlaces(s: C.State)
    ensures C.Skip(C.Call(s), 1) == C.Call(s).(pc := C.Wrap(C.Call(s).pc + 1))
    ensures C.Wrap(C.Wrap(s.pc + 2) + 1) == C.Wrap(s.pc + 3)
  {
    hide C.Call;
  }

  lemma TargetWord(imm: int)
    ensures C.Wrap(C.Pair(Hi(imm), Lo(imm)) + 1) == C.Wrap(imm + 1)
  {
    hide Lo, Hi;
    WordOfBytes(imm);
    OneMore(imm);
  }

  /**
   * In any source whose labels do not begin one another, a call of a label, before or behind it, by CALL or by CNZ or
   * CZ taken: it lands one past the address of the line that carries the label exactly when its pushes leave its
   * operand alone, and a return there resumes behind the call.
   */
  lemma CallLands(src: string, cap: nat, start: int, i: nat, j: nat, s: C.State)
    requires LexAll(src, cap, start).status == 0 && PrefixFree(LexAll(src, cap, start).st.lines)
    requires i < |LexAll(src, cap, start).st.lines| && j < |LexAll(src, cap, start).st.lines|
    requires var lines := LexAll(src, cap, start).st.lines;
      && lines[i].symbolStr != "" && lines[j].labelStr == lines[i].symbolStr
      && lines[i].instr in {CALL, CNZ, CZ} && Lexable(lines[i])
      && R.Fetched(s, EncodedBytes(lines[i])) && IsCall(s)
    ensures s.pc + 2 < 0x1_0000
    ensures var target := LexAll(src, cap, start).st.lines[j].addr;
      var t := C.Step(s);
      && (t.pc == C.Wrap(target + 1) <==> OperandSurvives(s, Lo(target), Hi(target)))
      && C.Wrap(C.ReadWord(t.mem, t.sp) + 1) == C.Wrap(s.pc + 3)
  {
    hide LexAll, EncodedBytes, PrefixFree, R.Fetched, OperandSurvives, C.Step, IsCall, Lo, Hi;
    PrefixFreeResolves(src, cap, start, i, j);
    var line := LexAll(src, cap, start).st.lines[i];
    CallBytesAt(line);
    CallGoes(s, EncodedBytes(line)[0], Lo(line.imm), Hi(line.imm));
    TargetWord(line.imm);
  }

  // ---- jumps, and the call that jumps ----

  /** JMP, JNZ with z clear, JNC with the carry clear, and JP and CP, which does not push, with the parity flag set. */
  lemma JumpGoes(s: C.State, op: int, lo: byte, hi: byte)
    requires R.Fetched(s, [op, lo, hi])
    ensures op == 0xC3 || (op == 0xC2 && !s.cc.z) || (op == 0xD2 && !s.cc.cy)
      ==> C.Step(s) == s.(pc := C.Wrap(C.Pair(hi, lo) + 1))
    ensures op in {0xF2, 0xF4} && s.cc.p ==> C.Step(s) == s.(pc := C.Wrap(C.Pair(lo, hi) + 1))
  {
    hide C.Row0, C.Row1, C.Row2, C.Row3, C.MovGroup, C.ArithGroup, C.LogicGroup, C.RowE, Lo, Hi, C.Pair;
    Fetch3(s, op, lo, hi);
  }

  /** What is not taken: JNZ and CNZ step over their operand, the others go on with the operand as instructions. */
  lemma NotTaken(s: C.State, op: int, lo: byte, hi: byte)
    requires R.Fetched(s, [op, lo, hi])
    ensures op in {0xC2, 0xC4} && s.cc.z ==> C.Step(s) == s.(pc := C.Wrap(s.pc + 3))
    ensures (op in {0xCA, 0xCC} && !s.cc.z) || (op == 0xD2 && s.cc.cy) || (op in {0xF2, 0xF4} && !s.cc.p)
      ==> C.Step(s) == s.(pc := C.Wrap(s.pc + 1))
  {
    hide C.Row0, C.Row1, C.Row2, C.Row3, C.MovGroup, C.ArithGroup, C.LogicGroup, C.RowE, Lo, Hi, C.Pair, C.Call;
    Fetch3(s, op, lo, hi);
    assert C.Wrap(C.Wrap(s.pc + 2) + 1) == C.Wrap(s.pc + 3);
  }

  /** The other calls, jumps and returns that are assembled are not implemented. */
  lemma NotImplemented(s: C.State)
    requires C.Opcode(s) in {0xC0, 0xD0, 0xD8, 0xDA, 0xDC, 0xE0, 0xE4, 0xE8, 0xEC, 0xF0, 0xF8, 0xFA, 0xFC}
    ensures C.Cycles(s) == -1 && C.Step(s) == s.(pc := C.Wrap(s.pc - 1))
  {
    hide C.Row0, C.Row1, C.Row2, C.Row3, C.MovGroup, C.ArithGroup, C.LogicGroup;
  }

  /** One past the or of the two halves is one past the address exactly in the first 256 bytes. */
  lemma LandsLow(imm: int)
    requires JumpLow(imm) < 0x100
    ensures C.Wrap(C.Pair(0, JumpLow(imm)) + 1) == C.Wrap(imm + 1) <==> imm % 0x1_0000 < 0x100
  {
    hide Or, Lo, Hi, C.Pair;
    WordOfBytes(imm);
    TargetWord(imm);
    SamePair(0, JumpLow(imm), Hi(imm), Lo(imm));
    if imm % 0x1_0000 < 0x100 {
      OrZero(Lo(imm));
    }
  }

  /** With the bytes swapped it is so exactly for a multiple of 256. */
  lemma LandsHigh(imm: int)
    requires JumpLow(imm) < 0x100
    ensures C.Wrap(C.Pair(JumpLow(imm), 0) + 1) == C.Wrap(imm + 1) <==> imm % 0x100 == 0
  {
    hide Or, Lo, C.Pair;
    TargetWord(imm);
    SamePair(JumpLow(imm), 0, Hi(imm), Lo(imm));
    if Lo(imm) == 0 {
      OrZero(Hi(imm));
    }
    assert Lo(imm) == imm % 0x100 by { LoIs(imm); }
  }

  lemma LoIs(imm: int)
    ensures Lo(imm) == imm % 0x100
  {
  }

  lemma OrZero(x: nat)
    ensures Or(x, 0) == x && Or(0, x) == x
  {
  }

  /**
   * The jumps of a source, taken: JMP and JNC land one past their target exactly when it lies in the first 256 bytes;
   * JP, which reads the high byte first, exactly when it is a multiple of 256; CP jumps instead of calling, and lands
   * there exactly when the two bytes of its target are equal.
   */
  lemma JumpLands(line: LineInfo, s: C.State)
    requires Lexable(line) && line.instr in {JMP, JNC, JP, CP} && R.Fetched(s, EncodedBytes(line))
    requires line.instr == JNC ==> !s.cc.cy
    requires line.instr in {JP, CP} ==> s.cc.p
    ensures C.Step(s) == s.(pc := C.Step(s).pc)
    ensures C.Step(s).pc == C.Wrap(line.imm + 1) <==>
      match line.instr
      case JP => line.imm % 0x100 == 0
      case CP => Lo(line.imm) == Hi(line.imm)
      case _ => line.imm % 0x1_0000 < 0x100
  {
    hide EncodedBytes, JumpLow, Lo, Hi, C.Step, C.Wrap, C.Pair, R.Fetched, Lexable;
    if line.instr == CP {
      CallBytesAt(line);
      JumpGoes(s, 0xF4, Lo(line.imm), Hi(line.imm));
      TargetWord(line.imm);
      SamePair(Lo(line.imm), Hi(line.imm), Hi(line.imm), Lo(line.imm));
    } else {
      JumpBytesAt(line);
      JumpGoes(s, EncodedBytes(line)[0], JumpLow(line.imm), 0);
      LandsLow(line.imm);
      LandsHigh(line.imm);
    }
  }

  /**
   * JZ calls: taken, it pushes its address and moves the stack pointer. It lands one past its target exactly when the
   * two bytes after its opcode, its pushes over them or not, are then those of the target; if its operand survives the
   * pushes that is exactly when the target lies in the first 256 bytes.
   */
  lemma JzCalls(line: LineInfo, s: C.State)
    requires Lexable(line) && line.instr == JZ && R.Fetched(s, EncodedBytes(line)) && s.cc.z
    ensures s.pc + 2 < 0x1_0000 && C.Step(s).sp == C.Wrap(s.sp - 2)
    ensures C.Step(s).pc == C.Wrap(line.imm + 1) <==> OperandSurvives(s, Lo(line.imm), Hi(line.imm))
    ensures OperandSurvives(s, JumpLow(line.imm), 0)
      ==> (C.Step(s).pc == C.Wrap(line.imm + 1) <==> line.imm % 0x1_0000 < 0x100)
  {
    hide EncodedBytes, JumpLow, C.Step, C.Wrap, C.Pair, R.Fetched, Lexable, PushedByte, Lo, Hi, C.Push, IsCall;
    JumpBytesAt(line);
    assert IsCall(s) by { JzTaken(s, JumpLow(line.imm), 0); }
    CallGoes(s, 0xCA, JumpLow(line.imm), 0);
    LandsLow(line.imm);
    CallSteps(s, 0xCA, JumpLow(line.imm), 0);
    TargetWord(line.imm);
    SamePair(PushedByte(s, s.pc + 2), PushedByte(s, s.pc + 1), Hi(line.imm), Lo(line.imm));
  }

  lemma JzTaken(s: C.State, lo: int, hi: int)
    requires R.Fetched(s, [0xCA, lo, hi]) && s.cc.z
    ensures IsCall(s)
  {
    Fetch3(s, 0xCA, lo, hi);
  }
}
