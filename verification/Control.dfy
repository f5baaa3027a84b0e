/**
 * Control flow: sources whose calls, jumps and returns go from line to line, executed line by line. As the emulator
 * lands one past a target, a label is followed by what stands behind its line, which must be one byte long.
 */
module Control {
  import opened Bits
  import opened Opcodes
  import opened Source
  import opened LexSpec
  import opened Encoding
  import opened Layout8080
  import opened Addresses
  import opened Labels
  import C = CpuSpec
  import opened Meaning
  import R = Running
  import opened Compiler
  import L = Landing
  import S = Stack
  import opened Toolchain

  /** The calls, jumps and returns that are both assembled and implemented. */
  predicate Branches(line: LineInfo) {
    match line.instr
    case CALL | CNZ | CZ | CP | JMP | JNC | JZ | JP => line.hasImm
    case RET | RZ => true
    case _ => false
  }

  predicate Simulated(line: LineInfo) { Lexable(line) && (Runs(line) || Branches(line)) }

  ghost predicate Flowing(lines: seq<LineInfo>) { Laid(lines) && forall k :: 0 <= k < |lines| ==> Simulated(lines[k]) }

  // ---- going from line to line ----

  function LineAddress(lines: seq<LineInfo>, base: nat, k: nat): word
    requires Laid(lines) && k <= |lines|
  {
    C.Wrap(base + Offset(lines, k))
  }

  /** The first line from k on that lies at an address, the end of the program included; or none. */
  function Search(lines: seq<LineInfo>, base: nat, addr: int, k: nat): (r: nat)
    requires Laid(lines) && k <= |lines|
    decreases |lines| - k
  {
    if LineAddress(lines, base, k) == addr then k
    else if k == |lines| then k + 1
    else Search(lines, base, addr, k + 1)
  }

  lemma {:induction false} Found(lines: seq<LineInfo>, base: nat, addr: int, k: nat)
    requires Laid(lines) && k <= |lines|
    ensures var r := Search(lines, base, addr, k);
      k <= r <= |lines| + 1 && (r <= |lines| ==> LineAddress(lines, base, r) == addr)
    decreases |lines| - k
  {
    hide LineAddress, Laid;
    if k < |lines| {
      Found(lines, base, addr, k + 1);
    }
  }

  /** At a line in a machine, or somewhere that is no line's beginning. */
  datatype Place = At(line: nat, m: Machine) | Lost

  function Arrive(lines: seq<LineInfo>, k: nat, m: Machine): Place {
    if k <= |lines| then At(k, m) else Lost
  }

  /** The line that begins one past a target, where a branch lands. */
  function Behind(lines: seq<LineInfo>, base: nat, target: int): nat
    requires Laid(lines)
  {
    Search(lines, base, C.Wrap(target + 1), 0)
  }

  /** The operand of a branch as it is assembled, a jump's with the halves of its target or-ed. */
  function LowByte(line: LineInfo): nat { if IsJump(line.instr) then L.JumpLow(line.imm) else Lo(line.imm) }

  function HighByte(line: LineInfo): nat { if IsJump(line.instr) then 0 else Hi(line.imm) }

  /** The word that the emulator takes from the operand, by JP and CP high byte first. */
  function Reaches(line: LineInfo): nat {
    if line.instr in {JP, CP} then 0x100 * LowByte(line) + HighByte(line)
    else 0x100 * HighByte(line) + LowByte(line)
  }

  /** A branch that reaches what is written in its operand. */
  predicate KeepsTarget(line: LineInfo) {
    match line.instr
    case JMP | JNC | JZ => line.imm % 0x1_0000 < 0x100
    case JP => line.imm % 0x100 == 0
    case CP => Lo(line.imm) == Hi(line.imm)
    case _ => true
  }

  /** Whether the condition of a branch is met. */
  predicate Taken(m: Mnemonic, cc: C.Flags) {
    match m
    case CNZ => !cc.z
    case CZ | JZ | RZ => cc.z
    case JNC => !cc.cy
    case JP | CP => cc.p
    case _ => true
  }

  /** The branches that push a return address: JZ does, CP does not. */
  predicate Pushes(m: Mnemonic) { m in {CALL, CNZ, CZ, JZ} }

  /** A call leaves the address of its last byte on the stack. */
  function CallFrom(lines: seq<LineInfo>, base: nat, i: nat, m: Machine): Place
    requires Laid(lines) && i < |lines|
  {
    Arrive(lines, Behind(lines, base, Reaches(lines[i])), PushPair(m, C.Wrap(base + Offset(lines, i) + 2)))
  }

  /** A return goes on one past the address on the stack. */
  function ReturnFrom(lines: seq<LineInfo>, base: nat, m: Machine): Place
    requires Laid(lines)
  {
    var k := Search(lines, base, C.Wrap(C.ReadWord(m.mem, m.sp) + 1), 0);
    Arrive(lines, k, m.(sp := C.Wrap(m.sp + 2)))
  }

  /** Where line i goes when its branch is taken. */
  function Branch(lines: seq<LineInfo>, base: nat, i: nat, m: Machine): Place
    requires Laid(lines) && i < |lines|
  {
    if lines[i].instr in {RET, RZ} then ReturnFrom(lines, base, m)
    else if Pushes(lines[i].instr) then CallFrom(lines, base, i, m)
    else Arrive(lines, Behind(lines, base, Reaches(lines[i])), m)
  }

  /** What line i does, and where it goes; not taken, only CNZ and RZ go on to the next line, not into their operand. */
  function Next(lines: seq<LineInfo>, base: nat, i: nat, m: Machine): Place
    requires Flowing(lines) && i < |lines|
  {
    var line := lines[i];
    if Runs(line) then At(i + 1, Do(line, m))
    else if Taken(line.instr, m.cc) then Branch(lines, base, i, m)
    else if line.instr in {CNZ, RZ} then At(i + 1, m)
    else Lost
  }

  /** Where n lines lead, one after the other as they are reached. */
  function Flow(lines: seq<LineInfo>, base: nat, i: nat, m: Machine, n: nat): Place
    requires Flowing(lines)
  {
    if n == 0 then At(i, m)
    else
      match Flow(lines, base, i, m, n - 1)
      case Lost => Lost
      case At(k, m1) => if k < |lines| then Next(lines, base, k, m1) else Lost
  }

  function Writes(line: LineInfo, m: Machine): set<word>
    requires Simulated(line)
  {
    if Runs(line) then StoresTo(line, m)
    else if Pushes(line.instr) && Taken(line.instr, m.cc) then {C.Wrap(m.sp - 1), C.Wrap(m.sp - 2)}
    else {}
  }

  /** The n lines gone through store nothing into the code, a call's return address included. */
  ghost predicate FlowMisses(lines: seq<LineInfo>, base: nat, i: nat, m: Machine, n: nat, size: nat)
    requires Flowing(lines)
  {
    forall j :: 0 <= j < n ==>
      match Flow(lines, base, i, m, j)
      case Lost => true
      case At(k, m1) => k < |lines| ==> forall addr | addr in Writes(lines[k], m1) :: !(base <= addr < base + size)
  }

  // ---- one line ----

  /** The emulator, at line i, arrives where the line goes. */
  ghost predicate Arrives(lines: seq<LineInfo>, base: nat, s: C.State, p: Place)
    requires Laid(lines)
  {
    p.At? && p.line <= |lines| && C.Step(s) == Running(p.m, C.Wrap(base + Offset(lines, p.line)))
  }

  lemma OffsetNext(lines: seq<LineInfo>, i: nat)
    requires Laid(lines) && i < |lines|
    ensures Offset(lines, i + 1) == Offset(lines, i) + |EncodedBytes(lines[i])|
  {
    hide EncodedBytes, Lexable;
  }

  /** The operand of a branch, and what the emulator makes of it. */
  lemma BranchOperand(line: LineInfo)
    requires Lexable(line) && Branches(line) && line.instr !in {RET, RZ}
    ensures LowByte(line) < 0x100 && HighByte(line) < 0x100
    ensures EncodedBytes(line) == [L.OpOf(line.instr), LowByte(line), HighByte(line)]
    ensures Reaches(line)
         == if line.instr in {JP, CP} then C.Pair(LowByte(line), HighByte(line))
            else C.Pair(HighByte(line), LowByte(line))
  {
    hide EncodedBytes, Lexable, Lo, Hi, L.JumpLow, L.OpOf;
    if IsJump(line.instr) {
      L.JumpBytesAt(line);
    } else {
      L.CallBytesAt(line);
    }
  }

  /** What is reached is what is written exactly when the operand survives being assembled and read. */
  lemma ReachesTarget(line: LineInfo)
    requires Lexable(line) && Branches(line) && line.instr !in {RET, RZ}
    ensures C.Wrap(Reaches(line) + 1) == C.Wrap(line.imm + 1) <==> KeepsTarget(line)
  {
    hide EncodedBytes, Lexable, Lo, Hi, L.JumpLow, L.OpOf, Reaches, C.Wrap, C.Pair;
    BranchOperand(line);
    L.TargetWord(line.imm);
    if IsJump(line.instr) {
      L.LandsLow(line.imm);
      L.LandsHigh(line.imm);
    } else {
      L.SamePair(Lo(line.imm), Hi(line.imm), Hi(line.imm), Lo(line.imm));
    }
  }

  lemma PushIsPair(s: C.State, ret: word, pc: word)
    ensures C.Push(s, Hi(ret), Lo(ret)).(pc := pc) == Running(PushPair(MachineOf(s), ret), pc)
  {
    hide Hi, Lo, C.Write;
  }

  lemma ReturnSteps(s: C.State)
    requires S.IsReturn(s)
    ensures C.Step(s) == Running(MachineOf(s).(sp := C.Wrap(s.sp + 2)), C.Wrap(C.ReadWord(s.mem, s.sp) + 1))
  {
    hide C.Step, C.ReadWord, S.IsReturn;
    S.Brackets(s);
  }

  lemma NoReturn(s: C.State)
    requires C.Opcode(s) == 0xC8 && !s.cc.z
    ensures C.Step(s) == Running(MachineOf(s), C.Wrap(s.pc + 1))
  {
    hide C.Row0, C.Row1, C.Row2, C.Row3, C.MovGroup, C.ArithGroup, C.LogicGroup, C.RowD, C.RowE, C.RowF;
  }

  lemma CallArrives(lines: seq<LineInfo>, base: nat, s: C.State, i: nat)
    requires Laid(lines) && i < |lines| && s.pc == base + Offset(lines, i)
    requires Branches(lines[i]) && Pushes(lines[i].instr) && S.IsCall(s) && R.Fetched(s, EncodedBytes(lines[i]))
    requires C.Wrap(s.sp - 1) !in {s.pc + 1, s.pc + 2} && C.Wrap(s.sp - 2) !in {s.pc + 1, s.pc + 2}
    requires CallFrom(lines, base, i, MachineOf(s)).At?
    ensures Arrives(lines, base, s, CallFrom(lines, base, i, MachineOf(s)))
  {
    hide EncodedBytes, Lexable, Offset, C.Step, C.Push, C.Pair, C.Wrap, S.IsCall, PushPair, Hi, Lo, R.Fetched, Search;
    hide LowByte, HighByte, Reaches, L.OpOf;
    var line := lines[i];
    BranchOperand(line);
    L.Fetch3(s, EncodedBytes(line)[0], LowByte(line), HighByte(line));
    L.CallSteps(s, EncodedBytes(line)[0], LowByte(line), HighByte(line));
    Found(lines, base, C.Wrap(Reaches(line) + 1), 0);
    PushIsPair(s, C.Wrap(s.pc + 2), C.Wrap(Reaches(line) + 1));
  }

  lemma ReturnArrives(lines: seq<LineInfo>, base: nat, s: C.State)
    requires Laid(lines) && S.IsReturn(s) && ReturnFrom(lines, base, MachineOf(s)).At?
    ensures Arrives(lines, base, s, ReturnFrom(lines, base, MachineOf(s)))
  {
    hide EncodedBytes, Lexable, Offset, C.Step, C.ReadWord, C.Wrap, S.IsReturn, Search;
    ReturnSteps(s);
    Found(lines, base, C.Wrap(C.ReadWord(s.mem, s.sp) + 1), 0);
  }

  lemma JumpArrives(lines: seq<LineInfo>, base: nat, s: C.State, i: nat)
    requires Laid(lines) && i < |lines| && Branches(lines[i]) && lines[i].instr in {JMP, JNC, JP, CP}
    requires R.Fetched(s, EncodedBytes(lines[i])) && Taken(lines[i].instr, s.cc)
    requires Behind(lines, base, Reaches(lines[i])) <= |lines|
    ensures Arrives(lines, base, s, At(Behind(lines, base, Reaches(lines[i])), MachineOf(s)))
  {
    hide EncodedBytes, Lexable, Offset, C.Step, C.Pair, C.Wrap, R.Fetched, Search, Reaches, LowByte, HighByte;
    var line := lines[i];
    BranchOperand(line);
    L.JumpGoes(s, EncodedBytes(line)[0], LowByte(line), HighByte(line));
    Found(lines, base, C.Wrap(Reaches(line) + 1), 0);
  }

  lemma OnArrives(lines: seq<LineInfo>, base: nat, s: C.State, i: nat, m: Machine)
    requires Laid(lines) && i < |lines| && s.pc == base + Offset(lines, i)
    requires C.Step(s) == Running(m, C.Wrap(s.pc + |EncodedBytes(lines[i])|))
    ensures Arrives(lines, base, s, At(i + 1, m))
  {
    hide EncodedBytes, Lexable, Offset, C.Step, C.Wrap;
    OffsetNext(lines, i);
  }

  lemma BranchBytes(line: LineInfo)
    requires Lexable(line) && line.instr in {RET, RZ}
    ensures EncodedBytes(line) == [if line.instr == RET then 0xC9 else 0xC8]
  {
    hide EncodedBytes;
    Encodes(line);
  }

  /** A branch taken that pushes is a call. */
  lemma TakenCalls(s: C.State, line: LineInfo)
    requires Lexable(line) && Branches(line) && R.Fetched(s, EncodedBytes(line))
    requires Pushes(line.instr) && Taken(line.instr, s.cc)
    ensures S.IsCall(s)
  {
    hide EncodedBytes, Lexable, R.Fetched, LowByte, HighByte;
    BranchOperand(line);
    L.Fetch3(s, EncodedBytes(line)[0], LowByte(line), HighByte(line));
  }

  /** The step of the emulator on a line whose branch is taken. */
  lemma TakenArrives(lines: seq<LineInfo>, base: nat, s: C.State, i: nat)
    requires Laid(lines) && i < |lines| && s.pc == base + Offset(lines, i)
    requires R.Fetched(s, EncodedBytes(lines[i])) && Branches(lines[i]) && Taken(lines[i].instr, s.cc)
    requires Pushes(lines[i].instr) ==> C.Wrap(s.sp - 1) !in {s.pc + 1, s.pc + 2}
    requires Pushes(lines[i].instr) ==> C.Wrap(s.sp - 2) !in {s.pc + 1, s.pc + 2}
    requires Branch(lines, base, i, MachineOf(s)).At?
    ensures Arrives(lines, base, s, Branch(lines, base, i, MachineOf(s)))
  {
    hide EncodedBytes, Lexable, Offset, C.Step, C.Wrap, Behind, Search, Arrives, PushPair, ReturnFrom, CallFrom,
         Reaches, C.ReadWord, R.Fetched, S.IsCall, S.IsReturn;
    var line := lines[i];
    if line.instr in {RET, RZ} {
      assert S.IsReturn(s) by { ReturnFetched(s, line); }
      ReturnArrives(lines, base, s);
    } else if Pushes(line.instr) {
      TakenCalls(s, line);
      CallArrives(lines, base, s, i);
    } else {
      JumpArrives(lines, base, s, i);
    }
  }

  lemma ReturnFetched(s: C.State, line: LineInfo)
    requires Lexable(line) && line.instr in {RET, RZ} && R.Fetched(s, EncodedBytes(line))
    ensures C.Opcode(s) == if line.instr == RET then 0xC9 else 0xC8
    ensures Taken(line.instr, s.cc) ==> S.IsReturn(s)
  {
    hide EncodedBytes, Lexable;
    BranchBytes(line);
    assert s.mem[s.pc + 0] == EncodedBytes(line)[0];
  }

  /** The step of the emulator on a line that branches. */
  lemma BranchArrives(lines: seq<LineInfo>, base: nat, s: C.State, i: nat)
    requires Flowing(lines) && i < |lines| && s.pc == base + Offset(lines, i)
    requires R.Fetched(s, EncodedBytes(lines[i])) && !Runs(lines[i])
    requires forall addr | addr in Writes(lines[i], MachineOf(s)) :: !(s.pc <= addr < s.pc + |EncodedBytes(lines[i])|)
    requires Next(lines, base, i, MachineOf(s)).At?
    ensures Arrives(lines, base, s, Next(lines, base, i, MachineOf(s)))
  {
    hide EncodedBytes, Lexable, Offset, C.Step, C.Wrap, Runs, Arrives, Laid, Branch, R.Fetched, LowByte, HighByte;
    var line := lines[i];
    assert Simulated(line);
    if Taken(line.instr, s.cc) {
      if Pushes(line.instr) {
        BranchOperand(line);
        assert C.Wrap(s.sp - 1) in Writes(line, MachineOf(s)) && C.Wrap(s.sp - 2) in Writes(line, MachineOf(s));
      }
      TakenArrives(lines, base, s, i);
    } else if line.instr == CNZ {
      BranchOperand(line);
      L.NotTaken(s, 0xC4, LowByte(line), HighByte(line));
      OnArrives(lines, base, s, i, MachineOf(s));
    } else {
      ReturnFetched(s, line);
      BranchBytes(line);
      NoReturn(s);
      OnArrives(lines, base, s, i, MachineOf(s));
    }
  }

  // ---- any number of lines ----

  lemma NextStores(lines: seq<LineInfo>, base: nat, i: nat, m: Machine, addr: word)
    requires Flowing(lines) && i < |lines| && Next(lines, base, i, m).At? && addr !in Writes(lines[i], m)
    ensures Next(lines, base, i, m).m.mem[addr] == m.mem[addr]
  {
    hide Runs, Lexable, Offset, Search, Behind, Do, StoresTo, Hi, Lo;
    if Runs(lines[i]) {
      StoresOnly(lines[i], m, addr);
    }
  }

  lemma NextLoaded(lines: seq<LineInfo>, base: nat, i: nat, m: Machine, image: seq<byte>)
    requires Flowing(lines) && i < |lines| && Next(lines, base, i, m).At? && Loaded(m.mem, base, image)
    requires forall addr | addr in Writes(lines[i], m) :: !(base <= addr < base + |image|)
    ensures Loaded(Next(lines, base, i, m).m.mem, base, image)
  {
    hide Next, Writes, Flowing;
    var m1 := Next(lines, base, i, m).m;
    forall d | 0 <= d < |image|
      ensures m1.mem[base + d] == image[d]
    {
      NextStores(lines, base, i, m, base + d);
    }
  }

  lemma RunArrives(lines: seq<LineInfo>, base: nat, s: C.State, i: nat)
    requires Flowing(lines) && i < |lines| && s.pc == base + Offset(lines, i) && Runs(lines[i])
    requires R.Fetched(s, EncodedBytes(lines[i]))
    ensures Arrives(lines, base, s, Next(lines, base, i, MachineOf(s)))
  {
    hide EncodedBytes, Lexable, C.Step, C.Wrap, Behind, Search, Runs, Arrives, Do, R.Fetched, Offset;
    R.LineRuns(lines[i], s);
    OnArrives(lines, base, s, i, Do(lines[i], MachineOf(s)));
  }

  lemma OwnBytes(lines: seq<LineInfo>, base: nat, i: nat, writes: set<word>)
    requires Laid(lines) && i < |lines|
    requires forall addr | addr in writes :: !(base <= addr < base + |CodeBytes(lines, |lines|)|)
    ensures var pc := base + Offset(lines, i);
      forall addr | addr in writes :: !(pc <= addr < pc + |EncodedBytes(lines[i])|)
  {
    hide EncodedBytes, Lexable, Offset, CodeBytes;
    CodeAt(lines, i, |lines|);
  }

  lemma FlowingLaid(lines: seq<LineInfo>)
    ensures Flowing(lines) ==> Laid(lines)
  {
  }

  /** One step of the emulator at any line of a program in memory. */
  lemma LineArrives(lines: seq<LineInfo>, base: nat, s: C.State, i: nat)
    requires Flowing(lines) && i < |lines| && s.pc == base + Offset(lines, i)
    requires Loaded(s.mem, base, CodeBytes(lines, |lines|))
    requires forall addr | addr in Writes(lines[i], MachineOf(s)) ::
      !(base <= addr < base + |CodeBytes(lines, |lines|)|)
    requires Next(lines, base, i, MachineOf(s)).At?
    ensures Arrives(lines, base, s, Next(lines, base, i, MachineOf(s)))
  {
    hide *;
    FlowingLaid(lines);
    FetchedFrom(s, lines, base, i);
    if Runs(lines[i]) {
      RunArrives(lines, base, s, i);
    } else {
      assert Simulated(lines[i]) by { SimulatedAt(lines, i); }
      OwnBytes(lines, base, i, Writes(lines[i], MachineOf(s)));
      BranchArrives(lines, base, s, i);
    }
  }

  lemma SimulatedAt(lines: seq<LineInfo>, i: nat)
    requires Flowing(lines) && i < |lines|
    ensures Simulated(lines[i])
  {
  }

  lemma BelowEnd(lines: seq<LineInfo>, base: nat, mem: C.Memory, i: nat)
    requires Laid(lines) && i < |lines| && Loaded(mem, base, CodeBytes(lines, |lines|))
    ensures base + Offset(lines, i) < 0x1_0000
  {
    hide EncodedBytes, Lexable, AssemLine, Image, TableSafe, SizeOf;
    CodeAt(lines, i, |lines|);
    AssembledLine(lines[i]);
  }

  /**
   * Control flow: with the image of a program in memory and the program counter at one of its lines, for as long as
   * the lines lead to lines and nothing is stored into the image, n steps of the emulator are n lines of the program:
   * the same registers, flags and memory, and the program counter at the line arrived at.
   */
  lemma {:induction false} FlowRuns(lines: seq<LineInfo>, base: nat, s: C.State, i: nat, n: nat)
    requires Flowing(lines) && i <= |lines| && s.pc == LineAddress(lines, base, i)
    requires Loaded(s.mem, base, CodeBytes(lines, |lines|))
    requires FlowMisses(lines, base, i, MachineOf(s), n, |CodeBytes(lines, |lines|)|)
    requires Flow(lines, base, i, MachineOf(s), n).At?
    ensures var p := Flow(lines, base, i, MachineOf(s), n);
      && p.line <= |lines| && C.StepN(s, n) == Running(p.m, LineAddress(lines, base, p.line))
      && Loaded(p.m.mem, base, CodeBytes(lines, |lines|))
  {
    hide EncodedBytes, Lexable, Simulated, Next, CodeBytes, Loaded, C.Step, Writes, C.Wrap, Offset, Laid;
    if n > 0 {
      FlowRuns(lines, base, s, i, n - 1);
      var p := Flow(lines, base, i, MachineOf(s), n - 1);
      BelowEnd(lines, base, p.m.mem, p.line);
      S.WrapWord(base + Offset(lines, p.line));
      var s1 := Running(p.m, LineAddress(lines, base, p.line));
      LineArrives(lines, base, s1, p.line);
      NextLoaded(lines, base, p.line, p.m, CodeBytes(lines, |lines|));
    }
  }

  // ---- labels, calls and returns ----

  lemma {:induction false} OffsetsGrow(lines: seq<LineInfo>, j: nat, k: nat)
    requires Laid(lines) && j < k <= |lines|
    ensures Offset(lines, j) < Offset(lines, k)
    decreases k
  {
    hide EncodedBytes, Lexable, AssemLine, Image, TableSafe, SizeOf;
    AssembledLine(lines[k - 1]);
    if j < k - 1 {
      OffsetsGrow(lines, j, k - 1);
    }
  }

  /** The line at a line's own address is that line, the end of the program included unless it is the end of memory. */
  lemma {:induction false} SearchFinds(lines: seq<LineInfo>, base: nat, j: nat, k: nat)
    requires Laid(lines) && k <= j <= |lines| && base + Offset(lines, j) < 0x1_0000
    ensures Search(lines, base, LineAddress(lines, base, j), k) == j
    decreases j - k
  {
    hide Offset, Laid, C.Wrap;
    S.WrapWord(base + Offset(lines, j));
    if k < j {
      OffsetsGrow(lines, k, j);
      S.WrapWord(base + Offset(lines, k));
      SearchFinds(lines, base, j, k + 1);
    }
  }

  /** Inside a line no line begins. */
  lemma {:induction false} NoneInside(lines: seq<LineInfo>, base: nat, j: nat, addr: nat, k: nat)
    requires Laid(lines) && j < |lines| && k <= |lines| && base + Offset(lines, |lines|) <= 0x1_0000
    requires base + Offset(lines, j) < addr < base + Offset(lines, j + 1)
    ensures Search(lines, base, addr, k) == |lines| + 1
    decreases |lines| - k
  {
    hide Offset, Laid, C.Wrap;
    Elsewhere(lines, base, j, addr, k);
    if k < |lines| {
      NoneInside(lines, base, j, addr, k + 1);
    }
  }

  lemma Elsewhere(lines: seq<LineInfo>, base: nat, j: nat, addr: nat, k: nat)
    requires Laid(lines) && j < |lines| && k <= |lines| && base + Offset(lines, |lines|) <= 0x1_0000
    requires base + Offset(lines, j) < addr < base + Offset(lines, j + 1)
    ensures LineAddress(lines, base, k) != addr
  {
    hide Offset, Laid;
    if k < |lines| {
      OffsetsGrow(lines, k, |lines|);
    }
    if k < j {
      OffsetsGrow(lines, k, j);
    } else if k > j + 1 {
      OffsetsGrow(lines, j + 1, k);
    }
  }

  /** A return address left by the call at line i leads a return to the line behind the call. */
  lemma ReturnMeetsCall(lines: seq<LineInfo>, base: nat, i: nat)
    requires Flowing(lines) && i < |lines| && base + Offset(lines, i + 1) < 0x1_0000 && Pushes(lines[i].instr)
    ensures Search(lines, base, C.Wrap(C.Wrap(base + Offset(lines, i) + 2) + 1), 0) == i + 1
  {
    hide EncodedBytes, Lexable, Offset, Runs, Search, LowByte, HighByte, C.Wrap;
    assert Simulated(lines[i]);
    PushesBranches(lines[i]);
    BranchOperand(lines[i]);
    OffsetNext(lines, i);
    L.OneMore(base + Offset(lines, i) + 2);
    SearchFinds(lines, base, i + 1, 0);
  }

  lemma PushesBranches(line: LineInfo)
    requires Simulated(line) && Pushes(line.instr)
    ensures Branches(line)
  {
  }

  // ---- a whole source ----

  lemma SimulatedSize(line: LineInfo)
    requires Simulated(line)
    ensures Accepted(line) && Emitted(line) == |EncodedBytes(line)| && Surplus(line) == 0
  {
    hide EncodedBytes, AssemLine, Image, TableSafe, Emitted, FormOf;
    AssembledLine(line);
    NotSpace(line);
    FormSizes(line.instr, line);
  }

  lemma NotSpace(line: LineInfo)
    requires Simulated(line)
    ensures line.instr !in {DS, ACI, ANI} && FormOf(line.instr) != Unsupported && (line.instr == CALL ==> line.hasImm)
  {
  }

  lemma {:induction false} AddressesAre(st: LexState, start: int, k: nat)
    requires Placed(st, start) && Flowing(st.lines) && k <= |st.lines|
    ensures (if k < |st.lines| then st.lines[k].addr else st.addr) == start + Offset(st.lines, k)
  {
    hide EncodedBytes, Accepted, Emitted, Surplus, Lexable, Simulated, SymbolsOf;
    if k > 0 {
      AddressesAre(st, start, k - 1);
      SimulatedSize(st.lines[k - 1]);
      assert TakesItsBytes(st, k - 1);
    }
  }

  /** A source of such lines builds, and every line lies where the lexer put it. */
  lemma FlowBuilds(src: string, start: int)
    requires LexAll(src, NewlineCount(src), start).status == 0
    requires Flowing(LexAll(src, NewlineCount(src), start).st.lines)
    ensures var lines := LexAll(src, NewlineCount(src), start).st.lines;
      && BuildOf(src, start) == Built(CodeBytes(lines, |lines|))
      && forall k :: 0 <= k < |lines| ==> lines[k].addr == start + Offset(lines, k)
  {
    hide LexAll, NewlineCount, AssemFrom, Image, CodeBytes, AllTableSafe, Placed, Offset, Simulated, Lexable;
    var st := LexAll(src, NewlineCount(src), start).st;
    SourcePlaced(src, NewlineCount(src), start);
    AssembledImage(st.lines);
    forall k | 0 <= k < |st.lines|
      ensures st.lines[k].addr == start + Offset(st.lines, k)
    {
      AddressesAre(st, start, k);
    }
  }

  /**
   * From any source text to its execution, branches included. With its image loaded at the start address and the
   * program counter there, for as long as its lines lead to lines and nothing is stored into the image, n steps of
   * the emulator are n lines of the source, and the program counter is the address the lexer gave the line arrived at.
   */
  lemma SourceFlows(src: string, start: nat, image: seq<byte>, s: C.State, n: nat)
    requires LexAll(src, NewlineCount(src), start).status == 0 && BuildOf(src, start) == Built(image)
    requires Flowing(LexAll(src, NewlineCount(src), start).st.lines)
    requires s.pc == C.Wrap(start) && Loaded(s.mem, start, image)
    requires var lines := LexAll(src, NewlineCount(src), start).st.lines;
      && FlowMisses(lines, start, 0, MachineOf(s), n, |image|) && Flow(lines, start, 0, MachineOf(s), n).At?
    ensures var lines := LexAll(src, NewlineCount(src), start).st.lines;
      var p := Flow(lines, start, 0, MachineOf(s), n);
      && p.line <= |lines| && MachineOf(C.StepN(s, n)) == p.m
      && (p.line < |lines| ==> C.StepN(s, n).pc == C.Wrap(lines[p.line].addr))
  {
    hide *;
    FlowBuilds(src, start);
    var lines := LexAll(src, NewlineCount(src), start).st.lines;
    FlowingLaid(lines);
    LineAddresses(lines, start);
    FlowRuns(lines, start, s, 0, n);
    var p := Flow(lines, start, 0, MachineOf(s), n);
    MachineAgain(p.m, LineAddress(lines, start, p.line));
  }

  lemma LineAddresses(lines: seq<LineInfo>, base: nat)
    requires Laid(lines)
    ensures LineAddress(lines, base, 0) == C.Wrap(base)
    ensures forall k :: 0 <= k < |lines| ==> LineAddress(lines, base, k) == C.Wrap(base + Offset(lines, k))
  {
    hide EncodedBytes, Lexable, C.Wrap;
  }

  lemma MachineAgain(m: Machine, pc: word)
    ensures MachineOf(Running(m, pc)) == m && Running(m, pc).pc == pc
  {
  }

  /** Where a branch to a line lands: behind it if it is one byte long, and else inside it, where no line begins. */
  lemma LandsBehind(lines: seq<LineInfo>, base: nat, j: nat)
    requires Laid(lines) && j < |lines| && base + Offset(lines, |lines|) <= 0x1_0000
    ensures var target, r := base + Offset(lines, j), Behind(lines, base, base + Offset(lines, j));
      if |EncodedBytes(lines[j])| != 1 then r == |lines| + 1
      else
        && C.Wrap(target + 1) == LineAddress(lines, base, j + 1)
        && (base + Offset(lines, j + 1) < 0x1_0000 ==> r == j + 1)
  {
    hide EncodedBytes, Lexable, Offset, Search, C.Wrap;
    OffsetNext(lines, j);
    var target := base + Offset(lines, j);
    if |EncodedBytes(lines[j])| == 1 {
      if base + Offset(lines, j + 1) < 0x1_0000 {
        SearchFinds(lines, base, j + 1, 0);
      }
    } else {
      OffsetsGrow(lines, j, j + 1);
      InMemory(lines, base, j + 1);
      S.WrapWord(target + 1);
      NoneInside(lines, base, j, target + 1, 0);
    }
  }

  lemma InMemory(lines: seq<LineInfo>, base: nat, k: nat)
    requires Laid(lines) && k <= |lines| && base + Offset(lines, |lines|) <= 0x1_0000
    ensures base + Offset(lines, k) <= 0x1_0000
  {
    hide Offset, Laid;
    if k < |lines| {
      OffsetsGrow(lines, k, |lines|);
    }
  }

  /**
   * In it a branch to a label, forward or backward, lands one past the first line whose label begins with the name,
   * exactly when its operand survives; and there it goes on behind that line if the line is one byte long, and
   * otherwise at no line's beginning.
   */
  lemma LabelsFollowed(src: string, start: nat, i: nat)
    requires LexAll(src, NewlineCount(src), start).status == 0
    requires Flowing(LexAll(src, NewlineCount(src), start).st.lines)
    requires var lines := LexAll(src, NewlineCount(src), start).st.lines;
      && start + Offset(lines, |lines|) <= 0x1_0000
      && i < |lines| && lines[i].symbolStr != "" && FirstMatch(lines, lines[i].symbolStr) < |lines|
      && Branches(lines[i]) && lines[i].instr !in {RET, RZ}
    ensures var lines := LexAll(src, NewlineCount(src), start).st.lines;
      var j, r := FirstMatch(lines, lines[i].symbolStr), Behind(lines, start, Reaches(lines[i]));
      && (C.Wrap(Reaches(lines[i]) + 1) == C.Wrap(start + Offset(lines, j) + 1) <==> KeepsTarget(lines[i]))
      && (KeepsTarget(lines[i]) ==>
            if |EncodedBytes(lines[j])| != 1 then r == |lines| + 1
            else start + Offset(lines, j + 1) < 0x1_0000 ==> r == j + 1)
  {
    hide LexAll, LexLoop, NewlineCount, FirstMatch, BuildOf, CodeBytes, Offset, Simulated, EncodedBytes, C.Wrap, Search,
         Lexable, Reaches, KeepsTarget, Branches;
    FlowBuilds(src, start);
    var lines := LexAll(src, NewlineCount(src), start).st.lines;
    var j := FirstMatch(lines, lines[i].symbolStr);
    LabelsResolve(src, NewlineCount(src), start, i);
    ReachesTarget(lines[i]);
    LandsBehind(lines, start, j);
  }
}
