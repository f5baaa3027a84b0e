/**
 * What a source line does to the machine, by the names of its registers: the meaning the compiled program is
 * compared with. It knows nothing of opcodes, encodings or where the program lies. Its registers, memory and carry are
 * the 8080's; its other flags are the emulator's, and ArithmeticFlags and LogicalFlags say when they are the 8080's.
 */
module Meaning {
  import opened Bits
  import opened Opcodes
  import opened Source
  import opened CpuSpec

  /** The machine without its program counter. */
  datatype Machine = Machine(
    a: byte, b: byte, c: byte, d: byte, e: byte, h: byte, l: byte,
    sp: word, mem: Memory, cc: Flags, intEnable: bool)

  function MachineOf(s: State): Machine {
    Machine(s.a, s.b, s.c, s.d, s.e, s.h, s.l, s.sp, s.mem, s.cc, s.intEnable)
  }

  function Running(m: Machine, pc: word): State {
    State(m.a, m.b, m.c, m.d, m.e, m.h, m.l, m.sp, pc, m.mem, m.cc, m.intEnable)
  }

  // ---- registers by name ----

  predicate Single(r: Reg) { r in {REG_A, REG_B, REG_C, REG_D, REG_E, REG_H, REG_L, REG_M} }

  function Get(m: Machine, r: Reg): byte
    requires Single(r)
  {
    match r
    case REG_A => m.a case REG_B => m.b case REG_C => m.c case REG_D => m.d
    case REG_E => m.e case REG_H => m.h case REG_L => m.l
    case REG_M => Read(m.mem, GetPair(m, REG_H))
  }

  function Put(m: Machine, r: Reg, v: byte): Machine
    requires Single(r)
  {
    match r
    case REG_A => m.(a := v) case REG_B => m.(b := v) case REG_C => m.(c := v) case REG_D => m.(d := v)
    case REG_E => m.(e := v) case REG_H => m.(h := v) case REG_L => m.(l := v)
    case REG_M => m.(mem := Write(m.mem, GetPair(m, REG_H), v))
  }

  predicate Paired(r: Reg) { r in {REG_B, REG_D, REG_H, REG_S} }

  function GetPair(m: Machine, r: Reg): word
    requires Paired(r)
  {
    match r
    case REG_B => Pair(m.b, m.c)
    case REG_D => Pair(m.d, m.e)
    case REG_H => Pair(m.h, m.l)
    case REG_S => m.sp
  }

  function PutPair(m: Machine, r: Reg, v: word): Machine
    requires Paired(r)
  {
    match r
    case REG_B => m.(b := Hi(v), c := Lo(v))
    case REG_D => m.(d := Hi(v), e := Lo(v))
    case REG_H => m.(h := Hi(v), l := Lo(v))
    case REG_S => m.(sp := v)
  }

  // ---- instructions ----

  /**
   * The accumulator and the flags after an arithmetic result, which is not a byte when there was a carry. As in the
   * emulator the parity flag is set for zero only, and the auxiliary carry is not touched.
   */
  function Arithmetic(m: Machine, result: int): Machine {
    var r := result % 0x100;
    m.(a := r, cc := m.cc.(z := r == 0, s := r >= 0x80, p := r == 0, cy := result != r))
  }

  /** After a logic result; as in the emulator the parity flag is set for odd parity, and zero is not touched. */
  function Logical(m: Machine, r: byte): Machine {
    m.(a := r, cc := m.cc.(s := r >= 0x80, p := PopCount(r) % 2 == 1, cy := false, ac := false))
  }

  /** The flags the 8080 sets: zero, sign, even parity and the two carries. */
  function Flags8080(result: int, half: bool): Flags {
    var r := result % 0x100;
    Flags(r == 0, r >= 0x80, PopCount(r) % 2 == 0, result != r, half)
  }

  /**
   * After arithmetic the flags are the 8080's exactly when the result is zero or its bits are odd in number, and the
   * auxiliary carry was right already.
   */
  lemma ArithmeticFlags(m: Machine, result: int, half: bool)
    ensures Arithmetic(m, result).cc == Flags8080(result, half)
       <==> (result % 0x100 == 0 || PopCount(result % 0x100) % 2 == 1) && m.cc.ac == half
  {
    assert PopCount(0) == 0;
    hide PopCount;
  }

  /** After logic the parity flag is never the 8080's, and the others are exactly when zero was right already. */
  lemma LogicalFlags(m: Machine, r: byte)
    ensures Logical(m, r).cc.p != Flags8080(r, false).p
    ensures Logical(m, r).cc.(p := Flags8080(r, false).p) == Flags8080(r, false) <==> m.cc.z == (r == 0)
  {
    hide PopCount;
  }

  function Increment(m: Machine, r: Reg): Machine
    requires Paired(r)
  {
    PutPair(m, r, (GetPair(m, r) + 1) % 0x1_0000)
  }

  /** 16-bit addition into HL, which touches no flag but the carry. */
  function AddPair(m: Machine, r: Reg): Machine
    requires Paired(r)
  {
    var sum := GetPair(m, REG_H) + GetPair(m, r);
    PutPair(m, REG_H, sum % 0x1_0000).(cc := m.cc.(cy := sum >= 0x1_0000))
  }

  function PushPair(m: Machine, v: word): Machine {
    m.(mem := Write(Write(m.mem, m.sp - 1, Hi(v)), m.sp - 2, Lo(v)), sp := Wrap(m.sp - 2))
  }

  /**
   * The lines that run as they are written. Left out are MOV B,D, which copies C; MOV M,M, which halts; the
   * memory forms of SUB, ANA, XRA and ORA, which use HL itself; ORA A, which clears; and the registers whose
   * opcode the emulator does not implement or reads its operand from the wrong place.
   */
  predicate Runs(line: LineInfo) {
    match line.instr
    case MOV =>
      && Single(line.reg0) && Single(line.reg1)
      && !(line.reg0 == REG_B && line.reg1 == REG_D) && !(line.reg0 == REG_M && line.reg1 == REG_M)
    case MVI => line.reg0 in {REG_A, REG_B, REG_C, REG_H, REG_L, REG_M} && 0 <= line.imm < 0x100
    case ADD => Single(line.reg0)
    case SUB | ANA | XRA => Single(line.reg0) && line.reg0 != REG_M
    case ORA => Single(line.reg0) && line.reg0 != REG_M && line.reg0 != REG_A
    case INX => Paired(line.reg0)
    case DAD => line.reg0 in {REG_B, REG_D, REG_H}
    case LXI => line.reg0 in {REG_D, REG_H}
    case STAX => line.reg0 == REG_B
    case PUSH => line.reg0 in {REG_D, REG_H}
    case POP => line.reg0 == REG_B
    case _ => false
  }

  function Do(line: LineInfo, m: Machine): Machine
    requires Runs(line)
  {
    match line.instr
    case MOV => Put(m, line.reg0, Get(m, line.reg1))
    case MVI => Put(m, line.reg0, line.imm)
    case ADD => Arithmetic(m, m.a + Get(m, line.reg0))
    case SUB => Arithmetic(m, m.a - Get(m, line.reg0))
    case ANA => Logical(m, And(m.a, Get(m, line.reg0)))
    case XRA => Logical(m, Xor(m.a, Get(m, line.reg0)) % 0x100)
    case ORA => Logical(m, Or(m.a, Get(m, line.reg0)) % 0x100)
    case INX => Increment(m, line.reg0)
    case DAD => AddPair(m, line.reg0)
    case LXI => PutPair(m, line.reg0, line.imm % 0x1_0000)
    case STAX => m.(mem := Write(m.mem, GetPair(m, REG_B), m.a))
    case PUSH => PushPair(m, GetPair(m, line.reg0))
    case POP => PutPair(m, REG_B, ReadWord(m.mem, m.sp)).(sp := Wrap(m.sp + 2))
  }

  /** The memory a line can write in a machine. */
  function StoresTo(line: LineInfo, m: Machine): set<word>
    requires Runs(line)
  {
    match line.instr
    case MOV | MVI => if line.reg0 == REG_M then {GetPair(m, REG_H)} else {}
    case STAX => {GetPair(m, REG_B)}
    case PUSH => {Wrap(m.sp - 1), Wrap(m.sp - 2)}
    case _ => {}
  }

  /** Nothing else is written. */
  lemma StoresOnly(line: LineInfo, m: Machine, addr: word)
    requires Runs(line) && addr !in StoresTo(line, m)
    ensures Do(line, m).mem[addr] == m.mem[addr]
  {
    hide And, Or, Xor, PopCount, Lo, Hi, Pair, Read, ReadWord, Get;
    match line.instr
    case MOV => PutStores(m, line.reg0, Get(m, line.reg1), addr);
    case MVI => PutStores(m, line.reg0, line.imm, addr);
    case _ =>
  }

  lemma PutStores(m: Machine, r: Reg, v: byte, addr: word)
    requires Single(r) && (r == REG_M ==> addr != GetPair(m, REG_H))
    ensures Put(m, r, v).mem[addr] == m.mem[addr]
  {
  }

  /** The machine after the first n lines. */
  function DoAll(lines: seq<LineInfo>, n: nat, m: Machine): Machine
    requires n <= |lines| && forall k :: 0 <= k < |lines| ==> Runs(lines[k])
  {
    if n == 0 then m else Do(lines[n - 1], DoAll(lines, n - 1, m))
  }
}
