/** How the assembler turns a lexed line into an instruction word, shift by shift and or by or. */
module Encoding {
  import opened Bits
  import opened Opcodes
  import opened Source
  import opened Vectors

  /** The registers that have an entry in the register table. */
  predicate InTable(r: Reg) { r != REG_S && r != REG_PSW }

  function RegBits(r: Reg): (b: nat)
    requires InTable(r)
    ensures b < 8
  {
    match r
    case REG_NONE => 0
    case REG_A => 7
    case REG_B => 0
    case REG_C => 1
    case REG_D => 2
    case REG_E => 3
    case REG_H => 4
    case REG_L => 5
    case REG_M => 6
  }

  function PairBits(r: Reg): (b: nat)
    ensures b < 4
  {
    match r
    case REG_D => 1 case REG_E => 1
    case REG_H => 2 case REG_L => 2
    case REG_S => 3
    case _ => 0
  }

  function ArithCode(m: Mnemonic): nat {
    match m
    case ADD => Shl(1, 7)
    case ADC => Or(Shl(1, 3), Shl(1, 7))
    case SUB => Or(Shl(2, 3), Shl(1, 7))
    case SBB => Or(Shl(3, 3), Shl(1, 7))
    case ANA => Or(Shl(4, 3), Shl(1, 7))
    case XRA => Or(Shl(5, 3), Shl(1, 7))
    case ORA => Or(Shl(6, 3), Shl(1, 7))
    case CMP => Or(Shl(7, 3), Shl(1, 7))
    case RLC => 7
    case RRC => Or(Shl(1, 3), 7)
    case RAL => Or(Shl(2, 3), 7)
    case RAR => Or(Shl(3, 3), 7)
    case _ => 0
  }

  function MoveCode(m: Mnemonic): nat {
    match m
    case PUSH => Or(Shl(3, 6), 5)
    case POP => Or(Shl(3, 6), 1)
    case DAD => 9
    case INX => 3
    case DCX => 0xB
    case XCHG => 0xEB
    case XTHL => 0xE3
    case SPHL => 0xF9
    case MOV => Shl(1, 6)
    case _ => 0
  }

  function JumpCode(m: Mnemonic): nat {
    var code := Or(Shl(3, 22), Shl(1, 17));
    match m
    case JMP => Or(code, Shl(1, 16))
    case JZ => Or(code, Shl(1, 19))
    case JNC => Or(code, Shl(2, 19))
    case JC => Or(code, Shl(3, 19))
    case JPO => Or(code, Shl(4, 19))
    case JPE => Or(code, Shl(5, 19))
    case JP => Or(code, Shl(6, 19))
    case JM => Or(code, Shl(7, 19))
    case _ => code
  }

  function ReturnCode(m: Mnemonic): nat {
    var code := Shl(3, 6);
    match m
    case RET => Or(code, 9)
    case RC => Or(code, Shl(3, 3))
    case RNC => Or(code, Shl(2, 3))
    case RZ => Or(code, Shl(1, 3))
    case RM => Or(code, Shl(7, 3))
    case RP => Or(code, Shl(6, 3))
    case RPE => Or(code, Shl(5, 3))
    case RPO => Or(code, Shl(4, 3))
    case _ => code
  }

  function CallCode(m: Mnemonic): nat {
    var code := Or(Shl(3, 6), Shl(1, 2));
    match m
    case CALL => Or(Or(code, Shl(1, 3)), 1)
    case CZ => Or(code, Shl(1, 3))
    case CC => Or(code, Shl(3, 3))
    case CPO => Or(code, Shl(4, 3))
    case CPE => Or(code, Shl(5, 3))
    case CP => Or(code, Shl(6, 3))
    case CM => Or(code, Shl(7, 3))
    case _ => code
  }

  // ---- one writer for each kind of instruction ----

  function ArithWord(m: Mnemonic, r: Reg): nat
    requires InTable(r)
  {
    Or(ArithCode(m), RegBits(r))
  }

  function SingleWord(op: nat, r: Reg): nat
    requires InTable(r)
  {
    Or(op, Shl(RegBits(r), 3))
  }

  function PairWord(op: nat, r: Reg): nat { Or(op, Shl(PairBits(r), 4)) }

  function Imm8Word(op: nat, imm: int): nat {
    Or(Or(Or(Shl(3, 14), Shl(op, 11)), Shl(6, 8)), U32(imm))
  }

  function MviWord(r: Reg, imm: int): nat
    requires InTable(r)
  {
    Or(Or(Shl(6, 8), Shl(RegBits(r), 11)), U32(imm))
  }

  function LxiWord(r: Reg, imm: int): nat {
    Or(Or(Or(Shl(1, 16), Shl(PairBits(r), 20)), Shl(And(U32(imm), 0xFF), 8)), Shr(And(U32(imm), 0xFF00), 8))
  }

  function MoveWord(m: Mnemonic, d: Reg, s: Reg): nat
    requires InTable(d) && InTable(s)
  {
    Or(Or(MoveCode(m), Shl(RegBits(d), 3)), RegBits(s))
  }

  /** The high byte of a jump target is not shifted down, so it is or-ed into the low byte's place. */
  function JumpWord(m: Mnemonic, imm: int): nat {
    Or(Or(JumpCode(m), Shl(And(U32(imm), 0xFF), 8)), And(U32(imm), 0xFF00))
  }

  function CallWord(m: Mnemonic, imm: int): nat {
    Or(Or(Shl(CallCode(m), 16), Shl(And(U32(imm), 0xFF), 8)), Shr(And(U32(imm), 0xFF00), 8))
  }

  datatype Encoded = Word(word: nat, size: nat) | Blocks | Unknown

  /** The lines whose registers the assembler looks up, and so must be in the table. */
  predicate TableSafe(line: LineInfo) {
    match line.instr
    case ADC | ADD | ANA | CMP | ORA | RAR | RLC | RRC | SBB | SUB | XRA | INR | DCR | MVI => InTable(line.reg0)
    case MOV | POP | PUSH | SPHL | XCHG => InTable(line.reg0) && InTable(line.reg1)
    case _ => true
  }

  function Encode(line: LineInfo): Encoded
    requires TableSafe(line)
  {
    match line.instr
    case ADC | ADD | ANA | CMP | ORA | RAR | RLC | RRC | SBB | SUB | XRA =>
      Word(ArithWord(line.instr, line.reg0), 1)
    case ADI => Word(Imm8Word(0, line.imm), 2)
    case ACI => Word(Imm8Word(1, line.imm), 2)
    case SUI => Word(Imm8Word(2, line.imm), 2)
    case SBI => Word(Imm8Word(3, line.imm), 2)
    case ANI => Word(Imm8Word(4, line.imm), 2)
    case XRI => Word(Imm8Word(5, line.imm), 2)
    case ORI => Word(Imm8Word(6, line.imm), 2)
    case CPI => Word(Imm8Word(7, line.imm), 2)
    case MVI => Word(MviWord(line.reg0, line.imm), 2)
    case LXI => Word(LxiWord(line.reg0, line.imm), 3)
    case DAD => Word(PairWord(9, line.reg0), 1)
    case DCX => Word(PairWord(0xB, line.reg0), 1)
    case INX => Word(PairWord(3, line.reg0), 1)
    case INR => Word(SingleWord(4, line.reg0), 1)
    case DCR => Word(SingleWord(5, line.reg0), 1)
    case CMA => Word(0x2F, 1)
    case DAA => Word(0x27, 1)
    case STAX => Word(PairWord(2, line.reg0), 1)
    case LDAX => Word(PairWord(8, line.reg0), 1)
    case PCHL => Word(0xE9, 1)
    case MOV | POP | PUSH | SPHL | XCHG => Word(MoveWord(line.instr, line.reg0, line.reg1), 1)
    case JP | JMP | JC | JNC | JZ | JNZ | JM => Word(JumpWord(line.instr, line.imm), 3)
    case CALL | CC | CNZ | CM | CP | CPE | CPO | CZ => Word(CallWord(line.instr, line.imm), 3)
    case RET | RC | RNC | RZ | RNZ | RM | RP | RPE | RPO => Word(ReturnCode(line.instr), 1)
    case DB | DS | DW => Blocks
    case _ => Unknown
  }

  function WrapAddr(a: int): word { a % 0x1_0000 }

  /** The blocks of a data line in order, one byte an instruction, at consecutive addresses. */
  function DataInstrs(data: seq<byte>, addr: int): (r: seq<Instr>)
    ensures |r| == |data|
    ensures forall i :: 0 <= i < |r| ==> r[i] == Instr(data[i], WrapAddr(addr + i), 1)
  {
    seq(|data|, i requires 0 <= i < |data| => Instr(data[i], WrapAddr(addr + i), 1))
  }

  datatype Assembled = Assembled(status: int, instrs: seq<Instr>)

  /** One line; an unknown opcode still emits the blank instruction, and then stops the assembly. */
  function AssemLine(line: LineInfo): (a: Assembled)
    requires TableSafe(line)
    ensures a.status == 0 || a.status == -1
  {
    match Encode(line)
    case Word(word, size) => Assembled(0, [Instr(word, WrapAddr(line.addr), size)])
    case Blocks => Assembled(0, DataInstrs(Flatten(line.blocks), line.addr))
    case Unknown => Assembled(-1, [Instr(0, 0, 1)])
  }

  ghost predicate AllTableSafe(lines: seq<LineInfo>) { forall line | line in lines :: TableSafe(line) }

  /** The lines from index i on. */
  function AssemFrom(lines: seq<LineInfo>, i: nat): (a: Assembled)
    requires AllTableSafe(lines) && i <= |lines|
    ensures a.status == 0 || a.status == -1
    decreases |lines| - i
  {
    if i == |lines| then Assembled(0, [])
    else
      var first := AssemLine(lines[i]);
      if first.status < 0 then first
      else
        var rest := AssemFrom(lines, i + 1);
        Assembled(rest.status, first.instrs + rest.instrs)
  }

  /** The instructions of a line that is accepted come before those of the rest. */
  lemma AssemUnfold(lines: seq<LineInfo>, i: nat)
    requires AllTableSafe(lines) && i < |lines| && AssemLine(lines[i]).status == 0
    ensures var rest := AssemFrom(lines, i + 1);
      AssemFrom(lines, i) == Assembled(rest.status, AssemLine(lines[i]).instrs + rest.instrs)
  {
    hide AssemLine, TableSafe;
  }

  // ---- the byte image ----

  /** The bytes of an instruction: its word's lowest `size` bytes, highest first, as it is printed. */
  function InstrBytes(i: Instr): seq<byte> {
    if i.size == 1 then [Lo(i.word)]
    else if i.size == 2 then [Hi(i.word), Lo(i.word)]
    else if i.size == 3 then [Lo(i.word / 0x1_0000), Hi(i.word), Lo(i.word)]
    else []
  }

  function Image(instrs: seq<Instr>): seq<byte> {
    if instrs == [] then [] else InstrBytes(instrs[0]) + Image(instrs[1..])
  }

  lemma {:induction false} ImageAppend(xs: seq<Instr>, ys: seq<Instr>)
    ensures Image(xs + ys) == Image(xs) + Image(ys)
  {
    if xs == [] {
      assert xs + ys == ys;
    } else {
      assert (xs + ys)[1..] == xs[1..] + ys;
      ImageAppend(xs[1..], ys);
    }
  }
}
