/**
 * The instruction set of the 8080 as Intel's manual has it, decoded by the fields of the opcode byte: the text of an
 * instruction, its operand bytes and its states. Nothing in it is taken from the emulator or the disassembler.
 */
module Manual {
  import opened Bits

  /** Registers, pairs, conditions and arithmetic rows are numbered as their fields are. */
  datatype Instruction =
    | Nop | Lxi(p: nat) | Dad(p: nat) | Stax(p: nat) | Ldax(p: nat) | Shld | Lhld | Sta | Lda
    | Inx(p: nat) | Dcx(p: nat) | Inr(r: nat) | Dcr(r: nat) | Mvi(r: nat)
    | Rlc | Rrc | Ral | Rar | Daa | Cma | Stc | Cmc
    | Mov(r: nat, from: nat) | Hlt | Alu(row: nat, r: nat)
    | ReturnIf(c: nat) | Pop(p: nat) | Ret | Pchl | Sphl
    | JumpIf(c: nat) | Jmp | Out | In | Xthl | Xchg | Di | Ei
    | CallIf(c: nat) | Push(p: nat) | Call | AluImm(row: nat) | Rst(n: nat)
    | Undefined

  const M: nat := 6

  /** The bits of an opcode byte: two of the group, then two fields of three. */
  function Decode(op: byte): Instruction {
    var y, z := op / 8 % 8, op % 8;
    match op / 0x40
    case 0 => DecodeLow(y, z)
    case 1 => if y == M && z == M then Hlt else Mov(y, z)
    case 2 => Alu(y, z)
    case _ => DecodeHigh(y, z)
  }

  function DecodeLow(y: nat, z: nat): Instruction {
    match z
    case 0 => if y == 0 then Nop else Undefined
    case 1 => if y % 2 == 0 then Lxi(y / 2) else Dad(y / 2)
    case 2 =>
      if y == 4 then Shld else if y == 5 then Lhld else if y == 6 then Sta else if y == 7 then Lda
      else if y % 2 == 0 then Stax(y / 2) else Ldax(y / 2)
    case 3 => if y % 2 == 0 then Inx(y / 2) else Dcx(y / 2)
    case 4 => Inr(y)
    case 5 => Dcr(y)
    case 6 => Mvi(y)
    case _ =>
      match y
      case 0 => Rlc case 1 => Rrc case 2 => Ral case 3 => Rar case 4 => Daa case 5 => Cma case 6 => Stc case _ => Cmc
  }

  function DecodeHigh(y: nat, z: nat): Instruction {
    match z
    case 0 => ReturnIf(y)
    case 1 =>
      if y % 2 == 0 then Pop(y / 2)
      else if y == 1 then Ret else if y == 5 then Pchl else if y == 7 then Sphl else Undefined
    case 2 => JumpIf(y)
    case 3 => DecodeControl(y)
    case 4 => CallIf(y)
    case 5 => if y % 2 == 0 then Push(y / 2) else if y == 1 then Call else Undefined
    case 6 => AluImm(y)
    case _ => Rst(y)
  }

  function DecodeControl(y: nat): Instruction {
    match y
    case 0 => Jmp case 2 => Out case 3 => In case 4 => Xthl case 5 => Xchg case 6 => Di case 7 => Ei
    case _ => Undefined
  }

  lemma DecodedLow(op: byte, y: nat)
    requires y < 8 && 8 * y <= op < 8 * y + 8
    ensures Decode(op) == DecodeLow(y, op - 8 * y)
  {
    hide DecodeLow;
  }

  lemma DecodedHigh(op: byte, y: nat)
    requires y < 8 && 0xC0 + 8 * y <= op < 0xC8 + 8 * y
    ensures Decode(op) == DecodeHigh(y, op - 0xC0 - 8 * y)
  {
    hide DecodeHigh;
  }

  /** The bytes behind the opcode. */
  function OperandBytes(i: Instruction): nat {
    match i
    case Lxi(_) | Shld | Lhld | Sta | Lda | JumpIf(_) | Jmp | CallIf(_) | Call => 2
    case Mvi(_) | AluImm(_) | Out | In => 1
    case _ => 0
  }

  // ---- the text ----

  function RegisterName(r: nat): string {
    match r
    case 0 => "B" case 1 => "C" case 2 => "D" case 3 => "E" case 4 => "H" case 5 => "L" case 6 => "M" case _ => "A"
  }

  /** The fourth pair is the stack pointer, or for PUSH and POP the status word. */
  function PairName(p: nat, fourth: string): string {
    match p
    case 0 => "B" case 1 => "D" case 2 => "H" case _ => fourth
  }

  function ReturnName(c: nat): string {
    match c
    case 0 => "RNZ" case 1 => "RZ" case 2 => "RNC" case 3 => "RC"
    case 4 => "RPO" case 5 => "RPE" case 6 => "RP" case _ => "RM"
  }

  function JumpName(c: nat): string {
    match c
    case 0 => "JNZ" case 1 => "JZ" case 2 => "JNC" case 3 => "JC"
    case 4 => "JPO" case 5 => "JPE" case 6 => "JP" case _ => "JM"
  }

  function CallName(c: nat): string {
    match c
    case 0 => "CNZ" case 1 => "CZ" case 2 => "CNC" case 3 => "CC"
    case 4 => "CPO" case 5 => "CPE" case 6 => "CP" case _ => "CM"
  }

  function AluName(row: nat): string {
    match row
    case 0 => "ADD" case 1 => "ADC" case 2 => "SUB" case 3 => "SBB"
    case 4 => "ANA" case 5 => "XRA" case 6 => "ORA" case _ => "CMP"
  }

  function AluImmName(row: nat): string {
    match row
    case 0 => "ADI" case 1 => "ACI" case 2 => "SUI" case 3 => "SBI"
    case 4 => "ANI" case 5 => "XRI" case 6 => "ORI" case _ => "CPI"
  }

  function RestartName(n: nat): string {
    match n
    case 0 => "0" case 1 => "1" case 2 => "2" case 3 => "3" case 4 => "4" case 5 => "5" case 6 => "6" case _ => "7"
  }

  function NameOf(i: Instruction): string {
    match i
    case Nop => "NOP" case Lxi(_) => "LXI" case Dad(_) => "DAD" case Stax(_) => "STAX" case Ldax(_) => "LDAX"
    case Shld => "SHLD" case Lhld => "LHLD" case Sta => "STA" case Lda => "LDA" case Inx(_) => "INX"
    case Dcx(_) => "DCX" case Inr(_) => "INR" case Dcr(_) => "DCR" case Mvi(_) => "MVI"
    case Rlc => "RLC" case Rrc => "RRC" case Ral => "RAL" case Rar => "RAR"
    case Daa => "DAA" case Cma => "CMA" case Stc => "STC" case Cmc => "CMC"
    case Mov(_, _) => "MOV" case Hlt => "HLT" case Alu(row, _) => AluName(row)
    case ReturnIf(c) => ReturnName(c) case Pop(_) => "POP" case Ret => "RET" case Pchl => "PCHL" case Sphl => "SPHL"
    case JumpIf(c) => JumpName(c) case Jmp => "JMP" case Out => "OUT" case In => "IN"
    case Xthl => "XTHL" case Xchg => "XCHG" case Di => "DI" case Ei => "EI"
    case CallIf(c) => CallName(c) case Push(_) => "PUSH" case Call => "CALL"
    case AluImm(row) => AluImmName(row) case Rst(_) => "RST" case Undefined => ""
  }

  /** The registers named in the text of an instruction, or the number of a restart. */
  function RegistersOf(i: Instruction): string {
    match i
    case Lxi(p) => PairName(p, "SP") case Dad(p) => PairName(p, "SP")
    case Inx(p) => PairName(p, "SP") case Dcx(p) => PairName(p, "SP")
    case Stax(p) => PairName(p, "SP") case Ldax(p) => PairName(p, "SP")
    case Push(p) => PairName(p, "PSW") case Pop(p) => PairName(p, "PSW")
    case Inr(r) => RegisterName(r) case Dcr(r) => RegisterName(r) case Mvi(r) => RegisterName(r)
    case Alu(_, r) => RegisterName(r)
    case Mov(r, from) => RegisterName(r) + "," + RegisterName(from)
    case Rst(n) => RestartName(n)
    case _ => ""
  }

  // ---- the time ----

  /** The states of an instruction, a conditional call or return taken or not. */
  function States(i: Instruction, taken: bool): nat {
    match i
    case Lxi(_) | Dad(_) | Pop(_) | Ret | JumpIf(_) | Jmp | Out | In => 10
    case Stax(_) | Ldax(_) | AluImm(_) | Hlt => 7
    case Shld | Lhld => 16
    case Sta | Lda => 13
    case Inx(_) | Dcx(_) | Pchl | Sphl => 5
    case Inr(r) => if r == M then 10 else 5
    case Dcr(r) => if r == M then 10 else 5
    case Mvi(r) => if r == M then 10 else 7
    case Mov(r, from) => if r == M || from == M then 7 else 5
    case Alu(_, r) => if r == M then 7 else 4
    case ReturnIf(_) => if taken then 11 else 5
    case CallIf(_) => if taken then 17 else 11
    case Call => 17
    case Push(_) | Rst(_) => 11
    case Xthl => 18
    case _ => 4
  }
}
