/** Registers, tokens and lexed lines: what the lexer hands to the assembler. */
module Source {
  import opened Bits
  import opened Opcodes

  datatype Reg = REG_NONE | REG_A | REG_B | REG_C | REG_D | REG_E | REG_H | REG_L | REG_M | REG_S | REG_PSW

  function RegCode(c: char): Reg {
    match c
    case 'A' => REG_A case 'a' => REG_A
    case 'B' => REG_B case 'b' => REG_B
    case 'C' => REG_C case 'c' => REG_C
    case 'D' => REG_D case 'd' => REG_D
    case 'E' => REG_E case 'e' => REG_E
    case 'H' => REG_H case 'h' => REG_H
    case 'L' => REG_L case 'l' => REG_L
    case 'M' => REG_M case 'm' => REG_M
    case 'S' => REG_S case 's' => REG_S
    case 'P' => REG_PSW case 'p' => REG_PSW
    case _ => REG_NONE
  }

  /** A register as it is written; `S` and `PSW` stand for the stack pointer and the status word. */
  function RegName(r: Reg): string {
    match r
    case REG_A => "A" case REG_B => "B" case REG_C => "C" case REG_D => "D" case REG_E => "E"
    case REG_H => "H" case REG_L => "L" case REG_M => "M" case REG_S => "SP" case REG_PSW => "PSW"
    case REG_NONE => ""
  }

  /**
   * A line of the source as the lexer leaves it. An empty label or symbol is an absent one; `blocks` is the
   * content of the line's byte list, one sequence for each node.
   */
  datatype LineInfo = LineInfo(
    instr: Mnemonic, labelStr: string, symbolStr: string, blocks: seq<seq<byte>>,
    lineNum: int, addr: int, hasImm: bool, imm: int, reg0: Reg, reg1: Reg, error: bool)

  const BLANK: LineInfo := LineInfo(INVALID, "", "", [], 0, 0, false, 0, REG_NONE, REG_NONE, false)

  function Flatten(blocks: seq<seq<byte>>): seq<byte> {
    if blocks == [] then [] else blocks[0] + Flatten(blocks[1..])
  }

  lemma {:induction false} FlattenAppend(xs: seq<seq<byte>>, ys: seq<seq<byte>>)
    ensures Flatten(xs + ys) == Flatten(xs) + Flatten(ys)
  {
    if xs == [] {
      assert xs + ys == ys;
    } else {
      assert (xs + ys)[1..] == xs[1..] + ys;
      FlattenAppend(xs[1..], ys);
    }
  }

  datatype Symbol = Symbol(addr: int, name: string)

  datatype TokenType =
    | SYM_NONE | SYM_LITERAL | SYM_LABEL | SYM_DIRECTIVE | SYM_INSTR | SYM_REG | SYM_STRING | SYM_COMMA

  /** A token: its type and the text of the token buffer as a C string. */
  datatype Token = Token(kind: TokenType, text: string)
}
