/** Source programs as values, their text, and the lines they mean. */
module Printer {
  import opened Bits
  import opened Opcodes
  import opened Source
  import opened LexSpec
  import opened Scanning
  import opened Literals

  datatype Arg = Register(r: Reg) | Number(v: nat, style: Style) | Named(sym: string) | Text(s: string)

  datatype Statement = Statement(m: Mnemonic, args: seq<Arg>)

  /** A program line: a statement, behind a label unless that is empty. */
  datatype Line = Line(name: string, stmt: Statement)

  // ---- what is well formed ----

  const LABEL_MAX: nat := 31  // of the 32 bytes of `label_str`

  predicate IsLabel(s: string) { IsWord(s) && |s| <= LABEL_MAX && Classify(s) == SYM_LABEL }

  predicate ArgOk(a: Arg) {
    match a
    case Register(r) => r != REG_NONE
    case Number(v, _) => v < 0x8000_0000
    case Named(sym) => IsLabel(sym)
    case Text(s) => IsText(s)
  }

  predicate Value16(a: Arg) { a.Number? || a.Named? }

  /** The operands each form takes. */
  predicate ArgsFit(f: Form, args: seq<Arg>) {
    match f
    case OneReg => |args| == 1 && args[0].Register?
    case TwoReg => |args| == 2 && args[0].Register? && args[1].Register?
    case Imm8 | Imm16 | Space => |args| == 1 && Value16(args[0])
    case RegImm8 | RegImm16 => |args| == 2 && args[0].Register? && Value16(args[1])
    case Data => args != [] && forall i :: 0 <= i < |args| ==> !args[i].Register?
    case Bare => args == []
    case Unsupported => false
  }

  /** The mnemonics that can be written: the ones parsed, but SBI, whose name is not in the table. */
  predicate Writable(m: Mnemonic) { FormOf(m) != Unsupported && m != SBI }

  predicate StatementOk(s: Statement) {
    && Writable(s.m) && ArgsFit(FormOf(s.m), s.args)
    && forall i :: 0 <= i < |s.args| ==> ArgOk(s.args[i])
  }

  predicate LineOk(l: Line) { (l.name == "" || IsLabel(l.name)) && StatementOk(l.stmt) }

  predicate ProgramOk(prog: seq<Line>) { forall k :: 0 <= k < |prog| ==> LineOk(prog[k]) }

  // ---- the text ----

  function ArgText(a: Arg): string {
    match a
    case Register(r) => RegName(r)
    case Number(v, style) => Written(v, style)
    case Named(sym) => sym
    case Text(s) => "\"" + s + "\""
  }

  /** The operands from the second on, behind their commas. */
  function MoreText(args: seq<Arg>): string {
    if args == [] then "" else ", " + ArgText(args[0]) + MoreText(args[1..])
  }

  function ArgsText(args: seq<Arg>): string {
    if args == [] then "" else ArgText(args[0]) + MoreText(args[1..])
  }

  function StatementText(s: Statement): string {
    Opcodes.Name(s.m) + if s.args == [] then "" else " " + ArgsText(s.args)
  }

  function LineText(l: Line): string {
    (if l.name == "" then "" else l.name + ": ") + StatementText(l.stmt)
  }

  /** Every line ends with its newline. */
  function Print(prog: seq<Line>): string {
    if prog == [] then "" else LineText(prog[0]) + "\n" + Print(prog[1..])
  }

  // ---- what the lexer keeps ----

  /** The bytes of a string: its characters and a zero. */
  function TextBytes(s: string): seq<byte> { seq(|s|, i requires 0 <= i < |s| => Lo(s[i] as int)) + [0] }

  /** The bytes kept of a data argument: of any number its low byte, and none of a symbol. */
  function KeptBytes(a: Arg): seq<byte> {
    match a
    case Number(v, _) => [Lo(v)]
    case Text(s) => TextBytes(s)
    case _ => []
  }

  function KeptBlocks(args: seq<Arg>): seq<seq<byte>> {
    if args == [] then []
    else (if args[0].Named? then [] else [KeptBytes(args[0])]) + KeptBlocks(args[1..])
  }

  /** The last symbol named among data arguments. */
  function LastName(args: seq<Arg>, before: string): string {
    if args == [] then before
    else LastName(args[1..], if args[0].Named? then args[0].sym else before)
  }

  function ValueIn(line: LineInfo, a: Arg): LineInfo {
    match a
    case Number(v, _) => line.(imm := v, hasImm := true)
    case Named(sym) => line.(symbolStr := sym)
    case _ => line
  }

  /** A line with the operands of a statement in their places, data as it is kept. */
  function Operands(f: Form, args: seq<Arg>, line: LineInfo): LineInfo
    requires ArgsFit(f, args)
  {
    match f
    case OneReg => line.(reg0 := args[0].r)
    case TwoReg => line.(reg0 := args[0].r, reg1 := args[1].r)
    case Imm8 | Imm16 | Space => ValueIn(line, args[0])
    case RegImm8 | RegImm16 => ValueIn(line.(reg0 := args[0].r), args[1])
    case Data => line.(blocks := line.blocks + KeptBlocks(args), symbolStr := LastName(args, line.symbolStr))
    case Bare => line
  }

  /** The bytes counted for a statement, a DS counted as one. */
  function Bytes(s: Statement): nat {
    match FormOf(s.m)
    case Imm8 | RegImm8 => 2
    case RegImm16 | Imm16 => 3
    case Data => TotalBytes(KeptBlocks(s.args))
    case _ => 1
  }

  /** A statement whose register the lexer does not keep: one with a symbol behind the register. */
  predicate Drops(f: Form, args: seq<Arg>) { f in {RegImm8, RegImm16} && |args| == 2 && args[1].Named? }

  predicate DropsRegister(s: Statement) { Drops(FormOf(s.m), s.args) }

  /** The line as the lexer leaves it. */
  function Kept(l: Line, lineNum: int, addr: int): LineInfo
    requires StatementOk(l.stmt)
  {
    var f, args := FormOf(l.stmt.m), l.stmt.args;
    var line := Operands(f, args, BLANK.(labelStr := l.name)).(instr := l.stmt.m, lineNum := lineNum, addr := addr);
    if Drops(f, args) then line.(reg0 := REG_NONE) else line
  }

  /** The address the lexer gives line k of a program that starts at an address. */
  function AddressAt(prog: seq<Line>, k: nat, start: int): int
    requires k <= |prog|
  {
    if k == 0 then start else AddressAt(prog, k - 1, start) + Bytes(prog[k - 1].stmt)
  }

  // ---- the meaning ----

  /** The address of the label of this name, or 0. */
  function AddressOfLabel(labels: seq<Symbol>, sym: string): int {
    if labels == [] then 0
    else if labels[0].name == sym then labels[0].addr
    else AddressOfLabel(labels[1..], sym)
  }

  /** A value among the data: one byte of a DB, two of a DW, the low one first. */
  function Sized(m: Mnemonic, v: int): seq<byte> { if m == DW then [Lo(v), Hi(v)] else [Lo(v)] }

  /** The bytes a data argument stands for: a number's, a string's, or those of a symbol's address. */
  function MeantBytes(m: Mnemonic, a: Arg, labels: seq<Symbol>): seq<byte> {
    match a
    case Number(v, _) => Sized(m, v)
    case Named(sym) => Sized(m, AddressOfLabel(labels, sym))
    case Text(s) => TextBytes(s)
    case Register(_) => []
  }

  function MeantBlocks(m: Mnemonic, args: seq<Arg>, labels: seq<Symbol>): seq<seq<byte>> {
    if args == [] then [] else [MeantBytes(m, args[0], labels)] + MeantBlocks(m, args[1..], labels)
  }

  /** The line as it is written: its label, its mnemonic, every operand, its place. */
  function Meant(l: Line, lineNum: int, addr: int, labels: seq<Symbol>): LineInfo
    requires StatementOk(l.stmt)
  {
    var line := BLANK.(labelStr := l.name, instr := l.stmt.m, lineNum := lineNum, addr := addr);
    if FormOf(l.stmt.m) == Data then line.(blocks := MeantBlocks(l.stmt.m, l.stmt.args, labels))
    else Operands(FormOf(l.stmt.m), l.stmt.args, line)
  }

  /** The bytes a DS leaves free. */
  function Spaces(a: Arg, labels: seq<Symbol>): int {
    match a
    case Number(v, _) => v
    case Named(sym) => AddressOfLabel(labels, sym)
    case _ => 0
  }

  /** The bytes a statement stands for. */
  function Takes(s: Statement, labels: seq<Symbol>): int
    requires StatementOk(s)
  {
    match FormOf(s.m)
    case Imm8 | RegImm8 => 2
    case RegImm16 | Imm16 => 3
    case Data => TotalBytes(MeantBlocks(s.m, s.args, labels))
    case Space => Spaces(s.args[0], labels)
    case _ => 1
  }

  /** The address line k of a program is meant to have. */
  function MeantAddress(prog: seq<Line>, k: nat, start: int, labels: seq<Symbol>): int
    requires ProgramOk(prog) && k <= |prog|
  {
    if k == 0 then start else MeantAddress(prog, k - 1, start, labels) + Takes(prog[k - 1].stmt, labels)
  }

  /** Data that is kept as it is meant: strings, and numbers of one byte each. */
  predicate KeepsData(s: Statement) {
    FormOf(s.m) == Data ==>
      forall i :: 0 <= i < |s.args| ==> s.args[i].Text? || (s.args[i].Number? && s.m == DB)
  }

  /** A statement that loses nothing when it is read: no symbol behind a register, and data that is kept. */
  predicate ReadAsMeant(s: Statement) { !DropsRegister(s) && KeepsData(s) }

  /** A statement for which exactly its bytes are counted: of a DS, one. */
  predicate Counted(s: Statement, labels: seq<Symbol>)
    requires StatementOk(s)
  {
    KeepsData(s) && (FormOf(s.m) == Space ==> Spaces(s.args[0], labels) == 1)
  }
}
