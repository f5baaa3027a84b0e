/**
 * What the lexer computes, as functions of the source text and a position in it. Past its end the text reads
 * as NUL.
 */
module LexSpec {
  import opened Bits
  import opened Opcodes
  import opened Source

  const TOKEN_MAX: nat := 63  // TOKEN_BUF_SIZE - 1

  function CharAt(src: string, p: nat): char { if p < |src| then src[p] else '\0' }

  predicate IsWhitespace(c: char) { c == ' ' || c == '\t' || c == '\n' }

  predicate IsComment(c: char) { c == ';' || c == '#' }

  predicate IsSeparator(c: char) { c == ',' || c == ':' || c == ' ' }

  predicate EndsWord(c: char) { IsWhitespace(c) || c == '!' || IsComment(c) || c == ',' || c == ':' }

  function SkipWhitespace(src: string, p: nat): (q: nat)
    ensures p <= q
    ensures !IsWhitespace(CharAt(src, q))
    decreases |src| - p
  {
    if IsWhitespace(CharAt(src, p)) then SkipWhitespace(src, p + 1) else p
  }

  /** The position after the newline that ends a comment. */
  function SkipComment(src: string, p: nat): (q: nat)
    ensures p < |src| ==> p < q
    decreases |src| - p
  {
    if p >= |src| then p
    else if src[p] == '\n' then p + 1
    else if p + 1 == |src| then p + 1
    else SkipComment(src, p + 1)
  }

  /** The newlines at positions 1 to p; the line counter moves when the cursor arrives at one. */
  function Newlines(src: string, p: nat): nat {
    if p == 0 then 0 else Newlines(src, p - 1) + if CharAt(src, p) == '\n' then 1 else 0
  }

  function LineAt(src: string, p: nat): nat { 1 + Newlines(src, p) }

  // ---- tokens ----

  /** Where a word stops that already has n characters: at a separator, or when the buffer is full. */
  function WordEnd(src: string, p: nat, n: nat): (e: nat)
    requires n <= TOKEN_MAX
    ensures p <= e <= p + (TOKEN_MAX - n)
    decreases TOKEN_MAX - n
  {
    if n == TOKEN_MAX || EndsWord(CharAt(src, p)) then p else WordEnd(src, p + 1, n + 1)
  }

  function StringEnd(src: string, p: nat, n: nat): (e: nat)
    requires n <= TOKEN_MAX
    ensures p <= e <= p + (TOKEN_MAX - n)
    decreases TOKEN_MAX - n
  {
    if n == TOKEN_MAX || CharAt(src, p) == '"' then p else StringEnd(src, p + 1, n + 1)
  }

  function Chars(src: string, p: nat, q: nat): (s: string)
    requires p <= q
    ensures |s| == q - p
    ensures forall i :: 0 <= i < |s| ==> s[i] == CharAt(src, p + i)
  {
    seq(q - p, i requires 0 <= i < q - p => CharAt(src, p + i))
  }

  /** The cursor moves over one separator that follows a token. */
  function PastSeparator(src: string, q: nat): (r: nat)
    ensures q <= r <= q + 1
  {
    if IsSeparator(CharAt(src, q)) then q + 1 else q
  }

  /** The buffer after one scan, a string with its leading quote or a word, and the cursor. */
  function ScanToken(src: string, p0: nat): (r: (string, nat))
    ensures |r.0| <= TOKEN_MAX
    ensures r.0 != "" ==> p0 < r.1
  {
    var p := SkipWhitespace(src, p0);
    if CharAt(src, p) == '"' then
      var e := StringEnd(src, p + 1, 1);
      (Chars(src, p, e), PastSeparator(src, e + 1))
    else
      var e := WordEnd(src, p, 0);
      var q := if e - p < TOKEN_MAX && CharAt(src, e) == ':' then e + 1 else e;
      (Chars(src, p, e), PastSeparator(src, q))
  }

  /** A character array read as a C string: up to the first NUL. */
  function CString(s: string): (r: string)
    ensures |r| <= |s|
    ensures r == s[..|r|] && '\0' !in r
    ensures '\0' !in s ==> r == s
  {
    if s == [] || s[0] == '\0' then [] else [s[0]] + CString(s[1..])
  }

  predicate IsDigit(c: char) { '0' <= c <= '9' }

  function Classify(text: string): TokenType {
    if text == "" then SYM_NONE
    else if text[0] == '"' then SYM_STRING
    else if IsDigit(text[0]) then SYM_LITERAL
    else if |text| == 1 && text[0] in "ABCDEHLMS" then SYM_REG
    else if text == "," then SYM_COMMA
    else if text == "SP" || text == "PSW" then SYM_REG
    else if DirectiveNamed(text) != NONE then SYM_DIRECTIVE
    else if Instruction(text) != INVALID then SYM_INSTR
    else SYM_LABEL
  }

  function TokenOf(text: string): Token { Token(Classify(text), text) }

  function NextToken(src: string, p: nat): (r: (Token, nat))
    ensures r.0.text != "" ==> p < r.1
    ensures r.0.kind == SYM_NONE <==> r.0.text == ""
  {
    var (buf, next) := ScanToken(src, p);
    (TokenOf(CString(buf)), next)
  }

  // ---- literals ----

  predicate IsLiteralChar(c: char) { IsDigit(c) || 'a' <= c <= 'f' || 'A' <= c <= 'F' }

  /** The length of the leading run of literal characters. */
  function LiteralRun(t: string): (n: nat)
    ensures n <= |t|
    ensures forall i :: 0 <= i < n ==> IsLiteralChar(t[i])
    ensures n < |t| ==> !IsLiteralChar(t[n])
  {
    if t == [] || !IsLiteralChar(t[0]) then 0 else 1 + LiteralRun(t[1..])
  }

  function DecimalRun(t: string): (n: nat)
    ensures n <= |t|
    ensures forall i :: 0 <= i < n ==> IsDigit(t[i])
    ensures n < |t| ==> !IsDigit(t[n])
  {
    if t == [] || !IsDigit(t[0]) then 0 else 1 + DecimalRun(t[1..])
  }

  function DigitValue(c: char): nat {
    if IsDigit(c) then c as int - '0' as int
    else if 'a' <= c <= 'f' then c as int - 'a' as int + 10
    else if 'A' <= c <= 'F' then c as int - 'A' as int + 10
    else 0
  }

  /** The number a digit string stands for. */
  function Value(s: string, base: nat): nat {
    if s == [] then 0 else base * Value(s[..|s| - 1], base) + DigitValue(s[|s| - 1])
  }

  const LONG_MAX: nat := 0x7FFF_FFFF_FFFF_FFFF

  /** `strtol`'s result, which stops at LONG_MAX, cast to a 32-bit `int`. */
  function ToInt(v: nat): int {
    var u := (if v > LONG_MAX then LONG_MAX else v) % 0x1_0000_0000;
    if u >= 0x8000_0000 then u - 0x1_0000_0000 else u
  }

  /** The value of a literal token: hexadecimal when an H follows the leading literal characters. */
  function Literal(t: string): int {
    var n := LiteralRun(t);
    if n == 0 then 0
    else if n < |t| && (t[n] == 'H' || t[n] == 'h') then ToInt(Value(t[..n], 16))
    else ToInt(Value(t[..DecimalRun(t)], 10))
  }

  // ---- operands ----

  datatype Parsed = Parsed(line: LineInfo, ok: bool)

  function RegOf(t: Token): Reg { RegCode(CharAt(t.text, 0)) }

  function ParseOneReg(line: LineInfo, t: Token): Parsed {
    Parsed(line.(reg0 := RegOf(t)), t.kind == SYM_REG)
  }

  function ParseTwoReg(line: LineInfo, a: Token, b: Token): Parsed {
    Parsed(line.(reg0 := RegOf(a), reg1 := RegOf(b)), a.kind == SYM_REG && b.kind == SYM_REG)
  }

  /** An immediate, or a symbol whose address will be the immediate. */
  function ParseImm(line: LineInfo, t: Token): Parsed {
    match t.kind
    case SYM_LITERAL => Parsed(line.(imm := Literal(t.text), hasImm := true), true)
    case SYM_LABEL => Parsed(line.(symbolStr := t.text), true)
    case _ => Parsed(line, false)
  }

  /** With a symbol for second operand the register is not looked at, and not kept. */
  function ParseRegImm(line: LineInfo, a: Token, b: Token): Parsed {
    match b.kind
    case SYM_LITERAL => Parsed(line.(reg0 := RegOf(a), imm := Literal(b.text), hasImm := true), a.kind == SYM_REG)
    case SYM_LABEL => Parsed(line.(symbolStr := b.text), true)
    case _ => Parsed(line, false)
  }

  /** The bytes of a string argument: its characters without the quote, and the terminating zero. */
  function StringBytes(text: string): seq<byte> {
    seq(|text|, i requires 0 <= i < |text| => if i + 1 < |text| then Lo(text[i + 1] as int) else 0)
  }

  function ParseDataArg(line: LineInfo, t: Token): Parsed {
    match t.kind
    case SYM_LITERAL => Parsed(line.(blocks := line.blocks + [[Lo(Literal(t.text))]]), true)
    case SYM_STRING =>
      Parsed(line.(blocks := line.blocks + [StringBytes(t.text)]), true)
    case SYM_LABEL => Parsed(line.(symbolStr := t.text), true)
    case _ => Parsed(line, false)
  }

  /** The arguments of a data line, until one is wrong, the text ends, or the line counter moves on. */
  function ParseData(src: string, p: nat, dataLine: nat, line: LineInfo): (r: (Parsed, nat))
    decreases |src| - p
  {
    var (t, q) := NextToken(src, p);
    var arg := ParseDataArg(line, t);
    if !arg.ok || q >= |src| || LineAt(src, q) > dataLine then (arg, q)
    else ParseData(src, q, dataLine, arg.line)
  }

  // ---- lines ----

  /** The cases of the big switch, by operands and size; jumps and calls parse alike. */
  datatype Form = OneReg | Imm8 | TwoReg | RegImm8 | RegImm16 | Bare | Imm16 | Data | Space | Unsupported

  function FormOf(m: Mnemonic): Form {
    match m
    case ADC => OneReg case ADD => OneReg case ANA => OneReg case CMP => OneReg case DAD => OneReg
    case DCR => OneReg case INR => OneReg case INX => OneReg case LDAX => OneReg case ORA => OneReg
    case POP => OneReg case PUSH => OneReg case SBB => OneReg case STAX => OneReg case SUB => OneReg
    case XRA => OneReg
    case ACI => Imm8 case ADI => Imm8 case ANI => Imm8 case CPI => Imm8 case ORI => Imm8 case SUI => Imm8
    case SBI => Imm8
    case MOV => TwoReg
    case MVI => RegImm8
    case PCHL => Bare
    case LXI => RegImm16
    case JP => Imm16 case JMP => Imm16 case JC => Imm16 case JNC => Imm16 case JZ => Imm16 case JM => Imm16
    case CALL => Imm16 case CC => Imm16 case CNZ => Imm16 case CM => Imm16 case CP => Imm16 case CPE => Imm16
    case CPO => Imm16 case CZ => Imm16
    case RET => Bare case RC => Bare case RNC => Bare case RZ => Bare case RM => Bare case RP => Bare
    case RPE => Bare case RPO => Bare case RNZ => Bare
    case DB => Data case DW => Data
    case DS => Space
    case _ => Unsupported
  }

  function TotalBytes(blocks: seq<seq<byte>>): nat { |Flatten(blocks)| }

  function SizeOf(f: Form, line: LineInfo): nat {
    match f
    case Imm8 => 2 case RegImm8 => 2
    case RegImm16 => 3 case Imm16 => 3
    case Data => TotalBytes(line.blocks)
    case _ => 1
  }

  /** The operands of a form, parsed into the line, and the cursor after them. */
  function ParseOperands(src: string, p: nat, f: Form, line: LineInfo): (Parsed, nat) {
    match f
    case OneReg => var (a, q) := NextToken(src, p); (ParseOneReg(line, a), q)
    case Imm8 => var (a, q) := NextToken(src, p); (ParseImm(line, a), q)
    case Imm16 => var (a, q) := NextToken(src, p); (ParseImm(line, a), q)
    case Space => var (a, q) := NextToken(src, p); (ParseImm(line, a), q)
    case TwoReg =>
      var (a, q) := NextToken(src, p);
      var (b, r) := NextToken(src, q);
      (ParseTwoReg(line, a, b), r)
    case RegImm8 =>
      var (a, q) := NextToken(src, p);
      var (b, r) := NextToken(src, q);
      (ParseRegImm(line, a, b), r)
    case RegImm16 =>
      var (a, q) := NextToken(src, p);
      var (b, r) := NextToken(src, q);
      (ParseRegImm(line, a, b), r)
    case Data => ParseData(src, p, LineAt(src, p), line)
    case Bare => (Parsed(line, true), p)
    case Unsupported => (Parsed(line, true), p)
  }

  /** One statement lexed: the line, the bytes it takes, the symbol it defines if any, and the cursor. */
  datatype Lexed = Lexed(line: LineInfo, size: nat, symbols: seq<Symbol>, next: nat)

  function Finish(src: string, addr: int, p: Parsed, size: nat, symbols: seq<Symbol>, next: nat): Lexed {
    Lexed(p.line.(error := !p.ok, addr := addr, lineNum := LineAt(src, next)), size, symbols, next)
  }

  /** The statement after the label: a directive, an instruction, or anything else, which leaves a blank line. */
  function LexStatement(src: string, addr: int, t: Token, p: nat, line: LineInfo, symbols: seq<Symbol>): (r: Lexed)
    ensures r.symbols == symbols
  {
    match t.kind
    case SYM_DIRECTIVE =>
      var d := DirectiveNamed(t.text);
      Finish(src, addr, Parsed(if d == EQU then line else line.(instr := StoredAs(d)), true), 1, symbols, p)
    case SYM_INSTR =>
      var m := Instruction(t.text);
      var f := FormOf(m);
      var (parsed, q) := ParseOperands(src, p, f, line);
      var done := if parsed.ok && f != Unsupported then Parsed(parsed.line.(instr := m), true) else parsed;
      Finish(src, addr, done, SizeOf(f, parsed.line), symbols, q)
    case _ => Finish(src, addr, Parsed(line, true), 1, symbols, p)
  }

  function LexLine(src: string, p: nat, addr: int, room: bool): (r: Lexed)
    ensures |r.symbols| <= 1
    ensures !room ==> r.symbols == []
  {
    var (t, q) := NextToken(src, p);
    if t.kind == SYM_NONE then Finish(src, addr, Parsed(BLANK, false), 1, [], q)
    else if t.kind == SYM_LABEL then
      var line := BLANK.(labelStr := t.text);
      if !room then Finish(src, addr, Parsed(line, false), 1, [], q)
      else
        var (t1, q1) := NextToken(src, q);
        LexStatement(src, addr, t1, q1, line, [Symbol(addr, t.text)])
    else LexStatement(src, addr, t, q, BLANK, [])
  }

  // ---- the whole source ----

  datatype LexState = LexState(pos: nat, lines: seq<LineInfo>, symbols: seq<Symbol>, addr: int)

  datatype LexResult = LexResult(status: int, st: LexState)

  /** The main loop, with room for `cap` lines and as many symbols. */
  function LexLoop(src: string, cap: nat, st: LexState): (r: LexResult)
    requires |st.lines| <= cap && |st.symbols| <= cap
    ensures r.status == 0 || r.status == -1
    decreases cap - |st.lines|, |src| - st.pos
  {
    if st.pos >= |src| then LexResult(0, st)
    else if IsComment(src[st.pos]) then LexLoop(src, cap, st.(pos := SkipComment(src, st.pos)))
    else if IsWhitespace(src[st.pos]) then LexLoop(src, cap, st.(pos := st.pos + 1))
    else
      var l := LexLine(src, st.pos, st.addr, |st.symbols| < cap);
      var st1 := st.(pos := l.next, symbols := st.symbols + l.symbols, addr := st.addr + l.size);
      if |st.lines| == cap then LexResult(-1, st1)
      else LexLoop(src, cap, st1.(lines := st.lines + [l.line]))
  }

  predicate IsPrefix(name: string, of: string) { name <= of }

  /** The first symbol, from index i on, that begins with the name. */
  function Lookup(symbols: seq<Symbol>, name: string, i: nat): (k: nat)
    requires i <= |symbols|
    ensures i <= k <= |symbols|
    ensures k < |symbols| ==> IsPrefix(name, symbols[k].name)
    ensures forall j :: i <= j < k ==> !IsPrefix(name, symbols[j].name)
    decreases |symbols| - i
  {
    if i == |symbols| || IsPrefix(name, symbols[i].name) then i else Lookup(symbols, name, i + 1)
  }

  function Resolve(line: LineInfo, symbols: seq<Symbol>): LineInfo {
    if line.symbolStr == "" then line
    else
      var k := Lookup(symbols, line.symbolStr, 0);
      if k == |symbols| then line else line.(imm := symbols[k].addr, hasImm := true)
  }

  function ResolveAll(lines: seq<LineInfo>, symbols: seq<Symbol>): (r: seq<LineInfo>)
    ensures |r| == |lines|
    ensures forall i :: 0 <= i < |r| ==> r[i] == Resolve(lines[i], symbols)
  {
    seq(|lines|, i requires 0 <= i < |lines| => Resolve(lines[i], symbols))
  }

  /** The capacity guessed for a source: its number of newlines. */
  function NewlineCount(src: string): (n: nat)
    ensures n <= |src|
  {
    if src == [] then 0 else NewlineCount(src[..|src| - 1]) + if src[|src| - 1] == '\n' then 1 else 0
  }

  function LexAll(src: string, cap: nat, start: int): LexResult {
    var r := LexLoop(src, cap, LexState(0, [], [], start));
    if r.status < 0 then r else LexResult(0, r.st.(lines := ResolveAll(r.st.lines, r.st.symbols)))
  }
}
