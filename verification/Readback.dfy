/** Reading back what was printed, token by token and statement by statement. */
module Readback {
  import opened Bits
  import opened Opcodes
  import opened Source
  import opened LexSpec
  import opened Addresses
  import opened Scanning
  import opened Literals
  import opened Printer

  predicate Upper(c: char) { 'A' <= c <= 'Z' }

  /** The shape of the mnemonics: two to five capitals, none of them the name of a register pair. */
  predicate NameShape(s: string) {
    && 2 <= |s| <= 5 && Upper(s[0]) && Upper(s[1])
    && (|s| > 2 ==> Upper(s[2])) && (|s| > 3 ==> Upper(s[3])) && (|s| > 4 ==> Upper(s[4]))
    && !(s[0] == 'P' && s[1] == 'S') && !(s[0] == 'S' && s[1] == 'P' && |s| == 2)
  }

  lemma Shapes0(k: nat)
    requires 0 < k < 20
    ensures NameShape(NameOf(k))
  {
  }

  lemma Shapes1(k: nat)
    requires 20 <= k < 38
    ensures NameShape(NameOf(k))
  {
  }

  lemma Shapes2(k: nat)
    requires 38 <= k < 56 && k != 47
    ensures NameShape(NameOf(k))
  {
  }

  lemma Shapes3(k: nat)
    requires 56 <= k < 76
    ensures NameShape(NameOf(k))
  {
  }

  lemma WritableNumbers(m: Mnemonic)
    requires Writable(m)
    ensures 0 < Code(m) < 76 && Code(m) != 47 && m != SBI && m != OUT && m != INVALID
  {
  }

  /** The name of a mnemonic is one word, and is classified as an instruction with that code. */
  lemma MnemonicToken(m: Mnemonic)
    requires Writable(m)
    ensures IsWord(Opcodes.Name(m)) && Classify(Opcodes.Name(m)) == SYM_INSTR && Instruction(Opcodes.Name(m)) == m
    ensures Upper(Opcodes.Name(m)[0])
  {
    hide Writable, Code, NameOf, DirectiveNamed, Instruction;
    WritableNumbers(m);
    NamesFound(m);
    NotADirective(m);
    var k := Code(m);
    if k < 20 { Shapes0(k); } else if k < 38 { Shapes1(k); } else if k < 56 { Shapes2(k); } else { Shapes3(k); }
    var s := Opcodes.Name(m);
    forall i | 0 <= i < |s|
      ensures Upper(s[i])
    {
      assert i == 0 || i == 1 || i == 2 || i == 3 || i == 4;
    }
  }

  lemma RegisterToken(r: Reg)
    requires r != REG_NONE
    ensures IsWord(RegName(r)) && Classify(RegName(r)) == SYM_REG && RegCode(RegName(r)[0]) == r
  {
    hide DirectiveNamed, Instruction;
    match r
    case REG_A => case REG_B => case REG_C => case REG_D => case REG_E => case REG_H => case REG_L => case REG_M =>
    case REG_S => case REG_PSW =>
  }

  // ---- one operand ----

  function ArgToken(a: Arg): Token {
    match a
    case Register(r) => Token(SYM_REG, RegName(r))
    case Number(v, style) => Token(SYM_LITERAL, Written(v, style))
    case Named(sym) => Token(SYM_LABEL, sym)
    case Text(s) => Token(SYM_STRING, "\"" + s)
  }

  /** An operand in front of white space, a comma or a comment is read as its token. */
  lemma ArgRead(src: string, p: nat, a: Arg)
    requires ArgOk(a) && At(src, p, ArgText(a)) && EndsArg(CharAt(src, p + |ArgText(a)|))
    ensures NextToken(src, p) == (ArgToken(a), PastSeparator(src, p + |ArgText(a)|))
  {
    hide NextToken, IsWord, Classify, Written, RegName, EndsArg, PastSeparator, At, CharAt, IsText;
    match a
    case Register(r) => RegisterToken(r); WordRead(src, p, RegName(r));
    case Number(v, style) => LiteralToken(v, style); WordRead(src, p, Written(v, style));
    case Named(sym) => WordRead(src, p, sym);
    case Text(s) => StringRead(src, p, s);
  }

  /** The operands stand in the source, with what can follow an operand behind the last. */
  predicate ArgsThere(src: string, p: nat, args: seq<Arg>) {
    At(src, p, ArgsText(args)) && EndsArg(CharAt(src, p + |ArgsText(args)|))
  }

  lemma ArgsSplit(args: seq<Arg>)
    requires args != []
    ensures ArgsText(args) == ArgText(args[0]) + if |args| == 1 then "" else ", " + ArgsText(args[1..])
  {
    hide ArgText, MoreText;
    var rest := args[1..];
    MoreSplit(rest);
    if rest != [] {
      assert ArgsText(rest) == ArgText(rest[0]) + MoreText(rest[1..]);
    }
  }

  lemma MoreSplit(args: seq<Arg>)
    ensures MoreText(args) == if args == [] then "" else ", " + ArgText(args[0]) + MoreText(args[1..])
  {
    hide ArgText;
  }

  /** What stands behind the first operand. */
  lemma AfterFirst(src: string, p: nat, args: seq<Arg>)
    requires args != [] && At(src, p, ArgsText(args))
    ensures var q := p + |ArgText(args[0])|;
      && At(src, p, ArgText(args[0]))
      && (|args| == 1 ==> q == p + |ArgsText(args)|)
      && (|args| > 1 ==>
            && CharAt(src, q) == ',' && CharAt(src, q + 1) == ' ' && At(src, q + 2, ArgsText(args[1..]))
            && q + 2 + |ArgsText(args[1..])| == p + |ArgsText(args)|)
  {
    hide ArgText, At, ArgsText;
    ArgsSplit(args);
    var first, rest := ArgText(args[0]), args[1..];
    var q := p + |first|;
    if |args| == 1 {
      AtSplit(src, p, first, "");
    } else {
      AtSplit(src, p, first, ", " + ArgsText(rest));
      AtSplit(src, q, ", ", ArgsText(rest));
      AtChar(src, q, ", ", 0);
      AtChar(src, q, ", ", 1);
    }
  }

  /** The first of several operands leaves the cursor in front of the space before the next. */
  lemma FirstRead(src: string, p: nat, args: seq<Arg>)
    requires args != [] && ArgOk(args[0]) && ArgsThere(src, p, args)
    ensures var q := p + |ArgText(args[0])|;
      && NextToken(src, p) == (ArgToken(args[0]), if |args| == 1 then PastSeparator(src, q) else q + 1)
      && (|args| == 1 ==> q == p + |ArgsText(args)|)
      && (|args| > 1 ==>
            && NextToken(src, q + 1) == NextToken(src, q + 2) && ArgsThere(src, q + 2, args[1..])
            && q + 2 + |ArgsText(args[1..])| == p + |ArgsText(args)|)
  {
    hide NextToken, ArgText, At, ArgOk, ArgToken, ArgsText;
    AfterFirst(src, p, args);
    ArgRead(src, p, args[0]);
    if |args| > 1 {
      SpaceSkipped(src, p + |ArgText(args[0])| + 1);
    }
  }

  // ---- the operands of a statement ----

  lemma NumberValue(v: nat, style: Style)
    requires v < 0x8000_0000
    ensures Literal(Written(v, style)) == v
  {
    hide Literal, Written;
    LiteralRoundTrip(v, style);
  }

  /** The operands of a statement that holds no data are read into their places, and the cursor stops behind them. */
  lemma OperandsRead(src: string, p: nat, f: Form, args: seq<Arg>, line: LineInfo)
    requires f != Data && f != Bare && ArgsFit(f, args) && ArgsThere(src, p, args)
    requires CharAt(src, p + |ArgsText(args)|) == '\n'
    requires forall i :: 0 <= i < |args| ==> ArgOk(args[i])
    ensures ParseOperands(src, p, f, line)
         == (Parsed(if Drops(f, args) then Operands(f, args, line).(reg0 := line.reg0)
                    else Operands(f, args, line), true),
             p + |ArgsText(args)|)
  {
    hide NextToken, ArgsText, ArgText, ArgsThere, Literal, Written, RegName, RegCode, IsWord, Classify;
    FirstRead(src, p, args);
    forall i | 0 <= i < |args|
      ensures args[i].Register? ==> RegOf(ArgToken(args[i])) == args[i].r
      ensures args[i].Number? ==> Literal(ArgToken(args[i]).text) == args[i].v
    {
      ArgValue(args[i]);
    }
    if |args| == 2 {
      FirstRead(src, p + |ArgText(args[0])| + 2, args[1..]);
    }
  }

  lemma ArgValue(a: Arg)
    requires ArgOk(a)
    ensures a.Register? ==> RegOf(ArgToken(a)) == a.r
    ensures a.Number? ==> Literal(ArgToken(a).text) == a.v
  {
    hide Literal, Written, RegName, RegCode, Classify;
    match a
    case Register(r) => RegisterToken(r);
    case Number(v, style) => NumberValue(v, style);
    case _ =>
  }

  lemma DataArgRead(line: LineInfo, a: Arg)
    requires ArgOk(a) && !a.Register?
    ensures ParseDataArg(line, ArgToken(a))
         == Parsed(if a.Named? then line.(symbolStr := a.sym) else line.(blocks := line.blocks + [KeptBytes(a)]), true)
  {
    hide Literal, Written, IsWord, Classify;
    match a
    case Number(v, style) => NumberValue(v, style);
    case Text(s) => assert StringBytes("\"" + s) == KeptBytes(a);
    case _ =>
  }

  /** On the positions of a line but the last the line counter stands still, and it moves on at the last. */
  predicate OnLine(src: string, p: nat, end: nat, k: nat) {
    p <= end && (forall q :: p <= q < end ==> LineAt(src, q) == k) && LineAt(src, end) == k + 1
  }

  /** A line with the data that is kept of the arguments. */
  function WithData(line: LineInfo, args: seq<Arg>): LineInfo {
    line.(blocks := line.blocks + KeptBlocks(args), symbolStr := LastName(args, line.symbolStr))
  }

  /** Operands of a data line, on the line counted k up to their end. */
  predicate DataThere(src: string, p: nat, args: seq<Arg>, k: nat) {
    && args != [] && (forall i :: 0 <= i < |args| ==> ArgOk(args[i]) && !args[i].Register?)
    && ArgsThere(src, p, args) && forall q :: p <= q < p + |ArgsText(args)| ==> LineAt(src, q) == k
  }

  lemma WithFirst(line: LineInfo, args: seq<Arg>)
    requires args != []
    ensures var a := args[0];
      var first := if a.Named? then line.(symbolStr := a.sym) else line.(blocks := line.blocks + [KeptBytes(a)]);
      WithData(line, args) == WithData(first, args[1..])
  {
    hide KeptBytes;
    var b := if args[0].Named? then [] else [KeptBytes(args[0])];
    assert KeptBlocks(args) == b + KeptBlocks(args[1..]);
    assert line.blocks + KeptBlocks(args) == (line.blocks + b) + KeptBlocks(args[1..]);
    assert line.blocks + [] == line.blocks;
  }

  /** The data arguments are read one after the other, and reading goes on behind them if that is the same line. */
  lemma {:induction false} DataUpTo(src: string, p: nat, args: seq<Arg>, line: LineInfo, k: nat)
    requires DataThere(src, p, args, k)
    ensures var q := PastSeparator(src, p + |ArgsText(args)|);
      var full := WithData(line, args);
      ParseData(src, p, k, line)
        == if q >= |src| || LineAt(src, q) > k then (Parsed(full, true), q) else ParseData(src, q, k, full)
    decreases |args|
  {
    hide NextToken, ArgsText, ArgText, ArgToken, ParseDataArg, LineAt, ArgOk, KeptBytes, ParseData, PastSeparator;
    hide WithData, ArgsThere;
    FirstRead(src, p, args);
    DataStep(src, p, k, line);
    DataArgRead(line, args[0]);
    WithFirst(line, args);
    var first, rest := ParseDataArg(line, ArgToken(args[0])).line, args[1..];
    if |args| > 1 {
      var q := p + |ArgText(args[0])|;
      ArgsStart(src, q + 2, rest);
      DataUpTo(src, q + 2, rest, first, k);
      DataAligned(src, q + 1, k, first);
    } else {
      assert rest == [];
      NoMore(first);
    }
  }

  lemma NoMore(line: LineInfo)
    ensures WithData(line, []) == line
  {
    assert line.blocks + [] == line.blocks;
  }

  lemma ArgsStart(src: string, p: nat, args: seq<Arg>)
    requires ArgsThere(src, p, args)
    ensures p <= |src|
  {
  }

  /** Every argument of a data line is read, and none of the next line. */
  lemma DataRead(src: string, p: nat, args: seq<Arg>, line: LineInfo, k: nat)
    requires DataThere(src, p, args, k)
    requires CharAt(src, p + |ArgsText(args)|) == '\n' && OnLine(src, p, p + |ArgsText(args)|, k)
    ensures ParseData(src, p, k, line) == (Parsed(WithData(line, args), true), p + |ArgsText(args)|)
  {
    hide ParseData, LineAt, ArgsText, WithData, DataThere;
    DataUpTo(src, p, args, line, k);
  }

  // ---- data lines with something behind the arguments ----

  predicate Blank(c: char) { c == ' ' || c == '\t' }

  /** What can stand behind the operands up to the newline: blanks, then a comment or nothing. */
  predicate IsTail(tail: string, blanks: nat) {
    && blanks <= |tail| && '\n' !in tail && (forall i :: 0 <= i < blanks ==> Blank(tail[i]))
    && (blanks < |tail| ==> IsComment(tail[blanks]))
  }

  /** Such a tail stands in the source, on line k, with its newline behind it. */
  predicate TailThere(src: string, p: nat, tail: string, k: nat) {
    At(src, p, tail + "\n") && OnLine(src, p, p + |tail|, k)
  }

  lemma TailChars(src: string, p: nat, tail: string, k: nat)
    requires TailThere(src, p, tail, k)
    ensures p + |tail| < |src| && CharAt(src, p + |tail|) == '\n'
    ensures forall i :: 0 <= i < |tail| ==> CharAt(src, p + i) == tail[i]
  {
    hide LineAt;
    AtChar(src, p, tail + "\n", |tail|);
    forall i | 0 <= i < |tail|
      ensures CharAt(src, p + i) == tail[i]
    {
      AtChar(src, p, tail + "\n", i);
    }
  }

  /** Reading on in such a tail is refused at a comment, and goes over the newline behind blanks. */
  lemma ReadingOn(src: string, p: nat, tail: string, blanks: nat, from: nat, k: nat, line: LineInfo)
    requires IsTail(tail, blanks) && TailThere(src, p, tail, k)
    requires p <= from <= p + blanks && from < p + |tail|
    ensures var (d, q) := ParseData(src, from, k, line);
      if blanks < |tail| then !d.ok else q > p + |tail|
  {
    hide NextToken, LineAt, ParseData, TailThere, ParseDataArg;
    TailChars(src, p, tail, k);
    forall q | from <= q < p + blanks
      ensures IsWhitespace(CharAt(src, q))
    {
      assert CharAt(src, p + (q - p)) == tail[q - p];
    }
    BehindBlanks(src, from, p + blanks);
    DataStep(src, from, k, line);
    var (t, q) := NextToken(src, from);
    if blanks < |tail| {
      assert CharAt(src, p + blanks) == tail[blanks];
      NoArgument(line, t);
    } else {
      DataCursor(src, q, k, ParseDataArg(line, t).line, line);
    }
  }

  lemma NoArgument(line: LineInfo, t: Token)
    requires t.kind == SYM_NONE
    ensures !ParseDataArg(line, t).ok
  {
  }

  /**
   * For any data line, with blanks and a comment behind its arguments or nothing: all its arguments are read and
   * nothing of the next line, exactly when nothing stands behind them but a single space or nothing at all. Otherwise
   * a comment makes the line an error, and behind blanks the cursor goes over the newline.
   */
  lemma DataExactly(src: string, p: nat, args: seq<Arg>, tail: string, blanks: nat, line: LineInfo, k: nat)
    requires DataThere(src, p, args, k) && IsTail(tail, blanks) && TailThere(src, p + |ArgsText(args)|, tail, k)
    ensures var end := p + |ArgsText(args)| + |tail|;
      ParseData(src, p, k, line) == (Parsed(WithData(line, args), true), end) <==> tail in {"", " "}
    ensures tail !in {"", " "} ==>
      var (d, q) := ParseData(src, p, k, line);
      if blanks < |tail| then !d.ok else q > p + |ArgsText(args)| + |tail|
  {
    hide ParseData, LineAt, ArgsText, WithData, DataThere, IsTail, TailThere;
    DataUpTo(src, p, args, line, k);
    var at, end := p + |ArgsText(args)|, p + |ArgsText(args)| + |tail|;
    TailChars(src, at, tail, k);
    assert OnLine(src, at, end, k) by { TailLine(src, at, tail, k); }
    if tail != "" {
      assert CharAt(src, at + 0) == tail[0];
      FirstOfTail(tail, blanks);
      if tail != " " {
        ReadingOn(src, at, tail, blanks, PastSeparator(src, at), k, WithData(line, args));
      }
    }
  }

  lemma TailLine(src: string, p: nat, tail: string, k: nat)
    requires TailThere(src, p, tail, k)
    ensures OnLine(src, p, p + |tail|, k)
  {
  }

  lemma FirstOfTail(tail: string, blanks: nat)
    requires IsTail(tail, blanks) && tail != ""
    ensures tail[0] == ' ' ==> blanks > 0
    ensures tail[0] != ' ' ==> !IsSeparator(tail[0])
    ensures tail[0] == ' ' && |tail| == 1 ==> tail == " "
  {
  }

  lemma DataAligned(src: string, p: nat, k: nat, line: LineInfo)
    requires NextToken(src, p) == NextToken(src, p + 1)
    ensures ParseData(src, p, k, line) == ParseData(src, p + 1, k, line)
  {
    hide NextToken, ParseDataArg, LineAt, ParseData;
    DataStep(src, p, k, line);
    DataStep(src, p + 1, k, line);
  }
}
