/** Lexing undoes printing, for every well-formed program. */
module RoundTrip {
  import opened Bits
  import opened Opcodes
  import opened Source
  import opened LexSpec
  import opened Addresses
  import opened Scanning
  import opened Literals
  import opened Printer
  import opened Readback

  // ---- one line ----

  /** The operands stand in the source up to the newline. */
  predicate OperandsStand(src: string, p: nat, args: seq<Arg>) {
    ArgsThere(src, p, args) && CharAt(src, p + |ArgsText(args)|) == '\n'
  }

  lemma NameStands(src: string, p: nat, name: string, args: seq<Arg>)
    requires At(src, p, name + (if args == [] then "" else " " + ArgsText(args)) + "\n")
    ensures var q := p + |name|;
      && At(src, p, name)
      && (if args == [] then CharAt(src, q) == '\n' else CharAt(src, q) == ' ' && OperandsStand(src, q + 1, args))
  {
    hide ArgsText, At;
    if args == [] {
      assert name + "" + "\n" == name + "\n";
      AtSplit(src, p, name, "\n");
      AtChar(src, p + |name|, "\n", 0);
    } else {
      var text := ArgsText(args);
      assert name + (" " + text) + "\n" == name + (" " + (text + "\n"));
      AtSplit(src, p, name, " " + (text + "\n"));
      AtSplit(src, p + |name|, " ", text + "\n");
      AtSplit(src, p + |name| + 1, text, "\n");
      AtChar(src, p + |name|, " ", 0);
      AtChar(src, p + |name| + 1 + |text|, "\n", 0);
    }
  }

  lemma MnemonicRead(src: string, p: nat, s: Statement)
    requires StatementOk(s) && At(src, p, StatementText(s) + "\n")
    ensures var q := p + |Opcodes.Name(s.m)|;
      && NextToken(src, p) == (Token(SYM_INSTR, Opcodes.Name(s.m)), if s.args == [] then q else q + 1)
      && (if s.args == [] then |StatementText(s)| == |Opcodes.Name(s.m)|
          else OperandsStand(src, q + 1, s.args) && q + 1 + |ArgsText(s.args)| == p + |StatementText(s)|)
  {
    hide NextToken, ArgsText, At, Classify, IsWord, ArgOk, Opcodes.Name, ArgsFit, Writable, OperandsStand;
    MnemonicToken(s.m);
    NameStands(src, p, Opcodes.Name(s.m), s.args);
    WordRead(src, p, Opcodes.Name(s.m));
  }

  /** The operands of any statement, data or not. */
  lemma AllOperandsRead(src: string, p: nat, q: nat, s: Statement, line: LineInfo, k: nat)
    requires StatementOk(s) && line == BLANK.(labelStr := line.labelStr) && p < q
    requires if s.args == [] then q == p + |StatementText(s)|
      else OperandsStand(src, q, s.args) && q + |ArgsText(s.args)| == p + |StatementText(s)|
    requires OnLine(src, p, p + |StatementText(s)|, k)
    ensures var f, done := FormOf(s.m), Operands(FormOf(s.m), s.args, line);
      && ParseOperands(src, q, f, line)
         == (Parsed(if Drops(f, s.args) then done.(reg0 := REG_NONE) else done, true), p + |StatementText(s)|)
      && SizeOf(f, done) == Bytes(s)
  {
    hide ArgsText, ArgsThere, ArgOk, StatementText, ParseData, NextToken, LineAt, LastName, KeptBlocks, FormOf,
         Writable;
    var f := FormOf(s.m);
    if f == Data {
      assert LineAt(src, q) == k by { ArgsNonempty(s.args); }
      DataRead(src, q, s.args, line, k);
      assert line.blocks + KeptBlocks(s.args) == KeptBlocks(s.args);
    } else if f != Bare {
      OperandsRead(src, q, f, s.args, line);
    }
  }

  lemma ArgsNonempty(args: seq<Arg>)
    requires args != [] && ArgOk(args[0]) && !args[0].Register?
    ensures ArgsText(args) != ""
  {
    hide Written, IsText, IsWord, Classify;
    match args[0]
    case Number(v, style) => LiteralToken(v, style); WordNonempty(Written(v, style));
    case Named(sym) => WordNonempty(sym);
    case _ =>
  }

  lemma WordNonempty(w: string)
    requires IsWord(w)
    ensures w != ""
  {
  }

  lemma WritableForm(m: Mnemonic)
    requires Writable(m)
    ensures FormOf(m) != Unsupported
  {
  }

  /** A line as it is read, put together from its operands. */
  lemma KeptIs(l: Line, lineNum: int, addr: int)
    requires StatementOk(l.stmt)
    ensures var f, args := FormOf(l.stmt.m), l.stmt.args;
      var done := Operands(f, args, BLANK.(labelStr := l.name));
      && Kept(l, lineNum, addr) == (if Drops(f, args) then done.(reg0 := REG_NONE) else done)
           .(instr := l.stmt.m, error := false, addr := addr, lineNum := lineNum)
      && SizeOf(f, if Drops(f, args) then done.(reg0 := REG_NONE) else done) == SizeOf(f, done)
  {
    hide FormOf, ArgOk, Writable;
  }

  /** The statement part of a line. */
  lemma StatementRead(src: string, p: nat, l: Line, addr: int, symbols: seq<Symbol>, k: nat)
    requires StatementOk(l.stmt) && At(src, p, StatementText(l.stmt) + "\n")
    requires OnLine(src, p, p + |StatementText(l.stmt)|, k)
    ensures var (t, q) := NextToken(src, p);
      && t.kind == SYM_INSTR
      && LexStatement(src, addr, t, q, BLANK.(labelStr := l.name), symbols)
         == Lexed(Kept(l, k + 1, addr), Bytes(l.stmt), symbols, p + |StatementText(l.stmt)|)
  {
    hide ArgsText, At, ArgOk, StatementText, NextToken, ParseOperands, LineAt, Instruction, FormOf, SizeOf, Bytes;
    hide Operands, Writable, Kept, ArgsFit, Drops, Opcodes.Name, IsWord, Classify;
    var s := l.stmt;
    MnemonicRead(src, p, s);
    MnemonicToken(s.m);
    var (t, q) := NextToken(src, p);
    AllOperandsRead(src, p, q, s, BLANK.(labelStr := l.name), k);
    KeptIs(l, k + 1, addr);
    WritableForm(s.m);
  }

  lemma LineRead(src: string, p: nat, l: Line, addr: int, k: nat)
    requires LineOk(l) && At(src, p, LineText(l) + "\n") && OnLine(src, p, p + |LineText(l)|, k)
    ensures LexLine(src, p, addr, true)
         == Lexed(Kept(l, k + 1, addr), Bytes(l.stmt), if l.name == "" then [] else [Symbol(addr, l.name)],
                  p + |LineText(l)|)
  {
    hide At, StatementOk, StatementText, NextToken, LexStatement, LineAt, Bytes, IsWord, Classify, Kept;
    if l.name == "" {
      assert LineText(l) == StatementText(l.stmt);
      StatementRead(src, p, l, addr, [], k);
    } else {
      var q, rest := p + |l.name| + 2, StatementText(l.stmt) + "\n";
      assert LineText(l) + "\n" == (l.name + ": ") + rest;
      AtSplit(src, p, l.name + ": ", rest);
      LabelRead(src, p, l.name);
      assert OnLine(src, q, q + |StatementText(l.stmt)|, k);
      StatementRead(src, q, l, addr, [Symbol(addr, l.name)], k);
    }
  }

  // ---- the text of a line ----

  lemma ArgFlat(a: Arg)
    requires ArgOk(a)
    ensures '\n' !in ArgText(a)
  {
    hide Classify, Written, RegName;
    match a
    case Register(r) => RegisterToken(r);
    case Number(v, style) => LiteralToken(v, style);
    case _ =>
  }

  lemma {:induction false} MoreFlat(args: seq<Arg>)
    requires forall i :: 0 <= i < |args| ==> ArgOk(args[i])
    ensures '\n' !in MoreText(args)
  {
    hide ArgText, ArgOk;
    if args != [] {
      ArgFlat(args[0]);
      MoreFlat(args[1..]);
    }
  }

  /** The text of a line holds no newline, and starts with a character of a word. */
  lemma LineFlat(l: Line)
    requires LineOk(l)
    ensures '\n' !in LineText(l) && LineText(l) != "" && !EndsWord(LineText(l)[0])
  {
    hide Classify, ArgText, MoreText, ArgOk, EndsWord, Writable, ArgsFit, Code, NameOf;
    var s := l.stmt;
    MnemonicToken(s.m);
    if s.args != [] {
      ArgFlat(s.args[0]);
      MoreFlat(s.args[1..]);
    }
    WordFlat(Opcodes.Name(s.m));
    if l.name != "" {
      WordFlat(l.name);
    }
  }

  lemma WordFlat(w: string)
    requires IsWord(w)
    ensures '\n' !in w && !EndsWord(w[0])
  {
  }

  // ---- the program ----

  lemma LineIn(prog: seq<Line>, i: nat)
    requires ProgramOk(prog) && i < |prog|
    ensures LineOk(prog[i]) && StatementOk(prog[i].stmt)
  {
    hide StatementOk, IsLabel;
  }

  function KeptLine(prog: seq<Line>, k: nat, start: int): LineInfo
    requires ProgramOk(prog) && k < |prog|
  {
    LineIn(prog, k);
    Kept(prog[k], k + 2, AddressAt(prog, k, start))
  }

  /** The first n lines of a program as the lexer reads them. */
  function KeptLines(prog: seq<Line>, n: nat, start: int): (lines: seq<LineInfo>)
    requires ProgramOk(prog) && n <= |prog|
    ensures |lines| == n
    ensures forall k :: 0 <= k < n ==> lines[k] == KeptLine(prog, k, start)
  {
    seq(n, k requires 0 <= k < n => KeptLine(prog, k, start))
  }

  // ---- programs with comments and blank lines ----

  /** A line of text: a program line, perhaps indented, or blanks with a comment behind them or nothing. */
  datatype Item = Coded(indent: string, line: Line) | Gap(blanks: string, remark: string)

  predicate AllBlank(s: string) { forall i :: 0 <= i < |s| ==> Blank(s[i]) }

  /** A comment: a semicolon or a number sign, and any text up to the end of the line. */
  predicate IsRemark(s: string) { s != "" && (s[0] == ';' || s[0] == '#') && '\n' !in s }

  predicate ItemOk(item: Item) {
    match item
    case Coded(indent, line) => AllBlank(indent) && LineOk(line)
    case Gap(blanks, remark) => AllBlank(blanks) && (remark == "" || IsRemark(remark))
  }

  predicate ItemsOk(items: seq<Item>) { forall k :: 0 <= k < |items| ==> ItemOk(items[k]) }

  function ItemText(item: Item): string {
    match item
    case Coded(indent, line) => indent + LineText(line)
    case Gap(blanks, remark) => blanks + remark
  }

  /** The whole text, every line with its newline. */
  function ItemsText(items: seq<Item>): string {
    if items == [] then "" else ItemText(items[0]) + "\n" + ItemsText(items[1..])
  }

  /** The address in front of item i. */
  function ItemAddress(items: seq<Item>, i: nat, start: int): int
    requires i <= |items|
  {
    if i == 0 then start
    else ItemAddress(items, i - 1, start) + if items[i - 1].Coded? then Bytes(items[i - 1].line.stmt) else 0
  }

  /** An empty first line, whose newline the line counter does not notice. */
  function Missed(items: seq<Item>): nat { if items != [] && ItemText(items[0]) == "" then 1 else 0 }

  lemma ItemLineOk(items: seq<Item>, i: nat)
    requires ItemsOk(items) && i < |items|
    ensures ItemOk(items[i]) && (items[i].Coded? ==> LineOk(items[i].line) && StatementOk(items[i].line.stmt))
  {
    hide StatementOk, IsLabel;
  }

  /** The lines that the lexer keeps of the first n items, each with the number of the text line behind its own. */
  function KeptItems(items: seq<Item>, n: nat, start: int): (lines: seq<LineInfo>)
    requires ItemsOk(items) && n <= |items|
    ensures |lines| <= n
  {
    if n == 0 then []
    else
      ItemLineOk(items, n - 1);
      KeptItems(items, n - 1, start) +
      if items[n - 1].Coded?
      then [Kept(items[n - 1].line, n + 1 - Missed(items), ItemAddress(items, n - 1, start))]
      else []
  }

  // ---- the loop over one line of text ----

  lemma {:induction false} CommentEnds(src: string, p: nat, text: string)
    requires '\n' !in text && At(src, p, text + "\n")
    ensures SkipComment(src, p) == p + |text| + 1
    decreases |text|
  {
    AtChar(src, p, text + "\n", 0);
    if text != "" {
      assert text + "\n" == [text[0]] + (text[1..] + "\n");
      AtSplit(src, p, [text[0]], text[1..] + "\n");
      CommentEnds(src, p + 1, text[1..]);
    }
  }

  /** A comment is passed as if it were not there: the main loop goes on behind its newline. */
  lemma CommentSkipped(src: string, p: nat, text: string, cap: nat, st: LexState)
    requires (At(src, p, ";" + text + "\n") || At(src, p, "#" + text + "\n")) && '\n' !in text && st.pos == p
    requires |st.lines| <= cap && |st.symbols| <= cap
    ensures LexLoop(src, cap, st) == LexLoop(src, cap, st.(pos := p + |text| + 2))
  {
    hide At, SkipComment, LexLine;
    var remark := if At(src, p, ";" + text + "\n") then ";" + text else "#" + text;
    CommentEnds(src, p, remark);
    AtEnds(src, p, remark + "\n");
    AtChar(src, p, remark + "\n", 0);
    assert IsComment(src[p]);
  }

  /** Blanks are passed one by one. */
  lemma {:induction false} BlanksPassed(src: string, p: nat, blanks: string, cap: nat, st: LexState)
    requires AllBlank(blanks) && At(src, p, blanks) && st.pos == p
    requires |st.lines| <= cap && |st.symbols| <= cap
    ensures LexLoop(src, cap, st) == LexLoop(src, cap, st.(pos := p + |blanks|))
    decreases |blanks|
  {
    hide At, SkipComment, LexLine;
    if blanks == "" {
      assert st.(pos := p) == st;
    } else {
      assert blanks == [blanks[0]] + blanks[1..];
      AtEnds(src, p, blanks);
      AtChar(src, p, blanks, 0);
      AtSplit(src, p, [blanks[0]], blanks[1..]);
      assert Blank(src[p]) && !IsComment(src[p]) && IsWhitespace(src[p]);
      BlanksPassed(src, p + 1, blanks[1..], cap, st.(pos := p + 1));
    }
  }

  /** The newlines that the counter has noticed in front of a position. */
  function Noticed(src: string, p: nat): nat { if p == 0 then 0 else Newlines(src, p - 1) }

  /** Over a line of text: the counter stands still up to the newline, and moves there unless that is at the start. */
  lemma CounterOverLine(src: string, p: nat, text: string)
    requires '\n' !in text && At(src, p, text + "\n")
    ensures forall q :: p <= q < p + |text| ==> Newlines(src, q) == Noticed(src, p)
    ensures Newlines(src, p + |text|) == Noticed(src, p) + if p == 0 && text == "" then 0 else 1
  {
    hide Newlines;
    var end := p + |text|;
    AtChar(src, p, text + "\n", |text|);
    assert Newlines(src, 0) == 0 by { NoneAtStart(src); }
    if text != "" {
      NewlinesOverLine(src, p, text);
      AtChar(src, p, text + "\n", 0);
      if p > 0 {
        NewlineStep(src, p);
      }
    } else if p > 0 {
      NewlineStep(src, p);
    }
  }

  lemma NoneAtStart(src: string)
    ensures Newlines(src, 0) == 0
  {
  }

  /** A printed line begins with a character of a word and ends with its newline. */
  lemma LineStands(src: string, p: nat, l: Line)
    requires LineOk(l) && At(src, p, LineText(l) + "\n")
    ensures p < |src| && !IsComment(src[p]) && !IsWhitespace(src[p])
    ensures var end := p + |LineText(l)|;
      end < |src| && src[end] == '\n'
  {
    hide At, LineText, LineOk, EndsWord, IsComment, IsWhitespace;
    var text := LineText(l);
    LineFlat(l);
    FirstCharacter(text[0]);
    AtEnds(src, p, text + "\n");
    AtChar(src, p, text + "\n", 0);
    AtChar(src, p, text + "\n", |text|);
  }

  /** A program line where the main loop comes to it, k newlines noticed: what is stored, and where the loop goes on. */
  lemma LineLexed(src: string, p: nat, l: Line, k: nat, cap: nat, st: LexState)
    requires LineOk(l) && StatementOk(l.stmt) && At(src, p, LineText(l) + "\n") && st.pos == p
    requires OnLine(src, p, p + |LineText(l)|, k + 1)
    requires |st.lines| < cap && |st.symbols| < cap
    ensures var line := Kept(l, k + 2, st.addr);
      && |st.symbols + Defined(line)| <= cap
      && LexLoop(src, cap, st)
         == LexLoop(src, cap, LexState(p + |LineText(l)| + 1, st.lines + [line], st.symbols + Defined(line),
                                       st.addr + Bytes(l.stmt)))
  {
    hide At, LineText, LineOk, LexLine, Kept, Bytes, StatementOk, OnLine, IsComment, IsWhitespace;
    LineStands(src, p, l);
    LineRead(src, p, l, st.addr, k + 1);
    KeptPlace(l, k + 2, st.addr);
    var line := Kept(l, k + 2, st.addr);
    var st1 := LexState(p + |LineText(l)|, st.lines + [line], st.symbols + Defined(line), st.addr + Bytes(l.stmt));
    assert LexLoop(src, cap, st) == LexLoop(src, cap, st1);
    NotComment();
    assert LexLoop(src, cap, st1) == LexLoop(src, cap, st1.(pos := st1.pos + 1));
  }

  lemma NotComment()
    ensures !IsComment('\n') && IsWhitespace('\n')
  {
  }

  lemma AtEnds(src: string, p: nat, text: string)
    requires At(src, p, text)
    ensures p + |text| <= |src|
  {
  }

  lemma KeptPlace(l: Line, lineNum: int, addr: int)
    requires StatementOk(l.stmt)
    ensures Kept(l, lineNum, addr).addr == addr && Kept(l, lineNum, addr).labelStr == l.name
  {
    hide ArgOk, Writable;
  }

  lemma FirstCharacter(c: char)
    requires !EndsWord(c)
    ensures !IsComment(c) && !IsWhitespace(c)
  {
  }

  /** The state behind item i. */
  function After(items: seq<Item>, i: nat, st: LexState): LexState
    requires ItemsOk(items) && i < |items|
  {
    ItemLineOk(items, i);
    var moved := st.(pos := st.pos + |ItemText(items[i])| + 1);
    if items[i].Gap? then moved
    else
      var line := Kept(items[i].line, i + 2 - Missed(items), st.addr);
      moved.(lines := st.lines + [line], symbols := st.symbols + Defined(line),
             addr := st.addr + Bytes(items[i].line.stmt))
  }

  /** The newlines noticed in front of item i. */
  function NoticedBefore(items: seq<Item>, i: nat): int { if i == 0 then 0 else i - Missed(items) }

  /** From in front of one line of text the main loop comes in front of the next. */
  lemma LoopReadsItem(src: string, cap: nat, items: seq<Item>, i: nat, st: LexState)
    requires ItemsOk(items) && i < |items| && Noticed(src, st.pos) == NoticedBefore(items, i)
    requires At(src, st.pos, ItemText(items[i]) + "\n") && (i == 0 <==> st.pos == 0)
    requires |st.lines| < cap && |st.symbols| < cap
    ensures |After(items, i, st).symbols| <= cap && |After(items, i, st).lines| <= cap
    ensures LexLoop(src, cap, st) == LexLoop(src, cap, After(items, i, st))
  {
    hide At, LineText, LexLine, LexLoop, Kept, Bytes, LineOk, Noticed, AllBlank, StatementOk;
    ItemLineOk(items, i);
    var p := st.pos;
    match items[i]
    case Gap(blanks, remark) =>
      GapPassed(src, p, blanks, remark, cap, st);
    case Coded(indent, line) =>
      var text := LineText(line);
      assert indent + text + "\n" == indent + (text + "\n");
      AtSplit(src, p, indent, text + "\n");
      BlanksPassed(src, p, indent, cap, st);
      CodeOnLine(src, p, indent, line);
      FirstCode(items, i);
      LineLexed(src, p + |indent|, line, Noticed(src, p), cap, st.(pos := p + |indent|));
  }

  /** A code line is not empty, so nothing is missed at it. */
  lemma FirstCode(items: seq<Item>, i: nat)
    requires ItemsOk(items) && i < |items| && items[i].Coded?
    ensures i == 0 ==> Missed(items) == 0
  {
    hide LineText, LineOk;
    ItemLineOk(items, i);
    LineFlat(items[i].line);
  }

  lemma GapPassed(src: string, p: nat, blanks: string, remark: string, cap: nat, st: LexState)
    requires AllBlank(blanks) && (remark == "" || IsRemark(remark)) && At(src, p, blanks + remark + "\n") && st.pos == p
    requires |st.lines| <= cap && |st.symbols| <= cap
    ensures LexLoop(src, cap, st) == LexLoop(src, cap, st.(pos := p + |blanks + remark| + 1))
  {
    hide At, LexLine, SkipComment, AllBlank;
    var q := p + |blanks|;
    assert blanks + remark + "\n" == blanks + (remark + "\n");
    AtSplit(src, p, blanks, remark + "\n");
    BlanksPassed(src, p, blanks, cap, st);
    if remark == "" {
      assert remark + "\n" == "\n";
      AtEnds(src, q, "\n");
      AtChar(src, q, "\n", 0);
      NotComment();
    } else {
      assert remark + "\n" == [remark[0]] + remark[1..] + "\n";
      CommentSkipped(src, q, remark[1..], cap, st.(pos := q));
    }
  }

  /** Behind its indentation a code line lies on one line of the counter. */
  lemma CodeOnLine(src: string, p: nat, indent: string, l: Line)
    requires AllBlank(indent) && LineOk(l) && At(src, p, indent + LineText(l) + "\n")
    ensures OnLine(src, p + |indent|, p + |indent| + |LineText(l)|, Noticed(src, p) + 1)
  {
    hide At, LineText, LineOk, Newlines, Noticed;
    LineFlat(l);
    CounterOverLine(src, p, indent + LineText(l));
  }

  // ---- the whole text ----

  lemma ItemFlat(items: seq<Item>, i: nat)
    requires ItemsOk(items) && i < |items|
    ensures '\n' !in ItemText(items[i])
  {
    hide LineText, LineOk;
    ItemLineOk(items, i);
    if items[i].Coded? {
      LineFlat(items[i].line);
    }
  }

  lemma TextOfItem(src: string, items: seq<Item>, i: nat, p: nat)
    requires i < |items| && At(src, p, ItemsText(items[i..]))
    ensures var text := ItemText(items[i]) + "\n";
      && At(src, p, text) && At(src, p + |text|, ItemsText(items[i + 1..]))
      && |ItemsText(items[i..])| == |text| + |ItemsText(items[i + 1..])|
  {
    hide At, ItemText;
    var rest := items[i..];
    assert rest[0] == items[i] && rest[1..] == items[i + 1..];
    AtSplit(src, p, ItemText(items[i]) + "\n", ItemsText(items[i + 1..]));
  }

  /** The lexer's state in front of item i. */
  predicate Reached(src: string, items: seq<Item>, start: int, i: nat, st: LexState)
    requires ItemsOk(items) && i <= |items|
  {
    && At(src, st.pos, ItemsText(items[i..])) && st.pos + |ItemsText(items[i..])| == |src|
    && Noticed(src, st.pos) == NoticedBefore(items, i) && (i == 0 <==> st.pos == 0)
    && st.lines == KeptItems(items, i, start) && st.symbols == SymbolsOf(st.lines)
    && st.addr == ItemAddress(items, i, start)
  }

  lemma SymbolsNext(lines: seq<LineInfo>, line: LineInfo)
    ensures SymbolsOf(lines + [line]) == SymbolsOf(lines) + Defined(line)
  {
    hide Defined;
    assert (lines + [line])[..|lines|] == lines;
  }

  lemma ReachedNext(src: string, items: seq<Item>, start: int, i: nat, st: LexState)
    requires ItemsOk(items) && i < |items| && Reached(src, items, start, i, st)
    ensures Reached(src, items, start, i + 1, After(items, i, st))
  {
    hide At, ItemText, ItemsText, LineOk, Newlines, Kept, Bytes, Defined, SymbolsOf, StatementOk, ItemsOk;
    ItemLineOk(items, i);
    ItemFlat(items, i);
    TextOfItem(src, items, i, st.pos);
    CounterOverLine(src, st.pos, ItemText(items[i]));
    if items[i].Coded? {
      SymbolsNext(st.lines, Kept(items[i].line, i + 2 - Missed(items), st.addr));
    }
  }

  lemma {:induction false} SymbolsFit(lines: seq<LineInfo>)
    ensures |SymbolsOf(lines)| <= |lines|
  {
    if lines != [] {
      SymbolsFit(lines[..|lines| - 1]);
    }
  }

  lemma ItemsNone()
    ensures ItemsText([]) == ""
  {
  }

  lemma LoopEnds(src: string, cap: nat, items: seq<Item>, start: int, st: LexState)
    requires ItemsOk(items) && |items| <= cap && Reached(src, items, start, |items|, st)
    requires |st.lines| <= cap && |st.symbols| <= cap
    ensures var lines := KeptItems(items, |items|, start);
      LexLoop(src, cap, st)
        == LexResult(0, LexState(|src|, lines, SymbolsOf(lines), ItemAddress(items, |items|, start)))
  {
    hide At, Newlines, SymbolsOf, ItemsOk, KeptItems, ItemAddress;
    assert items[|items|..] == [];
    ItemsNone();
  }

  lemma {:induction false} LoopReads(src: string, cap: nat, items: seq<Item>, start: int, i: nat, st: LexState)
    requires ItemsOk(items) && i <= |items| <= cap && Reached(src, items, start, i, st)
    requires |st.lines| <= cap && |st.symbols| <= cap
    ensures var lines := KeptItems(items, |items|, start);
      LexLoop(src, cap, st)
        == LexResult(0, LexState(|src|, lines, SymbolsOf(lines), ItemAddress(items, |items|, start)))
    decreases |items| - i
  {
    hide At, ItemText, ItemsText, Newlines, SymbolsOf, After, ItemsOk, ItemAddress, KeptItems, LexLoop;
    if i < |items| {
      SymbolsFit(st.lines);
      TextOfItem(src, items, i, st.pos);
      LoopReadsItem(src, cap, items, i, st);
      ReachedNext(src, items, start, i, st);
      LoopReads(src, cap, items, start, i + 1, After(items, i, st));
    } else {
      LoopEnds(src, cap, items, start, st);
    }
  }

  lemma {:induction false} CountAppend(a: string, b: string)
    ensures NewlineCount(a + b) == NewlineCount(a) + NewlineCount(b)
  {
    if b == "" {
      assert a + b == a;
    } else {
      var n := |b| - 1;
      assert (a + b)[..|a + b| - 1] == a + b[..n];
      CountAppend(a, b[..n]);
    }
  }

  lemma {:induction false} CountFlat(text: string)
    requires '\n' !in text
    ensures NewlineCount(text) == 0
  {
    if text != "" {
      CountFlat(text[..|text| - 1]);
    }
  }

  lemma CountLine(text: string)
    requires '\n' !in text
    ensures NewlineCount(text + "\n") == 1
  {
    assert (text + "\n")[..|text|] == text;
    CountFlat(text);
  }

  /** The guessed capacity of a text is its number of lines. */
  lemma {:induction false} OneNewlineALine(items: seq<Item>)
    requires ItemsOk(items)
    ensures NewlineCount(ItemsText(items)) == |items|
  {
    hide ItemText, ItemOk;
    if items != [] {
      var text := ItemText(items[0]);
      ItemFlat(items, 0);
      CountLine(text);
      CountAppend(text + "\n", ItemsText(items[1..]));
      OneNewlineALine(items[1..]);
    }
  }

  /**
   * The round trip with comments and blank lines anywhere, for every such text and every start address: there is
   * room, lexing succeeds, and it yields the program lines of the text in order and nothing else, each as it is kept,
   * at the address behind those before it and with the number of the next line of text.
   */
  lemma LexingSkipsComments(items: seq<Item>, start: int)
    requires ItemsOk(items)
    ensures var src, lines := ItemsText(items), KeptItems(items, |items|, start);
      && NewlineCount(src) == |items|
      && LexAll(src, NewlineCount(src), start)
         == LexResult(0, LexState(|src|, ResolveAll(lines, SymbolsOf(lines)), SymbolsOf(lines),
                                  ItemAddress(items, |items|, start)))
  {
    hide At, ItemText, ItemsText, ItemOk, SymbolsOf, LexLoop, Resolve, Kept;
    var src := ItemsText(items);
    OneNewlineALine(items);
    var st := LexState(0, [], [], start);
    assert items[0..] == items;
    WholeText(src);
    assert SymbolsOf([]) == [] by { NoneYet(); }
    LoopReads(src, |items|, items, start, 0, st);
  }

  lemma WholeText(src: string)
    ensures At(src, 0, src)
  {
    assert src[0..|src|] == src;
  }

  // ---- a program alone ----

  /** A program as a text without comments, blank lines and indentation. */
  function AllCode(prog: seq<Line>): (items: seq<Item>)
    ensures |items| == |prog| && forall k :: 0 <= k < |items| ==> items[k] == Coded("", prog[k])
  {
    seq(|prog|, k requires 0 <= k < |prog| => Coded("", prog[k]))
  }

  lemma {:induction false} SameText(prog: seq<Line>)
    ensures ItemsText(AllCode(prog)) == Print(prog)
  {
    hide LineText;
    if prog != [] {
      assert AllCode(prog)[1..] == AllCode(prog[1..]);
      assert "" + LineText(prog[0]) == LineText(prog[0]);
      SameText(prog[1..]);
    }
  }

  lemma {:induction false} SameLines(prog: seq<Line>, n: nat, start: int)
    requires ProgramOk(prog) && n <= |prog|
    ensures ItemsOk(AllCode(prog)) && ItemAddress(AllCode(prog), n, start) == AddressAt(prog, n, start)
    ensures KeptItems(AllCode(prog), n, start) == KeptLines(prog, n, start)
  {
    hide LineText, LineOk, Kept, Bytes, StatementOk;
    AllCodeOk(prog);
    if n > 0 {
      SameLines(prog, n - 1, start);
      LineIn(prog, n - 1);
      FirstCode(AllCode(prog), 0);
    }
  }

  lemma AllCodeOk(prog: seq<Line>)
    requires ProgramOk(prog)
    ensures ItemsOk(AllCode(prog))
  {
    hide LineOk;
  }

  /**
   * The round trip, for every well-formed program and every start address: the guessed capacity is one place a
   * line, lexing succeeds, and it yields the lines printed, one for one, each as it is kept and numbered one too
   * high, and then with its symbol resolved among all labels. ReadAsMeantExactly says when nothing is lost.
   */
  lemma LexingUndoesPrinting(prog: seq<Line>, start: int)
    requires ProgramOk(prog)
    ensures var src, lines := Print(prog), KeptLines(prog, |prog|, start);
      && NewlineCount(src) == |prog|
      && LexAll(src, NewlineCount(src), start)
         == LexResult(0, LexState(|src|, ResolveAll(lines, SymbolsOf(lines)), SymbolsOf(lines),
                                  AddressAt(prog, |prog|, start)))
  {
    hide Print, ItemsText, ItemsOk, ProgramOk, SymbolsOf, LexAll, NewlineCount, ResolveAll, KeptItems, KeptLines;
    SameText(prog);
    SameLines(prog, |prog|, start);
    LexingSkipsComments(AllCode(prog), start);
  }

  /** The program lines among the first n lines of a text. */
  function Lines(items: seq<Item>, n: nat): seq<Line>
    requires n <= |items|
  {
    if n == 0 then [] else Lines(items, n - 1) + if items[n - 1].Coded? then [items[n - 1].line] else []
  }

  lemma {:induction false} LinesOk(items: seq<Item>, n: nat)
    requires ItemsOk(items) && n <= |items|
    ensures ProgramOk(Lines(items, n))
  {
    hide LineOk;
    if n > 0 {
      LinesOk(items, n - 1);
      ItemLineOk(items, n - 1);
    }
  }

  lemma {:induction false} AddressPrefix(prog: seq<Line>, more: seq<Line>, k: nat, start: int)
    requires k <= |prog|
    ensures AddressAt(prog + more, k, start) == AddressAt(prog, k, start)
  {
    hide Bytes;
    if k > 0 {
      AddressPrefix(prog, more, k - 1, start);
    }
  }

  function Unnumbered(lines: seq<LineInfo>): (r: seq<LineInfo>)
    ensures |r| == |lines| && forall k :: 0 <= k < |r| ==> r[k] == lines[k].(lineNum := 0)
  {
    seq(|lines|, k requires 0 <= k < |lines| => lines[k].(lineNum := 0))
  }

  lemma KeptApart(l: Line, lineNum: int, addr: int)
    requires StatementOk(l.stmt)
    ensures Kept(l, lineNum, addr).(lineNum := 0) == Kept(l, 0, addr)
  {
    hide FormOf, ArgOk, Writable, KeptBlocks;
  }

  /** But for their numbers, the lines kept of a text with comments and blank lines are those of the program in it. */
  lemma {:induction false} CommentsAddNothing(items: seq<Item>, n: nat, start: int)
    requires ItemsOk(items) && n <= |items|
    ensures ProgramOk(Lines(items, n))
    ensures ItemAddress(items, n, start) == AddressAt(Lines(items, n), |Lines(items, n)|, start)
    ensures Unnumbered(KeptItems(items, n, start)) == Unnumbered(KeptLines(Lines(items, n), |Lines(items, n)|, start))
  {
    hide LineOk, Kept, Bytes, StatementOk, ProgramOk, ItemsOk;
    LinesOk(items, n);
    if n > 0 {
      CommentsAddNothing(items, n - 1, start);
      ItemLineOk(items, n - 1);
      if items[n - 1].Coded? {
        OneLineMore(Lines(items, n - 1), items[n - 1].line, start);
        KeptApart(items[n - 1].line, n + 1 - Missed(items), ItemAddress(items, n - 1, start));
      } else {
        assert Lines(items, n) == Lines(items, n - 1);
      }
    }
  }

  lemma OneLineMore(prog: seq<Line>, l: Line, start: int)
    requires ProgramOk(prog) && ProgramOk(prog + [l]) && LineOk(l) && StatementOk(l.stmt)
    ensures var more := prog + [l];
      && AddressAt(more, |more|, start) == AddressAt(prog, |prog|, start) + Bytes(l.stmt)
      && Unnumbered(KeptLines(more, |more|, start))
         == Unnumbered(KeptLines(prog, |prog|, start)) + [Kept(l, 0, AddressAt(prog, |prog|, start))]
  {
    hide LineOk, Kept, Bytes, StatementOk, ProgramOk, AddressAt;
    var more, n := prog + [l], |prog|;
    AddressPrefix(prog, [l], n, start);
    NextIs(more, n, start);
    KeptApart(l, n + 2, AddressAt(prog, n, start));
    forall k | 0 <= k < n
      ensures KeptLine(more, k, start) == KeptLine(prog, k, start)
    {
      AddressPrefix(prog, [l], k, start);
    }
  }

  lemma NextIs(prog: seq<Line>, n: nat, start: int)
    requires n < |prog|
    ensures AddressAt(prog, n + 1, start) == AddressAt(prog, n, start) + Bytes(prog[n].stmt)
  {
    hide Bytes;
  }

  // ---- against what is meant ----

  /** Line k of a program as it is meant, on line k + 1 of the text. */
  function MeantLine(prog: seq<Line>, k: nat, start: int, labels: seq<Symbol>): LineInfo
    requires ProgramOk(prog) && k < |prog|
  {
    LineIn(prog, k);
    Meant(prog[k], k + 1, MeantAddress(prog, k, start, labels), labels)
  }

  /** An argument of the data whose bytes are all kept. */
  predicate ArgKept(m: Mnemonic, a: Arg) { a.Text? || (a.Number? && m != DW) }

  lemma ArgMeant(m: Mnemonic, a: Arg, labels: seq<Symbol>)
    requires !a.Register?
    ensures |KeptBytes(a)| <= |MeantBytes(m, a, labels)| && (a.Named? ==> 1 <= |MeantBytes(m, a, labels)|)
    ensures ArgKept(m, a) ==> KeptBytes(a) == MeantBytes(m, a, labels)
    ensures |KeptBytes(a)| == |MeantBytes(m, a, labels)| ==> ArgKept(m, a)
  {
    hide TextBytes, AddressOfLabel;
  }

  /** Data is kept, and its bytes counted, exactly when it is strings and numbers of one byte. */
  lemma {:induction false} BlocksMeant(m: Mnemonic, args: seq<Arg>, labels: seq<Symbol>)
    requires forall i :: 0 <= i < |args| ==> !args[i].Register?
    ensures var kept, meant := KeptBlocks(args), MeantBlocks(m, args, labels);
      var right := forall i :: 0 <= i < |args| ==> ArgKept(m, args[i]);
      && TotalBytes(kept) <= TotalBytes(meant)
      && (right ==> kept == meant) && (TotalBytes(kept) == TotalBytes(meant) ==> right)
  {
    hide KeptBytes, MeantBytes, ArgKept;
    if args != [] {
      var a, rest := args[0], args[1..];
      ArgMeant(m, a, labels);
      BlocksMeant(m, rest, labels);
      OneMoreBlock(if a.Named? then [] else [KeptBytes(a)], KeptBlocks(rest));
      OneMoreBlock([MeantBytes(m, a, labels)], MeantBlocks(m, rest, labels));
      NamedLost(m, a);
    }
  }

  lemma NamedLost(m: Mnemonic, a: Arg)
    ensures ArgKept(m, a) ==> !a.Named?
  {
  }

  lemma OneMoreBlock(b: seq<seq<byte>>, rest: seq<seq<byte>>)
    requires |b| <= 1
    ensures TotalBytes(b + rest) == (if b == [] then 0 else |b[0]|) + TotalBytes(rest)
  {
    if b == [] {
      assert b + rest == rest;
    } else {
      assert (b + rest)[1..] == rest;
    }
  }

  lemma {:induction false} NoNames(args: seq<Arg>, before: string)
    requires forall i :: 0 <= i < |args| ==> !args[i].Named?
    ensures LastName(args, before) == before
  {
    if args != [] {
      NoNames(args[1..], before);
    }
  }

  lemma DataMnemonics(m: Mnemonic)
    ensures FormOf(m) == Data <==> m in {DB, DW}
  {
  }

  lemma KeepsEach(s: Statement)
    requires FormOf(s.m) == Data
    ensures KeepsData(s) <==> forall i :: 0 <= i < |s.args| ==> ArgKept(s.m, s.args[i])
    ensures KeepsData(s) ==> forall i :: 0 <= i < |s.args| ==> !s.args[i].Named?
  {
    hide FormOf;
    DataMnemonics(s.m);
  }

  /**
   * A line is kept as it is meant, but numbered one too high, exactly when it has no symbol behind a register, no
   * symbol among data, and no number in a DW.
   */
  lemma KeptIsMeant(l: Line, lineNum: int, addr: int, labels: seq<Symbol>)
    requires LineOk(l)
    ensures Kept(l, lineNum + 1, addr) == Meant(l, lineNum, addr, labels).(lineNum := lineNum + 1)
      <==> ReadAsMeant(l.stmt)
  {
    hide IsLabel, Writable, FormOf, KeptBlocks, MeantBlocks, KeepsData;
    var s := l.stmt;
    if FormOf(s.m) == Data {
      KeepsEach(s);
      BlocksMeant(s.m, s.args, labels);
      if KeepsData(s) {
        NoNames(s.args, "");
      }
      assert [] + KeptBlocks(s.args) == KeptBlocks(s.args);
    } else {
      NotData(s);
    }
  }

  lemma NotData(s: Statement)
    requires FormOf(s.m) != Data
    ensures KeepsData(s)
  {
    hide FormOf;
  }

  /** Exactly the bytes of a statement are counted when it is no such data and no DS of more or less than one byte. */
  lemma BytesMeant(s: Statement, labels: seq<Symbol>)
    requires StatementOk(s)
    ensures Bytes(s) == Takes(s, labels) <==> Counted(s, labels)
  {
    hide Writable, FormOf, KeptBlocks, MeantBlocks, KeepsData, ArgOk, TotalBytes, AddressOfLabel;
    if FormOf(s.m) == Data {
      KeepsEach(s);
      BlocksMeant(s.m, s.args, labels);
    } else {
      NotData(s);
    }
  }

  /** The lexer gives line k the address it is meant to have. */
  predicate AddressRight(prog: seq<Line>, k: nat, start: int, labels: seq<Symbol>)
    requires ProgramOk(prog) && k <= |prog|
  {
    AddressAt(prog, k, start) == MeantAddress(prog, k, start, labels)
  }

  predicate LineCounted(prog: seq<Line>, k: nat, labels: seq<Symbol>)
    requires ProgramOk(prog) && k < |prog|
  {
    LineIn(prog, k);
    Counted(prog[k].stmt, labels)
  }

  lemma NextAddress(prog: seq<Line>, k: nat, start: int, labels: seq<Symbol>)
    requires ProgramOk(prog) && k < |prog| && AddressRight(prog, k, start, labels)
    ensures AddressRight(prog, k + 1, start, labels) <==> LineCounted(prog, k, labels)
  {
    hide Takes, Bytes, Counted, LineOk, ProgramOk;
    LineIn(prog, k);
    BytesMeant(prog[k].stmt, labels);
  }

  /** The addresses up to line n are the meant ones exactly when every statement before it is counted. */
  lemma {:induction false} AddressesMeant(prog: seq<Line>, n: nat, start: int, labels: seq<Symbol>)
    requires ProgramOk(prog) && n <= |prog|
    ensures (forall k :: 0 <= k <= n ==> AddressRight(prog, k, start, labels))
       <==> forall k :: 0 <= k < n ==> LineCounted(prog, k, labels)
  {
    hide LineCounted, ProgramOk;
    if n > 0 {
      hide AddressRight;
      AddressesMeant(prog, n - 1, start, labels);
      if AddressRight(prog, n - 1, start, labels) {
        NextAddress(prog, n - 1, start, labels);
      }
    }
  }

  lemma MeantPlace(l: Line, lineNum: int, addr: int, labels: seq<Symbol>)
    requires StatementOk(l.stmt)
    ensures Meant(l, lineNum, addr, labels).addr == addr
    ensures forall other :: Meant(l, lineNum, other, labels).(addr := addr) == Meant(l, lineNum, addr, labels)
  {
    hide ArgOk, Writable, FormOf, MeantBlocks;
  }

  /** Line k is read as it is meant, but numbered one too high. */
  predicate LineReadAsMeant(prog: seq<Line>, k: nat, start: int, labels: seq<Symbol>)
    requires ProgramOk(prog) && k < |prog|
  {
    KeptLine(prog, k, start) == MeantLine(prog, k, start, labels).(lineNum := k + 2)
  }

  lemma LineMeant(prog: seq<Line>, k: nat, start: int, labels: seq<Symbol>)
    requires ProgramOk(prog) && k < |prog|
    ensures LineReadAsMeant(prog, k, start, labels)
       <==> ReadAsMeant(prog[k].stmt) && AddressRight(prog, k, start, labels)
  {
    hide ProgramOk, LineOk, StatementOk, Kept, Meant, ReadAsMeant, AddressAt, MeantAddress;
    LineIn(prog, k);
    var at, meant := AddressAt(prog, k, start), MeantAddress(prog, k, start, labels);
    KeptPlace(prog[k], k + 2, at);
    MeantPlace(prog[k], k + 1, meant, labels);
    KeptIsMeant(prog[k], k + 1, at, labels);
  }

  /**
   * For every well-formed program: every line is read as it is meant, at the address it is meant to have and numbered
   * one too high, exactly when no line has a symbol behind a register, a symbol among data or a number in a DW, and
   * every DS but one at the end is of one byte.
   */
  lemma ReadAsMeantExactly(prog: seq<Line>, start: int, labels: seq<Symbol>)
    requires ProgramOk(prog)
    ensures (forall k :: 0 <= k < |prog| ==> LineReadAsMeant(prog, k, start, labels)) <==>
      && (forall k :: 0 <= k < |prog| ==> ReadAsMeant(prog[k].stmt))
      && forall k :: 0 <= k < |prog| - 1 ==> LineCounted(prog, k, labels)
  {
    hide ProgramOk, ReadAsMeant, LineReadAsMeant, AddressRight, LineCounted;
    if prog != [] {
      AddressesMeant(prog, |prog| - 1, start, labels);
      forall k | 0 <= k < |prog|
        ensures LineReadAsMeant(prog, k, start, labels)
           <==> ReadAsMeant(prog[k].stmt) && AddressRight(prog, k, start, labels)
      {
        LineMeant(prog, k, start, labels);
      }
    }
  }
}
