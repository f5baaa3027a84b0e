/** Sources that are lexed and assembled without an error and yet go wrong, one for each way stated elsewhere. */
module Examples {
  import opened Bits
  import opened Opcodes
  import opened Source
  import opened LexSpec
  import opened Encoding
  import opened Addresses
  import opened Contiguity
  import opened Labels
  import opened Scanning
  import opened Literals
  import opened Printer
  import opened Readback
  import opened RoundTrip
  import opened Words
  import opened Vectors

  lemma PrintStep(l: Line, rest: seq<Line>)
    ensures Print([l] + rest) == LineText(l) + "\n" + Print(rest)
    ensures Print([]) == ""
  {
    hide LineText;
    assert ([l] + rest)[1..] == rest;
  }

  // ---- a gap ----

  function GapProgram(): seq<Line> {
    [Line("", Statement(DS, [Number(1, Decimal)])), Line("", Statement(RET, []))]
  }

  const GAP: string := "DS 1\nRET\n"

  lemma GapNames()
    ensures Opcodes.Name(DS) == "DS" && Opcodes.Name(RET) == "RET"
    ensures FormOf(DS) == Space && FormOf(RET) == Bare && Writable(DS) && Writable(RET)
  {
  }

  lemma OneDigit()
    ensures Written(1, Decimal) == "1"
  {
  }

  lemma GapText()
    ensures ProgramOk(GapProgram()) && Print(GapProgram()) == GAP
  {
    hide Opcodes.Name, FormOf, Writable, Written, Print;
    GapNames();
    OneDigit();
    var space, ret := GapProgram()[0], GapProgram()[1];
    assert space.stmt.args[1..] == [] && MoreText([]) == "";
    assert LineText(space) == "DS 1" && LineText(ret) == "RET";
    PrintStep(space, [ret]);
    PrintStep(ret, []);
    assert [space] + [ret] == GapProgram() && [ret] + [] == [ret];
  }

  /** The two lines as the lexer leaves them. */
  lemma GapLines(start: int)
    ensures ProgramOk(GapProgram())
    ensures var lines := KeptLines(GapProgram(), 2, start);
      && lines[0].instr == DS && lines[1].instr == RET && lines[0].symbolStr == "" && lines[1].symbolStr == ""
      && lines[0].blocks == []
  {
    hide Opcodes.Name, FormOf, Writable, Written;
    GapNames();
    GapText();
    var prog := GapProgram();
    assert KeptLines(prog, 2, start)[0] == KeptLine(prog, 0, start);
    assert KeptLines(prog, 2, start)[1] == KeptLine(prog, 1, start);
  }

  lemma SpaceLine(space: LineInfo)
    requires space.instr == DS && space.blocks == []
    ensures Accepted(space) && Emitted(space) == 0 && Surplus(space) == 1
  {
    hide Encode, FormOf, DataInstrs;
    GapNames();
    DataForms(space);
    NoBytes();
  }

  lemma ReturnLine(ret: LineInfo)
    requires ret.instr == RET
    ensures Accepted(ret) && Emitted(ret) == 1
  {
    hide Encode, FormOf;
    GapNames();
    BareForms(ret);
  }

  lemma GapLexed(start: int)
    ensures var r := LexAll(GAP, NewlineCount(GAP), start);
      && r.status == 0 && |r.st.lines| == 2
      && r.st.lines[0].instr == DS && r.st.lines[0].blocks == [] && r.st.lines[1].instr == RET
  {
    hide LexAll, Print, NewlineCount, KeptLines, SymbolsOf, Accepted, Emitted, Surplus, TableSafe;
    GapText();
    GapLines(start);
    LexingUndoesPrinting(GapProgram(), start);
  }

  /** A DS in front of anything that emits a byte leaves a gap: the lexer counts a byte that is not there. */
  lemma DsLeavesGap(start: int)
    ensures var r := LexAll(GAP, NewlineCount(GAP), start);
      && r.status == 0 && AllTableSafe(r.st.lines) && AssemFrom(r.st.lines, 0).status == 0
      && !Contiguous(AssemFrom(r.st.lines, 0).instrs, start)
  {
    hide LexAll, NewlineCount, Accepted, Emitted, Surplus, AssemFrom, Contiguous, TableSafe;
    GapLexed(start);
    var lines := LexAll(GAP, NewlineCount(GAP), start).st.lines;
    SpaceLine(lines[0]);
    ReturnLine(lines[1]);
    AcceptedAssembles(lines[0]);
    AcceptedAssembles(lines[1]);
    AssemSucceeds(lines, 0);
    ImageLayout(GAP, NewlineCount(GAP), start);
    assert SurplusBetween(lines, 0, 1) == SurplusBetween(lines, 0, 0) + Surplus(lines[0]);
  }

  // ---- a word of one byte ----

  function WordProgram(): seq<Line> {
    [Line("", Statement(DW, [Number(1, Decimal)])), Line("", Statement(RET, []))]
  }

  const WORD: string := "DW 1\nRET\n"

  lemma WordNames()
    ensures Opcodes.Name(DW) == "DW" && FormOf(DW) == Data && Writable(DW)
  {
  }

  lemma WordText()
    ensures ProgramOk(WordProgram()) && Print(WordProgram()) == WORD
  {
    hide Opcodes.Name, FormOf, Writable, Written, Print;
    WordNames();
    GapNames();
    OneDigit();
    var data, ret := WordProgram()[0], WordProgram()[1];
    assert data.stmt.args[1..] == [] && MoreText([]) == "";
    assert LineText(data) == "DW 1" && LineText(ret) == "RET";
    PrintStep(data, [ret]);
    PrintStep(ret, []);
    assert [data] + [ret] == WordProgram() && [ret] + [] == [ret];
  }

  lemma WordBlocks()
    ensures var args := [Number(1, Decimal)];
      && KeptBlocks(args) == [[1]] && MeantBlocks(DW, args, []) == [[1, 0]] && LastName(args, "") == ""
    ensures TotalBytes([[1]]) == 1 && TotalBytes([[1, 0]]) == 2
  {
    var args := [Number(1, Decimal)];
    assert args[1..] == [];
    NoNames(args, "");
    OneBlock([1]);
    OneBlock([1, 0]);
  }

  lemma WordSizes()
    requires StatementOk(WordProgram()[0].stmt)
    ensures Bytes(WordProgram()[0].stmt) == 1 && Takes(WordProgram()[0].stmt, []) == 2
  {
    hide Opcodes.Name, FormOf, Writable, TotalBytes, KeptBlocks, MeantBlocks;
    WordNames();
    WordBlocks();
  }

  lemma WordLines(start: int)
    ensures ProgramOk(WordProgram())
    ensures var lines := KeptLines(WordProgram(), 2, start);
      && lines[0].blocks == [[1]] && lines[0].lineNum == 2 && lines[0].symbolStr == "" && lines[1].symbolStr == ""
    ensures MeantLine(WordProgram(), 0, start, []).blocks == [[1, 0]]
  {
    hide Opcodes.Name, FormOf, Writable, Written, KeptBlocks, MeantBlocks, LastName, MeantAddress, AddressAt, LineOk;
    WordNames();
    GapNames();
    WordText();
    WordBlocks();
    var prog := WordProgram();
    assert [] + [[1 as byte]] == [[1 as byte]];
    assert KeptLines(prog, 2, start)[0] == KeptLine(prog, 0, start);
    assert KeptLines(prog, 2, start)[1] == KeptLine(prog, 1, start);
  }

  lemma WordPlaces(start: int)
    ensures ProgramOk(WordProgram())
    ensures KeptLines(WordProgram(), 2, start)[1].addr == start + 1
    ensures MeantLine(WordProgram(), 1, start, []).addr == start + 2
  {
    hide Opcodes.Name, FormOf, Writable, Written, Bytes, Takes, Kept, Meant, ProgramOk, LineOk, StatementOk;
    WordText();
    var prog := WordProgram();
    LineIn(prog, 0);
    LineIn(prog, 1);
    WordSizes();
    assert AddressAt(prog, 1, start) == AddressAt(prog, 0, start) + Bytes(prog[0].stmt);
    assert MeantAddress(prog, 1, start, []) == MeantAddress(prog, 0, start, []) + Takes(prog[0].stmt, []);
    KeptPlace(prog[1], 3, start + 1);
    MeantPlace(prog[1], 2, start + 2, []);
    assert KeptLines(prog, 2, start)[1] == KeptLine(prog, 1, start);
  }

  lemma OneBlock(b: seq<byte>)
    ensures TotalBytes([b]) == |b|
  {
    assert Flatten([b]) == b + Flatten([]);
  }

  /** A DW is given one byte for its word, the line behind it lies one too low, and the first line is numbered 2. */
  lemma DwIsOneByte(start: int)
    ensures ProgramOk(WordProgram()) && Print(WordProgram()) == WORD
    ensures var r := LexAll(WORD, NewlineCount(WORD), start);
      && r.status == 0 && |r.st.lines| == 2
      && r.st.lines[0].blocks == [[1]] && MeantLine(WordProgram(), 0, start, []).blocks == [[1, 0]]
      && r.st.lines[1].addr + 1 == MeantLine(WordProgram(), 1, start, []).addr
      && r.st.lines[0].lineNum == 2 == MeantLine(WordProgram(), 0, start, []).lineNum + 1
  {
    hide LexAll, Print, NewlineCount, KeptLines, SymbolsOf, MeantAddress, AddressAt, FormOf, MeantBlocks;
    WordText();
    WordLines(start);
    WordPlaces(start);
    LexingUndoesPrinting(WordProgram(), start);
  }

  // ---- a data line that takes the next ----

  const TAIL: string := "DB 1  \nRET\n"

  lemma DataNames()
    ensures Opcodes.Name(DB) == "DB" && FormOf(DB) == Data && Writable(DB)
  {
  }

  lemma TailLines()
    ensures forall p :: 0 <= p < 6 ==> LineAt(TAIL, p) == 1
    ensures LineAt(TAIL, 10) == 3
  {
    hide Newlines;
    assert Newlines(TAIL, 0) == 0 by { NewlineZero(TAIL); }
    NewlineStep(TAIL, 1);
    NewlineStep(TAIL, 2);
    NewlineStep(TAIL, 3);
    NewlineStep(TAIL, 4);
    NewlineStep(TAIL, 5);
    NewlineStep(TAIL, 6);
    NewlineStep(TAIL, 7);
    NewlineStep(TAIL, 8);
    NewlineStep(TAIL, 9);
    NewlineStep(TAIL, 10);
  }

  lemma NewlineZero(src: string)
    ensures Newlines(src, 0) == 0
  {
  }

  /** The RET of the next line is the token behind the blanks. */
  lemma RetNext()
    ensures NextToken(TAIL, 5) == (Token(SYM_INSTR, "RET"), 10)
  {
    hide NextToken, Classify, Opcodes.Name, FormOf, Writable, EndsArg, PastSeparator;
    GapNames();
    MnemonicToken(RET);
    SpaceSkipped(TAIL, 5);
    SpaceSkipped(TAIL, 6);
    BehindRet();
    WordRead(TAIL, 7, "RET");
  }

  lemma BehindRet()
    ensures At(TAIL, 7, "RET") && EndsArg(CharAt(TAIL, 10)) && PastSeparator(TAIL, 10) == 10
  {
  }

  lemma OneThere()
    ensures DataThere(TAIL, 3, [Number(1, Decimal)], 1) && ArgsText([Number(1, Decimal)]) == "1"
  {
    hide Written, LineAt;
    TailLines();
    OneDigit();
    var args := [Number(1, Decimal)];
    assert args[1..] == [] && MoreText([]) == "";
  }

  /** It is refused as an argument, and the cursor stands behind it. */
  lemma TailData(line: LineInfo)
    ensures var (d, q) := ParseData(TAIL, 3, 1, line);
      !d.ok && q == 10 && d.line.symbolStr == line.symbolStr
  {
    hide NextToken, ParseData, LineAt, DataThere, WithData, ArgsText, ParseDataArg;
    OneThere();
    TailLines();
    DataUpTo(TAIL, 3, [Number(1, Decimal)], line, 1);
    assert PastSeparator(TAIL, 4) == 5;
    var full := WithData(line, [Number(1, Decimal)]);
    RetNext();
    DataStep(TAIL, 5, 1, full);
    Refused(full, line);
  }

  lemma Refused(full: LineInfo, line: LineInfo)
    requires full == WithData(line, [Number(1, Decimal)])
    ensures ParseDataArg(full, Token(SYM_INSTR, "RET")) == Parsed(full, false) && full.symbolStr == line.symbolStr
  {
    NoNames([Number(1, Decimal)], line.symbolStr);
  }

  lemma TailLine(addr: int)
    ensures var l := LexLine(TAIL, 0, addr, true);
      l.next == 10 && l.symbols == [] && l.line.error && l.line.instr == INVALID && l.line.symbolStr == ""
  {
    hide NextToken, Classify, Opcodes.Name, FormOf, Writable, ParseData, LineAt, Instruction, SizeOf, At, EndsArg;
    DataNames();
    MnemonicToken(DB);
    assert At(TAIL, 0, "DB") && EndsArg(CharAt(TAIL, 2)) by { BehindDb(); }
    WordRead(TAIL, 0, "DB");
    TailLines();
    TailData(BLANK);
    DataKeepsInstr(TAIL, 3, 1, BLANK);
  }

  lemma BehindDb()
    ensures At(TAIL, 0, "DB") && EndsArg(CharAt(TAIL, 2))
  {
  }

  lemma DataKeepsInstr(src: string, p: nat, k: nat, line: LineInfo)
    ensures ParseData(src, p, k, line).0.line.instr == line.instr
  {
    hide ParseData;
    DataFacts(src, p, k, line);
  }

  /** With two blanks at its end a data line takes in the line below: one erroneous line is left of the two. */
  lemma BlanksTakeNextLine(start: int)
    ensures var r := LexAll(TAIL, 2, start);
      r.status == 0 && |r.st.lines| == 1 && r.st.lines[0].error && r.st.lines[0].instr == INVALID
  {
    hide LexLine, ResolveAll;
    TailLine(start);
    var l := LexLine(TAIL, 0, start, true);
    var st := LexState(10, [l.line], l.symbols, start + l.size);
    assert TAIL[0] == 'D' && TAIL[10] == '\n' && |TAIL| == 11;
    assert [] + [l.line] == [l.line] && [] + l.symbols == l.symbols;
    assert LexLoop(TAIL, 2, LexState(0, [], [], start)) == LexLoop(TAIL, 2, st);
    assert LexLoop(TAIL, 2, st) == LexLoop(TAIL, 2, st.(pos := 11));
    Untouched(l.line);
  }

  lemma Untouched(line: LineInfo)
    requires line.symbolStr == ""
    ensures ResolveAll([line], []) == [line]
  {
  }

  // ---- a label taken for another ----

  function PrefixProgram(): seq<Line> {
    [Line("LOOPS", Statement(RET, [])), Line("LOOP", Statement(RET, [])), Line("", Statement(CALL, [Named("LOOP")]))]
  }

  const PREFIX: string := "LOOPS: RET\nLOOP: RET\nCALL LOOP\n"

  lemma NoDirective(name: string)
    requires name != "" && name[0] == 'L'
    ensures DirectiveNamed(name) == NONE
  {
    forall i | 0 <= i < 9
      ensures Directives()[i].name != name
    {
      OtherLetter(NthDirective(i));
    }
    FindNone(Directives(), NONE, name, 0);
  }

  lemma OtherLetter(d: Directive)
    ensures DirectiveName(d) != "" && DirectiveName(d)[0] != 'L'
  {
  }

  lemma LoopLabels()
    ensures IsLabel("LOOPS") && IsLabel("LOOP")
  {
    hide DirectiveNamed, Instruction;
    NoDirective("LOOPS");
    NoDirective("LOOP");
    UnknownName("LOOPS");
    UnknownName("LOOP");
  }

  lemma PrefixNames()
    ensures Opcodes.Name(CALL) == "CALL" && Opcodes.Name(RET) == "RET"
    ensures FormOf(CALL) == Imm16 && FormOf(RET) == Bare && Writable(CALL) && Writable(RET)
  {
  }

  lemma PrefixTexts()
    ensures ProgramOk(PrefixProgram())
    ensures var prog := PrefixProgram();
      LineText(prog[0]) == "LOOPS: RET" && LineText(prog[1]) == "LOOP: RET" && LineText(prog[2]) == "CALL LOOP"
  {
    hide Opcodes.Name, FormOf, Writable, IsLabel;
    PrefixNames();
    LoopLabels();
    assert PrefixProgram()[2].stmt.args[1..] == [] && MoreText([]) == "";
  }

  lemma PrefixText()
    ensures ProgramOk(PrefixProgram()) && Print(PrefixProgram()) == PREFIX
  {
    hide LineText, Print, LineOk;
    PrefixTexts();
    var prog := PrefixProgram();
    PrintStep(prog[0], [prog[1], prog[2]]);
    PrintStep(prog[1], [prog[2]]);
    PrintStep(prog[2], []);
    assert [prog[0]] + [prog[1], prog[2]] == prog && [prog[1]] + [prog[2]] == [prog[1], prog[2]];
    assert [prog[2]] + [] == [prog[2]];
  }

  lemma PrefixLines(start: int)
    ensures ProgramOk(PrefixProgram())
    ensures var lines := KeptLines(PrefixProgram(), 3, start);
      && lines[0].labelStr == "LOOPS" && lines[1].labelStr == "LOOP" && lines[2].symbolStr == "LOOP"
      && lines[0].addr == start && lines[1].addr == start + 1
  {
    hide Opcodes.Name, FormOf, Writable, IsLabel;
    PrefixNames();
    PrefixText();
    var prog := PrefixProgram();
    assert KeptLines(prog, 3, start)[0] == KeptLine(prog, 0, start);
    assert KeptLines(prog, 3, start)[1] == KeptLine(prog, 1, start);
    assert KeptLines(prog, 3, start)[2] == KeptLine(prog, 2, start);
    assert AddressAt(prog, 1, start) == AddressAt(prog, 0, start) + 1;
  }

  lemma PrefixLexed(start: int)
    ensures var r := LexAll(PREFIX, NewlineCount(PREFIX), start);
      && r.status == 0 && |r.st.lines| == 3
      && r.st.lines[0].labelStr == "LOOPS" && r.st.lines[1].labelStr == "LOOP" && r.st.lines[2].symbolStr == "LOOP"
      && r.st.lines[0].addr == start && r.st.lines[1].addr == start + 1
  {
    hide LexAll, Print, NewlineCount, KeptLines, SymbolsOf, Resolve, Accepted, Emitted, Surplus, TableSafe;
    PrefixText();
    PrefixLines(start);
    LexingUndoesPrinting(PrefixProgram(), start);
    var kept := KeptLines(PrefixProgram(), 3, start);
    ResolveKeeps(kept[0], SymbolsOf(kept));
    ResolveKeeps(kept[1], SymbolsOf(kept));
    ResolveKeeps(kept[2], SymbolsOf(kept));
  }

  lemma LongerMatches(lines: seq<LineInfo>)
    requires lines != [] && lines[0].labelStr == "LOOPS"
    ensures FirstMatch(lines, "LOOP") == 0
  {
    hide FirstMatch;
    assert "LOOPS"[..4] == "LOOP";
    assert Matches(lines[0], "LOOP");
  }

  /** A call of LOOP behind the labels LOOPS and LOOP goes to LOOPS. */
  lemma LongerLabelWins(start: int)
    ensures var r := LexAll(PREFIX, NewlineCount(PREFIX), start);
      && r.status == 0 && |r.st.lines| == 3
      && r.st.lines[1].labelStr == r.st.lines[2].symbolStr == "LOOP"
      && r.st.lines[2].hasImm && r.st.lines[2].imm == r.st.lines[0].addr == r.st.lines[1].addr - 1
  {
    hide LexAll, NewlineCount, FirstMatch, LexLoop;
    PrefixLexed(start);
    LongerMatches(LexAll(PREFIX, NewlineCount(PREFIX), start).st.lines);
    LabelsResolve(PREFIX, NewlineCount(PREFIX), start, 2);
  }

  // ---- directives ----

  lemma DirectiveText(d: Directive)
    requires d != NONE
    ensures var w := DirectiveSpelling(d);
      && NewlineCount(w + "\n") == 1 && At(w + "\n", 0, w) && (w + "\n")[|w|] == '\n' && EndsArg('\n')
      && w != "" && !IsComment(w[0]) && !IsWhitespace(w[0])
  {
    hide DirectiveSpelling, NewlineCount, DirectiveNamed;
    DirectiveWord(d);
    var w := DirectiveSpelling(d);
    WordFlat(w);
    CountLine(w);
    FirstCharacter(w[0]);
  }

  /** A source of nothing but a directive: one line, which is no error, and is assembled to the bytes of BytesFor. */
  lemma DirectiveSource(d: Directive, start: int)
    requires d != NONE
    ensures var r := LexAll(DirectiveSpelling(d) + "\n", 1, start);
      && r.status == 0 && |r.st.lines| == 1 && !r.st.lines[0].error && r.st.lines[0].addr == start
      && r.st.addr == start + 1
      && HeldBy(r.st.lines[0], d) && TableSafe(r.st.lines[0])
      && (AssemLine(r.st.lines[0]).status == 0 <==> d !in {EQU, MACRO})
      && (d !in {EQU, MACRO} ==> Image(AssemLine(r.st.lines[0]).instrs) == BytesFor(d))
  {
    hide DirectiveSpelling, LexLine, AssemLine, Image, BytesFor, TableSafe, StandsFor, At, EndsArg, LineAt, IsComment,
         IsWhitespace, ResolveAll;
    var w, src := DirectiveSpelling(d), DirectiveSpelling(d) + "\n";
    DirectiveText(d);
    DirectiveStatement(src, 0, d, start);
    AtNewline(src, |w|);
    var l := LexLine(src, 0, start, true);
    var st := LexState(|w|, [l.line], [], start + 1);
    assert [] + [l.line] == [l.line] && l.symbols == [] && src[0] == w[0];
    assert LexLoop(src, 1, LexState(0, [], [], start)) == LexLoop(src, 1, st);
    NotComment();
    assert LexLoop(src, 1, st) == LexLoop(src, 1, st.(pos := |src|));
    Untouched(l.line);
    DirectiveBytes(l.line, d);
  }

  lemma AtNewline(src: string, p: nat)
    requires p < |src| && src[p] == '\n'
    ensures PastSeparator(src, p) == p && CharAt(src, p) == '\n'
  {
  }

  // ---- a comment line ----

  /** A comment in front of a RET leaves the RET, whole. */
  lemma CommentThenRet(start: int)
    ensures var r := LexAll("; c\nRET\n", 2, start);
      r.status == 0 && |r.st.lines| == 1 && r.st.lines[0].instr == RET && r.st.lines[0].labelStr == ""
      && r.st.lines[0].lineNum == 3
  {
    hide *;
    var ret := Line("", Statement(RET, []));
    var remark := Gap("", "; c");
    var items := [remark, Coded("", ret)];
    RetLine(ret);
    RemarkText(ret);
    TwoKept(remark, ret, start);
    LexingSkipsComments(items, start);
    ResolveAllBlank(Kept(ret, 3, start));
  }

  lemma RemarkText(ret: Line)
    requires LineText(ret) == "RET"
    ensures var remark := Gap("", "; c");
      ItemOk(remark) && ItemText(remark) == "; c" && ItemsText([remark, Coded("", ret)]) == "; c\nRET\n"
  {
    hide LineText;
    var remark, code := Gap("", "; c"), Coded("", ret);
    hide ItemsText;
    TwoItems(remark, code);
    assert ItemText(remark) == "; c" && ItemText(code) == "RET";
    assert "; c" + "\n" + ("RET" + "\n") == "; c\nRET\n";
  }

  lemma TwoItems(a: Item, b: Item)
    ensures ItemsText([a, b]) == ItemText(a) + "\n" + (ItemText(b) + "\n")
  {
    hide ItemText;
    assert [a, b][1..] == [b] && [b][1..] == [];
    assert ItemsText([b]) == ItemText(b) + "\n" + ItemsText([]);
  }

  lemma TwoKept(gap: Item, l: Line, start: int)
    requires gap.Gap? && ItemOk(gap) && ItemText(gap) != "" && LineOk(l) && StatementOk(l.stmt)
    ensures var items := [gap, Coded("", l)];
      ItemsOk(items) && KeptItems(items, 2, start) == [Kept(l, 3, start)]
  {
    hide Kept, LineOk, StatementOk, LineText;
    var items := [gap, Coded("", l)];
    assert KeptItems(items, 1, start) == KeptItems(items, 0, start) + [];
    assert ItemAddress(items, 1, start) == ItemAddress(items, 0, start) + 0;
  }

  lemma RetLine(ret: Line)
    requires ret == Line("", Statement(RET, []))
    ensures LineOk(ret) && StatementOk(ret.stmt) && LineText(ret) == "RET" && Bytes(ret.stmt) == 1
    ensures forall n, addr ::
      var line := Kept(ret, n, addr);
      line.instr == RET && line.labelStr == "" && line.symbolStr == "" && line.lineNum == n
  {
    hide Opcodes.Name, FormOf, Writable;
    GapNames();
  }

  lemma ResolveAllBlank(line: LineInfo)
    requires line.symbolStr == ""
    ensures ResolveAll([line], SymbolsOf([line])) == [line]
  {
    hide SymbolsOf;
  }
}
