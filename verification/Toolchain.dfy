/** The whole toolchain: a source text lexed, assembled, loaded and executed. */
module Toolchain {
  import opened Bits
  import opened Opcodes
  import opened Source
  import opened LexSpec
  import opened Encoding
  import opened Layout8080
  import opened Addresses
  import opened Printer
  import opened RoundTrip
  import C = CpuSpec
  import opened Meaning
  import opened Compiler
  import opened Lexers
  import opened Assemblers
  import opened ByteLists

  /** A source line whose instruction runs as written, with numbers only for operands. */
  predicate RunsAsWritten(l: Line) {
    LineOk(l) && Runs(Meant(l, 0, 0, [])) && Meant(l, 0, 0, []).symbolStr == ""
  }

  ghost predicate StraightSource(prog: seq<Line>) { forall k :: 0 <= k < |prog| ==> RunsAsWritten(prog[k]) }

  /** The lines of a program as they are meant and where they are meant to lie. */
  function MeantLines(prog: seq<Line>, start: int): (lines: seq<LineInfo>)
    requires ProgramOk(prog)
    ensures |lines| == |prog|
    ensures forall k :: 0 <= k < |lines| ==> lines[k] == MeantLine(prog, k, start, [])
  {
    seq(|prog|, k requires 0 <= k < |prog| => MeantLine(prog, k, start, []))
  }

  function Renumbered(line: LineInfo): LineInfo { line.(lineNum := line.lineNum + 1) }

  /** Lines as the lexer numbers them, each one too high. */
  function RenumberedAll(lines: seq<LineInfo>): (r: seq<LineInfo>)
    ensures |r| == |lines| && forall k :: 0 <= k < |r| ==> r[k] == Renumbered(lines[k])
  {
    seq(|lines|, k requires 0 <= k < |lines| => Renumbered(lines[k]))
  }

  /** Such a line has nothing to resolve in it, and loses nothing when it is read. */
  lemma MeantRuns(l: Line, lineNum: int, addr: int)
    requires RunsAsWritten(l)
    ensures var line := Meant(l, lineNum, addr, []);
      && line.symbolStr == "" && line.addr == addr && line.lineNum == lineNum && Runs(line) && Lexable(line)
    ensures ReadAsMeant(l.stmt) && Counted(l.stmt, [])
  {
    hide IsLabel, ArgOk, Runs, Lexable, FormOf, Writable, MeantBlocks, KeepsData;
    MeantForm(l);
    assert Meant(l, lineNum, addr, []) == Meant(l, 0, 0, []).(lineNum := lineNum, addr := addr);
    PlaceFree(Meant(l, 0, 0, []), lineNum, addr);
  }

  lemma PlaceFree(line: LineInfo, lineNum: int, addr: int)
    requires Runs(line) && Lexable(line)
    ensures var moved := line.(lineNum := lineNum, addr := addr);
      Runs(moved) && Lexable(moved)
  {
  }

  lemma RunsForm(line: LineInfo)
    requires Runs(line)
    ensures FormOf(line.instr)
         == match line.instr case MOV => TwoReg case MVI => RegImm8 case LXI => RegImm16 case _ => OneReg
  {
  }

  lemma RunsLexable(line: LineInfo)
    requires Runs(line) && (line.instr != MOV ==> line.reg1 == REG_NONE)
    ensures Lexable(line)
  {
  }

  lemma MeantForm(l: Line)
    requires RunsAsWritten(l)
    ensures Lexable(Meant(l, 0, 0, []))
    ensures FormOf(l.stmt.m) in {OneReg, TwoReg, RegImm8, RegImm16} && !DropsRegister(l.stmt) && KeepsData(l.stmt)
  {
    hide IsLabel, ArgOk, Runs, Lexable, FormOf, Writable, MeantBlocks, KeepsData;
    var line := Meant(l, 0, 0, []);
    InstrIs(l);
    RunsForm(line);
    NotData(l.stmt);
    LabelNonempty(l);
    RunsLexable(line);
  }

  lemma InstrIs(l: Line)
    requires StatementOk(l.stmt)
    ensures forall lineNum, addr :: Meant(l, lineNum, addr, []).instr == l.stmt.m
  {
    hide ArgOk, FormOf, MeantBlocks;
  }

  lemma LabelNonempty(l: Line)
    requires LineOk(l)
    ensures forall i :: 0 <= i < |l.stmt.args| && l.stmt.args[i].Named? ==> l.stmt.args[i].sym != ""
  {
    hide Classify, FormOf, EndsWord;
    forall i | 0 <= i < |l.stmt.args| && l.stmt.args[i].Named?
      ensures l.stmt.args[i].sym != ""
    {
      assert ArgOk(l.stmt.args[i]);
    }
  }

  /** The bytes counted for a line are those it is encoded in. */
  lemma BytesEncoded(l: Line, lineNum: int, addr: int)
    requires RunsAsWritten(l) && Lexable(Meant(l, lineNum, addr, [])) && Runs(Meant(l, lineNum, addr, []))
    ensures |EncodedBytes(Meant(l, lineNum, addr, []))| == Bytes(l.stmt)
  {
    hide EncodedBytes, Image, AssemLine, IsLabel, ArgOk, Runs, TableSafe, FormOf, Writable, ArgsFit, Meant;
    var line := Meant(l, lineNum, addr, []);
    InstrIs(l);
    assert line.instr == l.stmt.m;
    RunsForm(line);
    AssembledLine(line);
  }

  lemma MeantStraight(prog: seq<Line>, start: int)
    requires StraightSource(prog) && ProgramOk(prog)
    ensures Straight(MeantLines(prog, start))
    ensures forall k :: 0 <= k < |prog| ==>
      && MeantLines(prog, start)[k].symbolStr == "" && MeantLines(prog, start)[k].lineNum == k + 1
      && ReadAsMeant(prog[k].stmt) && LineCounted(prog, k, [])
  {
    hide RunsAsWritten, Meant, ProgramOk, LineOk, MeantAddress, Runs, Lexable, StatementOk, ReadAsMeant, Counted;
    var lines := MeantLines(prog, start);
    forall k | 0 <= k < |lines|
      ensures lines[k].symbolStr == "" && lines[k].lineNum == k + 1
      ensures Runs(lines[k]) && Lexable(lines[k]) && ReadAsMeant(prog[k].stmt) && LineCounted(prog, k, [])
    {
      LineIn(prog, k);
      MeantRuns(prog[k], k + 1, MeantAddress(prog, k, start, []));
    }
  }

  /** The lexer keeps them all, and places them right. */
  lemma StraightKept(prog: seq<Line>, start: int)
    requires StraightSource(prog) && ProgramOk(prog)
    ensures KeptLines(prog, |prog|, start) == RenumberedAll(MeantLines(prog, start))
    ensures forall k :: 0 <= k <= |prog| ==> AddressRight(prog, k, start, [])
  {
    hide Straight, StraightSource, KeptLine, MeantLine, ProgramOk, ReadAsMeant, LineCounted, AddressRight;
    MeantStraight(prog, start);
    ReadAsMeantExactly(prog, start, []);
    AddressesMeant(prog, |prog|, start, []);
    forall k | 0 <= k < |prog|
      ensures KeptLine(prog, k, start) == Renumbered(MeantLine(prog, k, start, []))
    {
      assert LineReadAsMeant(prog, k, start, []);
      assert MeantLines(prog, start)[k].lineNum == k + 1;
    }
  }

  lemma AllOk(prog: seq<Line>)
    requires StraightSource(prog)
    ensures ProgramOk(prog)
  {
    hide LineOk, Runs, Meant;
    assert forall k :: 0 <= k < |prog| ==> RunsAsWritten(prog[k]);
  }

  lemma {:induction false} OffsetIsAddress(prog: seq<Line>, start: int, k: nat)
    requires StraightSource(prog) && ProgramOk(prog) && k <= |prog| && Straight(MeantLines(prog, start))
    ensures start + Offset(MeantLines(prog, start), k) == AddressAt(prog, k, start)
  {
    hide RunsAsWritten, Meant, ProgramOk, LineOk, Runs, Lexable, StatementOk, EncodedBytes, Bytes, MeantAddress;
    if k > 0 {
      OffsetIsAddress(prog, start, k - 1);
      LineIn(prog, k - 1);
      assert MeantLines(prog, start)[k - 1] == MeantLine(prog, k - 1, start, []);
      BytesEncoded(prog[k - 1], k, MeantAddress(prog, k - 1, start, []));
    }
  }

  /** The line number makes no difference to the assembler. */
  lemma NumberFree(line: LineInfo)
    requires Lexable(line)
    ensures Lexable(Renumbered(line)) && EncodedBytes(Renumbered(line)) == EncodedBytes(line)
  {
    hide Encode, InstrBytes, Fixed, TableSafe;
    SameTable(line);
    SameWord(line);
  }

  lemma SameTable(line: LineInfo)
    ensures TableSafe(Renumbered(line)) == TableSafe(line)
  {
  }

  lemma SameWord(line: LineInfo)
    requires TableSafe(line) && TableSafe(Renumbered(line))
    ensures Encode(Renumbered(line)) == Encode(line)
  {
    hide ArithWord, SingleWord, PairWord, Imm8Word, MviWord, LxiWord, MoveWord, JumpWord, CallWord, ReturnCode,
         TableSafe;
  }

  lemma {:induction false} NumbersFree(lines: seq<LineInfo>, k: nat)
    requires Laid(lines) && k <= |lines|
    ensures Laid(RenumberedAll(lines)) && CodeBytes(RenumberedAll(lines), k) == CodeBytes(lines, k)
  {
    hide Lexable, EncodedBytes, Renumbered;
    var r := RenumberedAll(lines);
    forall i | 0 <= i < |lines|
      ensures Lexable(r[i]) && EncodedBytes(r[i]) == EncodedBytes(lines[i])
    {
      NumberFree(lines[i]);
    }
    if k > 0 {
      NumbersFree(lines, k - 1);
    }
  }

  /** With nothing to resolve the lines stay as they are. */
  lemma NothingResolved(lines: seq<LineInfo>, symbols: seq<Symbol>)
    requires forall k :: 0 <= k < |lines| ==> lines[k].symbolStr == ""
    ensures ResolveAll(lines, symbols) == lines
  {
  }

  /** The text of a straight-line program is read back as the lines it means, but that it numbers them one too high. */
  lemma SourceLexed(prog: seq<Line>, start: int)
    requires StraightSource(prog) && ProgramOk(prog)
    ensures var src, lines := Print(prog), RenumberedAll(MeantLines(prog, start));
      && LexAll(src, NewlineCount(src), start)
         == LexResult(0, LexState(|src|, lines, SymbolsOf(lines), MeantAddress(prog, |prog|, start, [])))
  {
    hide RunsAsWritten, MeantLine, KeptLine, ProgramOk, LexAll, Print, AddressAt, SymbolsOf, Straight, NewlineCount,
         Resolve, MeantAddress, ReadAsMeant, LineCounted;
    LexingUndoesPrinting(prog, start);
    StraightKept(prog, start);
    MeantStraight(prog, start);
    assert AddressRight(prog, |prog|, start, []);
    var lines := RenumberedAll(MeantLines(prog, start));
    NothingResolved(lines, SymbolsOf(lines));
  }

  lemma StraightLaid(lines: seq<LineInfo>)
    requires Straight(lines)
    ensures Laid(lines)
  {
    hide Runs, Lexable;
  }

  datatype Build = Built(image: seq<byte>) | Failed

  /** A source built: lexed with the guessed room, assembled, and laid out as bytes. */
  ghost function BuildOf(src: string, start: int): Build {
    var r := LexAll(src, NewlineCount(src), start);
    if r.status < 0 || !AllTableSafe(r.st.lines) then Failed
    else
      var a := AssemFrom(r.st.lines, 0);
      if a.status < 0 then Failed else Built(Image(a.instrs))
  }

  /** The text of any straight-line program builds, into the bytes of its lines in order. */
  lemma SourceBuilds(prog: seq<Line>, start: int)
    requires StraightSource(prog)
    ensures ProgramOk(prog) && Straight(MeantLines(prog, start))
    ensures BuildOf(Print(prog), start) == Built(CodeBytes(MeantLines(prog, start), |prog|))
  {
    hide LexAll, Print, NewlineCount, SymbolsOf, MeantAddress, Image, AssemFrom, CodeBytes, AllTableSafe, Runs, Lexable;
    hide MeantLine, RunsAsWritten, LineOk, Renumbered, ReadAsMeant, LineCounted;
    AllOk(prog);
    SourceLexed(prog, start);
    MeantStraight(prog, start);
    var lines := MeantLines(prog, start);
    StraightLaid(lines);
    NumbersFree(lines, |prog|);
    AssembledImage(RenumberedAll(lines));
  }

  /**
   * From source text to execution, for every straight-line program. With its image loaded at the start address
   * and the program counter there, and while no line stores into the image, n steps of the emulator leave exactly
   * the registers, flags and memory that the first n source lines mean, and the program counter at the address
   * the lexer gave the next line.
   */
  lemma SourceRuns(prog: seq<Line>, start: nat, image: seq<byte>, s: C.State, n: nat)
    requires StraightSource(prog) && n <= |prog| && BuildOf(Print(prog), start) == Built(image)
    requires s.pc == C.Wrap(start) && Loaded(s.mem, start, image)
    requires ProgramOk(prog) && Straight(MeantLines(prog, start))
    requires StoresMiss(MeantLines(prog, start), n, MachineOf(s), start, |image|)
    ensures C.StepN(s, n)
         == Meaning.Running(DoAll(MeantLines(prog, start), n, MachineOf(s)), C.Wrap(AddressAt(prog, n, start)))
  {
    hide *;
    SourceBuilds(prog, start);
    OffsetIsAddress(prog, start, n);
    CodeRuns(MeantLines(prog, start), s, start, n);
  }

  // ---- the objects ----

  /** The list a line's arguments are appended to while it is lexed. */
  method SegmentList(line: LineInfo) returns (list: ByteList)
    ensures fresh(list) && fresh(list.nodes) && list.Valid() && list.Contents() == line.blocks
  {
    hide Chain, LinkedAt, Flatten;
    list := new ByteList();
    for n := 0 to |line.blocks|
      invariant fresh(list) && fresh(list.nodes) && list.Valid() && list.Contents() == line.blocks[..n]
    {
      var block := line.blocks[n];
      var bytes := new byte[|block|](j requires 0 <= j < |block| => block[j]);
      assert bytes[..bytes.Length] == block;
      ghost var was := list.nodes;
      var status := list.AppendData(bytes, bytes.Length);
      assert line.blocks[..n + 1] == line.blocks[..n] + [block];
      OneJoined(was, list.nodes);
    }
    assert line.blocks[..|line.blocks|] == line.blocks;
  }

  lemma OneJoined(was: seq<ByteNode>, nodes: seq<ByteNode>)
    requires |nodes| == |was| + 1 && nodes[..|was|] == was
    ensures forall n | n in nodes :: n in was || n == nodes[|was|]
  {
    assert nodes == was + [nodes[|was|]];
  }

  /** A line stored in the source buffer: its list is a copy, in a list of its own. */
  method StoredList(line: LineInfo) returns (list: ByteList)
    ensures fresh(list) && fresh(list.nodes) && list.Valid() && list.Contents() == line.blocks
  {
    hide Chain, LinkedAt, Flatten, ByteLists.Blocks;
    var segment := SegmentList(line);
    list := new ByteList();
    list.CopyFrom(segment);
    assert [] + line.blocks == line.blocks;
  }

  /** The lists of all lines. */
  method StoredLists(lines: seq<LineInfo>) returns (lists: seq<ByteList>, ghost nodes: set<ByteNode>)
    ensures fresh(lists) && fresh(nodes) && Holds(lists, lines, nodes)
  {
    hide Chain, LinkedAt, ByteLists.Blocks;
    lists, nodes := [], {};
    for i := 0 to |lines|
      invariant fresh(lists) && fresh(nodes) && Holds(lists, lines[..i], nodes)
    {
      var list := StoredList(lines[i]);
      nodes := nodes + set n | n in list.nodes;
      lists := lists + [list];
    }
    assert lines[..|lines|] == lines;
  }

  /**
   * The assembler tool: the lexer and assembler objects, run one after the other, compute the build of a source.
   * It reports -1 when lexing fails and -2 when assembling does.
   */
  method AssembleSource(text: string, start: int) returns (status: int, assembler: Assembler)
    requires CommentsClosed(text, NewlineCount(text), LexState(0, [], [], start))
    requires AllTableSafe(LexAll(text, NewlineCount(text), start).st.lines)
    ensures fresh(assembler) && assembler.Valid()
    ensures status in {0, -1, -2} && (status == 0 <==> BuildOf(text, start).Built?)
    ensures status == 0 ==> BuildOf(text, start) == Built(Image(assembler.instrBuf.contents))
    ensures status == -1 <==> LexAll(text, NewlineCount(text), start).status < 0
  {
    hide LexAll, AssemFrom, AllTableSafe, NewlineCount, Image, Holds;
    var lexer := new Lexer(start);
    assembler := new Assembler();
    lexer.LoadSource(text);
    status := lexer.All();
    if status < 0 {
      status := -1;
      return;
    }
    ghost var nodes;
    var lists;
    lists, nodes := StoredLists(lexer.sourceRepr);
    assembler.SetRepr(lexer.sourceRepr, lists, nodes);
    status := assembler.Assem();
    NothingBefore(AssemFrom(assembler.srcRepr, 0).instrs);
    if status < 0 {
      status := -2;
    }
  }

  lemma NothingBefore<T>(s: seq<T>)
    ensures [] + s == s
  {
  }
}
