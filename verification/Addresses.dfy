/**
 * Addresses: where the lexer places the lines of any source, what the assembler emits for them, and which
 * lines make the two disagree.
 */
module Addresses {
  import opened Bits
  import opened Opcodes
  import opened Source
  import opened LexSpec
  import opened Vectors
  import opened Encoding

  function TotalSize(instrs: seq<Instr>): nat {
    if instrs == [] then 0 else instrs[0].size + TotalSize(instrs[1..])
  }

  /** The bytes the assembler emits for a line. */
  function Emitted(line: LineInfo): nat
    requires TableSafe(line)
  {
    match Encode(line)
    case Word(_, size) => size
    case Blocks => TotalBytes(line.blocks)
    case Unknown => 1
  }

  /** A line the assembler accepts. */
  predicate Accepted(line: LineInfo) { TableSafe(line) && AssemLine(line).status == 0 }

  /**
   * A directive END, ORG or SET as it is stored: as ACI, ANI or CALL, but without an immediate or a symbol,
   * which those instructions always have.
   */
  predicate StoredDirective(line: LineInfo) {
    line.instr in {ACI, ANI, CALL} && !line.hasImm && line.symbolStr == ""
  }

  /**
   * How many bytes more the lexer counts for an accepted line than the assembler emits: DS is counted as one
   * byte and emits none; END and ORG are counted as one and emit two; SET is counted as one and emits three.
   */
  function Surplus(line: LineInfo): int {
    if line.instr == DS then 1
    else if StoredDirective(line) then if line.instr == CALL then -2 else -1
    else 0
  }

  lemma OneByteForms(line: LineInfo)
    requires TableSafe(line) && FormOf(line.instr) in {OneReg, TwoReg}
    ensures Encode(line).Word? && Encode(line).size == 1
  {
    hide ArithWord, SingleWord, PairWord, Imm8Word, MviWord, LxiWord, MoveWord, JumpWord, CallWord, ReturnCode;
  }

  lemma BareForms(line: LineInfo)
    requires TableSafe(line) && FormOf(line.instr) in {Bare}
    ensures Encode(line).Word? && Encode(line).size == 1
  {
    hide ArithWord, SingleWord, PairWord, Imm8Word, MviWord, LxiWord, MoveWord, JumpWord, CallWord, ReturnCode;
  }

  lemma TwoByteForms(line: LineInfo)
    requires TableSafe(line) && FormOf(line.instr) in {Imm8, RegImm8}
    ensures Encode(line).Word? && Encode(line).size == 2
  {
    hide ArithWord, SingleWord, PairWord, Imm8Word, MviWord, LxiWord, MoveWord, JumpWord, CallWord, ReturnCode;
  }

  lemma ThreeByteForms(line: LineInfo)
    requires TableSafe(line) && FormOf(line.instr) in {RegImm16, Imm16}
    ensures Encode(line).Word? && Encode(line).size == 3
  {
    hide ArithWord, SingleWord, PairWord, Imm8Word, MviWord, LxiWord, MoveWord, JumpWord, CallWord, ReturnCode;
  }

  lemma DataForms(line: LineInfo)
    requires TableSafe(line) && FormOf(line.instr) in {Data, Space}
    ensures Encode(line).Blocks? && (FormOf(line.instr) == Space <==> line.instr == DS)
  {
    hide ArithWord, SingleWord, PairWord, Imm8Word, MviWord, LxiWord, MoveWord, JumpWord, CallWord, ReturnCode;
  }

  lemma FormSizes(m: Mnemonic, line: LineInfo)
    requires TableSafe(line) && line.instr == m && FormOf(m) != Unsupported
    requires m == DS ==> line.blocks == []
    ensures SizeOf(FormOf(m), line) == Emitted(line) + if m == DS then 1 else 0
  {
    hide TableSafe, TotalBytes, Encode, FormOf;
    assert FormOf(DS) == Space by { SpaceForm(); }
    match FormOf(m)
    case OneReg | TwoReg => OneByteForms(line);
    case Bare => BareForms(line);
    case Imm8 | RegImm8 => TwoByteForms(line);
    case RegImm16 | Imm16 => ThreeByteForms(line);
    case Data | Space => DataForms(line); NoBytes();
  }

  lemma SpaceForm()
    ensures FormOf(DS) == Space
  {
  }

  lemma NoBytes()
    ensures TotalBytes([]) == 0
  {
  }

  /** Bytes emitted one an instruction are, laid out again, the bytes. */
  lemma {:induction false} DataImage(data: seq<byte>, addr: int)
    ensures Image(DataInstrs(data, addr)) == data
  {
    if data != [] {
      var instrs := DataInstrs(data, addr);
      assert instrs[1..] == DataInstrs(data[1..], addr + 1);
      DataImage(data[1..], addr + 1);
      assert data == [data[0]] + data[1..];
    }
  }

  /**
   * Data conservation: for every data line the assembler emits one instruction a byte, as many as the byte list
   * totals and as the lexer advanced, at consecutive addresses from the line's, and laid out they are the blocks in
   * order.
   */
  lemma DataConserved(line: LineInfo)
    requires line.instr in {DB, DW}
    ensures TableSafe(line)
    ensures var a := AssemLine(line);
      && a.status == 0 && |a.instrs| == TotalBytes(line.blocks) == SizeOf(FormOf(line.instr), line)
      && (forall i :: 0 <= i < |a.instrs| ==> a.instrs[i].size == 1 && a.instrs[i].addr == WrapAddr(line.addr + i))
      && Image(a.instrs) == Flatten(line.blocks)
  {
    hide Image, Flatten, WrapAddr;
    DataImage(Flatten(line.blocks), line.addr);
  }

  /** Where the instructions of an accepted line lie: all at the line's address but data, a byte after the other. */
  lemma InstructionAddresses(line: LineInfo, i: nat)
    requires Accepted(line) && i < |AssemLine(line).instrs|
    ensures AssemLine(line).instrs[i].addr == (line.addr + i) % 0x1_0000
    ensures AssemLine(line).instrs[i].size == if line.instr in {DB, DW, DS} then 1 else Emitted(line)
  {
    hide ArithWord, SingleWord, PairWord, Imm8Word, MviWord, LxiWord, MoveWord, JumpWord, CallWord, ReturnCode;
  }

  /** A line without an instruction is assembled to a blank byte at address 0, and an error. */
  lemma BlankAssembled(line: LineInfo)
    requires line.instr == INVALID
    ensures TableSafe(line) && AssemLine(line) == Assembled(-1, [Instr(0, 0, 1)])
  {
  }

  // ---- what parsing leaves in a line ----

  lemma ArgFacts(line: LineInfo, t: Token)
    ensures ParseDataArg(line, t).line.instr == line.instr
    ensures ParseDataArg(line, t).line.labelStr == line.labelStr
  {
  }

  lemma {:induction false} DataFacts(src: string, p: nat, dataLine: nat, line: LineInfo)
    ensures var (d, q) := ParseData(src, p, dataLine, line);
      d.line.instr == line.instr && d.line.labelStr == line.labelStr
    decreases |src| - p
  {
    hide NextToken, ParseDataArg, LineAt;
    var (t, q) := NextToken(src, p);
    var arg := ParseDataArg(line, t);
    ArgFacts(line, t);
    DataStep(src, p, dataLine, line);
    if arg.ok && q < |src| && LineAt(src, q) <= dataLine {
      DataFacts(src, q, dataLine, arg.line);
    }
  }

  lemma DataStep(src: string, p: nat, dataLine: nat, line: LineInfo)
    ensures var (t, q) := NextToken(src, p);
      var arg := ParseDataArg(line, t);
      if !arg.ok || q >= |src| || LineAt(src, q) > dataLine
      then ParseData(src, p, dataLine, line) == (arg, q)
      else p < q && ParseData(src, p, dataLine, line) == ParseData(src, q, dataLine, arg.line)
  {
    hide NextToken, LineAt, Literal;
    TokenMoves(src, p);
  }

  lemma TokenMoves(src: string, p: nat)
    ensures var (t, q) := NextToken(src, p);
      (t.text != "" ==> p < q) && (t.kind == SYM_NONE <==> t.text == "")
  {
    hide ScanToken, Classify;
  }

  lemma {:induction false} DataCursor(src: string, p: nat, dataLine: nat, line: LineInfo, other: LineInfo)
    ensures ParseData(src, p, dataLine, line).1 == ParseData(src, p, dataLine, other).1 >= p
    decreases |src| - p
  {
    hide NextToken, LineAt, ParseData, ParseDataArg;
    var (t, q) := NextToken(src, p);
    DataStep(src, p, dataLine, line);
    DataStep(src, p, dataLine, other);
    CursorForward(src, p);
    SameOk(line, other, t);
    if ParseDataArg(line, t).ok && q < |src| && LineAt(src, q) <= dataLine {
      DataCursor(src, q, dataLine, ParseDataArg(line, t).line, ParseDataArg(other, t).line);
    }
  }

  lemma SameOk(line: LineInfo, other: LineInfo, t: Token)
    ensures ParseDataArg(line, t).ok == ParseDataArg(other, t).ok
  {
  }

  lemma CursorForward(src: string, p: nat)
    ensures NextToken(src, p).1 >= p
  {
    hide Classify, CString;
  }

  lemma OperandFacts(src: string, p: nat, f: Form, line: LineInfo)
    ensures var (d, q) := ParseOperands(src, p, f, line);
      && d.line.instr == line.instr && d.line.labelStr == line.labelStr
      && (f != Data ==> d.line.blocks == line.blocks)
      && (f in {Imm8, Imm16} && d.ok ==> d.line.hasImm || d.line.symbolStr != "")
  {
    hide NextToken, ParseData, LineAt, RegCode, Literal;
    match f
    case Data =>
      DataFacts(src, p, LineAt(src, p), line);
    case OneReg | Imm8 | Imm16 | Space | TwoReg | RegImm8 | RegImm16 =>
      TokenMoves(src, p);
    case Bare | Unsupported =>
  }

  /** The label kept, the address, and the bytes counted, of the statement part of a line. */
  lemma StatementSize(src: string, addr: int, t: Token, p: nat, line: LineInfo, symbols: seq<Symbol>)
    requires line == BLANK.(labelStr := line.labelStr)
    ensures var l := LexStatement(src, addr, t, p, line, symbols);
      && l.line.labelStr == line.labelStr && l.line.addr == addr
      && (Accepted(l.line) ==> l.size == Emitted(l.line) + Surplus(l.line))
  {
    hide ParseOperands, FormOf, DirectiveNamed, Instruction, LineAt, TableSafe, Encode;
    match t.kind
    case SYM_DIRECTIVE =>
      DirectiveSize(DirectiveNamed(t.text), LexStatement(src, addr, t, p, line, symbols).line);
    case SYM_INSTR =>
      var m := Instruction(t.text);
      OperandFacts(src, p, FormOf(m), line);
      InstructionSize(m, LexStatement(src, addr, t, p, line, symbols).line);
    case _ =>
      BlankRejected(LexStatement(src, addr, t, p, line, symbols).line);
  }

  lemma BlankRejected(line: LineInfo)
    requires line.instr == INVALID
    ensures !Accepted(line)
  {
  }

  lemma LowCodes()
    ensures WithCode(0) == INVALID && WithCode(1) == ACI && WithCode(2) == ADC && WithCode(3) == ADD
    ensures WithCode(5) == ANA && WithCode(6) == AND && WithCode(7) == ANI && WithCode(8) == CALL
  {
  }

  lemma DirectivesStored()
    ensures StoredAs(NONE) == INVALID && StoredAs(END) == ACI && StoredAs(ENDIF) == ADC && StoredAs(ENDM) == ADD
    ensures StoredAs(IF) == ANA && StoredAs(MACRO) == AND && StoredAs(ORG) == ANI && StoredAs(SET) == CALL
  {
    hide WithCode;
    LowCodes();
  }

  /** What the instructions that directives are stored as come to. */
  lemma StoredSizes(line: LineInfo)
    ensures line.instr in {INVALID, AND} ==> !Accepted(line)
    ensures line.instr in {ADC, ADD, ANA} && TableSafe(line) ==> Emitted(line) == 1
    ensures line.instr in {ACI, ANI} ==> Emitted(line) == 2
    ensures line.instr == CALL ==> Emitted(line) == 3
  {
    hide ArithWord, Imm8Word, CallWord, TotalBytes, ReturnCode, JumpWord, LxiWord, MviWord, MoveWord, PairWord,
         SingleWord;
  }

  lemma DirectiveSize(d: Directive, line: LineInfo)
    requires if d == EQU then line.instr == INVALID else line.instr == StoredAs(d)
    requires !line.hasImm && line.symbolStr == ""
    ensures Accepted(line) ==> 1 == Emitted(line) + Surplus(line)
  {
    hide StoredAs, Emitted, Encode, AssemLine;
    DirectivesStored();
    StoredSizes(line);
    match d
    case NONE => case END => case ENDIF => case ENDM => case EQU => case IF => case MACRO => case ORG => case SET =>
  }

  lemma InstructionSize(m: Mnemonic, line: LineInfo)
    requires line.instr == INVALID || line.instr == m
    requires FormOf(m) == Unsupported ==> line.instr == INVALID
    requires FormOf(m) != Data ==> line.blocks == []
    requires line.instr != INVALID && FormOf(m) in {Imm8, Imm16} ==> line.hasImm || line.symbolStr != ""
    ensures Accepted(line) ==> SizeOf(FormOf(m), line) == Emitted(line) + Surplus(line)
  {
    hide Encode, TableSafe, Emitted;
    if line.instr == INVALID {
      BlankRejected(line);
    } else if Accepted(line) {
      FormSizes(m, line);
    }
  }

  /**
   * A line of any source: its address is the current one, it defines a symbol when it has a label and there is
   * room, and if the assembler accepts it the lexer counts the bytes emitted plus Surplus.
   */
  lemma LineSize(src: string, p: nat, addr: int, room: bool)
    ensures var l := LexLine(src, p, addr, room);
      && l.line.addr == addr
      && l.symbols == (if room && l.line.labelStr != "" then [Symbol(addr, l.line.labelStr)] else [])
      && (Accepted(l.line) ==> l.size == Emitted(l.line) + Surplus(l.line))
  {
    hide NextToken, LexStatement, LineAt, Accepted, Surplus, Emitted;
    var (t, q) := NextToken(src, p);
    TokenMoves(src, p);
    if t.kind == SYM_NONE || (t.kind == SYM_LABEL && !room) {
      BlankRejected(LexLine(src, p, addr, room).line);
    } else if t.kind == SYM_LABEL {
      var (t1, q1) := NextToken(src, q);
      StatementSize(src, addr, t1, q1, BLANK.(labelStr := t.text), [Symbol(addr, t.text)]);
    } else {
      StatementSize(src, addr, t, q, BLANK, []);
    }
  }

  // ---- what the main loop keeps ----

  function Defined(line: LineInfo): seq<Symbol> {
    if line.labelStr == "" then [] else [Symbol(line.addr, line.labelStr)]
  }

  /** The symbols of a sequence of lines: one for each label, in order, at its line's address. */
  function SymbolsOf(lines: seq<LineInfo>): seq<Symbol> {
    if lines == [] then [] else SymbolsOf(lines[..|lines| - 1]) + Defined(lines[|lines| - 1])
  }

  /** The address after line k. */
  function AddrAfter(st: LexState, k: nat): int
    requires k < |st.lines|
  {
    if k + 1 < |st.lines| then st.lines[k + 1].addr else st.addr
  }

  /** Line k takes the bytes it emits, and its surplus. */
  predicate TakesItsBytes(st: LexState, k: nat)
    requires k < |st.lines|
  {
    var line := st.lines[k];
    Accepted(line) ==> AddrAfter(st, k) == line.addr + Emitted(line) + Surplus(line)
  }

  ghost predicate Placed(st: LexState, start: int) {
    && (if st.lines == [] then st.addr == start else st.lines[0].addr == start)
    && (forall k :: 0 <= k < |st.lines| ==> TakesItsBytes(st, k))
    && st.symbols == SymbolsOf(st.lines) && |st.symbols| <= |st.lines|
  }

  lemma PlacedStep(src: string, st: LexState, start: int, l: Lexed)
    requires Placed(st, start) && l == LexLine(src, st.pos, st.addr, true)
    ensures Placed(LexState(l.next, st.lines + [l.line], st.symbols + l.symbols, st.addr + l.size), start)
  {
    hide LexLine, Accepted, Emitted, Surplus;
    LineSize(src, st.pos, st.addr, true);
    var st1 := LexState(l.next, st.lines + [l.line], st.symbols + l.symbols, st.addr + l.size);
    assert st1.lines[..|st.lines|] == st.lines;
    forall k | 0 <= k < |st1.lines|
      ensures TakesItsBytes(st1, k)
    {
      if k < |st.lines| {
        assert TakesItsBytes(st, k);
      }
    }
  }

  /** Every line ever lexed is placed, from any source; a full symbol table can only be met when lines are full too. */
  lemma {:induction false} LoopPlaces(src: string, cap: nat, st: LexState, start: int)
    requires |st.lines| <= cap && |st.symbols| <= cap && Placed(st, start)
    ensures var r := LexLoop(src, cap, st);
      r.status == 0 ==> Placed(r.st, start) && |r.st.lines| <= cap
    decreases cap - |st.lines|, |src| - st.pos
  {
    hide LexLine, Placed, SkipComment;
    if st.pos >= |src| {
    } else if IsComment(src[st.pos]) {
      Moved(st, start, SkipComment(src, st.pos));
      LoopPlaces(src, cap, st.(pos := SkipComment(src, st.pos)), start);
    } else if IsWhitespace(src[st.pos]) {
      Moved(st, start, st.pos + 1);
      LoopPlaces(src, cap, st.(pos := st.pos + 1), start);
    } else if |st.lines| < cap {
      Moved(st, start, st.pos);
      var l := LexLine(src, st.pos, st.addr, true);
      PlacedStep(src, st, start, l);
      var st1 := LexState(l.next, st.lines + [l.line], st.symbols + l.symbols, st.addr + l.size);
      Moved(st1, start, st1.pos);
      LoopPlaces(src, cap, st1, start);
    }
  }

  lemma Moved(st: LexState, start: int, pos: nat)
    requires Placed(st, start)
    ensures Placed(st.(pos := pos), start) && |st.symbols| <= |st.lines|
  {
    hide Accepted, Emitted, Surplus;
    forall k | 0 <= k < |st.lines|
      ensures TakesItsBytes(st.(pos := pos), k)
    {
      assert TakesItsBytes(st, k);
    }
  }

  /** An immediate changes the word of an instruction at most. */
  lemma ImmediateKeeps(line: LineInfo, imm: int)
    ensures var r := line.(imm := imm, hasImm := true);
      && (TableSafe(r) <==> TableSafe(line))
      && (TableSafe(line) ==>
            match Encode(line)
            case Word(_, size) => Encode(r).Word? && Encode(r).size == size
            case Blocks => Encode(r) == Blocks
            case Unknown => Encode(r) == Unknown)
  {
    hide ArithWord, SingleWord, PairWord, Imm8Word, MviWord, LxiWord, MoveWord, JumpWord, CallWord, ReturnCode;
  }

  /** Resolving a line's symbol changes nothing about its address, its label or its size. */
  lemma ResolveKeeps(line: LineInfo, symbols: seq<Symbol>)
    ensures var r := Resolve(line, symbols);
      && r.addr == line.addr && r.labelStr == line.labelStr && r.symbolStr == line.symbolStr
      && r.blocks == line.blocks && r.instr == line.instr
      && (Accepted(r) <==> Accepted(line))
      && (TableSafe(line) <==> TableSafe(r))
      && (TableSafe(line) ==> Emitted(r) == Emitted(line))
      && (Accepted(line) ==> Emitted(r) == Emitted(line))
      && Surplus(r) == Surplus(line)
  {
    hide Lookup, TableSafe, Encode;
    ImmediateKeeps(line, Resolve(line, symbols).imm);
  }

  lemma {:induction false} ResolvedSymbols(lines: seq<LineInfo>, symbols: seq<Symbol>)
    ensures SymbolsOf(ResolveAll(lines, symbols)) == SymbolsOf(lines)
  {
    hide Resolve, Accepted, Emitted, Surplus;
    if lines != [] {
      var n := |lines| - 1;
      ResolvedSymbols(lines[..n], symbols);
      ResolveKeeps(lines[n], symbols);
      assert ResolveAll(lines, symbols)[..n] == ResolveAll(lines[..n], symbols);
    }
  }

  /** The lines of any source that is lexed to its end are placed: labels, symbols, addresses and sizes agree. */
  lemma SourcePlaced(src: string, cap: nat, start: int)
    ensures var r := LexAll(src, cap, start);
      r.status == 0 ==> Placed(r.st, start)
  {
    hide LexLoop, Resolve, Accepted, Emitted, Surplus, SymbolsOf;
    var st0 := LexState(0, [], [], start);
    NoneYet();
    LoopPlaces(src, cap, st0, start);
    var r := LexLoop(src, cap, st0);
    if r.status == 0 {
      ResolvedSymbols(r.st.lines, r.st.symbols);
      var st := r.st.(lines := ResolveAll(r.st.lines, r.st.symbols));
      forall k | 0 <= k < |st.lines|
        ensures TakesItsBytes(st, k)
      {
        ResolveKeeps(r.st.lines[k], r.st.symbols);
        if k + 1 < |st.lines| {
          ResolveKeeps(r.st.lines[k + 1], r.st.symbols);
        }
        assert TakesItsBytes(r.st, k);
      }
      if st.lines != [] {
        ResolveKeeps(r.st.lines[0], r.st.symbols);
      }
    }
  }

  lemma NoneYet()
    ensures SymbolsOf([]) == []
  {
  }
}
