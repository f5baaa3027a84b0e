/** The room guessed for a source, one place for each newline, against what lexing it needs. */
module Capacity {
  import opened Opcodes
  import opened Source
  import opened LexSpec
  import opened Addresses
  import opened Scanning
  import opened Printer
  import opened Readback
  import opened RoundTrip

  // ---- the statements of a text ----

  /** Where the cursor stands after the statement in front of p. */
  function NextStop(src: string, p: nat): nat { LexLine(src, p, 0, true).next }

  /** How many statements the main loop meets from p on, or that it meets one that does not move the cursor. */
  datatype Count = Statements(n: nat) | Stuck

  function CountFrom(src: string, p: nat): Count
    decreases |src| - p
  {
    if p >= |src| then Statements(0)
    else if IsComment(src[p]) then CountFrom(src, SkipComment(src, p))
    else if IsWhitespace(src[p]) then CountFrom(src, p + 1)
    else if NextStop(src, p) <= p then Stuck
    else
      match CountFrom(src, NextStop(src, p))
      case Statements(n) => Statements(n + 1)
      case Stuck => Stuck
  }

  /** Each statement met from p on moves the cursor over a newline of its own. */
  predicate OwnNewlines(src: string, p: nat)
    decreases |src| - p
  {
    if p >= |src| then true
    else if IsComment(src[p]) then OwnNewlines(src, SkipComment(src, p))
    else if IsWhitespace(src[p]) then OwnNewlines(src, p + 1)
    else
      var q := NextStop(src, p);
      p < q && Newlines(src, p) < Newlines(src, q) && OwnNewlines(src, q)
  }

  // ---- the cursor of a statement ----

  lemma OperandCursor(src: string, p: nat, f: Form, line: LineInfo)
    ensures ParseOperands(src, p, f, line).1 >= p
  {
    hide NextToken, ParseData, LineAt, RegCode, Literal;
    match f
    case Data =>
      DataCursor(src, p, LineAt(src, p), line, line);
    case OneReg | Imm8 | Imm16 | Space | TwoReg | RegImm8 | RegImm16 =>
      CursorForward(src, p);
      CursorForward(src, NextToken(src, p).1);
    case Bare | Unsupported =>
  }

  lemma StatementCursor(src: string, addr: int, t: Token, p: nat, line: LineInfo, symbols: seq<Symbol>)
    ensures LexStatement(src, addr, t, p, line, symbols).next >= p
    ensures forall other, more :: LexStatement(src, other, t, p, line, more).next
                               == LexStatement(src, addr, t, p, line, symbols).next
  {
    hide ParseOperands, FormOf, DirectiveNamed, Instruction, LineAt, SizeOf, StoredAs;
    OperandCursor(src, p, FormOf(Instruction(t.text)), line);
  }

  /** The cursor after a statement does not go back, and does not depend on the address. */
  lemma StopsAt(src: string, p: nat, addr: int)
    ensures LexLine(src, p, addr, true).next == NextStop(src, p) >= p
  {
    hide NextToken, LexStatement, LineAt;
    CursorForward(src, p);
    var (t, q) := NextToken(src, p);
    if t.kind == SYM_LABEL {
      CursorForward(src, q);
      var (t1, q1) := NextToken(src, q);
      StatementCursor(src, addr, t1, q1, BLANK.(labelStr := t.text), [Symbol(addr, t.text)]);
      assert LexStatement(src, 0, t1, q1, BLANK.(labelStr := t.text), [Symbol(0, t.text)]).next
          == LexStatement(src, addr, t1, q1, BLANK.(labelStr := t.text), [Symbol(addr, t.text)]).next;
    } else if t.kind != SYM_NONE {
      StatementCursor(src, addr, t, q, BLANK, []);
      assert LexStatement(src, 0, t, q, BLANK, []).next == LexStatement(src, addr, t, q, BLANK, []).next;
    }
  }

  // ---- exactly how much room ----

  /** A statement that does not move the cursor uses up every place. */
  lemma {:induction false} StuckFills(src: string, cap: nat, st: LexState)
    requires |st.symbols| <= |st.lines| <= cap && st.pos < |src|
    requires !IsComment(src[st.pos]) && !IsWhitespace(src[st.pos]) && NextStop(src, st.pos) <= st.pos
    ensures LexLoop(src, cap, st).status == -1
    decreases cap - |st.lines|
  {
    hide LexLine, NextStop;
    if |st.lines| < cap {
      StopsAt(src, st.pos, st.addr);
      var l := LexLine(src, st.pos, st.addr, true);
      StuckFills(src, cap, LexState(l.next, st.lines + [l.line], st.symbols + l.symbols, st.addr + l.size));
    }
  }

  /** From any state of the loop: the places left are enough exactly when they are as many as the statements left. */
  lemma {:induction false} RoomLeft(src: string, cap: nat, st: LexState)
    requires |st.symbols| <= |st.lines| <= cap
    ensures var r, c := LexLoop(src, cap, st), CountFrom(src, st.pos);
      && (r.status == 0 <==> c.Statements? && |st.lines| + c.n <= cap)
      && (r.status == 0 ==> |r.st.lines| == |st.lines| + c.n)
    decreases |src| - st.pos
  {
    hide LexLine, SkipComment, NextStop;
    if st.pos >= |src| {
    } else if IsComment(src[st.pos]) {
      CommentMoves(src, st.pos);
      RoomLeft(src, cap, st.(pos := SkipComment(src, st.pos)));
    } else if IsWhitespace(src[st.pos]) {
      RoomLeft(src, cap, st.(pos := st.pos + 1));
    } else if NextStop(src, st.pos) <= st.pos {
      StuckFills(src, cap, st);
    } else if |st.lines| < cap {
      StopsAt(src, st.pos, st.addr);
      var l := LexLine(src, st.pos, st.addr, true);
      RoomLeft(src, cap, LexState(l.next, st.lines + [l.line], st.symbols + l.symbols, st.addr + l.size));
    }
  }

  lemma CommentMoves(src: string, p: nat)
    requires p < |src|
    ensures p < SkipComment(src, p)
  {
  }

  /**
   * For every source and every room: lexing succeeds exactly when each statement of the text moves the cursor and
   * there are no more of them than places, and it then makes one line for each. The room guessed is one instance.
   */
  lemma RoomNeeded(src: string, cap: nat, start: int)
    ensures LexAll(src, cap, start).status == 0 <==> CountFrom(src, 0).Statements? && CountFrom(src, 0).n <= cap
    ensures LexAll(src, cap, start).status == 0 ==> |LexAll(src, cap, start).st.lines| == CountFrom(src, 0).n
  {
    hide LexLoop, CountFrom;
    RoomLeft(src, cap, LexState(0, [], [], start));
  }

  /** The guess is right exactly when no statement gets stuck and there are no more statements than newlines. */
  lemma GuessExact(src: string, start: int)
    ensures LexAll(src, NewlineCount(src), start).status == 0
       <==> CountFrom(src, 0).Statements? && CountFrom(src, 0).n <= NewlineCount(src)
  {
    hide LexAll, CountFrom;
    RoomNeeded(src, NewlineCount(src), start);
  }

  // ---- when the guess is enough ----

  lemma {:induction false} NewlinesMonotone(src: string, p: nat, q: nat)
    requires p <= q
    ensures Newlines(src, p) <= Newlines(src, q)
    decreases q
  {
    if p < q {
      NewlinesMonotone(src, p, q - 1);
    }
  }

  /** The newlines passed are never more than the newlines counted when the source was loaded. */
  lemma {:induction false} NewlinesCounted(src: string, p: nat)
    ensures Newlines(src, p) <= NewlineCount(src)
    decreases |src|, p
  {
    if p >= |src| && p > 0 {
      NewlinesCounted(src, p - 1);
    } else if p < |src| {
      var n := |src| - 1;
      NewlinesCounted(src[..n], if p < n then p else if n > 0 then n - 1 else 0);
      if p < n {
        NewlinesOfPrefix(src, n, p);
      } else if p > 0 {
        NewlinesOfPrefix(src, n, p - 1);
      }
    }
  }

  lemma {:induction false} NewlinesOfPrefix(src: string, n: nat, p: nat)
    requires p < n <= |src|
    ensures Newlines(src[..n], p) == Newlines(src, p)
  {
    if p > 0 {
      NewlinesOfPrefix(src, n, p - 1);
    }
  }

  lemma {:induction false} OwnNewlinesCounted(src: string, p: nat)
    requires OwnNewlines(src, p)
    ensures CountFrom(src, p).Statements? && CountFrom(src, p).n + Newlines(src, p) <= NewlineCount(src)
    decreases |src| - p
  {
    hide NextStop, SkipComment, Newlines, NewlineCount;
    NewlinesCounted(src, p);
    if p >= |src| {
    } else if IsComment(src[p]) {
      CommentMoves(src, p);
      NewlinesMonotone(src, p, SkipComment(src, p));
      OwnNewlinesCounted(src, SkipComment(src, p));
    } else if IsWhitespace(src[p]) {
      NewlinesMonotone(src, p, p + 1);
      OwnNewlinesCounted(src, p + 1);
    } else {
      OwnNewlinesCounted(src, NextStop(src, p));
    }
  }

  /**
   * The guess is enough for every source in which each statement passes a newline of its own: neither table ever
   * reports full, and at the end every label of a line has its symbol, with no more symbols than lines and no more
   * lines than newlines.
   */
  lemma GuessSuffices(src: string, start: int)
    requires OwnNewlines(src, 0)
    ensures var r := LexAll(src, NewlineCount(src), start);
      && r.status == 0 && r.st.symbols == SymbolsOf(r.st.lines)
      && |r.st.symbols| <= |r.st.lines| <= NewlineCount(src)
    ensures forall more | more >= NewlineCount(src) :: LexAll(src, more, start) == LexAll(src, NewlineCount(src), start)
  {
    hide LexLoop, OwnNewlines, CountFrom, NewlineCount, SymbolsOf, Accepted, Emitted, Surplus, ResolveAll;
    OwnNewlinesCounted(src, 0);
    RoomNeeded(src, NewlineCount(src), start);
    SourcePlaced(src, NewlineCount(src), start);
    forall more | more >= NewlineCount(src)
      ensures LexAll(src, more, start) == LexAll(src, NewlineCount(src), start)
    {
      MoreRoom(src, NewlineCount(src), more, LexState(0, [], [], start));
    }
  }

  /** Once there was room for everything, more room changes nothing. */
  lemma {:induction false} MoreRoom(src: string, cap: nat, more: nat, st: LexState)
    requires |st.symbols| <= |st.lines| <= cap <= more && LexLoop(src, cap, st).status == 0
    ensures LexLoop(src, more, st) == LexLoop(src, cap, st)
    decreases cap - |st.lines|, |src| - st.pos
  {
    hide LexLine, SkipComment;
    if st.pos >= |src| {
    } else if IsComment(src[st.pos]) {
      MoreRoom(src, cap, more, st.(pos := SkipComment(src, st.pos)));
    } else if IsWhitespace(src[st.pos]) {
      MoreRoom(src, cap, more, st.(pos := st.pos + 1));
    } else {
      var l := LexLine(src, st.pos, st.addr, true);
      MoreRoom(src, cap, more, LexState(l.next, st.lines + [l.line], st.symbols + l.symbols, st.addr + l.size));
    }
  }

  // ---- when it is not ----

  /** In front of an exclamation mark no token moves the cursor, so no room is enough. */
  lemma ExclamationStuck(src: string, p: nat)
    requires p < |src| && src[p] == '!'
    ensures CountFrom(src, p) == Stuck
  {
    hide Classify, LexStatement;
    assert NextToken(src, p).1 == p && NextToken(src, p).0.kind == SYM_NONE;
  }

  /** Two statements on one line are one too many for the room guessed. */
  lemma TwoOnOneLine(start: int)
    ensures NewlineCount("RET RET\n") == 1
    ensures LexAll("RET RET\n", 1, start).status == -1
  {
    hide NextToken, LexLine, NewlineCount, IsComment, IsWhitespace;
    var src := "RET RET\n";
    OneNewline();
    RetRead(src, 0, start);
    RetRead(src, 4, start + 1);
    assert !IsComment('R') && !IsWhitespace('R') by { LetterR(); }
    var l := LexLine(src, 0, start, true);
    var st := LexState(4, [l.line], l.symbols, start + l.size);
    assert LexLoop(src, 1, st).status == -1;
    assert LexLoop(src, 1, LexState(0, [], [], start)) == LexLoop(src, 1, st);
  }

  lemma LetterR()
    ensures !IsComment('R') && !IsWhitespace('R')
  {
  }

  lemma OneNewline()
    ensures NewlineCount("RET RET\n") == 1
  {
    hide NewlineCount;
    assert "RET RET\n" == "RET RET" + ("" + "\n");
    CountAppend("RET RET", "" + "\n");
    CountFlat("RET RET");
    CountLine("");
  }

  /** A RET in front of a space or a newline, lexed. */
  lemma RetRead(src: string, p: nat, addr: int)
    requires At(src, p, "RET") && CharAt(src, p + 3) in {' ', '\n'}
    ensures var l := LexLine(src, p, addr, true);
      l.next == (if CharAt(src, p + 3) == '\n' then p + 3 else p + 4) && l.symbols == []
  {
    hide NextToken, Classify, LineAt, Instruction, FormOf, SizeOf, At, CharAt, Code, NameOf;
    assert Opcodes.Name(RET) == "RET" by { RetName(); }
    assert FormOf(RET) == Bare && Writable(RET) by { RetForm(); }
    MnemonicToken(RET);
    WordRead(src, p, "RET");
  }

  lemma RetName()
    ensures Opcodes.Name(RET) == "RET"
  {
  }

  lemma RetForm()
    ensures FormOf(RET) == Bare && Writable(RET)
  {
  }
}
