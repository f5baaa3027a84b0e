/** The lexer object: a cursor over the source, a token buffer, the line being lexed, and what it has produced. */
module Lexers {
  import opened Bits
  import opened Opcodes
  import opened Source
  import opened LexSpec

  predicate NewlineAfter(src: string, p: nat) { exists q :: p <= q < |src| && src[q] == '\n' }

  /**
   * Every comment that the main loop comes to from a state ends with a newline; one that does not is read past the
   * end of the text. A comment character inside a string, or behind the room for lines, is never come to.
   */
  predicate CommentsClosed(src: string, cap: nat, st: LexState)
    requires |st.lines| <= cap && |st.symbols| <= cap
    decreases cap - |st.lines|, |src| - st.pos
  {
    if st.pos >= |src| then true
    else if IsComment(src[st.pos]) then
      NewlineAfter(src, st.pos) && CommentsClosed(src, cap, st.(pos := SkipComment(src, st.pos)))
    else if IsWhitespace(src[st.pos]) then CommentsClosed(src, cap, st.(pos := st.pos + 1))
    else if |st.lines| == cap then true
    else
      var l := LexLine(src, st.pos, st.addr, |st.symbols| < cap);
      CommentsClosed(src, cap, LexState(l.next, st.lines + [l.line], st.symbols + l.symbols, st.addr + l.size))
  }

  class Lexer {
    var src: string
    var curPos: nat
    var curLine: nat
    var curChar: char
    const tokenBuf: array<char>
    var tokenBufPtr: nat
    var textAddr: int
    var textStartAddr: int
    var textSeg: LineInfo
    var sourceRepr: seq<LineInfo>
    var sourceMax: nat
    var symTable: seq<Symbol>
    var symMax: nat

    ghost predicate Valid()
      reads this
    {
      tokenBuf.Length == TOKEN_MAX + 1 && |sourceRepr| <= sourceMax && |symTable| <= symMax
    }

    /** The cursor invariant: the current character and line are those of the current position. */
    ghost predicate Synced()
      reads this
    {
      curChar == CharAt(src, curPos) && curLine == LineAt(src, curPos)
    }

    /** The token buffer as a C string. */
    ghost function BufText(): string
      reads this, tokenBuf
    {
      CString(tokenBuf[..])
    }

    constructor (startAddr: int)
      ensures Valid() && fresh(tokenBuf)
      ensures curPos == 0 && curLine == 1 && textStartAddr == startAddr
      ensures src == "" && sourceRepr == [] && symTable == []
    {
      src, curPos, curLine, curChar := "", 0, 1, '\0';
      tokenBuf := new char[TOKEN_MAX + 1];
      tokenBufPtr, textAddr, textStartAddr, textSeg := 0, 0, startAddr, BLANK;
      sourceRepr, sourceMax, symTable, symMax := [], 0, [], 0;
    }

    /** Takes over the text of a file, and guesses the room its lines and symbols will need. */
    method LoadSource(text: string)
      modifies `src, `sourceRepr, `sourceMax, `symTable, `symMax
      requires Valid()
      ensures Valid()
      ensures src == text && sourceRepr == [] && symTable == []
      ensures sourceMax == symMax == NewlineCount(text)
    {
      src := text;
      var numLines := 0;
      for pos := 0 to |src|
        invariant src == text
        invariant numLines == NewlineCount(text[..pos])
      {
        if src[pos] == '\n' {
          numLines := numLines + 1;
        }
        assert text[..pos + 1][..pos] == text[..pos];
      }
      assert text[..|text|] == text;
      sourceRepr, sourceMax, symTable, symMax := [], numLines, [], numLines;
    }

    // ---- source motions ----

    method Advance()
      modifies `curPos, `curLine, `curChar
      requires Synced()
      ensures curPos == old(curPos) + 1
      ensures Synced()
    {
      curPos := curPos + 1;
      curChar := if curPos >= |src| then '\0' else src[curPos];
      if curChar == '\n' {
        curLine := curLine + 1;
      }
    }

    method SkipWs()
      modifies `curPos, `curLine, `curChar
      requires Synced()
      ensures curPos == SkipWhitespace(src, old(curPos))
      ensures Synced()
    {
      while IsWhitespace(CharAt(src, curPos))
        invariant Synced()
        invariant SkipWhitespace(src, curPos) == SkipWhitespace(src, old(curPos))
        decreases |src| - curPos
      {
        Advance();
      }
    }

    method SkipCommentLine()
      modifies `curPos, `curLine, `curChar
      requires Synced() && NewlineAfter(src, curPos)
      ensures curPos == SkipComment(src, old(curPos))
      ensures Synced()
    {
      ghost var end :| curPos <= end < |src| && src[end] == '\n';
      while src[curPos] != '\n'
        invariant Synced() && curPos <= end
        invariant SkipComment(src, curPos) == SkipComment(src, old(curPos))
        decreases |src| - curPos
      {
        Advance();
      }
      Advance();
    }

    // ---- tokens ----

    /** Stores the current character in the token buffer and moves on. */
    method Take()
      modifies `curPos, `curLine, `curChar, `tokenBufPtr, tokenBuf
      requires Synced() && tokenBuf.Length == TOKEN_MAX + 1 && tokenBufPtr < TOKEN_MAX
      ensures Synced() && curPos == old(curPos) + 1 && tokenBufPtr == old(tokenBufPtr) + 1
      ensures tokenBuf[..tokenBufPtr] == old(tokenBuf[..tokenBufPtr]) + [CharAt(src, old(curPos))]
    {
      tokenBuf[tokenBufPtr] := curChar;
      Advance();
      tokenBufPtr := tokenBufPtr + 1;
    }

    /** Fills the buffer with a string, its leading quote kept, and moves past the closing one. */
    method FillString()
      modifies `curPos, `curLine, `curChar, `tokenBufPtr, tokenBuf
      requires Synced() && tokenBuf.Length == TOKEN_MAX + 1 && tokenBufPtr == 0
      ensures Synced() && tokenBufPtr <= TOKEN_MAX
      ensures var e := StringEnd(src, old(curPos) + 1, 1);
        curPos == e + 1 && tokenBuf[..tokenBufPtr] == Chars(src, old(curPos), e)
    {
      hide LineAt, Chars, CharAt, StringEnd;
      ghost var p := curPos;
      CharsGrow(src, p, p);
      Take();
      while tokenBufPtr < TOKEN_MAX && curChar != '"'
        invariant Synced() && p + 1 <= curPos && tokenBufPtr == curPos - p <= TOKEN_MAX
        invariant tokenBuf[..tokenBufPtr] == Chars(src, p, curPos)
        invariant StringEnd(src, curPos, tokenBufPtr) == StringEnd(src, p + 1, 1)
        decreases TOKEN_MAX - tokenBufPtr
      {
        CharsGrow(src, p, curPos);
        StringGoesOn(src, curPos, tokenBufPtr);
        Take();
      }
      StringStops(src, curPos, tokenBufPtr);
      Advance();
    }

    /** Fills the buffer with a word, and moves past a colon that ends it. */
    method FillWord()
      modifies `curPos, `curLine, `curChar, `tokenBufPtr, tokenBuf
      requires Synced() && tokenBuf.Length == TOKEN_MAX + 1 && tokenBufPtr == 0
      ensures Synced() && tokenBufPtr <= TOKEN_MAX
      ensures var p, e := old(curPos), WordEnd(src, old(curPos), 0);
        && tokenBuf[..tokenBufPtr] == Chars(src, p, e)
        && curPos == if e - p < TOKEN_MAX && CharAt(src, e) == ':' then e + 1 else e
    {
      hide LineAt, EndsWord, Chars, CharAt, WordEnd;
      ghost var p := curPos;
      CharsGrow(src, p, p);
      while tokenBufPtr < TOKEN_MAX && !EndsWord(curChar)
        invariant Synced() && p <= curPos && tokenBufPtr == curPos - p <= TOKEN_MAX
        invariant tokenBuf[..tokenBufPtr] == Chars(src, p, curPos)
        invariant WordEnd(src, curPos, tokenBufPtr) == WordEnd(src, p, 0)
        decreases TOKEN_MAX - tokenBufPtr
      {
        CharsGrow(src, p, curPos);
        WordGoesOn(src, curPos, tokenBufPtr);
        Take();
      }
      WordStops(src, curPos, tokenBufPtr);
      if tokenBufPtr < TOKEN_MAX && curChar == ':' {
        Advance();
      }
    }

    method Scan()
      modifies `curPos, `curLine, `curChar, `tokenBufPtr, tokenBuf
      requires Synced() && tokenBuf.Length == TOKEN_MAX + 1
      ensures Synced() && '\0' in tokenBuf[..]
      ensures curPos == ScanToken(src, old(curPos)).1
      ensures BufText() == CString(ScanToken(src, old(curPos)).0)
    {
      hide CString, LineAt, SkipWhitespace, StringEnd, WordEnd, Chars;
      tokenBufPtr := 0;
      SkipWs();
      if curChar == '"' {
        FillString();
      } else {
        FillWord();
      }
      Terminate();
      if IsSeparator(curChar) {
        Advance();
      }
    }

    method Terminate()
      modifies tokenBuf
      requires tokenBuf.Length == TOKEN_MAX + 1 && tokenBufPtr <= TOKEN_MAX
      ensures '\0' in tokenBuf[..]
      ensures BufText() == CString(old(tokenBuf[..tokenBufPtr]))
    {
      ghost var buf := tokenBuf[..tokenBufPtr];
      tokenBuf[tokenBufPtr] := '\0';
      assert tokenBuf[..][..tokenBufPtr] == buf;
      CStringStops(tokenBuf[..], tokenBufPtr);
    }

    method Next() returns (t: Token)
      modifies `curPos, `curLine, `curChar, `tokenBufPtr, tokenBuf
      requires Synced() && tokenBuf.Length == TOKEN_MAX + 1
      ensures Synced() && '\0' in tokenBuf[..]
      ensures (t, curPos) == NextToken(src, old(curPos))
      ensures BufText() == t.text
    {
      hide ScanToken, Instruction, DirectiveNamed;
      Scan();
      var text := BufString();
      if text == "" {
        return Token(SYM_NONE, text);
      } else if text[0] == '"' {
        return Token(SYM_STRING, text);
      } else if IsDigit(text[0]) {
        return Token(SYM_LITERAL, text);
      } else if |text| == 1 && text[0] in "ABCDEHLMS" {
        return Token(SYM_REG, text);
      } else if text == "," {
        return Token(SYM_COMMA, text);
      } else if text == "SP" || text == "PSW" {
        return Token(SYM_REG, text);
      }
      var directive := FindDirective(text);
      if directive != NONE {
        return Token(SYM_DIRECTIVE, text);
      }
      var instr := FindInstruction(text);
      return Token(if instr != INVALID then SYM_INSTR else SYM_LABEL, text);
    }

    method BufString() returns (text: string)
      requires tokenBuf.Length == TOKEN_MAX + 1
      ensures text == BufText()
    {
      text := CString(tokenBuf[..]);
    }

    /** Scans the digits of the literal in the token buffer and converts them in the base found. */
    method ExtractLiteral() returns (literal: int)
      requires tokenBuf.Length == TOKEN_MAX + 1 && '\0' in tokenBuf[..]
      ensures literal == Literal(BufText())
    {
      hide Value, ToInt, CString;
      var ptr := ScanDigits();
      var t := BufString();
      if ptr == 0 {
        return 0;
      }
      CStringCovers(tokenBuf[..]);
      if tokenBuf[ptr] == 'H' || tokenBuf[ptr] == 'h' {
        literal := ToInt(Value(t[..ptr], 16));
      } else {
        literal := ToInt(Value(t[..DecimalRun(t)], 10));
      }
    }

    method ScanDigits() returns (ptr: nat)
      requires tokenBuf.Length == TOKEN_MAX + 1 && '\0' in tokenBuf[..]
      ensures ptr == LiteralRun(BufText()) <= |BufText()| < tokenBuf.Length
      ensures ptr < |BufText()| ==> tokenBuf[ptr] == BufText()[ptr]
    {
      hide CString;
      ptr := 0;
      ghost var text := BufText();
      CStringCovers(tokenBuf[..]);
      assert text[0..] == text;
      while IsLiteralChar(tokenBuf[ptr])
        invariant 0 <= ptr <= |text| < tokenBuf.Length
        invariant LiteralRun(text) == ptr + LiteralRun(text[ptr..])
        decreases |text| - ptr
      {
        assert tokenBuf[ptr] == text[ptr];
        assert text[ptr..][1..] == text[ptr + 1..];
        ptr := ptr + 1;
      }
      assert ptr < |text| ==> tokenBuf[ptr] == text[ptr];
    }

    // ---- operands ----

    method ParseReg(t: Token) returns (ok: bool)
      modifies `textSeg
      ensures Parsed(textSeg, ok) == ParseOneReg(old(textSeg), t)
    {
      textSeg := textSeg.(reg0 := RegCode(CharAt(t.text, 0)));
      ok := t.kind == SYM_REG;
    }

    method ParseRegs(a: Token, b: Token) returns (ok: bool)
      modifies `textSeg
      ensures Parsed(textSeg, ok) == ParseTwoReg(old(textSeg), a, b)
    {
      ok := true;
      if a.kind != SYM_REG {
        ok := false;
      }
      if b.kind != SYM_REG {
        ok := false;
      }
      textSeg := textSeg.(reg0 := RegCode(CharAt(a.text, 0)));
      textSeg := textSeg.(reg1 := RegCode(CharAt(b.text, 0)));
    }

    method ParseImmediate(t: Token) returns (ok: bool)
      modifies `textSeg
      requires tokenBuf.Length == TOKEN_MAX + 1 && '\0' in tokenBuf[..] && BufText() == t.text
      ensures Parsed(textSeg, ok) == ParseImm(old(textSeg), t)
    {
      ok := true;
      if t.kind == SYM_LITERAL {
        var literal := ExtractLiteral();
        textSeg := textSeg.(imm := literal, hasImm := true);
      } else if t.kind == SYM_LABEL {
        textSeg := textSeg.(symbolStr := t.text);
      } else {
        ok := false;
      }
    }

    method ParseRegImmediate(a: Token, b: Token) returns (ok: bool)
      modifies `textSeg
      requires tokenBuf.Length == TOKEN_MAX + 1 && '\0' in tokenBuf[..] && BufText() == b.text
      ensures Parsed(textSeg, ok) == ParseRegImm(old(textSeg), a, b)
    {
      ok := a.kind == SYM_REG;
      if b.kind == SYM_LITERAL {
        var literal := ExtractLiteral();
        textSeg := textSeg.(reg0 := RegCode(CharAt(a.text, 0)), imm := literal, hasImm := true);
      } else if b.kind == SYM_LABEL {
        textSeg := textSeg.(symbolStr := b.text);
        ok := true;
      } else {
        ok := false;
      }
    }

    method ParseDataArgument(t: Token) returns (ok: bool)
      modifies `textSeg
      requires tokenBuf.Length == TOKEN_MAX + 1 && '\0' in tokenBuf[..] && BufText() == t.text
      ensures Parsed(textSeg, ok) == ParseDataArg(old(textSeg), t)
    {
      ok := true;
      if t.kind == SYM_LITERAL {
        var literal := ExtractLiteral();
        textSeg := textSeg.(blocks := textSeg.blocks + [[Lo(literal)]]);
      } else if t.kind == SYM_STRING {
        textSeg := textSeg.(blocks := textSeg.blocks + [StringBytes(t.text)]);
      } else if t.kind == SYM_LABEL {
        textSeg := textSeg.(symbolStr := t.text);
      } else {
        ok := false;
      }
    }

    /** Takes arguments while the cursor stays on the line it was on. */
    method ParseDataLine() returns (ok: bool)
      modifies `curPos, `curLine, `curChar, `tokenBufPtr, `textSeg, tokenBuf
      requires Synced() && tokenBuf.Length == TOKEN_MAX + 1
      ensures Synced()
      ensures (Parsed(textSeg, ok), curPos) == ParseData(src, old(curPos), LineAt(src, old(curPos)), old(textSeg))
    {
      hide LineAt, NextToken, CString;
      var dataLine := curLine;
      ok := true;
      while true
        invariant Synced() && dataLine == LineAt(src, old(curPos))
        invariant ParseData(src, curPos, dataLine, textSeg)
               == ParseData(src, old(curPos), dataLine, old(textSeg))
        decreases |src| - curPos
      {
        ghost var p := curPos;
        var t := Next();
        ok := ParseDataArgument(t);
        if !ok || curPos >= |src| || curLine > dataLine {
          break;
        }
        ArgMoves(src, p, t, curPos);
      }
    }

    // ---- lines ----

    /** The operands of an instruction, as its form has them. */
    method ParseForm(f: Form) returns (ok: bool)
      modifies `curPos, `curLine, `curChar, `tokenBufPtr, `textSeg, tokenBuf
      requires Synced() && tokenBuf.Length == TOKEN_MAX + 1
      ensures Synced()
      ensures (Parsed(textSeg, ok), curPos) == ParseOperands(src, old(curPos), f, old(textSeg))
    {
      hide LineAt, NextToken, ParseDataArg, ParseData, ParseOneReg, ParseTwoReg, ParseImm, ParseRegImm, CString;
      match f {
        case OneReg =>
          var a := Next();
          ok := ParseReg(a);
        case Imm8 | Imm16 | Space =>
          var a := Next();
          ok := ParseImmediate(a);
        case TwoReg =>
          var a := Next();
          var b := Next();
          ok := ParseRegs(a, b);
        case RegImm8 | RegImm16 =>
          var a := Next();
          var b := Next();
          ok := ParseRegImmediate(a, b);
        case Data =>
          ok := ParseDataLine();
        case Bare | Unsupported =>
          ok := true;
      }
    }

    /** The part of a line after its label. */
    method Statement(t: Token) returns (ok: bool, size: nat)
      modifies `curPos, `curLine, `curChar, `tokenBufPtr, `textSeg, tokenBuf
      requires Synced() && tokenBuf.Length == TOKEN_MAX + 1
      ensures Synced()
      ensures forall addr, symbols ::
        LexStatement(src, addr, t, old(curPos), old(textSeg), symbols)
        == Finish(src, addr, Parsed(textSeg, ok), size, symbols, curPos)
    {
      hide ParseOperands, LineAt, FormOf, DirectiveNamed, Instruction, SizeOf, StoredAs;
      ok, size := true, 1;
      if t.kind == SYM_DIRECTIVE {
        var d := FindDirective(t.text);
        if d != EQU {
          textSeg := textSeg.(instr := StoredAs(d));
        }
      } else if t.kind == SYM_INSTR {
        var m := FindInstruction(t.text);
        var f := FormOf(m);
        ok := ParseForm(f);
        size := SizeOf(f, textSeg);
        if ok && f != Unsupported {
          textSeg := textSeg.(instr := m);
        }
      }
    }

    method AddSymbol(s: Symbol) returns (status: int)
      modifies `symTable
      ensures symTable == old(symTable) + if |old(symTable)| < symMax then [s] else []
      ensures status == if |old(symTable)| < symMax then 0 else -1
      requires |symTable| <= symMax
    {
      if |symTable| == symMax {
        return -1;
      }
      symTable := symTable + [s];
      return 0;
    }

    method AddLine(line: LineInfo) returns (status: int)
      modifies `sourceRepr
      requires |sourceRepr| <= sourceMax
      ensures sourceRepr == old(sourceRepr) + if |old(sourceRepr)| < sourceMax then [line] else []
      ensures status == if |old(sourceRepr)| < sourceMax then 0 else -1
    {
      if |sourceRepr| == sourceMax {
        return -1;
      }
      sourceRepr := sourceRepr + [line];
      return 0;
    }

    /** The label of a line, entered in the symbol table, and its statement. */
    method LabelAndStatement() returns (ok: bool, size: nat)
      modifies `curPos, `curLine, `curChar, `tokenBufPtr, `textSeg, `symTable, tokenBuf
      requires Valid() && Synced() && textSeg == BLANK
      ensures Valid() && Synced()
      ensures var l := LexLine(src, old(curPos), textAddr, |old(symTable)| < symMax);
        && symTable == old(symTable) + l.symbols
        && l == Finish(src, textAddr, Parsed(textSeg, ok), size, l.symbols, curPos)
    {
      hide LexStatement, Finish, NextToken, LineAt, CString;
      var t := Next();
      ok, size := true, 1;
      if t.kind == SYM_NONE {
        ok := false;
      } else if t.kind == SYM_LABEL {
        textSeg := textSeg.(labelStr := t.text);
        var added := AddSymbol(Symbol(textAddr, t.text));
        ok := added >= 0;
        if ok {
          t := Next();
          ok, size := Statement(t);
        }
      } else {
        ok, size := Statement(t);
      }
      FinishSymbols(src, textAddr, Parsed(textSeg, ok), size, curPos);
    }

    /** One statement: lexed, placed at the current address, and added to the source representation. */
    method Line() returns (status: int)
      modifies `curPos, `curLine, `curChar, `tokenBufPtr, `textSeg, `textAddr, `sourceRepr, `symTable, tokenBuf
      requires Valid() && Synced()
      ensures Valid() && Synced()
      ensures var l := LexLine(src, old(curPos), old(textAddr), |old(symTable)| < symMax);
        && curPos == l.next
        && textAddr == old(textAddr) + l.size
        && symTable == old(symTable) + l.symbols
        && (if |old(sourceRepr)| < sourceMax then status == 0 && sourceRepr == old(sourceRepr) + [l.line]
            else status == -1 && sourceRepr == old(sourceRepr))
    {
      hide LexLine, LineAt;
      textSeg := BLANK;
      var ok, size := LabelAndStatement();
      textSeg := textSeg.(error := !ok, addr := textAddr, lineNum := curLine);
      textAddr := textAddr + size;
      status := AddLine(textSeg);
    }

    /** The first entry of the symbol table that begins with the name, or the table's size. */
    method GetSymbol(name: string) returns (k: nat)
      ensures k == Lookup(symTable, name, 0)
    {
      k := 0;
      while k < |symTable|
        invariant k <= |symTable|
        invariant Lookup(symTable, name, k) == Lookup(symTable, name, 0)
      {
        if IsPrefix(name, symTable[k].name) {
          return;
        }
        k := k + 1;
      }
    }

    /** Puts the address of the symbol found into every line that names one. */
    method ResolveLabels()
      modifies `sourceRepr
      ensures sourceRepr == ResolveAll(old(sourceRepr), symTable)
    {
      hide Lookup, IsPrefix;
      if |symTable| == 0 {
        NothingToResolve(sourceRepr);
        return;
      }
      var l := 0;
      while l < |sourceRepr|
        invariant 0 <= l <= |sourceRepr| == |old(sourceRepr)|
        invariant forall i :: 0 <= i < l ==> sourceRepr[i] == Resolve(old(sourceRepr)[i], symTable)
        invariant forall i :: l <= i < |sourceRepr| ==> sourceRepr[i] == old(sourceRepr)[i]
      {
        var line := sourceRepr[l];
        if |line.symbolStr| > 0 {
          var k := GetSymbol(line.symbolStr);
          if k < |symTable| {
            sourceRepr := sourceRepr[l := line.(imm := symTable[k].addr, hasImm := true)];
          }
        }
        l := l + 1;
      }
    }

    /**
     * Lexes the whole source. It ends because every turn moves the cursor towards the end of the text, or
     * uses up one place for a line, or returns.
     */
    method All() returns (status: int)
      modifies `curPos, `curLine, `curChar, `tokenBufPtr, `textSeg, `textAddr, `sourceRepr, `symTable, tokenBuf
      requires Valid() && curPos == 0 && curLine == 1 && sourceMax == symMax
      requires sourceRepr == [] && symTable == []
      requires CommentsClosed(src, sourceMax, LexState(0, [], [], textStartAddr))
      ensures Valid() && Synced()
      ensures LexResult(status, LexState(curPos, sourceRepr, symTable, textAddr))
           == LexAll(src, sourceMax, textStartAddr)
    {
      hide LexLine, SkipComment, ResolveAll;
      curChar := CharAt(src, 0);
      textAddr := textStartAddr;
      ghost var start := LexState(0, [], [], textStartAddr);
      while curPos < |src|
        invariant Valid() && Synced()
        invariant LexLoop(src, sourceMax, LexState(curPos, sourceRepr, symTable, textAddr))
               == LexLoop(src, sourceMax, start)
        invariant CommentsClosed(src, sourceMax, LexState(curPos, sourceRepr, symTable, textAddr))
        decreases sourceMax - |sourceRepr|, |src| - curPos
      {
        if IsComment(curChar) {
          SkipCommentLine();
        } else if IsWhitespace(curChar) {
          Advance();
        } else {
          status := Line();
          if status < 0 {
            return;
          }
        }
      }
      ResolveLabels();
      return 0;
    }
  }

  method FindDirective(text: string) returns (d: Directive)
    ensures d == DirectiveNamed(text)
  {
    d := FindMnemonic(Directives(), NONE, text);
  }

  method FindInstruction(text: string) returns (m: Mnemonic)
    ensures m == Instruction(text)
  {
    m := FindMnemonic(Instructions(), INVALID, text);
  }

  lemma StringGoesOn(src: string, p: nat, n: nat)
    requires n < TOKEN_MAX && CharAt(src, p) != '"'
    ensures StringEnd(src, p, n) == StringEnd(src, p + 1, n + 1)
  {
    hide CharAt;
  }

  lemma StringStops(src: string, p: nat, n: nat)
    requires n <= TOKEN_MAX && (n == TOKEN_MAX || CharAt(src, p) == '"')
    ensures StringEnd(src, p, n) == p
  {
    hide CharAt;
  }

  lemma WordGoesOn(src: string, p: nat, n: nat)
    requires n < TOKEN_MAX && !EndsWord(CharAt(src, p))
    ensures WordEnd(src, p, n) == WordEnd(src, p + 1, n + 1)
  {
    hide CharAt, EndsWord;
  }

  lemma WordStops(src: string, p: nat, n: nat)
    requires n <= TOKEN_MAX && (n == TOKEN_MAX || EndsWord(CharAt(src, p)))
    ensures WordEnd(src, p, n) == p
  {
    hide CharAt, EndsWord;
  }

  lemma CharsGrow(src: string, p: nat, q: nat)
    requires p <= q
    ensures Chars(src, p, q) + [CharAt(src, q)] == Chars(src, p, q + 1)
    ensures Chars(src, p, p) == ""
  {
  }

  /** A buffer terminated at n reads as the C string of what is before n. */
  lemma {:induction false} CStringStops(s: string, n: nat)
    requires n < |s| && s[n] == '\0'
    ensures CString(s) == CString(s[..n])
  {
    if n != 0 && s[0] != '\0' {
      CStringStops(s[1..], n - 1);
      assert s[1..][..n - 1] == s[..n][1..];
    }
  }

  /** A terminated buffer holds its C string and then a NUL. */
  lemma {:induction false} CStringCovers(s: string)
    requires '\0' in s
    ensures |CString(s)| < |s| && s[|CString(s)|] == '\0'
  {
    if s[0] != '\0' {
      CStringCovers(s[1..]);
    }
  }

  /** An argument that is right was a token, and the cursor is past where it was. */
  lemma ArgMoves(src: string, p: nat, t: Token, q: nat)
    requires (t, q) == NextToken(src, p) && t.kind != SYM_NONE
    ensures p < q
  {
    hide ScanToken, Classify;
  }

  lemma FinishSymbols(src: string, addr: int, p: Parsed, size: nat, next: nat)
    ensures forall symbols :: Finish(src, addr, p, size, symbols, next).symbols == symbols
  {
  }

  lemma NothingToResolve(lines: seq<LineInfo>)
    ensures ResolveAll(lines, []) == lines
  {
  }
}
