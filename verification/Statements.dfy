/**
 * Which operands a statement is read with and which are refused, on the text: for every mnemonic, by the kinds of the
 * words that follow it.
 */
module Statements {
  import opened Opcodes
  import opened Source
  import opened LexSpec
  import opened Encoding
  import opened Addresses
  import opened Scanning
  import opened Words

  // ---- what each mnemonic takes ----

  predicate TakesRegister(m: Mnemonic) {
    m in {ADC, ADD, ANA, CMP, DAD, DCR, INR, INX, LDAX, ORA, POP, PUSH, SBB, STAX, SUB, XRA}
  }

  predicate TakesByte(m: Mnemonic) { m in {ACI, ADI, ANI, CPI, ORI, SUI} }

  predicate TakesAddress(m: Mnemonic) {
    m in {JP, JMP, JC, JNC, JZ, JM, CALL, CC, CNZ, CM, CP, CPE, CPO, CZ}
  }

  predicate TakesNothing(m: Mnemonic) { m in {PCHL, RET, RC, RNC, RZ, RM, RP, RPE, RPO, RNZ} }

  predicate TakesData(m: Mnemonic) { m in {DB, DW} }

  /** The mnemonics that are in the table but have no case in the parser. */
  predicate NotParsed(m: Mnemonic) {
    m in {AND, CMA, DAA, DCX, IN, JNZ, JPE, JPO, LDA, LHLD, NOP, RAA, RAL, RAR, RLC, RRC, SPHL, STA, XCHG, XTHL, XRI}
  }

  predicate OneOperand(m: Mnemonic) { TakesRegister(m) || TakesByte(m) || TakesAddress(m) || m == DS }

  predicate TwoOperands(m: Mnemonic) { m in {MOV, MVI, LXI} }

  /** Every mnemonic that has a word is one of these. */
  lemma EveryMnemonic(m: Mnemonic)
    ensures m in {INVALID, SBI, OUT} || OneOperand(m) || TwoOperands(m) || TakesNothing(m) || TakesData(m)
         || NotParsed(m)
  {
  }

  /** The kinds of operand words that are taken; behind MVI and LXI the first word is not looked at before a symbol. */
  predicate Fits(m: Mnemonic, a: TokenType, b: TokenType)
    requires OneOperand(m) || TwoOperands(m)
  {
    if TakesRegister(m) then a == SYM_REG
    else if OneOperand(m) then a == SYM_LITERAL || a == SYM_LABEL
    else if m == MOV then a == SYM_REG && b == SYM_REG
    else b == SYM_LABEL || (a == SYM_REG && b == SYM_LITERAL)
  }

  /** The bytes counted for a statement of fixed size. */
  function Counted(m: Mnemonic): nat {
    if TakesByte(m) || m == MVI then 2 else if TakesAddress(m) || m == LXI then 3 else 1
  }

  lemma RegisterForms(m: Mnemonic)
    requires TakesRegister(m)
    ensures FormOf(m) == OneReg
  {
  }

  lemma ByteForms(m: Mnemonic)
    requires TakesByte(m)
    ensures FormOf(m) == Imm8
  {
  }

  lemma AddressForms(m: Mnemonic)
    requires TakesAddress(m)
    ensures FormOf(m) == Imm16
  {
  }

  lemma PairForms(m: Mnemonic)
    ensures m == DS ==> FormOf(m) == Space
    ensures m == MOV ==> FormOf(m) == TwoReg
    ensures m == MVI ==> FormOf(m) == RegImm8
    ensures m == LXI ==> FormOf(m) == RegImm16
  {
  }

  lemma FormIs(m: Mnemonic)
    requires OneOperand(m) || TwoOperands(m)
    ensures FormOf(m) ==
      if TakesRegister(m) then OneReg
      else if TakesByte(m) then Imm8
      else if TakesAddress(m) then Imm16
      else match m case DS => Space case MOV => TwoReg case MVI => RegImm8 case _ => RegImm16
  {
    hide FormOf, TakesRegister, TakesByte, TakesAddress;
    if TakesRegister(m) {
      RegisterForms(m);
    } else if TakesByte(m) {
      ByteForms(m);
    } else if TakesAddress(m) {
      AddressForms(m);
    } else {
      PairForms(m);
    }
  }

  lemma BareForms(m: Mnemonic)
    requires TakesNothing(m)
    ensures FormOf(m) == Form.Bare
  {
  }

  lemma DataForm(m: Mnemonic)
    requires TakesData(m)
    ensures FormOf(m) == Data
  {
  }

  lemma UnparsedForms(m: Mnemonic)
    requires NotParsed(m)
    ensures FormOf(m) == Unsupported
  {
  }

  // ---- by the tokens that follow ----

  /** A mnemonic stands in the source, and where the cursor is behind it. */
  predicate Stands(src: string, p: nat, m: Mnemonic) {
    m !in {INVALID, SBI, OUT} && At(src, p, Spelling(m)) && EndsArg(CharAt(src, p + |Spelling(m)|))
  }

  function Behind(src: string, p: nat, m: Mnemonic): nat { PastSeparator(src, p + |Spelling(m)|) }

  /** Where one or two tokens end. */
  function Second(src: string, p: nat): nat { NextToken(src, p).1 }

  lemma Begins(src: string, p: nat, m: Mnemonic, addr: int)
    requires Stands(src, p, m)
    ensures LexLine(src, p, addr, true)
         == LexStatement(src, addr, Token(SYM_INSTR, Spelling(m)), Behind(src, p, m), BLANK, [])
    ensures Instruction(Spelling(m)) == m
  {
    hide NextToken, LexStatement, Spelling, At, EndsArg, PastSeparator, Instruction, DirectiveNamed;
    MnemonicWord(m);
    WordRead(src, p, Spelling(m));
  }

  /** The kinds of mnemonics do not overlap. */
  lemma Apart(m: Mnemonic)
    ensures TakesRegister(m) ==> !TakesByte(m) && !TakesAddress(m) && m !in {DS, MOV, MVI, LXI}
    ensures TakesByte(m) ==> !TakesAddress(m) && m !in {DS, MOV, MVI, LXI}
    ensures TakesAddress(m) ==> m !in {DS, MOV, MVI, LXI}
  {
  }

  predicate FormFits(f: Form, a: TokenType, b: TokenType) {
    match f
    case OneReg => a == SYM_REG
    case Imm8 | Imm16 | Space => a == SYM_LITERAL || a == SYM_LABEL
    case TwoReg => a == SYM_REG && b == SYM_REG
    case _ => b == SYM_LABEL || (a == SYM_REG && b == SYM_LITERAL)
  }

  lemma OneParsed(src: string, p: nat, f: Form)
    requires f in {OneReg, Imm8, Imm16, Space}
    ensures var (parsed, next) := ParseOperands(src, p, f, BLANK);
      && next == NextToken(src, p).1 && (parsed.ok <==> FormFits(f, NextToken(src, p).0.kind, SYM_NONE))
      && parsed.line.instr == INVALID
  {
    hide NextToken, RegCode, Literal;
  }

  lemma TwoParsed(src: string, p: nat, f: Form)
    requires f in {TwoReg, RegImm8, RegImm16}
    ensures var (a, q) := NextToken(src, p);
      var (b, r) := NextToken(src, q);
      var (parsed, next) := ParseOperands(src, p, f, BLANK);
      && next == r && (parsed.ok <==> FormFits(f, a.kind, b.kind)) && parsed.line.instr == INVALID
  {
    hide NextToken, RegCode, Literal;
  }

  lemma FitsForm(m: Mnemonic, a: TokenType, b: TokenType)
    requires OneOperand(m) || TwoOperands(m)
    ensures Fits(m, a, b) <==> FormFits(FormOf(m), a, b)
  {
    hide FormOf, TakesRegister, TakesByte, TakesAddress, OneOperand, TwoOperands;
    if TakesRegister(m) {
      RegisterForms(m);
    } else if OneOperand(m) {
      FormKind(m);
      NotRegister(m);
    } else {
      PairForms(m);
      OnlyTwo(m);
    }
  }

  lemma NotRegister(m: Mnemonic)
    requires OneOperand(m) && !TakesRegister(m)
    ensures FormOf(m) != OneReg
  {
    hide FormOf, TakesRegister, TakesByte, TakesAddress;
    FormIs(m);
  }

  lemma OnlyTwo(m: Mnemonic)
    requires TwoOperands(m)
    ensures m == MOV || m == MVI || m == LXI
  {
  }

  lemma FirstOnly(m: Mnemonic, a: TokenType, b: TokenType)
    requires OneOperand(m)
    ensures Fits(m, a, b) == Fits(m, a, SYM_NONE)
  {
    hide TakesRegister, TakesByte, TakesAddress;
  }

  lemma FormKind(m: Mnemonic)
    requires OneOperand(m) || TwoOperands(m)
    ensures OneOperand(m) ==> FormOf(m) in {OneReg, Imm8, Imm16, Space}
    ensures !OneOperand(m) ==> FormOf(m) in {TwoReg, RegImm8, RegImm16}
  {
    hide FormOf, TakesRegister, TakesByte, TakesAddress;
    FormIs(m);
  }

  lemma FormSize(m: Mnemonic, line: LineInfo)
    requires OneOperand(m) || TwoOperands(m)
    ensures SizeOf(FormOf(m), line) == Counted(m)
  {
    hide FormOf, TakesRegister, TakesByte, TakesAddress;
    FormIs(m);
    Apart(m);
  }

  lemma Operated(src: string, p: nat, m: Mnemonic)
    requires OneOperand(m) || TwoOperands(m)
    ensures var (a, q) := NextToken(src, p);
      var (b, r) := NextToken(src, q);
      var (parsed, next) := ParseOperands(src, p, FormOf(m), BLANK);
      && next == (if OneOperand(m) then q else r)
      && (parsed.ok <==> Fits(m, a.kind, b.kind))
      && parsed.line.instr == INVALID
      && SizeOf(FormOf(m), parsed.line) == Counted(m)
  {
    hide NextToken, FormOf, ParseOperands, Fits, OneOperand, TwoOperands, Counted, SizeOf, FormFits;
    var (a, q) := NextToken(src, p);
    var (b, r) := NextToken(src, q);
    FitsForm(m, a.kind, b.kind);
    FormKind(m);
    FormSize(m, ParseOperands(src, p, FormOf(m), BLANK).0.line);
    if OneOperand(m) {
      FitsForm(m, a.kind, SYM_NONE);
      FirstOnly(m, a.kind, b.kind);
      OneParsed(src, p, FormOf(m));
    } else {
      TwoParsed(src, p, FormOf(m));
    }
  }

  /**
   * For every mnemonic with one or two operands and any text behind it: the line is an error, keeps no instruction and
   * is not accepted by the assembler exactly when the next one or two tokens do not fit; its bytes are counted in any
   * case, and the cursor is behind those tokens.
   */
  lemma RefusedExactly(src: string, p: nat, m: Mnemonic, addr: int)
    requires Stands(src, p, m) && (OneOperand(m) || TwoOperands(m))
    ensures var (a, q) := NextToken(src, Behind(src, p, m));
      var (b, r) := NextToken(src, q);
      var l := LexLine(src, p, addr, true);
      && (l.line.error <==> !Fits(m, a.kind, b.kind))
      && l.line.instr == (if Fits(m, a.kind, b.kind) then m else INVALID)
      && (!Fits(m, a.kind, b.kind) ==> !Accepted(l.line))
      && l.line.addr == addr && l.size == Counted(m) && l.symbols == [] && l.next == (if OneOperand(m) then q else r)
  {
    hide NextToken, Spelling, At, EndsArg, PastSeparator, Instruction, ParseOperands, FormOf, SizeOf, Fits, LineAt,
         OneOperand, TwoOperands, Counted, Accepted, LexLine, DirectiveNamed;
    Begins(src, p, m, addr);
    IsParsed(m);
    Operated(src, Behind(src, p, m), m);
    var l := LexLine(src, p, addr, true);
    if l.line.instr == INVALID {
      BlankRejected(l.line);
    }
  }

  lemma IsParsed(m: Mnemonic)
    requires OneOperand(m) || TwoOperands(m)
    ensures FormOf(m) != Unsupported && m != INVALID
  {
    hide FormOf;
    FormIs(m);
  }

  /** A mnemonic without operands is taken as it is, and what follows it is left for the next statement. */
  lemma BareTaken(src: string, p: nat, m: Mnemonic, addr: int)
    requires Stands(src, p, m) && TakesNothing(m)
    ensures var next := Behind(src, p, m);
      LexLine(src, p, addr, true)
        == Lexed(BLANK.(instr := m, addr := addr, lineNum := LineAt(src, next)), 1, [], next)
  {
    hide NextToken, Spelling, At, EndsArg, PastSeparator, Instruction, FormOf, LineAt, TakesNothing, LexLine,
         DirectiveNamed;
    Begins(src, p, m, addr);
    BareForms(m);
  }

  /** One that is not parsed leaves a line without an instruction, which is no error before it is assembled. */
  lemma NotParsedDropped(src: string, p: nat, m: Mnemonic, addr: int)
    requires Stands(src, p, m) && NotParsed(m)
    ensures var next := Behind(src, p, m);
      LexLine(src, p, addr, true) == Lexed(BLANK.(addr := addr, lineNum := LineAt(src, next)), 1, [], next)
    ensures !Accepted(LexLine(src, p, addr, true).line)
  {
    hide NextToken, Spelling, At, EndsArg, PastSeparator, Instruction, FormOf, LineAt, NotParsed, LexLine, Accepted,
         DirectiveNamed;
    Begins(src, p, m, addr);
    UnparsedForms(m);
    BlankRejected(LexLine(src, p, addr, true).line);
  }

  // ---- anything else ----

  /**
   * A statement that begins with a number, a register or a string leaves a line without an instruction, which is no
   * error before it is assembled, and the cursor behind the word; with nothing there the line is an error.
   */
  lemma OtherStatements(src: string, p: nat, addr: int)
    requires NextToken(src, p).0.kind in {SYM_LITERAL, SYM_REG, SYM_STRING, SYM_NONE}
    ensures var (t, q) := NextToken(src, p);
      var l := LexLine(src, p, addr, true);
      && l == Lexed(BLANK.(error := t.kind == SYM_NONE, addr := addr, lineNum := LineAt(src, q)), 1, [], q)
      && !Accepted(l.line)
  {
    hide NextToken, LineAt, Accepted;
    BlankRejected(LexLine(src, p, addr, true).line);
  }

  // ---- data ----

  predicate IsData(k: TokenType) { k == SYM_LITERAL || k == SYM_STRING || k == SYM_LABEL }

  /** Every token from p on, as far as the data line goes, is a number, a string or a symbol. */
  predicate AllData(src: string, p: nat, k: nat)
    decreases |src| - p
  {
    var (t, q) := NextToken(src, p);
    IsData(t.kind) && (q >= |src| || LineAt(src, q) > k || AllData(src, q, k))
  }

  lemma {:induction false} DataFits(src: string, p: nat, k: nat, line: LineInfo)
    ensures ParseData(src, p, k, line).0.ok <==> AllData(src, p, k)
    decreases |src| - p
  {
    hide NextToken, LineAt, ParseData, ParseDataArg;
    var (t, q) := NextToken(src, p);
    DataStep(src, p, k, line);
    ArgFits(line, t);
    TokenMoves(src, p);
    if IsData(t.kind) && q < |src| && LineAt(src, q) <= k {
      DataFits(src, q, k, ParseDataArg(line, t).line);
    }
  }

  lemma ArgFits(line: LineInfo, t: Token)
    ensures ParseDataArg(line, t).ok <==> IsData(t.kind)
  {
  }

  /** A data line is an error, and not accepted, exactly when one of its tokens is something else. */
  lemma DataRefusedExactly(src: string, p: nat, m: Mnemonic, addr: int)
    requires Stands(src, p, m) && TakesData(m)
    ensures var q := Behind(src, p, m);
      var l := LexLine(src, p, addr, true);
      && (l.line.error <==> !AllData(src, q, LineAt(src, q)))
      && l.line.instr == (if AllData(src, q, LineAt(src, q)) then m else INVALID)
      && (!AllData(src, q, LineAt(src, q)) ==> !Accepted(l.line))
  {
    hide NextToken, Spelling, At, EndsArg, PastSeparator, Instruction, FormOf, LineAt, AllData, LexLine, Accepted,
         ParseData, SizeOf, DirectiveNamed;
    Begins(src, p, m, addr);
    DataForm(m);
    var q := Behind(src, p, m);
    DataFits(src, q, LineAt(src, q), BLANK);
    DataFacts(src, q, LineAt(src, q), BLANK);
    var l := LexLine(src, p, addr, true);
    if l.line.instr == INVALID {
      BlankRejected(l.line);
    }
  }

  // ---- on the text ----

  /** An operand as it is written: a word, or a string in its quotes. */
  datatype Operand = Word(w: string) | Quoted(s: string)

  predicate OperandOk(o: Operand) { if o.Word? then IsWord(o.w) else IsText(o.s) }

  function Shown(o: Operand): string { if o.Word? then o.w else "\"" + o.s + "\"" }

  function KindOf(o: Operand): TokenType { if o.Word? then Classify(o.w) else SYM_STRING }

  lemma OperandRead(src: string, p: nat, o: Operand)
    requires OperandOk(o) && At(src, p, Shown(o)) && EndsArg(CharAt(src, p + |Shown(o)|))
    ensures NextToken(src, p).0.kind == KindOf(o) && NextToken(src, p).1 == PastSeparator(src, p + |Shown(o)|)
  {
    hide NextToken, Classify, At, EndsArg, PastSeparator, IsWord, IsText;
    if o.Word? {
      WordRead(src, p, o.w);
    } else {
      StringRead(src, p, o.s);
    }
  }

  /** A line with one operand, whatever it is. */
  lemma OneOperandRefused(src: string, p: nat, m: Mnemonic, a: Operand, addr: int)
    requires OneOperand(m) && OperandOk(a) && m !in {INVALID, SBI, OUT}
    requires At(src, p, Spelling(m) + " " + Shown(a)) && EndsArg(CharAt(src, p + |Spelling(m) + " " + Shown(a)|))
    ensures var l, fits := LexLine(src, p, addr, true), Fits(m, KindOf(a), SYM_NONE);
      && (l.line.error <==> !fits) && l.line.instr == (if fits then m else INVALID)
      && (!fits ==> !Accepted(l.line))
  {
    hide NextToken, Spelling, At, Accepted, LexLine, Shown, KindOf, OperandOk, Fits, TakesRegister, TakesByte,
         TakesAddress;
    var q := p + |Spelling(m)|;
    assert Spelling(m) + " " + Shown(a) == Spelling(m) + (" " + Shown(a));
    AtSplit(src, p, Spelling(m), " " + Shown(a));
    AtSplit(src, q, " ", Shown(a));
    AtChar(src, q, " ", 0);
    OperandRead(src, q + 1, a);
    FirstOnly(m, KindOf(a), NextToken(src, NextToken(src, q + 1).1).0.kind);
    RefusedExactly(src, p, m, addr);
  }

  lemma TwoStand(src: string, p: nat, m: Mnemonic, a: Operand, b: Operand)
    requires At(src, p, Spelling(m) + " " + Shown(a) + ", " + Shown(b))
    ensures var q := p + |Spelling(m)|;
      var r := q + 1 + |Shown(a)|;
      && At(src, p, Spelling(m)) && CharAt(src, q) == ' ' && At(src, q + 1, Shown(a))
      && CharAt(src, r) == ',' && CharAt(src, r + 1) == ' ' && At(src, r + 2, Shown(b))
      && r + 2 + |Shown(b)| == p + |Spelling(m) + " " + Shown(a) + ", " + Shown(b)|
  {
    hide Spelling, At, Shown;
    var q := p + |Spelling(m)|;
    var r := q + 1 + |Shown(a)|;
    assert Spelling(m) + " " + Shown(a) + ", " + Shown(b) == Spelling(m) + (" " + (Shown(a) + (", " + Shown(b))));
    AtSplit(src, p, Spelling(m), " " + (Shown(a) + (", " + Shown(b))));
    AtSplit(src, q, " ", Shown(a) + (", " + Shown(b)));
    AtSplit(src, q + 1, Shown(a), ", " + Shown(b));
    AtSplit(src, r, ", ", Shown(b));
    AtChar(src, q, " ", 0);
    AtChar(src, r, ", ", 0);
    AtChar(src, r, ", ", 1);
  }

  /** A line with two. */
  lemma TwoOperandsRefused(src: string, p: nat, m: Mnemonic, a: Operand, b: Operand, addr: int)
    requires TwoOperands(m) && OperandOk(a) && OperandOk(b)
    requires At(src, p, Spelling(m) + " " + Shown(a) + ", " + Shown(b))
    requires EndsArg(CharAt(src, p + |Spelling(m) + " " + Shown(a) + ", " + Shown(b)|))
    ensures var l, fits := LexLine(src, p, addr, true), Fits(m, KindOf(a), KindOf(b));
      && (l.line.error <==> !fits) && l.line.instr == (if fits then m else INVALID)
      && (!fits ==> !Accepted(l.line))
  {
    hide NextToken, Spelling, At, Accepted, LexLine, Shown, KindOf, OperandOk, Fits, TakesRegister, TakesByte,
         TakesAddress;
    TwoStand(src, p, m, a, b);
    var r := p + |Spelling(m)| + 1 + |Shown(a)|;
    OperandRead(src, p + |Spelling(m)| + 1, a);
    SpaceSkipped(src, r + 1);
    OperandRead(src, r + 2, b);
    Apart(m);
    RefusedExactly(src, p, m, addr);
  }
}
