/** The words of the language, letter by letter: what each mnemonic and each directive is lexed and assembled to. */
module Words {
  import opened Bits
  import opened Opcodes
  import opened Source
  import opened LexSpec
  import opened Vectors
  import opened Encoding
  import opened Addresses
  import opened Scanning
  import opened Layout8080

  // ---- mnemonics ----

  /** How a mnemonic is spelled; SBI, OUT and the blank one have no word of their own. */
  function Spelling(m: Mnemonic): string {
    match m
    case ACI => "ACI" case ADC => "ADC" case ADD => "ADD" case ADI => "ADI" case ANA => "ANA" case AND => "AND"
    case ANI => "ANI" case CALL => "CALL" case CC => "CC" case CM => "CM" case CMA => "CMA" case CMP => "CMP"
    case CNZ => "CNZ" case CP => "CP" case CPE => "CPE" case CPI => "CPI" case CPO => "CPO" case CZ => "CZ"
    case DAA => "DAA" case DAD => "DAD" case DCR => "DCR" case DCX => "DCX" case DB => "DB" case DS => "DS"
    case DW => "DW" case IN => "IN" case INR => "INR" case INX => "INX" case JC => "JC" case JM => "JM"
    case JMP => "JMP" case JNC => "JNC" case JNZ => "JNZ" case JP => "JP" case JPE => "JPE" case JPO => "JPO"
    case JZ => "JZ" case LDA => "LDA" case LDAX => "LDAX" case LHLD => "LHLD" case LXI => "LXI" case MOV => "MOV"
    case MVI => "MVI" case NOP => "NOP" case ORA => "ORA" case ORI => "ORI" case PCHL => "PCHL" case POP => "POP"
    case PUSH => "PUSH" case RAA => "RAA" case RAL => "RAL" case RAR => "RAR" case RC => "RC" case RET => "RET"
    case RLC => "RLC" case RM => "RM" case RNC => "RNC" case RP => "RP" case RPE => "RPE" case RPO => "RPO"
    case RRC => "RRC" case RZ => "RZ" case RNZ => "RNZ" case SBB => "SBB" case SPHL => "SPHL" case STA => "STA"
    case STAX => "STAX" case SUB => "SUB" case SUI => "SUI" case XCHG => "XCHG" case XTHL => "XTHL" case XRA => "XRA"
    case XRI => "XRI"
    case _ => ""
  }

  lemma Spelled0(m: Mnemonic)
    requires 0 <= Code(m) < 13 && m !in {INVALID, SBI, OUT}
    ensures Opcodes.Name(m) == Spelling(m)
  {
  }

  lemma Spelled1(m: Mnemonic)
    requires 13 <= Code(m) < 26 && m !in {INVALID, SBI, OUT}
    ensures Opcodes.Name(m) == Spelling(m)
  {
  }

  lemma Spelled2(m: Mnemonic)
    requires 26 <= Code(m) < 39 && m !in {INVALID, SBI, OUT}
    ensures Opcodes.Name(m) == Spelling(m)
  {
  }

  lemma Spelled3(m: Mnemonic)
    requires 39 <= Code(m) < 52 && m !in {INVALID, SBI, OUT}
    ensures Opcodes.Name(m) == Spelling(m)
  {
  }

  lemma Spelled4(m: Mnemonic)
    requires 52 <= Code(m) < 64 && m !in {INVALID, SBI, OUT}
    ensures Opcodes.Name(m) == Spelling(m)
  {
  }

  lemma Spelled5(m: Mnemonic)
    requires 64 <= Code(m) < 76 && m !in {INVALID, SBI, OUT}
    ensures Opcodes.Name(m) == Spelling(m)
  {
  }

  lemma Spelled(m: Mnemonic)
    requires m !in {INVALID, SBI, OUT}
    ensures Opcodes.Name(m) == Spelling(m)
  {
    hide Code, Opcodes.Name, Spelling;
    var k := Code(m);
    if k < 13 { Spelled0(m); } else if k < 26 { Spelled1(m); } else if k < 39 { Spelled2(m); }
    else if k < 52 { Spelled3(m); } else if k < 64 { Spelled4(m); } else { Spelled5(m); }
  }

  predicate Capital(c: char) { 'A' <= c <= 'Z' }

  /** Two to four capitals, and not the name of a register pair. */
  predicate Shaped(s: string) {
    && 2 <= |s| <= 4 && Capital(s[0]) && Capital(s[1])
    && (|s| > 2 ==> Capital(s[2])) && (|s| > 3 ==> Capital(s[3]))
    && !(s[0] == 'P' && s[1] == 'S') && !(s[0] == 'S' && s[1] == 'P' && |s| == 2)
  }

  lemma Shapes0(m: Mnemonic)
    requires 0 <= Code(m) < 13 && m !in {INVALID, SBI, OUT}
    ensures Shaped(Spelling(m))
  {
  }

  lemma Shapes1(m: Mnemonic)
    requires 13 <= Code(m) < 26 && m !in {INVALID, SBI, OUT}
    ensures Shaped(Spelling(m))
  {
  }

  lemma Shapes2(m: Mnemonic)
    requires 26 <= Code(m) < 39 && m !in {INVALID, SBI, OUT}
    ensures Shaped(Spelling(m))
  {
  }

  lemma Shapes3(m: Mnemonic)
    requires 39 <= Code(m) < 52 && m !in {INVALID, SBI, OUT}
    ensures Shaped(Spelling(m))
  {
  }

  lemma Shapes4(m: Mnemonic)
    requires 52 <= Code(m) < 64 && m !in {INVALID, SBI, OUT}
    ensures Shaped(Spelling(m))
  {
  }

  lemma Shapes5(m: Mnemonic)
    requires 64 <= Code(m) < 76 && m !in {INVALID, SBI, OUT}
    ensures Shaped(Spelling(m))
  {
  }

  lemma Shapes(m: Mnemonic)
    requires m !in {INVALID, SBI, OUT}
    ensures Shaped(Spelling(m))
  {
    hide Code, Spelling, Shaped;
    var k := Code(m);
    if k < 13 { Shapes0(m); } else if k < 26 { Shapes1(m); } else if k < 39 { Shapes2(m); }
    else if k < 52 { Shapes3(m); } else if k < 64 { Shapes4(m); } else { Shapes5(m); }
  }

  /** A word of two to five capitals is one word of the tokenizer. */
  lemma CapitalWord(s: string)
    requires 2 <= |s| <= 5 && forall i :: 0 <= i < |s| ==> Capital(s[i])
    ensures IsWord(s)
  {
  }

  /** Each mnemonic's word is one word, is classified as an instruction, and is looked up as that mnemonic. */
  lemma MnemonicWord(m: Mnemonic)
    requires m !in {INVALID, SBI, OUT}
    ensures Instruction(Spelling(m)) == m && DirectiveNamed(Spelling(m)) == NONE
    ensures IsWord(Spelling(m)) && TokenOf(Spelling(m)) == Token(SYM_INSTR, Spelling(m))
  {
    hide Code, Spelling, Opcodes.Name, Instruction, DirectiveNamed, IsWord;
    Spelled(m);
    Shapes(m);
    NamesFound(m);
    NotADirective(m);
    var s := Spelling(m);
    forall i | 0 <= i < |s|
      ensures Capital(s[i])
    {
      assert i == 0 || i == 1 || i == 2 || i == 3;
    }
    CapitalWord(s);
  }

  // ---- directives ----

  function DirectiveSpelling(d: Directive): string {
    match d
    case END => "END" case ENDIF => "ENDIF" case ENDM => "ENDM" case EQU => "EQU"
    case IF => "IF" case MACRO => "MACRO" case ORG => "ORG" case SET => "SET" case NONE => ""
  }

  lemma DirectiveSpelled(d: Directive)
    requires d != NONE
    ensures DirectiveName(d) == DirectiveSpelling(d)
  {
  }

  /** The first character and the length tell the names apart, but for END and EQU. */
  lemma OneName(d: Directive, e: Directive)
    requires DirectiveName(d) == DirectiveName(e)
    ensures d == e
  {
    assert NameMark(d) == NameMark(e);
  }

  function NameMark(d: Directive): int {
    var s := DirectiveName(d);
    0x1_0000 * |s| + if |s| > 1 then 0x100 * (s[0] as int) + s[1] as int else 0
  }

  lemma NthIs(d: Directive)
    ensures exists k :: 0 <= k < 9 && NthDirective(k) == d
  {
    match d
    case NONE => assert NthDirective(0) == d;
    case END => assert NthDirective(1) == d;
    case ENDIF => assert NthDirective(2) == d;
    case ENDM => assert NthDirective(3) == d;
    case EQU => assert NthDirective(4) == d;
    case IF => assert NthDirective(5) == d;
    case MACRO => assert NthDirective(6) == d;
    case ORG => assert NthDirective(7) == d;
    case SET => assert NthDirective(8) == d;
  }

  /** Each directive's word is one word, and is looked up as that directive. */
  lemma DirectiveWord(d: Directive)
    requires d != NONE
    ensures DirectiveNamed(DirectiveSpelling(d)) == d
    ensures IsWord(DirectiveSpelling(d)) && TokenOf(DirectiveSpelling(d)) == Token(SYM_DIRECTIVE, DirectiveSpelling(d))
  {
    var s := DirectiveSpelling(d);
    DirectiveSpelled(d);
    NthIs(d);
    var k: nat :| k < 9 && NthDirective(k) == d;
    FindFirst(Directives(), NONE, s, 0, k);
    var f :| 0 <= f <= k && Directives()[f].name == s && DirectiveNamed(s) == Directives()[f].code;
    OneName(NthDirective(f), d);
    DirectiveShape(d);
    hide DirectiveNamed, Instruction;
  }

  lemma DirectiveShape(d: Directive)
    requires d != NONE
    ensures IsWord(DirectiveSpelling(d)) && 2 <= |DirectiveSpelling(d)|
    ensures var s := DirectiveSpelling(d); s[0] != '"' && !IsDigit(s[0]) && s != "SP" && s != "PSW" && s != ","
  {
  }

  // ---- every other word ----

  lemma CodeBack0(k: nat)
    requires 1 <= k < 40
    ensures Code(WithCode(k)) == k
  {
  }

  lemma CodeBack1(k: nat)
    requires 40 <= k < 49
    ensures Code(WithCode(k)) == k
  {
  }

  lemma CodeBack2(k: nat)
    requires 49 <= k < 58
    ensures Code(WithCode(k)) == k
  {
  }

  lemma CodeBack3(k: nat)
    requires 58 <= k < 67
    ensures Code(WithCode(k)) == k
  {
  }

  lemma CodeBack4(k: nat)
    requires 67 <= k < 76
    ensures Code(WithCode(k)) == k
  {
  }

  lemma CodeBack(k: nat)
    requires 0 < k < 76
    ensures Code(WithCode(k)) == k
    ensures k != 47 && k != 66 ==> WithCode(k) !in {INVALID, SBI, OUT}
  {
    hide WithCode;
    if k < 40 { CodeBack0(k); } else if k < 49 { CodeBack1(k); } else if k < 58 { CodeBack2(k); }
    else if k < 67 { CodeBack3(k); } else { CodeBack4(k); }
    assert Code(INVALID) == 0 && Code(SBI) == 66 && Code(OUT) == 47;
  }

  /** The word of an entry is how its mnemonic is spelled, that of the doubled one SBB. */
  lemma EntrySpelled(i: nat)
    requires 0 < i < 75
    ensures exists m :: m !in {INVALID, SBI, OUT} && Instructions()[i].name == Spelling(m)
  {
    hide Code, WithCode, NameOf, Spelling;
    var k := NumberAt(i);
    Landmarks();
    CodeBack(k);
    CodeBack(65);
    var m := WithCode(if k == 66 then 65 else k);
    Spelled(m);
    assert Instructions()[i].name == Opcodes.Name(m) == Spelling(m);
  }

  /** A word is an instruction exactly when it is how one is spelled. */
  lemma InstructionSpelled(w: string)
    ensures Instruction(w) != INVALID <==> exists m :: m !in {INVALID, SBI, OUT} && w == Spelling(m)
  {
    hide Spelling, Find, Instruction;
    if m :| m !in {INVALID, SBI, OUT} && w == Spelling(m) {
      MnemonicWord(m);
    }
    if Instruction(w) != INVALID {
      var i := EntryOf(w);
      EntrySpelled(i);
    }
  }

  lemma EntryOf(w: string) returns (i: nat)
    requires Instruction(w) != INVALID
    ensures 0 < i < 75 && Instructions()[i].name == w
  {
    hide Find, WithCode, NameOf;
    if forall j :: 0 <= j < 75 ==> Instructions()[j].name != w {
      FindNone(Instructions(), INVALID, w, 0);
    }
    var j :| 0 <= j < 75 && Instructions()[j].name == w;
    FindFirst(Instructions(), INVALID, w, 0, j);
    var f :| 0 <= f <= j && Instructions()[f].name == w && Instruction(w) == Instructions()[f].code;
    FirstBlank();
    i := f;
  }

  lemma FirstBlank()
    ensures Instructions()[0] == Entry(INVALID, "INVALID")
  {
  }

  /** A word is a directive exactly when it is how one is spelled. */
  lemma DirectiveSpelledOnly(w: string)
    ensures DirectiveNamed(w) != NONE <==> exists d :: d != NONE && w == DirectiveSpelling(d)
  {
    hide DirectiveSpelling, Find, DirectiveName;
    if d :| d != NONE && w == DirectiveSpelling(d) {
      DirectiveWord(d);
    }
    if DirectiveNamed(w) != NONE {
      if forall j :: 0 <= j < 9 ==> Directives()[j].name != w {
        FindNone(Directives(), NONE, w, 0);
      }
      var j :| 0 <= j < 9 && Directives()[j].name == w;
      FindFirst(Directives(), NONE, w, 0, j);
      var f :| 0 <= f <= j && Directives()[f].name == w && DirectiveNamed(w) == Directives()[f].code;
      DirectiveSpelled(DirectiveNamed(w));
    }
  }

  predicate RegisterWord(w: string) {
    w in ["A", "B", "C", "D", "E", "H", "L", "M", "S", "SP", "PSW"]
  }

  /** The kind of every word, by how it is written: what is nothing else is a label. */
  lemma KindOfWord(w: string)
    requires IsWord(w)
    ensures Classify(w) ==
      if '0' <= w[0] <= '9' then SYM_LITERAL
      else if RegisterWord(w) then SYM_REG
      else if exists d :: d != NONE && w == DirectiveSpelling(d) then SYM_DIRECTIVE
      else if exists m :: m !in {INVALID, SBI, OUT} && w == Spelling(m) then SYM_INSTR
      else SYM_LABEL
  {
    hide DirectiveNamed, Instruction, DirectiveSpelling, Spelling;
    InstructionSpelled(w);
    DirectiveSpelledOnly(w);
    NoComma(w);
    OneLetter(w);
  }

  lemma NoComma(w: string)
    requires IsWord(w)
    ensures w != ","
  {
    assert EndsWord(',');
  }

  lemma OneLetter(w: string)
    ensures RegisterWord(w) <==> (|w| == 1 && w[0] in "ABCDEHLMS") || w == "SP" || w == "PSW"
  {
    assert |w| == 1 ==> w == [w[0]];
  }

  /** The instruction that a directive's line holds, or none. */
  function StandsFor(d: Directive): Mnemonic {
    match d
    case END => ACI case ENDIF => ADC case ENDM => ADD case IF => ANA case MACRO => AND case ORG => ANI
    case SET => CALL case _ => INVALID
  }

  /** A statement that begins with a directive: its line, one byte counted, and the cursor behind the word. */
  lemma DirectiveStatement(src: string, p: nat, d: Directive, addr: int)
    requires d != NONE && At(src, p, DirectiveSpelling(d)) && EndsArg(CharAt(src, p + |DirectiveSpelling(d)|))
    ensures var next := PastSeparator(src, p + |DirectiveSpelling(d)|);
      LexLine(src, p, addr, true)
        == Lexed(BLANK.(instr := StandsFor(d), addr := addr, lineNum := LineAt(src, next)), 1, [], next)
  {
    hide NextToken, DirectiveNamed, DirectiveSpelling, Instruction, At, EndsArg, Classify, LineAt, PastSeparator,
         IsWord;
    DirectiveWord(d);
    WordRead(src, p, DirectiveSpelling(d));
    assert (if d == EQU then INVALID else StoredAs(d)) == StandsFor(d) by { StoresAs(d); }
  }

  lemma StoresAs(d: Directive)
    ensures StandsFor(d) == if d in {NONE, EQU} then INVALID else StoredAs(d)
  {
  }

  /** The bytes of such a line; EQU and MACRO have none. */
  function BytesFor(d: Directive): seq<int> {
    match d
    case END => [0xCE, 0] case ENDIF => [0x88] case ENDM => [0x80] case IF => [0xA0] case ORG => [0xE6, 0]
    case SET => [0xCD, 0, 0] case _ => []
  }

  /** What a word of so many bytes is laid out as. */
  lemma OneWord(line: LineInfo, word: nat, size: nat)
    requires TableSafe(line) && Encode(line) == Word(word, size)
    ensures AssemLine(line).status == 0
    ensures Image(AssemLine(line).instrs) == InstrBytes(Instr(word, WrapAddr(line.addr), size))
  {
    hide Encode, InstrBytes;
    var i := Instr(word, WrapAddr(line.addr), size);
    assert Image([i]) == InstrBytes(i) + Image([]);
  }

  predicate HeldBy(line: LineInfo, d: Directive) {
    line.instr == StandsFor(d) && line.reg0 == REG_NONE && line.reg1 == REG_NONE && line.imm == 0
  }

  lemma ArithDirective(line: LineInfo, d: Directive)
    requires HeldBy(line, d) && d in {ENDIF, ENDM, IF}
    ensures TableSafe(line) && Encode(line) == Word(BytesFor(d)[0], 1)
  {
    hide Encode;
    ArithLine(line);
  }

  lemma ImmediateDirective(line: LineInfo, d: Directive)
    requires HeldBy(line, d) && d in {END, ORG}
    ensures TableSafe(line) && Encode(line) == Word(0x100 * BytesFor(d)[0], 2)
  {
    hide Imm8Word;
    Imm8Bytes(1, 0);
    Imm8Bytes(4, 0);
  }

  lemma CallDirective(line: LineInfo)
    requires HeldBy(line, SET)
    ensures TableSafe(line) && Encode(line) == Word(0xCD_0000, 3)
  {
    hide CallWord, CallCode;
    CallBytes(CALL, 0);
    CallCodes(CALL);
  }

  lemma NoDirective(line: LineInfo, d: Directive)
    requires HeldBy(line, d) && d in {EQU, MACRO}
    ensures TableSafe(line) && AssemLine(line).status == -1
  {
  }

  /** The bytes a directive's line is assembled to, and nothing but an error for EQU and MACRO. */
  lemma DirectiveBytes(line: LineInfo, d: Directive)
    requires HeldBy(line, d) && d != NONE
    ensures TableSafe(line) && (AssemLine(line).status == 0 <==> d !in {EQU, MACRO})
    ensures d !in {EQU, MACRO} ==> Image(AssemLine(line).instrs) == BytesFor(d)
  {
    hide Encode, AssemLine, TableSafe, Image, HeldBy;
    if d in {ENDIF, ENDM, IF} {
      ArithDirective(line, d);
      OneWord(line, BytesFor(d)[0], 1);
    } else if d in {END, ORG} {
      ImmediateDirective(line, d);
      OneWord(line, 0x100 * BytesFor(d)[0], 2);
    } else if d == SET {
      CallDirective(line);
      OneWord(line, 0xCD_0000, 3);
    } else {
      NoDirective(line, d);
    }
  }
}
