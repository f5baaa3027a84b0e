/** The mnemonic and directive tables, and the linear search both are looked up by. */
module Opcodes {
  /** The instruction codes of the lexer, in the order that numbers them from 0. */
  datatype Mnemonic =
    | INVALID | ACI | ADC | ADD | ADI | ANA | AND | ANI | CALL | CC | CM | CMA | CMP | CNZ | CP | CPE
    | CPI | CPO | CZ | DAA | DAD | DCR | DCX | DB | DS | DW | IN | INR | INX | JC | JM | JMP
    | JNC | JNZ | JP | JPE | JPO | JZ | LDA | LDAX | LHLD | LXI | MOV | MVI | NOP | ORA | ORI | OUT
    | PCHL | POP | PUSH | RAA | RAL | RAR | RC | RET | RLC | RM | RNC | RP | RPE | RPO | RRC | RZ
    | RNZ | SBB | SBI | SPHL | STA | STAX | SUB | SUI | XCHG | XTHL | XRA | XRI

  /** The directive codes, numbered from 0 likewise. */
  datatype Directive = NONE | END | ENDIF | ENDM | EQU | IF | MACRO | ORG | SET

  function Code(m: Mnemonic): (k: nat)
    ensures k < 76
  {
    match m
    case INVALID => 0 case ACI => 1 case ADC => 2 case ADD => 3 case ADI => 4 case ANA => 5 case AND => 6
    case ANI => 7 case CALL => 8 case CC => 9 case CM => 10 case CMA => 11 case CMP => 12 case CNZ => 13
    case CP => 14 case CPE => 15 case CPI => 16 case CPO => 17 case CZ => 18 case DAA => 19 case DAD => 20
    case DCR => 21 case DCX => 22 case DB => 23 case DS => 24 case DW => 25 case IN => 26 case INR => 27
    case INX => 28 case JC => 29 case JM => 30 case JMP => 31 case JNC => 32 case JNZ => 33 case JP => 34
    case JPE => 35 case JPO => 36 case JZ => 37 case LDA => 38 case LDAX => 39 case LHLD => 40 case LXI => 41
    case MOV => 42 case MVI => 43 case NOP => 44 case ORA => 45 case ORI => 46 case OUT => 47 case PCHL => 48
    case POP => 49 case PUSH => 50 case RAA => 51 case RAL => 52 case RAR => 53 case RC => 54 case RET => 55
    case RLC => 56 case RM => 57 case RNC => 58 case RP => 59 case RPE => 60 case RPO => 61 case RRC => 62
    case RZ => 63 case RNZ => 64 case SBB => 65 case SBI => 66 case SPHL => 67 case STA => 68 case STAX => 69
    case SUB => 70 case SUI => 71 case XCHG => 72 case XTHL => 73 case XRA => 74 case XRI => 75
  }

  function WithCode(k: nat): Mnemonic {
    match k
    case 0 => INVALID case 1 => ACI case 2 => ADC case 3 => ADD case 4 => ADI case 5 => ANA case 6 => AND
    case 7 => ANI case 8 => CALL case 9 => CC case 10 => CM case 11 => CMA case 12 => CMP case 13 => CNZ
    case 14 => CP case 15 => CPE case 16 => CPI case 17 => CPO case 18 => CZ case 19 => DAA case 20 => DAD
    case 21 => DCR case 22 => DCX case 23 => DB case 24 => DS case 25 => DW case 26 => IN case 27 => INR
    case 28 => INX case 29 => JC case 30 => JM case 31 => JMP case 32 => JNC case 33 => JNZ case 34 => JP
    case 35 => JPE case 36 => JPO case 37 => JZ case 38 => LDA case 39 => LDAX case 40 => LHLD case 41 => LXI
    case 42 => MOV case 43 => MVI case 44 => NOP case 45 => ORA case 46 => ORI case 47 => OUT case 48 => PCHL
    case 49 => POP case 50 => PUSH case 51 => RAA case 52 => RAL case 53 => RAR case 54 => RC case 55 => RET
    case 56 => RLC case 57 => RM case 58 => RNC case 59 => RP case 60 => RPE case 61 => RPO case 62 => RRC
    case 63 => RZ case 64 => RNZ case 65 => SBB case 66 => SBI case 67 => SPHL case 68 => STA case 69 => STAX
    case 70 => SUB case 71 => SUI case 72 => XCHG case 73 => XTHL case 74 => XRA case 75 => XRI case _ => INVALID
  }

  /** The name of a code number in the instruction table; SBI is entered under SBB, and OUT is not entered. */
  function NameOf(k: nat): string {
    match k
    case 0 => "INVALID" case 1 => "ACI" case 2 => "ADC" case 3 => "ADD" case 4 => "ADI" case 5 => "ANA"
    case 6 => "AND" case 7 => "ANI" case 8 => "CALL" case 9 => "CC" case 10 => "CM" case 11 => "CMA"
    case 12 => "CMP" case 13 => "CNZ" case 14 => "CP" case 15 => "CPE" case 16 => "CPI" case 17 => "CPO"
    case 18 => "CZ" case 19 => "DAA" case 20 => "DAD" case 21 => "DCR" case 22 => "DCX" case 23 => "DB"
    case 24 => "DS" case 25 => "DW" case 26 => "IN" case 27 => "INR" case 28 => "INX" case 29 => "JC"
    case 30 => "JM" case 31 => "JMP" case 32 => "JNC" case 33 => "JNZ" case 34 => "JP" case 35 => "JPE"
    case 36 => "JPO" case 37 => "JZ" case 38 => "LDA" case 39 => "LDAX" case 40 => "LHLD" case 41 => "LXI"
    case 42 => "MOV" case 43 => "MVI" case 44 => "NOP" case 45 => "ORA" case 46 => "ORI" case 47 => ""
    case 48 => "PCHL" case 49 => "POP" case 50 => "PUSH" case 51 => "RAA" case 52 => "RAL" case 53 => "RAR"
    case 54 => "RC" case 55 => "RET" case 56 => "RLC" case 57 => "RM" case 58 => "RNC" case 59 => "RP"
    case 60 => "RPE" case 61 => "RPO" case 62 => "RRC" case 63 => "RZ" case 64 => "RNZ" case 65 => "SBB"
    case 66 => "SBB" case 67 => "SPHL" case 68 => "STA" case 69 => "STAX" case 70 => "SUB" case 71 => "SUI"
    case 72 => "XCHG" case 73 => "XTHL" case 74 => "XRA" case 75 => "XRI" case _ => ""
  }

  function Name(m: Mnemonic): string { NameOf(Code(m)) }

  function DirectiveCode(d: Directive): nat {
    match d
    case NONE => 0 case END => 1 case ENDIF => 2 case ENDM => 3 case EQU => 4 case IF => 5 case MACRO => 6
    case ORG => 7 case SET => 8
  }

  function DirectiveName(d: Directive): string {
    match d
    case NONE => "INVALID" case END => "END" case ENDIF => "ENDIF" case ENDM => "ENDM" case EQU => "EQU"
    case IF => "IF" case MACRO => "MACRO" case ORG => "ORG" case SET => "SET"
  }

  function NthDirective(k: nat): Directive {
    match k
    case 0 => NONE case 1 => END case 2 => ENDIF case 3 => ENDM case 4 => EQU case 5 => IF case 6 => MACRO
    case 7 => ORG case _ => SET
  }

  /**
   * A line keeps only the number of its code, so a directive reads back as the instruction with the same
   * number: END as ACI, ORG as ANI, SET as CALL.
   */
  function StoredAs(d: Directive): Mnemonic { WithCode(DirectiveCode(d)) }

  datatype Entry<C> = Entry(code: C, name: string)

  /** The code number of a table entry: the numbers in order, without that of OUT. */
  function NumberAt(i: nat): nat { if i < 47 then i else i + 1 }

  function Instructions(): seq<Entry<Mnemonic>> {
    seq(75, i requires 0 <= i < 75 => Entry(WithCode(NumberAt(i)), NameOf(NumberAt(i))))
  }

  function Directives(): seq<Entry<Directive>> {
    seq(9, i requires 0 <= i < 9 => Entry(NthDirective(i), DirectiveName(NthDirective(i))))
  }

  /** The code of the first entry from index i on with this name, or `none`. */
  function Find<C>(table: seq<Entry<C>>, none: C, name: string, i: nat): C
    requires i <= |table|
    decreases |table| - i
  {
    if i == |table| then none
    else if table[i].name == name then table[i].code
    else Find(table, none, name, i + 1)
  }

  method FindMnemonic<C>(table: seq<Entry<C>>, none: C, name: string) returns (code: C)
    ensures code == Find(table, none, name, 0)
  {
    var i := 0;
    while i < |table|
      invariant 0 <= i <= |table|
      invariant Find(table, none, name, 0) == Find(table, none, name, i)
    {
      if table[i].name == name {
        return table[i].code;
      }
      i := i + 1;
    }
    return none;
  }

  function Instruction(name: string): Mnemonic { Find(Instructions(), INVALID, name, 0) }

  function DirectiveNamed(name: string): Directive { Find(Directives(), NONE, name, 0) }

  /** The search answers the first entry with the name. */
  lemma {:induction false} FindFirst<C>(table: seq<Entry<C>>, none: C, name: string, i: nat, k: nat)
    requires i <= k < |table| && table[k].name == name
    ensures exists f :: i <= f <= k && table[f].name == name && Find(table, none, name, i) == table[f].code
    decreases k - i
  {
    if table[i].name != name {
      FindFirst(table, none, name, i + 1, k);
    }
  }

  /** The search answers `none` when no entry has the name. */
  lemma {:induction false} FindNone<C>(table: seq<Entry<C>>, none: C, name: string, i: nat)
    requires i <= |table|
    requires forall j :: i <= j < |table| ==> table[j].name != name
    ensures Find(table, none, name, i) == none
    decreases |table| - i
  {
    if i < |table| {
      FindNone(table, none, name, i + 1);
    }
  }

  // ---- the names tell the codes apart ----

  /** The first four characters of a name as one number. */
  function Key(s: string): int {
    Char(s, 0) * 0x100_0000 + Char(s, 1) * 0x1_0000 + Char(s, 2) * 0x100 + Char(s, 3)
  }

  function Char(s: string, i: nat): int { if i < |s| then s[i] as int else 0 }

  /** The number of the code whose name has this key, or that of OUT when there is none. */
  function FromKey(key: int): nat {
    if key < 0x4400_0000 then FromKeyAC(key)
    else if key < 0x4B00_0000 then FromKeyDJ(key)
    else if key < 0x5200_0000 then FromKeyLP(key)
    else FromKeyRX(key)
  }

  function FromKeyAC(key: int): nat {
    match key
    case 0x41434900 => 1 case 0x41444300 => 2 case 0x41444400 => 3 case 0x41444900 => 4 case 0x414E4100 => 5
    case 0x414E4400 => 6 case 0x414E4900 => 7 case 0x43414C4C => 8 case 0x43430000 => 9 case 0x434D0000 => 10
    case 0x434D4100 => 11 case 0x434D5000 => 12 case 0x434E5A00 => 13 case 0x43500000 => 14 case 0x43504500 => 15
    case 0x43504900 => 16 case 0x43504F00 => 17 case 0x435A0000 => 18 case _ => 47
  }

  function FromKeyDJ(key: int): nat {
    match key
    case 0x494E5641 => 0 case 0x44414100 => 19 case 0x44414400 => 20 case 0x44435200 => 21 case 0x44435800 => 22
    case 0x44420000 => 23 case 0x44530000 => 24 case 0x44570000 => 25 case 0x494E0000 => 26 case 0x494E5200 => 27
    case 0x494E5800 => 28 case 0x4A430000 => 29 case 0x4A4D0000 => 30 case 0x4A4D5000 => 31 case 0x4A4E4300 => 32
    case 0x4A4E5A00 => 33 case 0x4A500000 => 34 case 0x4A504500 => 35 case 0x4A504F00 => 36 case 0x4A5A0000 => 37
    case _ => 47
  }

  function FromKeyLP(key: int): nat {
    match key
    case 0x4C444100 => 38 case 0x4C444158 => 39 case 0x4C484C44 => 40 case 0x4C584900 => 41 case 0x4D4F5600 => 42
    case 0x4D564900 => 43 case 0x4E4F5000 => 44 case 0x4F524100 => 45 case 0x4F524900 => 46 case 0x5043484C => 48
    case 0x504F5000 => 49 case 0x50555348 => 50 case _ => 47
  }

  function FromKeyRX(key: int): nat {
    match key
    case 0x52414100 => 51 case 0x52414C00 => 52 case 0x52415200 => 53 case 0x52430000 => 54 case 0x52455400 => 55
    case 0x524C4300 => 56 case 0x524D0000 => 57 case 0x524E4300 => 58 case 0x52500000 => 59 case 0x52504500 => 60
    case 0x52504F00 => 61 case 0x52524300 => 62 case 0x525A0000 => 63 case 0x524E5A00 => 64 case 0x53424200 => 65
    case 0x5350484C => 67 case 0x53544100 => 68 case 0x53544158 => 69 case 0x53554200 => 70 case 0x53554900 => 71
    case 0x58434847 => 72 case 0x5854484C => 73 case 0x58524100 => 74 case 0x58524900 => 75 case _ => 47
  }

  lemma Keys0(k: nat)
    requires 0 <= k < 20 && k != 66
    ensures FromKey(Key(NameOf(k))) == k
  {
  }

  lemma Keys1(k: nat)
    requires 20 <= k < 40 && k != 66
    ensures FromKey(Key(NameOf(k))) == k
  {
  }

  lemma Keys2(k: nat)
    requires 40 <= k < 58 && k != 66
    ensures FromKey(Key(NameOf(k))) == k
  {
  }

  lemma Keys3(k: nat)
    requires 58 <= k < 76 && k != 66
    ensures FromKey(Key(NameOf(k))) == k
  {
  }

  lemma Codes0(m: Mnemonic)
    requires 0 <= Code(m) < 20
    ensures WithCode(Code(m)) == m
  {
  }

  lemma Codes1(m: Mnemonic)
    requires 20 <= Code(m) < 40
    ensures WithCode(Code(m)) == m
  {
  }

  lemma Codes2(m: Mnemonic)
    requires 40 <= Code(m) < 58
    ensures WithCode(Code(m)) == m
  {
  }

  lemma Codes3(m: Mnemonic)
    requires 58 <= Code(m) < 76
    ensures WithCode(Code(m)) == m
  {
  }

  /** Every name but the doubled one determines its code number. */
  lemma KeysInvert(k: nat)
    requires k < 76 && k != 66
    ensures FromKey(Key(NameOf(k))) == k
  {
    hide NameOf, Key, FromKey;
    if k < 20 {
      Keys0(k);
    } else if k < 40 {
      Keys1(k);
    } else if k < 58 {
      Keys2(k);
    } else {
      Keys3(k);
    }
  }

  lemma CodesInvert(m: Mnemonic)
    ensures WithCode(Code(m)) == m
  {
    hide Code, WithCode;
    var k := Code(m);
    if k < 20 {
      Codes0(m);
    } else if k < 40 {
      Codes1(m);
    } else if k < 58 {
      Codes2(m);
    } else {
      Codes3(m);
    }
  }

  lemma Landmarks()
    ensures WithCode(47) == OUT && WithCode(66) == SBI && Code(SBB) == 65
    ensures NameOf(66) == NameOf(65) && NameOf(47) == ""
  {
    hide Code, WithCode, NameOf;
    CodeLandmarks();
    NameLandmarks();
  }

  lemma CodeLandmarks()
    ensures WithCode(47) == OUT && WithCode(66) == SBI && Code(SBB) == 65
  {
  }

  lemma NameLandmarks()
    ensures NameOf(66) == NameOf(65) && NameOf(47) == ""
  {
  }

  /** Looking up a name gives its code, for every mnemonic but SBI, whose name gives SBB, and OUT, which has none. */
  lemma NamesFound(m: Mnemonic)
    requires m != SBI && m != OUT
    ensures Instruction(Name(m)) == m
  {
    hide Code, WithCode, NameOf, Key, FromKey;
    Landmarks();
    CodesInvert(m);
    var c := Code(m);
    var k := if c < 47 then c else c - 1;
    FindFirst(Instructions(), INVALID, Name(m), 0, k);
    var f :| 0 <= f <= k && Instructions()[f].name == Name(m) && Instruction(Name(m)) == WithCode(NumberAt(f));
    KeysInvert(c);
    if NumberAt(f) == 66 {
      KeysInvert(65);
    } else {
      KeysInvert(NumberAt(f));
    }
  }

  lemma DirectiveKeys(d: Directive)
    ensures FromKey(Key(DirectiveName(d))) == if d == NONE then 0 else 47
  {
    match d
    case NONE => case END => case ENDIF => case ENDM => case EQU => case IF => case MACRO => case ORG => case SET =>
  }

  /** No mnemonic is taken for a directive. */
  lemma NotADirective(m: Mnemonic)
    requires m != SBI && m != OUT && m != INVALID
    ensures DirectiveNamed(Name(m)) == NONE
  {
    hide Code, NameOf, Key, FromKey, DirectiveName;
    Landmarks();
    CodesInvert(m);
    KeysInvert(Code(m));
    forall i | 0 <= i < 9
      ensures Directives()[i].name != Name(m)
    {
      DirectiveKeys(NthDirective(i));
    }
    FindNone(Directives(), NONE, Name(m), 0);
  }

  /** A name that begins like no entry's name is no instruction. */
  lemma UnknownName(name: string)
    requires FromKey(Key(name)) == 47
    ensures Instruction(name) == INVALID
  {
    hide Code, NameOf, Key, FromKey;
    Landmarks();
    forall i | 0 <= i < 75
      ensures Instructions()[i].name != name
    {
      KeysInvert(if NumberAt(i) == 66 then 65 else NumberAt(i));
    }
    FindNone(Instructions(), INVALID, name, 0);
  }

  /** SBI, meant as an instruction, is such a name. */
  lemma SbiUnknown()
    ensures Instruction("SBI") == INVALID
  {
    hide Instruction;
    UnknownName("SBI");
  }
}
