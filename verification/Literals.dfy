/** Numbers written out as literals, and read back. */
module Literals {
  import opened Bits
  import opened Opcodes
  import opened Source
  import opened LexSpec
  import opened Scanning

  /** How a number is written: in decimal, or in hexadecimal behind a 0 and before an H, each in either case. */
  datatype Style = Decimal | Hexadecimal(lowerDigits: bool, lowerH: bool)

  function DigitChar(d: nat, lower: bool): (c: char)
    requires d < 16
    ensures IsLiteralChar(c) && DigitValue(c) == d
    ensures d < 10 ==> IsDigit(c)
  {
    if d < 10 then '0' + d as char else (if lower then 'a' else 'A') + (d - 10) as char
  }

  function Digits(v: nat, base: nat, lower: bool): (s: string)
    requires base == 10 || base == 16
    ensures s != "" && forall i :: 0 <= i < |s| ==> IsLiteralChar(s[i]) && (base == 10 ==> IsDigit(s[i]))
    decreases v
  {
    if v < base then [DigitChar(v, lower)] else Digits(v / base, base, lower) + [DigitChar(v % base, lower)]
  }

  function Written(v: nat, style: Style): string {
    match style
    case Decimal => Digits(v, 10, false)
    case Hexadecimal(lowerDigits, lowerH) => "0" + Digits(v, 16, lowerDigits) + if lowerH then "h" else "H"
  }

  /** The number a digit string stands for undoes writing the digits. */
  lemma {:induction false} DigitsRead(v: nat, base: nat, lower: bool)
    requires base == 10 || base == 16
    ensures Value(Digits(v, base, lower), base) == v
    decreases v
  {
    hide DigitChar, DigitValue;
    if v < base {
      assert [DigitChar(v, lower)][..0] == "";
    } else {
      var s := Digits(v / base, base, lower) + [DigitChar(v % base, lower)];
      assert s[..|s| - 1] == Digits(v / base, base, lower);
      DigitsRead(v / base, base, lower);
    }
  }

  lemma {:induction false} LeadingZero(s: string, base: nat)
    ensures Value("0" + s, base) == Value(s, base)
  {
    hide DigitValue;
    var t := "0" + s;
    assert DigitValue('0') == 0 by { ZeroDigit(); }
    if s == "" {
      assert t[..0] == "";
    } else {
      assert t[..|t| - 1] == "0" + s[..|s| - 1];
      LeadingZero(s[..|s| - 1], base);
    }
  }

  lemma {:induction false} RunOf(s: string, t: string)
    requires forall i :: 0 <= i < |s| ==> IsLiteralChar(s[i])
    requires t == "" || !IsLiteralChar(t[0])
    ensures LiteralRun(s + t) == |s|
  {
    if s == "" {
      assert s + t == t;
    } else {
      assert (s + t)[1..] == s[1..] + t;
      RunOf(s[1..], t);
    }
  }

  /** A 32-bit `int` with these low bits, or -1 from 2^63 on. */
  function CastOf(v: nat): int {
    if v >= 0x8000_0000_0000_0000 then -1
    else if v % 0x1_0000_0000 >= 0x8000_0000 then v % 0x1_0000_0000 - 0x1_0000_0000
    else v % 0x1_0000_0000
  }

  /**
   * The literal round trip, for every natural number and every way of writing it: the scan stops at the end of
   * the digits, and the value read is the number cast to `int`; from 2^63 on `strtol` stops at its greatest value.
   */
  lemma LiteralRead(v: nat, style: Style)
    ensures Literal(Written(v, style)) == CastOf(v)
    ensures LiteralRun(Written(v, style)) == |Written(v, style)| - if style.Decimal? then 0 else 1
  {
    hide Value, ToInt, Digits, DigitChar, IsLiteralChar;
    ToIntIs(v);
    match style
    case Decimal =>
      var s := Digits(v, 10, false);
      RunOf(s, "");
      assert s + "" == s && s[..|s|] == s;
      assert DecimalRun(s) == |s|;
      DigitsRead(v, 10, false);
    case Hexadecimal(lowerDigits, lowerH) =>
      var s := Digits(v, 16, lowerDigits);
      var h := if lowerH then "h" else "H";
      NotLiteral();
      RunOf("0" + s, h);
      var t := "0" + s + h;
      assert t[..|s| + 1] == "0" + s;
      LeadingZero(s, 16);
      DigitsRead(v, 16, lowerDigits);
  }

  lemma ToIntIs(v: nat)
    ensures ToInt(v) == CastOf(v)
  {
    assert 0x7FFF_FFFF_FFFF_FFFF % 0x1_0000_0000 == 0xFFFF_FFFF;
  }

  lemma ZeroDigit()
    ensures DigitValue('0') == 0
  {
  }

  lemma NotLiteral()
    ensures IsLiteralChar('0') && !IsLiteralChar('h') && !IsLiteralChar('H') && !IsLiteralChar('x')
  {
  }

  /** So the number itself is read exactly when it is in the range of `int`. */
  lemma LiteralRoundTrip(v: nat, style: Style)
    ensures Literal(Written(v, style)) == v <==> v < 0x8000_0000
  {
    hide Literal, Written;
    LiteralRead(v, style);
  }

  /** The prefix of C is not understood: such a literal reads as the 0 before the x. */
  lemma PrefixReadsZero(digits: string)
    ensures Literal("0x" + digits) == 0
  {
    hide IsLiteralChar;
    NotLiteral();
    var t := "0x" + digits;
    assert t == "0" + ("x" + digits);
    RunOf("0", "x" + digits);
    assert t[1..][0] == 'x';
    assert t[..1] == "0";
    LeadingZero("", 10);
    assert "0" + "" == "0";
  }

  /** Digits in front of an H are hexadecimal, whatever comes behind it. */
  lemma HexadecimalRead(v: nat, lower: bool, rest: string)
    requires rest != "" && rest[0] in "hH"
    ensures Literal(Digits(v, 16, lower) + rest) == CastOf(v)
  {
    hide Value, ToInt, Digits, IsLiteralChar;
    NotLiteral();
    var s := Digits(v, 16, lower);
    RunOf(s, rest);
    assert (s + rest)[..|s|] == s;
    DigitsRead(v, 16, lower);
    ToIntIs(v);
  }

  lemma {:induction false} DecimalRunOf(s: string, t: string)
    requires forall i :: 0 <= i < |s| ==> IsDigit(s[i])
    requires t == "" || !IsDigit(t[0])
    ensures DecimalRun(s + t) == |s|
  {
    if s == "" {
      assert s + t == t;
    } else {
      assert (s + t)[1..] == s[1..] + t;
      DecimalRunOf(s[1..], t);
    }
  }

  /** Without an H behind its digits and the letters after them, a literal is the decimal number it begins with. */
  lemma DecimalRead(v: nat, letters: string, rest: string)
    requires letters == "" || !IsDigit(letters[0])
    requires forall i :: 0 <= i < |letters| ==> IsLiteralChar(letters[i])
    requires rest == "" || !(IsLiteralChar(rest[0]) || rest[0] in "hH")
    ensures Literal(Digits(v, 10, false) + (letters + rest)) == CastOf(v)
  {
    hide Value, ToInt, Digits, IsLiteralChar;
    var s := Digits(v, 10, false);
    var all := s + (letters + rest);
    assert all == (s + letters) + rest;
    RunOf(s + letters, rest);
    DigitIsLiteral();
    DecimalRunOf(s, letters + rest);
    assert all[..|s|] == s;
    DigitsRead(v, 10, false);
    ToIntIs(v);
  }

  lemma DigitIsLiteral()
    ensures forall c :: IsDigit(c) ==> IsLiteralChar(c)
  {
  }

  /** A text that does not begin with a hexadecimal digit reads as zero. */
  lemma NoDigitsRead(t: string)
    requires t == "" || !('0' <= t[0] <= '9' || 'a' <= t[0] <= 'f' || 'A' <= t[0] <= 'F')
    ensures Literal(t) == 0
  {
  }

  // ---- as a token ----

  lemma {:induction false} DigitsShort(v: nat, base: nat, lower: bool, k: nat)
    requires (base == 10 || base == 16) && v < Pow2(k)
    ensures |Digits(v, base, lower)| <= k + 1
    decreases k
  {
    if v >= base {
      DigitsShort(v / base, base, lower, k - 1);
    }
  }

  lemma WordChars(c: char)
    ensures IsLiteralChar(c) || c == 'h' || c == 'H' ==> !EndsWord(c) && c != '\0' && c != '"'
  {
  }

  /** A number in the range of `int` is written as one word that is classified as a literal. */
  lemma LiteralToken(v: nat, style: Style)
    requires v < 0x8000_0000
    ensures IsWord(Written(v, style)) && Classify(Written(v, style)) == SYM_LITERAL
  {
    hide EndsWord, Digits, IsLiteralChar, DirectiveNamed, Instruction;
    NotLiteral();
    var t := Written(v, style);
    assert v < Pow2(31) by { PowerOf31(); }
    DigitsShort(v, 10, false, 31);
    if style.Hexadecimal? {
      DigitsShort(v, 16, style.lowerDigits, 31);
    }
    forall i | 0 <= i < |t|
      ensures !EndsWord(t[i]) && t[i] != '\0' && t[i] != '"'
    {
      WordChars(t[i]);
      assert IsLiteralChar(t[i]) || t[i] == 'h' || t[i] == 'H';
    }
  }

  lemma PowerOf31()
    ensures Pow2(31) == 0x8000_0000
  {
    assert Pow2(4) == 16;
    assert Pow2(8) == 0x100;
    assert Pow2(12) == 0x1000;
    assert Pow2(16) == 0x1_0000;
    assert Pow2(20) == 0x10_0000;
    assert Pow2(24) == 0x100_0000;
    assert Pow2(28) == 0x1000_0000;
  }
}
