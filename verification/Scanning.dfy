/** What the tokenizer reads where a given text stands in the source. */
module Scanning {
  import opened Opcodes
  import opened Source
  import opened LexSpec

  /** The text stands in the source at position p. */
  predicate At(src: string, p: nat, text: string) { p + |text| <= |src| && src[p..p + |text|] == text }

  lemma AtSplit(src: string, p: nat, a: string, b: string)
    ensures At(src, p, a + b) <==> At(src, p, a) && At(src, p + |a|, b)
  {
    if p + |a + b| <= |src| {
      var mid, end := p + |a|, p + |a + b|;
      var all := src[p..end];
      assert src[p..mid] == all[..|a|] && src[mid..end] == all[|a|..];
      assert (a + b)[..|a|] == a && (a + b)[|a|..] == b;
      assert all == all[..|a|] + all[|a|..];
    }
  }

  lemma AtChar(src: string, p: nat, text: string, i: nat)
    requires At(src, p, text) && i < |text|
    ensures CharAt(src, p + i) == text[i]
  {
    assert src[p..p + |text|][i] == src[p + i];
  }

  lemma CharsThere(src: string, p: nat, text: string)
    requires At(src, p, text)
    ensures Chars(src, p, p + |text|) == text
  {
    forall i | 0 <= i < |text|
      ensures CharAt(src, p + i) == text[i]
    {
      AtChar(src, p, text, i);
    }
  }

  /** A text the tokenizer takes whole as one word. */
  predicate IsWord(w: string) {
    0 < |w| < TOKEN_MAX && w[0] != '"' && forall i :: 0 <= i < |w| ==> !EndsWord(w[i]) && w[i] != '\0'
  }

  lemma {:induction false} WordEndsThere(src: string, p: nat, w: string, n: nat)
    requires IsWord(w) && At(src, p, w) && n <= |w|
    requires EndsWord(CharAt(src, p + |w|))
    ensures WordEnd(src, p + n, n) == p + |w|
    decreases |w| - n
  {
    hide EndsWord;
    if n < |w| {
      AtChar(src, p, w, n);
      WordEndsThere(src, p, w, n + 1);
    }
  }

  /** What can stand behind an operand: white space, a comma, an exclamation mark or a comment. */
  predicate EndsArg(c: char) { EndsWord(c) && c != ':' }

  /** A word is read whole, wherever it stands; the cursor passes one separator behind it. */
  lemma WordRead(src: string, p: nat, w: string)
    requires IsWord(w) && At(src, p, w) && EndsArg(CharAt(src, p + |w|))
    ensures NextToken(src, p) == (TokenOf(w), PastSeparator(src, p + |w|))
  {
    hide Classify, WordEnd, CString;
    AtChar(src, p, w, 0);
    assert SkipWhitespace(src, p) == p;
    WordEndsThere(src, p, w, 0);
    CharsThere(src, p, w);
    assert CString(w) == w;
  }

  /** The colon behind a word is passed, and one separator behind the colon. */
  lemma ColonRead(src: string, p: nat, w: string)
    requires IsWord(w) && At(src, p, w) && CharAt(src, p + |w|) == ':'
    ensures NextToken(src, p) == (TokenOf(w), PastSeparator(src, p + |w| + 1))
  {
    hide Classify, WordEnd, CString;
    AtChar(src, p, w, 0);
    assert SkipWhitespace(src, p) == p;
    WordEndsThere(src, p, w, 0);
    CharsThere(src, p, w);
    assert CString(w) == w;
  }

  /** So a label is read up to behind the space that follows its colon. */
  lemma LabelRead(src: string, p: nat, w: string)
    requires IsWord(w) && At(src, p, w + ": ")
    ensures NextToken(src, p) == (TokenOf(w), p + |w| + 2)
  {
    hide NextToken, At, IsWord;
    AtSplit(src, p, w, ": ");
    AtChar(src, p + |w|, ": ", 0);
    AtChar(src, p + |w|, ": ", 1);
    ColonRead(src, p, w);
  }

  /** A second colon is passed like a space. */
  lemma TwoColonsRead(src: string, p: nat, w: string)
    requires IsWord(w) && At(src, p, w + "::")
    ensures NextToken(src, p) == (TokenOf(w), p + |w| + 2)
  {
    hide NextToken, At, IsWord;
    AtSplit(src, p, w, "::");
    AtChar(src, p + |w|, "::", 0);
    AtChar(src, p + |w|, "::", 1);
    ColonRead(src, p, w);
  }

  // ---- what does not fit the buffer ----

  /** Words of up to 62 characters fit. */
  lemma WordFits(w: string)
    requires 0 < |w| <= 62 && w[0] != '"' && forall i :: 0 <= i < |w| ==> !EndsWord(w[i]) && w[i] != '\0'
    ensures IsWord(w)
  {
  }

  lemma {:induction false} WordFills(src: string, p: nat, w: string, n: nat)
    requires |w| == 63 && At(src, p, w) && n <= |w| && forall i :: 0 <= i < |w| ==> !EndsWord(w[i])
    ensures WordEnd(src, p + n, n) == p + 63
    decreases |w| - n
  {
    hide EndsWord;
    if n < |w| {
      AtChar(src, p, w, n);
      WordFills(src, p, w, n + 1);
    }
  }

  /** A longer one is cut after 63 characters, whatever follows, and what is left begins the next token. */
  lemma LongWordCut(src: string, p: nat, w: string)
    requires |w| == 63 && At(src, p, w) && w[0] != '"'
    requires forall i :: 0 <= i < |w| ==> !EndsWord(w[i]) && w[i] != '\0'
    ensures NextToken(src, p) == (TokenOf(w), PastSeparator(src, p + 63))
  {
    hide Classify, WordEnd, CString;
    AtChar(src, p, w, 0);
    assert SkipWhitespace(src, p) == p;
    WordFills(src, p, w, 0);
    CharsThere(src, p, w);
    assert CString(w) == w;
  }

  /** The characters a string argument can have. */
  predicate IsText(s: string) {
    |s| < TOKEN_MAX && forall i :: 0 <= i < |s| ==> s[i] != '"' && s[i] != '\0' && s[i] != '\n'
  }

  lemma {:induction false} StringEndsThere(src: string, p: nat, s: string, n: nat)
    requires IsText(s) && At(src, p, s + "\"") && n <= |s|
    ensures StringEnd(src, p + n, n + 1) == p + |s|
    decreases |s| - n
  {
    AtChar(src, p, s + "\"", n);
    if n < |s| {
      StringEndsThere(src, p, s, n + 1);
    }
  }

  lemma QuotesAround(src: string, p: nat, s: string)
    requires At(src, p, "\"" + s + "\"")
    ensures CharAt(src, p) == '"' && At(src, p, "\"" + s) && At(src, p + 1, s + "\"")
  {
    hide At;
    assert "\"" + s + "\"" == "\"" + (s + "\"");
    AtSplit(src, p, "\"", s + "\"");
    AtSplit(src, p, "\"" + s, "\"");
    AtChar(src, p, "\"" + s + "\"", 0);
  }

  /** A string is read up to its closing quote; its token keeps the opening quote only. */
  lemma StringRead(src: string, p: nat, s: string)
    requires IsText(s) && At(src, p, "\"" + s + "\"")
    ensures NextToken(src, p) == (Token(SYM_STRING, "\"" + s), PastSeparator(src, p + |s| + 2))
  {
    hide StringEnd, CString, At, PastSeparator, Chars, Classify, WordEnd;
    QuotesAround(src, p, s);
    StringEndsThere(src, p + 1, s, 0);
    CharsThere(src, p, "\"" + s);
    var text := "\"" + s;
    assert CString(text) == text by { NoNul(s); }
    assert Classify(text) == SYM_STRING by { Quoted(text); }
    assert ScanToken(src, p) == (text, PastSeparator(src, p + |s| + 2));
  }

  lemma NoNul(s: string)
    requires IsText(s)
    ensures CString("\"" + s) == "\"" + s
  {
    hide CString;
  }

  lemma Quoted(text: string)
    requires text != "" && text[0] == '"'
    ensures Classify(text) == SYM_STRING
  {
  }

  lemma {:induction false} BlanksSkipped(src: string, p: nat, end: nat)
    requires p <= end && forall q :: p <= q < end ==> IsWhitespace(CharAt(src, q))
    ensures SkipWhitespace(src, p) == SkipWhitespace(src, end)
    decreases end - p
  {
    if p < end {
      BlanksSkipped(src, p + 1, end);
    }
  }

  /** Behind white space, a comment or the end of the text holds no token, and any token lies behind a newline. */
  lemma BehindBlanks(src: string, p: nat, end: nat)
    requires p <= end && forall q :: p <= q < end ==> IsWhitespace(CharAt(src, q))
    ensures IsComment(CharAt(src, end)) ==> NextToken(src, p).0.kind == SYM_NONE
    ensures IsWhitespace(CharAt(src, end)) ==> NextToken(src, p).1 > end
  {
    hide StringEnd, Classify, SkipWhitespace;
    BlanksSkipped(src, p, end);
    WhereSkipped(src, end);
    assert Classify("") == SYM_NONE by { NoText(); }
  }

  lemma NoText()
    ensures Classify("") == SYM_NONE
  {
  }

  lemma WhereSkipped(src: string, p: nat)
    ensures if IsWhitespace(CharAt(src, p)) then SkipWhitespace(src, p) > p else SkipWhitespace(src, p) == p
  {
  }

  /** Strings of up to 62 characters fit. */
  lemma TextFits(s: string)
    requires |s| <= 62 && forall i :: 0 <= i < |s| ==> s[i] != '"' && s[i] != '\0' && s[i] != '\n'
    ensures IsText(s)
  {
  }

  lemma {:induction false} StringFills(src: string, p: nat, s: string, n: nat)
    requires |s| == 62 && At(src, p, s) && n <= |s| && forall i :: 0 <= i < |s| ==> s[i] != '"'
    ensures StringEnd(src, p + n, n + 1) == p + 62
    decreases |s| - n
  {
    if n < |s| {
      AtChar(src, p, s, n);
      StringFills(src, p, s, n + 1);
    }
  }

  /** A longer one is cut after 62 characters, and the character behind them is lost with the quote it should be. */
  lemma LongStringCut(src: string, p: nat, s: string)
    requires |s| == 62 && At(src, p, "\"" + s) && forall i :: 0 <= i < |s| ==> s[i] != '"' && s[i] != '\0'
    ensures NextToken(src, p) == (Token(SYM_STRING, "\"" + s), PastSeparator(src, p + 64))
  {
    hide StringEnd, CString, At, PastSeparator, Chars, Classify, WordEnd;
    AtSplit(src, p, "\"", s);
    AtChar(src, p, "\"" + s, 0);
    StringFills(src, p + 1, s, 0);
    CharsThere(src, p, "\"" + s);
    var text := "\"" + s;
    assert CString(text) == text by { NoNulThere(s); }
    assert Classify(text) == SYM_STRING by { Quoted(text); }
    assert ScanToken(src, p) == (text, PastSeparator(src, p + 64));
  }

  lemma NoNulThere(s: string)
    requires '\0' !in s
    ensures CString("\"" + s) == "\"" + s
  {
    hide CString;
  }

  /** White space before a token makes no difference. */
  lemma SpaceSkipped(src: string, p: nat)
    requires IsWhitespace(CharAt(src, p))
    ensures NextToken(src, p) == NextToken(src, p + 1)
  {
    hide WordEnd, StringEnd, Classify, CString;
  }

  // ---- the line counter over a text ----

  lemma {:induction false} NewlinesOver(src: string, p: nat, text: string, n: nat)
    requires At(src, p, text) && n < |text| && forall i :: 0 <= i <= n ==> text[i] != '\n'
    ensures Newlines(src, p + n) == Newlines(src, p)
  {
    if n > 0 {
      AtChar(src, p, text, n);
      NewlinesOver(src, p, text, n - 1);
    }
  }

  /** Over a line of text that ends with its newline the counter moves on arriving there, and not before. */
  lemma NewlinesOverLine(src: string, p: nat, text: string)
    requires text != "" && '\n' !in text && At(src, p, text + "\n")
    ensures forall q :: p <= q < p + |text| ==> Newlines(src, q) == Newlines(src, p)
    ensures Newlines(src, p + |text|) == Newlines(src, p) + 1
  {
    hide Newlines;
    AtSplit(src, p, text, "\n");
    var end := p + |text|;
    forall q | p <= q < end
      ensures Newlines(src, q) == Newlines(src, p)
    {
      NewlinesOver(src, p, text, q - p);
      assert p + (q - p) == q;
    }
    AtChar(src, end, "\n", 0);
    NewlineStep(src, end);
  }

  lemma NewlineStep(src: string, p: nat)
    requires p > 0
    ensures Newlines(src, p) == Newlines(src, p - 1) + if CharAt(src, p) == '\n' then 1 else 0
  {
  }
}
