/** What a symbol in an operand resolves to, forwards and backwards, in any source. */
module Labels {
  import opened Bits
  import opened Opcodes
  import opened Source
  import opened LexSpec
  import opened Encoding
  import opened Layout8080
  import opened Addresses

  /** Line j carries a label that begins with the name. */
  predicate Matches(line: LineInfo, name: string) { line.labelStr != "" && IsPrefix(name, line.labelStr) }

  /** The first line whose label begins with the name, or the number of lines. */
  function FirstMatch(lines: seq<LineInfo>, name: string): (j: nat)
    ensures j <= |lines|
    ensures j < |lines| ==> Matches(lines[j], name)
    ensures forall i :: 0 <= i < j ==> !Matches(lines[i], name)
  {
    if lines == [] then 0
    else
      var n := |lines| - 1;
      var j := FirstMatch(lines[..n], name);
      if j < n || Matches(lines[n], name) then j else n + 1
  }

  lemma {:induction false} LookupAppend(xs: seq<Symbol>, ys: seq<Symbol>, name: string, i: nat)
    requires i <= |xs|
    ensures Lookup(xs + ys, name, i)
         == if Lookup(xs, name, i) < |xs| then Lookup(xs, name, i) else |xs| + Lookup(ys, name, 0)
    decreases |xs| - i
  {
    hide IsPrefix;
    if i < |xs| {
      LookupAppend(xs, ys, name, i + 1);
    } else {
      LookupShift(xs, ys, name, 0);
    }
  }

  lemma {:induction false} LookupShift(xs: seq<Symbol>, ys: seq<Symbol>, name: string, i: nat)
    requires i <= |ys|
    ensures Lookup(xs + ys, name, |xs| + i) == |xs| + Lookup(ys, name, i)
    decreases |ys| - i
  {
    hide IsPrefix;
    if i < |ys| {
      LookupShift(xs, ys, name, i + 1);
    }
  }

  /** Looking a name up among the labels of lines finds the address of the first line whose label begins with it. */
  lemma {:induction false} LookupLabel(lines: seq<LineInfo>, name: string)
    ensures var k, j := Lookup(SymbolsOf(lines), name, 0), FirstMatch(lines, name);
      && (k < |SymbolsOf(lines)| <==> j < |lines|)
      && (j < |lines| ==> SymbolsOf(lines)[k] == Symbol(lines[j].addr, lines[j].labelStr))
  {
    hide IsPrefix;
    if lines != [] {
      var n := |lines| - 1;
      LookupLabel(lines[..n], name);
      LookupAppend(SymbolsOf(lines[..n]), Defined(lines[n]), name, 0);
    }
  }

  /** Resolving one line among labels. */
  lemma ResolveLabel(line: LineInfo, lines: seq<LineInfo>)
    ensures var r, j := Resolve(line, SymbolsOf(lines)), FirstMatch(lines, line.symbolStr);
      line.symbolStr != "" && j < |lines| ==> r.hasImm && r.imm == lines[j].addr
    ensures line.symbolStr == "" || FirstMatch(lines, line.symbolStr) == |lines|
        ==> Resolve(line, SymbolsOf(lines)) == line
  {
    hide Lookup, SymbolsOf, FirstMatch, IsPrefix;
    LookupLabel(lines, line.symbolStr);
  }

  /** The label table of resolved lines finds the same lines. */
  lemma {:induction false} SameMatch(lines: seq<LineInfo>, resolved: seq<LineInfo>, name: string)
    requires |lines| == |resolved|
    requires forall i :: 0 <= i < |lines| ==> resolved[i].labelStr == lines[i].labelStr
    ensures FirstMatch(resolved, name) == FirstMatch(lines, name)
  {
    hide IsPrefix;
    var j, k := FirstMatch(lines, name), FirstMatch(resolved, name);
    assert j < |lines| ==> Matches(resolved[j], name);
    assert k < |lines| ==> Matches(lines[k], name);
  }

  /**
   * In any source that is lexed to its end, every line that names a symbol has for immediate the address of the
   * first line, before or after it, whose label begins with that name; a name that begins no label changes nothing.
   */
  lemma LabelsResolve(src: string, cap: nat, start: int, i: nat)
    requires LexAll(src, cap, start).status == 0
    requires i < |LexAll(src, cap, start).st.lines|
    ensures var lines := LexAll(src, cap, start).st.lines;
      var j := FirstMatch(lines, lines[i].symbolStr);
      && (lines[i].symbolStr != "" && j < |lines| ==> lines[i].hasImm && lines[i].imm == lines[j].addr)
      && (j == |lines| ==> lines[i] == LexLoop(src, cap, LexState(0, [], [], start)).st.lines[i])
  {
    hide LexLoop, SymbolsOf, FirstMatch, Lookup, Accepted, Emitted, Surplus;
    var r := LexLoop(src, cap, LexState(0, [], [], start));
    var before := r.st.lines;
    LoopSymbols(src, cap, start);
    var lines := LexAll(src, cap, start).st.lines;
    forall k | 0 <= k < |before|
      ensures lines[k].labelStr == before[k].labelStr && lines[k].addr == before[k].addr
      ensures lines[k].symbolStr == before[k].symbolStr
    {
      ResolveKeeps(before[k], r.st.symbols);
    }
    SameMatch(before, lines, lines[i].symbolStr);
    ResolveLabel(before[i], before);
  }

  lemma LoopSymbols(src: string, cap: nat, start: int)
    ensures var r := LexLoop(src, cap, LexState(0, [], [], start));
      r.status == 0 ==> r.st.symbols == SymbolsOf(r.st.lines)
  {
    hide LexLoop, Accepted, Emitted, Surplus;
    LoopPlaces(src, cap, LexState(0, [], [], start), start);
  }

  /** Line j carries the label, and is the first to do so. */
  predicate Carries(lines: seq<LineInfo>, j: nat, name: string)
    requires j < |lines|
  {
    lines[j].labelStr == name && forall i :: 0 <= i < j ==> lines[i].labelStr != name
  }

  /**
   * A name that is a line's label resolves to that line exactly when no earlier line's label begins with it; as
   * the lookup compares only as many characters as the name has, an earlier longer label takes its place.
   */
  lemma ResolvesToItsLabel(lines: seq<LineInfo>, name: string, j: nat)
    requires name != "" && j < |lines| && Carries(lines, j, name)
    ensures FirstMatch(lines, name) == j <==> forall i :: 0 <= i < j ==> !IsPrefix(name, lines[i].labelStr)
  {
    hide FirstMatch;
    assert Matches(lines[j], name);
    if FirstMatch(lines, name) == j {
      forall i | 0 <= i < j
        ensures !IsPrefix(name, lines[i].labelStr)
      {
        assert !Matches(lines[i], name);
      }
    }
  }

  /** No label begins another line's label. */
  ghost predicate PrefixFree(lines: seq<LineInfo>) {
    forall i, j :: 0 <= i < |lines| && 0 <= j < |lines| && i != j && lines[i].labelStr != "" ==>
      !IsPrefix(lines[i].labelStr, lines[j].labelStr)
  }

  /** With labels that differ and none beginning another, every name used resolves to the line that carries it. */
  lemma PrefixFreeResolves(src: string, cap: nat, start: int, i: nat, j: nat)
    requires LexAll(src, cap, start).status == 0
    requires PrefixFree(LexAll(src, cap, start).st.lines)
    requires i < |LexAll(src, cap, start).st.lines| && j < |LexAll(src, cap, start).st.lines|
    requires var lines := LexAll(src, cap, start).st.lines;
      lines[i].symbolStr != "" && lines[j].labelStr == lines[i].symbolStr
    ensures var lines := LexAll(src, cap, start).st.lines;
      lines[i].hasImm && lines[i].imm == lines[j].addr
  {
    hide LexAll, FirstMatch, IsPrefix;
    var lines := LexAll(src, cap, start).st.lines;
    LabelsResolve(src, cap, start, i);
    var name := lines[i].symbolStr;
    PrefixOfItself(name);
    assert Carries(lines, j, name);
    ResolvesToItsLabel(lines, name, j);
  }

  lemma PrefixOfItself(name: string)
    ensures IsPrefix(name, name)
  {
  }

  /** The operand of a call to a label, read back from the image, is the address of the label's line. */
  lemma CallReachesLabel(src: string, cap: nat, start: int, i: nat, j: nat)
    requires LexAll(src, cap, start).status == 0
    requires PrefixFree(LexAll(src, cap, start).st.lines)
    requires i < |LexAll(src, cap, start).st.lines| && j < |LexAll(src, cap, start).st.lines|
    requires var lines := LexAll(src, cap, start).st.lines;
      && lines[i].symbolStr != "" && lines[j].labelStr == lines[i].symbolStr
      && lines[i].instr in {CALL, CC, CNZ, CM, CP, CPE, CPO, CZ} && Lexable(lines[i])
    ensures var lines := LexAll(src, cap, start).st.lines;
      |EncodedBytes(lines[i])| == 3 && Target(EncodedBytes(lines[i])) == lines[j].addr % 0x1_0000
  {
    hide LexAll, EncodedBytes, PrefixFree;
    PrefixFreeResolves(src, cap, start, i, j);
    TargetsReadBack(LexAll(src, cap, start).st.lines[i]);
  }
}
