/** The emitted instructions against the lexer's addresses: when they lie one after the other without gap or overlap. */
module Contiguity {
  import opened Bits
  import opened Opcodes
  import opened Source
  import opened LexSpec
  import opened Vectors
  import opened Encoding
  import opened Addresses

  /** Every instruction is addressed just behind the one before it, the first at `addr`. */
  predicate Contiguous(instrs: seq<Instr>, addr: int) {
    instrs == [] || (instrs[0].addr == WrapAddr(addr) && Contiguous(instrs[1..], addr + instrs[0].size))
  }

  lemma {:induction false} ContiguousAppend(xs: seq<Instr>, ys: seq<Instr>, addr: int)
    ensures Contiguous(xs + ys, addr) <==> Contiguous(xs, addr) && Contiguous(ys, addr + TotalSize(xs))
    ensures TotalSize(xs + ys) == TotalSize(xs) + TotalSize(ys)
  {
    if xs == [] {
      assert xs + ys == ys;
    } else {
      assert (xs + ys)[1..] == xs[1..] + ys;
      ContiguousAppend(xs[1..], ys, addr + xs[0].size);
    }
  }

  /** Two addresses that are the same address of the 16-bit space. */
  predicate SameAddr(a: int, b: int) { WrapAddr(a) == WrapAddr(b) }

  lemma SameAddrAdd(a: int, b: int, n: int)
    ensures SameAddr(a + n, b + n) <==> SameAddr(a, b)
  {
  }

  lemma {:induction false} DataContiguous(data: seq<byte>, addr: int, at: int)
    ensures Contiguous(DataInstrs(data, addr), at) <==> data == [] || SameAddr(addr, at)
    ensures TotalSize(DataInstrs(data, addr)) == |data|
  {
    if data != [] {
      assert DataInstrs(data, addr)[1..] == DataInstrs(data[1..], addr + 1);
      DataContiguous(data[1..], addr + 1, at + 1);
      SameAddrAdd(addr, at, 1);
    }
  }

  /** One line's instructions are contiguous from an address exactly when they are none or it is the line's. */
  lemma LineContiguous(line: LineInfo, at: int)
    requires Accepted(line)
    ensures Contiguous(AssemLine(line).instrs, at) <==> Emitted(line) == 0 || SameAddr(line.addr, at)
    ensures TotalSize(AssemLine(line).instrs) == Emitted(line)
  {
    hide ArithWord, SingleWord, PairWord, Imm8Word, MviWord, LxiWord, MoveWord, JumpWord, CallWord, ReturnCode;
    match Encode(line)
    case Word(word, size) =>
      var i := Instr(word, WrapAddr(line.addr), size);
      assert Contiguous([i], at) <==> i.addr == WrapAddr(at);
      assert TotalSize([i]) == size;
    case Blocks =>
      DataContiguous(Flatten(line.blocks), line.addr, at);
    case Unknown =>
  }

  ghost predicate AllAccepted(lines: seq<LineInfo>) { forall k :: 0 <= k < |lines| ==> Accepted(lines[k]) }

  /** The assembler returns 0 for a whole source exactly when it accepts every line. */
  lemma {:induction false} AssemSucceeds(lines: seq<LineInfo>, i: nat)
    requires AllTableSafe(lines) && i <= |lines|
    ensures AssemFrom(lines, i).status == 0 <==> forall k :: i <= k < |lines| ==> Accepted(lines[k])
    decreases |lines| - i
  {
    hide AssemLine;
    if i < |lines| {
      AssemSucceeds(lines, i + 1);
    }
  }

  /** The bytes emitted by lines i to k - 1. */
  function EmittedBetween(lines: seq<LineInfo>, i: nat, k: nat): nat
    requires i <= k <= |lines| && AllAccepted(lines)
  {
    if i == k then 0 else EmittedBetween(lines, i, k - 1) + Emitted(lines[k - 1])
  }

  function SurplusBetween(lines: seq<LineInfo>, i: nat, k: nat): int
    requires i <= k <= |lines|
  {
    if i == k then 0 else SurplusBetween(lines, i, k - 1) + Surplus(lines[k - 1])
  }

  lemma {:induction false} EmittedFirst(lines: seq<LineInfo>, i: nat, k: nat)
    requires i < k <= |lines| && AllAccepted(lines)
    ensures EmittedBetween(lines, i, k) == Emitted(lines[i]) + EmittedBetween(lines, i + 1, k)
    decreases k
  {
    hide Emitted, Accepted;
    if i + 1 < k {
      EmittedFirst(lines, i, k - 1);
    }
  }

  ghost predicate BehindEmitted(lines: seq<LineInfo>, i: nat, k: nat, at: int)
    requires i <= k < |lines| && AllAccepted(lines)
  {
    Emitted(lines[k]) == 0 || SameAddr(lines[k].addr, at + EmittedBetween(lines, i, k))
  }

  lemma AcceptedAssembles(line: LineInfo)
    requires Accepted(line)
    ensures TableSafe(line) && AssemLine(line).status == 0
  {
  }

  /** The emitted vector is contiguous exactly when each emitting line is addressed behind what is emitted before it. */
  lemma {:induction false} AssemContiguous(lines: seq<LineInfo>, i: nat, at: int)
    requires AllTableSafe(lines) && AllAccepted(lines) && i <= |lines|
    ensures Contiguous(AssemFrom(lines, i).instrs, at)
       <==> forall k :: i <= k < |lines| ==> BehindEmitted(lines, i, k, at)
    ensures TotalSize(AssemFrom(lines, i).instrs) == EmittedBetween(lines, i, |lines|)
    decreases |lines| - i
  {
    hide AssemLine, Accepted, Emitted, SameAddr;
    if i < |lines| {
      var line := lines[i];
      assert Accepted(line);
      LineContiguous(line, at);
      AssemUnfold(lines, i) by { AcceptedAssembles(line); }
      ContiguousAppend(AssemLine(line).instrs, AssemFrom(lines, i + 1).instrs, at);
      var j, next := i + 1, at + Emitted(line);
      AssemContiguous(lines, j, next);
      EmittedFirst(lines, i, |lines|);
      AllBehind(lines, i, at, j, next);
    }
  }

  lemma BehindStep(lines: seq<LineInfo>, i: nat, at: int, j: nat, next: int, k: nat)
    requires AllAccepted(lines) && i < k < |lines| && j == i + 1 && next == at + Emitted(lines[i])
    ensures BehindEmitted(lines, i, k, at) == BehindEmitted(lines, j, k, next)
  {
    hide Emitted, SameAddr, Accepted, EmittedBetween;
    EmittedFirst(lines, i, k);
  }

  /** Lines are behind what is emitted from line i on when line i is, and the others are from the next line on. */
  lemma AllBehind(lines: seq<LineInfo>, i: nat, at: int, j: nat, next: int)
    requires AllAccepted(lines) && i < |lines| && j == i + 1 && next == at + Emitted(lines[i])
    ensures (forall k :: i <= k < |lines| ==> BehindEmitted(lines, i, k, at)) <==>
      (BehindEmitted(lines, i, i, at) && forall k :: j <= k < |lines| ==> BehindEmitted(lines, j, k, next))
  {
    hide Emitted, Accepted, BehindEmitted;
    forall k | i < k < |lines|
      ensures BehindEmitted(lines, i, k, at) == BehindEmitted(lines, j, k, next)
    {
      BehindStep(lines, i, at, j, next, k);
    }
    if forall k :: i <= k < |lines| ==> BehindEmitted(lines, i, k, at) {
      forall k | j <= k < |lines|
        ensures BehindEmitted(lines, j, k, next)
      {
        assert BehindEmitted(lines, i, k, at);
      }
    }
  }

  /** Every line's address is the start, the bytes emitted before it, and the surplus of the lines before it. */
  lemma {:induction false} AddressOf(st: LexState, start: int, k: nat)
    requires Placed(st, start) && AllAccepted(st.lines) && k <= |st.lines|
    ensures (if k < |st.lines| then st.lines[k].addr else st.addr)
         == start + EmittedBetween(st.lines, 0, k) + SurplusBetween(st.lines, 0, k)
  {
    hide Accepted, Emitted, Surplus, SymbolsOf;
    if k > 0 {
      AddressOf(st, start, k - 1);
      assert TakesItsBytes(st, k - 1);
    }
  }

  /**
   * For every source that is lexed and assembled without an error: each line lies at the start address plus the
   * bytes emitted before it plus the surplus before it, and the instruction vector is contiguous from the start
   * address exactly when, at every line that emits something, the surplus so far is a multiple of 64K.
   */
  lemma ImageLayout(src: string, cap: nat, start: int)
    requires LexAll(src, cap, start).status == 0
    requires AllTableSafe(LexAll(src, cap, start).st.lines)
    requires AssemFrom(LexAll(src, cap, start).st.lines, 0).status == 0
    ensures var st := LexAll(src, cap, start).st;
      && AllAccepted(st.lines)
      && (forall k :: 0 <= k < |st.lines| ==>
            st.lines[k].addr == start + EmittedBetween(st.lines, 0, k) + SurplusBetween(st.lines, 0, k))
      && TotalSize(AssemFrom(st.lines, 0).instrs) == EmittedBetween(st.lines, 0, |st.lines|)
      && (Contiguous(AssemFrom(st.lines, 0).instrs, start) <==>
            forall k :: 0 <= k < |st.lines| && Emitted(st.lines[k]) > 0 ==>
              SurplusBetween(st.lines, 0, k) % 0x1_0000 == 0)
  {
    hide LexAll, Accepted, Emitted, Surplus, AssemFrom, Placed;
    var st := LexAll(src, cap, start).st;
    SourcePlaced(src, cap, start);
    AssemSucceeds(st.lines, 0);
    AssemContiguous(st.lines, 0, start);
    forall k | 0 <= k < |st.lines|
      ensures st.lines[k].addr == start + EmittedBetween(st.lines, 0, k) + SurplusBetween(st.lines, 0, k)
      ensures BehindEmitted(st.lines, 0, k, start)
          <==> Emitted(st.lines[k]) == 0 || SurplusBetween(st.lines, 0, k) % 0x1_0000 == 0
    {
      AddressOf(st, start, k);
      SurplusShows(start + EmittedBetween(st.lines, 0, k), SurplusBetween(st.lines, 0, k));
    }
  }

  lemma SurplusShows(a: int, d: int)
    ensures SameAddr(a + d, a) <==> d % 0x1_0000 == 0
  {
  }

  /** Without DS and without END, ORG and SET, lexer and assembler agree: no gap, no overlap, and no byte uncounted. */
  lemma NoSurplusNoGap(src: string, cap: nat, start: int)
    requires LexAll(src, cap, start).status == 0
    requires AllTableSafe(LexAll(src, cap, start).st.lines)
    requires AssemFrom(LexAll(src, cap, start).st.lines, 0).status == 0
    requires forall line | line in LexAll(src, cap, start).st.lines :: line.instr != DS && !StoredDirective(line)
    ensures var st := LexAll(src, cap, start).st;
      && Contiguous(AssemFrom(st.lines, 0).instrs, start)
      && st.addr == start + TotalSize(AssemFrom(st.lines, 0).instrs)
  {
    hide LexAll, Accepted, Emitted, AssemFrom, Placed, StoredDirective, Surplus, SurplusBetween, EmittedBetween;
    hide Contiguous, TotalSize;
    var st := LexAll(src, cap, start).st;
    ImageLayout(src, cap, start);
    SourcePlaced(src, cap, start);
    AddressOf(st, start, |st.lines|);
    forall k | 0 <= k <= |st.lines|
      ensures SurplusBetween(st.lines, 0, k) == 0
    {
      NoSurplus(st.lines, k);
    }
  }

  lemma {:induction false} NoSurplus(lines: seq<LineInfo>, k: nat)
    requires k <= |lines| && forall line | line in lines :: line.instr != DS && !StoredDirective(line)
    ensures SurplusBetween(lines, 0, k) == 0
  {
    if k > 0 {
      NoSurplus(lines, k - 1);
      assert lines[k - 1] in lines;
    }
  }
}
