/**
 * The toolchain end to end: the text of a program lexed, assembled, laid out as bytes and executed does what its
 * lines mean.
 */
module Compiler {
  import opened Bits
  import opened Opcodes
  import opened Source
  import opened LexSpec
  import opened Vectors
  import opened Encoding
  import opened Layout8080
  import opened Addresses
  import opened Disassembler
  import C = CpuSpec
  import opened Meaning
  import R = Running

  // ---- where the lines lie in the image ----

  ghost predicate Laid(lines: seq<LineInfo>) { forall k :: 0 <= k < |lines| ==> Lexable(lines[k]) }

  /** The bytes of the lines before line k. */
  function Offset(lines: seq<LineInfo>, k: nat): nat
    requires Laid(lines) && k <= |lines|
  {
    if k == 0 then 0 else Offset(lines, k - 1) + |EncodedBytes(lines[k - 1])|
  }

  /** The image of the first k lines, line after line. */
  function CodeBytes(lines: seq<LineInfo>, k: nat): (image: seq<byte>)
    requires Laid(lines) && k <= |lines|
    ensures |image| == Offset(lines, k)
  {
    if k == 0 then [] else CodeBytes(lines, k - 1) + EncodedBytes(lines[k - 1])
  }

  /** Each line's bytes are found at its offset in the whole image. */
  lemma {:induction false} CodeAt(lines: seq<LineInfo>, k: nat, n: nat)
    requires Laid(lines) && k < n <= |lines|
    ensures Offset(lines, k) + |EncodedBytes(lines[k])| <= Offset(lines, n)
    ensures forall i :: 0 <= i < |EncodedBytes(lines[k])| ==>
      CodeBytes(lines, n)[Offset(lines, k) + i] == EncodedBytes(lines[k])[i]
    decreases n
  {
    hide EncodedBytes, Lexable;
    if k + 1 < n {
      CodeAt(lines, k, n - 1);
    }
  }

  lemma {:induction false} CodeIsProgramImage(lines: seq<LineInfo>, k: nat)
    requires Laid(lines) && k <= |lines| && Program(lines)
    ensures Program(lines[k..]) && CodeBytes(lines, |lines|) == CodeBytes(lines, k) + ProgramImage(lines[k..])
    decreases |lines| - k
  {
    hide EncodedBytes, Lexable, FormOf, SizeOf;
    assert forall line :: line in lines[k..] ==> line in lines;
    if k < |lines| {
      CodeIsProgramImage(lines, k + 1);
      assert lines[k..][0] == lines[k] && lines[k..][1..] == lines[k + 1..];
    }
  }

  // ---- what the assembler makes of them ----

  lemma CodeNext(lines: seq<LineInfo>, i: nat)
    requires Laid(lines) && i < |lines|
    ensures CodeBytes(lines, i + 1) == CodeBytes(lines, i) + EncodedBytes(lines[i])
  {
    hide EncodedBytes, Lexable;
  }

  lemma {:induction false} AssembledFrom(lines: seq<LineInfo>, i: nat)
    requires Laid(lines) && i <= |lines| && AllTableSafe(lines)
    ensures AssemFrom(lines, i).status == 0
    ensures CodeBytes(lines, |lines|) == CodeBytes(lines, i) + Image(AssemFrom(lines, i).instrs)
    decreases |lines| - i
  {
    hide EncodedBytes, AssemLine, Lexable, AllTableSafe, CodeBytes, Offset, Image;
    if i == |lines| {
      assert Image([]) == [] by { NoImage(); }
    } else {
      hide AssemFrom;
      AssembledFrom(lines, i + 1);
      ImageOfRest(lines, i);
      CodeNext(lines, i);
      Associates(CodeBytes(lines, i), EncodedBytes(lines[i]), Image(AssemFrom(lines, i + 1).instrs));
    }
  }

  lemma NoImage()
    ensures Image([]) == []
  {
  }

  lemma ImageOfRest(lines: seq<LineInfo>, i: nat)
    requires Laid(lines) && i < |lines| && AllTableSafe(lines)
    ensures AssemFrom(lines, i).status == AssemFrom(lines, i + 1).status
    ensures Image(AssemFrom(lines, i).instrs) == EncodedBytes(lines[i]) + Image(AssemFrom(lines, i + 1).instrs)
  {
    hide EncodedBytes, AssemLine, Lexable, AllTableSafe, AssemFrom, Image;
    AssembledLine(lines[i]);
    AssemUnfold(lines, i);
    ImageAppend(AssemLine(lines[i]).instrs, AssemFrom(lines, i + 1).instrs);
  }

  lemma AssembledLine(line: LineInfo)
    requires Lexable(line)
    ensures TableSafe(line) && AssemLine(line).status == 0 && Image(AssemLine(line).instrs) == EncodedBytes(line)
    ensures |EncodedBytes(line)| == SizeOf(FormOf(line.instr), line) && 1 <= |EncodedBytes(line)| <= 3
  {
    hide InstrBytes, Encode, TableSafe, FormOf;
    FixedSize(line);
    match FormOf(line.instr)
    case OneReg | TwoReg => OneByteForms(line); WordImage(line);
    case Bare => BareForms(line); WordImage(line);
    case Imm8 | RegImm8 => TwoByteForms(line); WordImage(line);
    case RegImm16 | Imm16 => ThreeByteForms(line); WordImage(line);
  }

  lemma WordImage(line: LineInfo)
    requires Lexable(line) && Encode(line).Word? && 1 <= Encode(line).size <= 3
    ensures AssemLine(line).status == 0 && Image(AssemLine(line).instrs) == EncodedBytes(line)
    ensures |EncodedBytes(line)| == Encode(line).size
  {
    hide Encode, TableSafe, FormOf;
    var i := AssemLine(line).instrs[0];
    assert Image([i]) == InstrBytes(i) + Image([]);
  }

  lemma LexableSafe(lines: seq<LineInfo>)
    requires Laid(lines)
    ensures AllTableSafe(lines)
  {
    hide TableSafe, FormOf;
  }

  /** The assembler accepts lines of fixed size; its instructions laid out as bytes are the lines' bytes in order. */
  lemma AssembledImage(lines: seq<LineInfo>)
    requires Laid(lines)
    ensures AllTableSafe(lines) && AssemFrom(lines, 0).status == 0
    ensures Image(AssemFrom(lines, 0).instrs) == CodeBytes(lines, |lines|)
  {
    hide TableSafe, AssemFrom, Image, FormOf, Lexable, EncodedBytes;
    LexableSafe(lines);
    AssembledFrom(lines, 0);
    assert CodeBytes(lines, 0) == [];
  }

  /**
   * From lines to their listing: for every program of fixed-size lines with byte immediates, the disassembler's
   * sweep over the assembled bytes stops at each line's instruction and at the end of the image, and shows each
   * line's mnemonic, registers and operand as written, exactly when every line is one of those whose row is right
   * and no jump goes above the first 256 bytes.
   */
  lemma AssembledListing(lines: seq<LineInfo>)
    requires Program(lines)
    ensures AllTableSafe(lines)
    ensures var image := Image(AssemFrom(lines, 0).instrs);
      Listing(image, 0) == (SourceListing(lines, 0), |image|) <==> forall line | line in lines :: Recovered(line)
  {
    hide Lexable, FormOf, SizeOf, Listing, SourceListing, ProgramImage, Image, AssemFrom, Recovered, AllTableSafe;
    assert Laid(lines);
    AssembledImage(lines);
    CodeIsProgramImage(lines, 0);
    var image := Image(AssemFrom(lines, 0).instrs);
    assert lines[0..] == lines && image[0..] == image;
    SweepInverts(lines, image, 0);
  }

  /** A straight-line program: lines that run as written, with a second register for a MOV only. */
  ghost predicate Straight(lines: seq<LineInfo>) {
    Laid(lines) && forall k :: 0 <= k < |lines| ==> Runs(lines[k])
  }

  // ---- running it ----

  /** The bytes lie in memory from an address on, below the end of the address space. */
  predicate Loaded(mem: C.Memory, base: nat, image: seq<byte>) {
    base + |image| <= 0x1_0000 && forall i :: 0 <= i < |image| ==> mem[base + i] == image[i]
  }

  /** None of the first n lines stores into the n bytes of code that start at base. */
  ghost predicate StoresMiss(lines: seq<LineInfo>, n: nat, m: Machine, base: nat, size: nat)
    requires Straight(lines) && n <= |lines|
  {
    forall j :: 0 <= j < n ==>
      forall addr | addr in StoresTo(lines[j], DoAll(lines, j, m)) :: !(base <= addr < base + size)
  }

  lemma StillLoaded(line: LineInfo, m: Machine, base: nat, image: seq<byte>)
    requires Runs(line) && Loaded(m.mem, base, image)
    requires forall addr | addr in StoresTo(line, m) :: !(base <= addr < base + |image|)
    ensures Loaded(Do(line, m).mem, base, image)
  {
    hide Do, Runs, StoresTo;
    forall i | 0 <= i < |image|
      ensures Do(line, m).mem[base + i] == image[i]
    {
      StoresOnly(line, m, base + i);
    }
  }

  lemma FetchedFrom(s: C.State, lines: seq<LineInfo>, base: nat, k: nat)
    requires Laid(lines) && k < |lines| && Loaded(s.mem, base, CodeBytes(lines, |lines|))
    requires s.pc == base + Offset(lines, k)
    ensures R.Fetched(s, EncodedBytes(lines[k]))
  {
    hide EncodedBytes, Runs, Lexable, Offset, CodeBytes;
    CodeAt(lines, k, |lines|);
    forall i | 0 <= i < |EncodedBytes(lines[k])|
      ensures s.mem[s.pc + i] == EncodedBytes(lines[k])[i]
    {
      assert s.mem[base + (Offset(lines, k) + i)] == CodeBytes(lines, |lines|)[Offset(lines, k) + i];
    }
  }

  /**
   * Compiler correctness: with the image of a straight-line program in memory from the program counter on, and no
   * line storing into it, n steps of the emulator give the registers, flags and memory that the first n lines
   * mean, and the program counter stands behind their bytes.
   */
  lemma {:induction false} CodeRuns(lines: seq<LineInfo>, s: C.State, base: nat, n: nat)
    requires Straight(lines) && n <= |lines| && s.pc == C.Wrap(base) && Loaded(s.mem, base, CodeBytes(lines, |lines|))
    requires StoresMiss(lines, n, MachineOf(s), base, |CodeBytes(lines, |lines|)|)
    ensures C.StepN(s, n) == Meaning.Running(DoAll(lines, n, MachineOf(s)), C.Wrap(base + Offset(lines, n)))
    ensures Loaded(DoAll(lines, n, MachineOf(s)).mem, base, CodeBytes(lines, |lines|))
  {
    hide EncodedBytes, Runs, Lexable, Do, CodeBytes, Loaded, C.Step, StoresTo, AssemLine, Image, SizeOf, TableSafe;
    if n > 0 {
      CodeRuns(lines, s, base, n - 1);
      var m, line := DoAll(lines, n - 1, MachineOf(s)), lines[n - 1];
      var at := base + Offset(lines, n - 1);
      CodeAt(lines, n - 1, |lines|);
      InSpace(s, base, CodeBytes(lines, |lines|));
      AssembledLine(line);
      assert C.Wrap(at) == at;
      var s1 := Meaning.Running(m, at);
      FetchedFrom(s1, lines, base, n - 1);
      R.LineRuns(line, s1);
      StillLoaded(line, m, base, CodeBytes(lines, |lines|));
    }
  }

  lemma InSpace(s: C.State, base: nat, image: seq<byte>)
    requires Loaded(s.mem, base, image)
    ensures base + |image| <= 0x1_0000
  {
  }

}
