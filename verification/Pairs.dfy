/** Runs of 16-bit instructions: what n of them come to, on a word or on two bytes with carry. */
module Pairs {
  import opened Bits
  import opened Source
  import opened Encoding
  import opened CpuSpec
  import opened Meaning
  import R = Running

  /** Each of the first n steps executes this opcode. */
  ghost predicate RunOf(s: State, op: int, n: nat) { forall k :: 0 <= k < n ==> Opcode(StepN(s, k)) == op }

  function PairIn(s: State, r: Reg): word
    requires Paired(r)
  {
    GetPair(MachineOf(s), r)
  }

  lemma AfterInx(s: State, r: Reg)
    requires Paired(r) && Opcode(s) == 3 + 0x10 * PairBits(r)
    ensures PairIn(Step(s), r) == (PairIn(s, r) + 1) % 0x1_0000 && Step(s).pc == Wrap(s.pc + 1)
    ensures forall other | Paired(other) && other != r :: PairIn(Step(s), other) == PairIn(s, other)
    ensures Step(s).mem == s.mem && Step(s).a == s.a && Step(s).cc == s.cc
  {
    hide Step, Pair, Hi, Lo;
    R.InxRuns(s, r);
    R.Bytes((PairIn(s, r) + 1) % 0x1_0000);
  }

  /**
   * A run of n INX of any pair, of BC and SP on the word, of DE and HL byte by byte with the carry between them,
   * adds n to the pair modulo 64K and leaves the other pairs, the accumulator, the flags and the memory alone.
   */
  lemma {:induction false} InxRun(s: State, r: Reg, n: nat)
    requires Paired(r) && RunOf(s, 3 + 0x10 * PairBits(r), n)
    ensures PairIn(StepN(s, n), r) == (PairIn(s, r) + n) % 0x1_0000
    ensures forall other | Paired(other) && other != r :: PairIn(StepN(s, n), other) == PairIn(s, other)
    ensures StepN(s, n).mem == s.mem && StepN(s, n).a == s.a && StepN(s, n).cc == s.cc
  {
    hide Step, PairIn, PairBits;
    if n > 0 {
      InxRun(s, r, n - 1);
      AfterInx(StepN(s, n - 1), r);
      AddOne(PairIn(s, r) + (n - 1));
    }
  }

  lemma AddOne(x: int)
    ensures (x % 0x1_0000 + 1) % 0x1_0000 == (x + 1) % 0x1_0000
  {
  }

  /** The steps among the first n that left the carry set. */
  function Carries(s: State, n: nat): nat {
    if n == 0 then 0 else Carries(s, n - 1) + Bit(StepN(s, n).cc.cy)
  }

  lemma AfterDad(s: State)
    requires Opcode(s) == 0x09
    ensures PairIn(s, REG_H) + PairIn(s, REG_B) == PairIn(Step(s), REG_H) + 0x1_0000 * Bit(Step(s).cc.cy)
    ensures PairIn(Step(s), REG_B) == PairIn(s, REG_B)
  {
    hide Step, Pair, Hi, Lo;
    R.DadRuns(s, REG_B);
    R.Bytes((PairIn(s, REG_H) + PairIn(s, REG_B)) % 0x1_0000);
  }

  /** A run of n DAD B loses nothing: what does not fit in HL is counted by the carries. */
  lemma {:induction false} DadRun(s: State, n: nat)
    requires RunOf(s, 0x09, n)
    ensures PairIn(s, REG_H) + n * PairIn(s, REG_B) == PairIn(StepN(s, n), REG_H) + 0x1_0000 * Carries(s, n)
    ensures PairIn(StepN(s, n), REG_B) == PairIn(s, REG_B)
  {
    hide Step, PairIn;
    if n > 0 {
      DadRun(s, n - 1);
      AfterDad(StepN(s, n - 1));
      var bc := PairIn(s, REG_B);
      assert n * bc == (n - 1) * bc + bc;
    }
  }
}
