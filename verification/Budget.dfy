/** The run loop with its cycle budget: when it stops, after how many steps, and how far over the budget. */
module Budget {
  import opened Bits
  import opened CpuSpec
  import opened Cpus
  import opened Stack

  /** What one step adds to the executed cycles; a negative status adds nothing, for the loop ends on it. */
  function Cost(s: State): nat { if Cycles(s) < 0 then 0 else Cycles(s) }

  function Total(s: State, n: nat): nat {
    if n == 0 then 0 else Total(s, n - 1) + Cost(StepN(s, n - 1))
  }

  /** The two opcodes that report no time: 0x08 and RST 0. */
  predicate ZeroCost(s: State) { Opcode(s) in {0x08, 0xC7} }

  // ---- what one step can report ----

  predicate CostOk(f: Effect, op: byte) {
    match f
    case Go(_, t) => op != 0x76 && if op in {0x08, 0xC7} then t == 0 else 4 <= t <= 17
    case Halt => op == 0x76
    case Unimplemented => op !in {0x08, 0x76, 0xC7}
  }

  lemma RowCosts(s: State, op: byte)
    ensures CostOk(Row0(s, op), op) || op >= 0x10
    ensures 0x10 <= op < 0x20 ==> CostOk(Row1(s, op), op)
    ensures 0x20 <= op < 0x30 ==> CostOk(Row2(s, op), op)
    ensures 0x30 <= op < 0x40 ==> CostOk(Row3(s, op), op)
  {
    hide Or, And, Lo, Hi, Pair, Wrap, Read, ReadWord, Write, ArithFlags, SetOperand;
  }

  lemma GroupCosts(s: State, op: byte)
    ensures 0x40 <= op < 0x80 ==> CostOk(MovGroup(s, op), op)
    ensures 0x80 <= op < 0xA0 ==> CostOk(ArithGroup(s, op), op)
    ensures 0xA0 <= op < 0xC0 ==> CostOk(LogicGroup(s, op), op)
  {
    hide Or, And, Xor, Lo, Hi, Pair, Wrap, Read, Operand, ArithFlags, LogicFlags, SetOperand;
  }

  lemma ControlCosts(s: State, op: byte)
    ensures 0xC0 <= op < 0xD0 ==> CostOk(RowC(s, op), op)
    ensures 0xD0 <= op < 0xE0 ==> CostOk(RowD(s, op), op)
    ensures 0xE0 <= op < 0xF0 ==> CostOk(RowE(s, op), op)
    ensures 0xF0 <= op ==> CostOk(RowF(s, op), op)
  {
    hide Or, And, Lo, Hi, Pair, Wrap, Read, ReadWord, Write, ArithFlags, LogicFlags, Push, Call, Return, JumpTo,
         JumpSwapped, PackFlags, UnpackFlags;
  }

  /** Every step reports HLT, an unimplemented opcode, no time at exactly two opcodes, or 4 to 17 cycles. */
  lemma StepCost(s: State)
    ensures Cycles(s) in {-2, -1, 0} || 4 <= Cycles(s) <= 17
    ensures Cycles(s) == 0 <==> ZeroCost(s)
    ensures Cycles(s) == -2 <==> Opcode(s) == 0x76
  {
    hide Row0, Row1, Row2, Row3, MovGroup, ArithGroup, LogicGroup, RowC, RowD, RowE, RowF, Execute;
    var op := Opcode(s);
    Dispatch(s, op);
    RowCosts(s, op);
    GroupCosts(s, op);
    ControlCosts(s, op);
    assert CostOk(Execute(s, op), op);
  }

  // ---- the loop ----

  /** The loop makes its first n turns. */
  ghost predicate Turns(s: State, cycles: int, n: nat) {
    && (forall k :: 0 <= k < n ==> Total(s, k) < cycles)
    && (forall k :: 0 <= k < n - 1 ==> Cycles(StepN(s, k)) >= 0)
  }

  /** The loop ends after n turns: the budget is used up, or the last status was negative. */
  ghost predicate StopsAfter(s: State, cycles: int, n: nat) {
    Turns(s, cycles, n) && (Total(s, n) >= cycles || (n > 0 && Cycles(StepN(s, n - 1)) < 0))
  }

  /** The loop is about to make its turn number n, having made those before. */
  ghost predicate GoesOn(s: State, cycles: int, n: nat) {
    Turns(s, cycles, n) && Total(s, n) < cycles && (n > 0 ==> Cycles(StepN(s, n - 1)) >= 0)
  }

  /**
   * The loop, watched for any number of turns. It has ended when the budget is used up or a status is negative, and
   * not before; it leaves the machine as its turns in steps do, and returns the status of the last.
   */
  method Run(cpu: Cpu, cycles: int, watched: nat) returns (status: int, turns: nat, ended: bool)
    requires cpu.Valid()
    modifies cpu, cpu.memory
    ensures cpu.Valid() && cpu.State() == StepN(old(cpu.State()), turns)
    ensures turns > 0 ==> status == Cycles(StepN(old(cpu.State()), turns - 1))
    ensures if ended then turns <= watched && StopsAfter(old(cpu.State()), cycles, turns)
            else turns == watched && GoesOn(old(cpu.State()), cycles, turns)
  {
    hide Cycles, Step;
    ghost var start := cpu.State();
    var executed: int := 0;
    status, turns := 0, 0;
    while executed < cycles
      invariant cpu.Valid() && turns <= watched
      invariant cpu.State() == StepN(start, turns) && executed == Total(start, turns)
      invariant turns > 0 ==> status == Cycles(StepN(start, turns - 1)) && status >= 0
      invariant Turns(start, cycles, turns)
      decreases watched - turns
    {
      if turns == watched {
        return status, turns, false;
      }
      status := cpu.Exec();
      turns := turns + 1;
      if status < 0 {
        return status, turns, true;
      }
      executed := executed + status;
    }
    return status, turns, true;
  }

  // ---- when it stops ----

  /** It stops after some number of turns when some step uses up the budget or reports a negative status. */
  lemma {:induction false} FirstStop(s: State, cycles: int, n: nat)
    requires Total(s, n) >= cycles || (n > 0 && Cycles(StepN(s, n - 1)) < 0)
    ensures exists m :: 0 <= m <= n && StopsAfter(s, cycles, m)
  {
    hide Cycles;
    if k :| 0 <= k < n && Total(s, k) >= cycles {
      FirstStop(s, cycles, k);
      var m :| 0 <= m <= k && StopsAfter(s, cycles, m);
    } else if k :| 0 <= k < n - 1 && Cycles(StepN(s, k)) < 0 {
      var j := k + 1;
      assert Cycles(StepN(s, j - 1)) < 0;
      FirstStop(s, cycles, j);
      var m :| 0 <= m <= j && StopsAfter(s, cycles, m);
    } else {
      assert StopsAfter(s, cycles, n);
    }
  }

  /** And after one number only. */
  lemma StopsOnce(s: State, cycles: int, m: nat, n: nat)
    requires StopsAfter(s, cycles, m) && StopsAfter(s, cycles, n)
    ensures m == n
  {
    hide Cycles, Total;
  }

  lemma {:induction false} TotalGrows(s: State, n: nat)
    requires forall k :: 0 <= k < n ==> !ZeroCost(StepN(s, k)) && Cycles(StepN(s, k)) >= 0
    ensures Total(s, n) >= 4 * n
  {
    hide Cycles, ZeroCost, Step;
    if n > 0 {
      TotalGrows(s, n - 1);
      StepCost(StepN(s, n - 1));
    }
  }

  /**
   * For every positive budget and every machine that meets no zero-cost opcode in that many steps, the loop stops
   * within a quarter of the budget, rounded up.
   */
  lemma BudgetEnds(s: State, cycles: int)
    requires cycles > 0
    requires forall k :: 0 <= k < (cycles + 3) / 4 ==> !ZeroCost(StepN(s, k))
    ensures exists n :: 0 < n <= (cycles + 3) / 4 && StopsAfter(s, cycles, n)
  {
    hide Cycles, ZeroCost, StepN;
    var bound := (cycles + 3) / 4;
    if k :| 0 <= k < bound && Cycles(StepN(s, k)) < 0 {
      var j := k + 1;
      assert Cycles(StepN(s, j - 1)) < 0;
      FirstStop(s, cycles, j);
    } else {
      TotalGrows(s, bound);
      FirstStop(s, cycles, bound);
    }
    var n :| 0 <= n <= bound && StopsAfter(s, cycles, n);
    assert n > 0 by { assert Total(s, 0) == 0; }
  }

  /**
   * On a normal exit the budget is reached and exceeded by at most 16 cycles; otherwise the last step is the first
   * with a negative status, -1 or -2, and the budget was not yet reached before it.
   */
  lemma BudgetKept(s: State, cycles: int, n: nat)
    requires StopsAfter(s, cycles, n) && n > 0
    ensures forall k :: 0 <= k < n - 1 ==> Cycles(StepN(s, k)) >= 0
    ensures Total(s, n - 1) < cycles
    ensures if Cycles(StepN(s, n - 1)) >= 0 then cycles <= Total(s, n) <= cycles + 16
            else Cycles(StepN(s, n - 1)) in {-1, -2} && Total(s, n) == Total(s, n - 1)
  {
    hide Cycles;
    StepCost(StepN(s, n - 1));
  }

  // ---- the zero-cost opcodes ----

  /** A machine with the opcode 0x08 all over its memory. */
  predicate AllNops(m: Memory) { forall i :: 0 <= i < 0x1_0000 ==> m[i] == 0x08 }

  /** The byte that many on from an address. */
  function ByteOn(m: Memory, p: int, e: nat): byte { m[Wrap(p + e)] }

  /** From an address on there are d opcodes 0x08. */
  predicate Nops(m: Memory, p: int, d: nat) { forall e :: 0 <= e < d ==> ByteOn(m, p, e) == 0x08 }

  /** The first opcode from an address on that is not 0x08 is RST 0. */
  ghost predicate ResetNext(m: Memory, p: int) {
    exists d: nat :: d < 0x1_0000 && Nops(m, p, d) && ByteOn(m, p, d) == 0xC7
  }

  /**
   * A trap of instructions that take no time: 0x08 everywhere, or an RST 0 next, which goes on at address 1, and an
   * RST 0 next from there.
   */
  ghost predicate Trap(s: State) {
    AllNops(s.mem) || (ResetNext(s.mem, s.pc) && ResetNext(s.mem, 1))
  }

  lemma ZeroStep(s: State)
    requires ZeroCost(s)
    ensures Step(s) == s.(pc := if Opcode(s) == 0x08 then Wrap(s.pc + 1) else 1)
    ensures Cost(s) == 0 && Cycles(s) == 0
  {
    hide Row1, Row2, Row3, MovGroup, ArithGroup, LogicGroup, RowD, RowE, RowF;
  }

  lemma OneOn(p: int, e: int)
    ensures Wrap(Wrap(p + 1) + e) == Wrap(p + (e + 1))
  {
  }

  lemma WrapSelf(x: word)
    ensures Wrap(x) == x
  {
  }

  /** A trap is never left: its next step takes no time, and is in it again. */
  lemma TrapKept(s: State)
    requires Trap(s)
    ensures ZeroCost(s) && Trap(Step(s))
  {
    hide Step, Wrap;
    WrapSelf(s.pc);
    if AllNops(s.mem) {
      ZeroStep(s);
    } else {
      var d: nat :| d < 0x1_0000 && Nops(s.mem, s.pc, d) && ByteOn(s.mem, s.pc, d) == 0xC7;
      if d > 0 {
        assert ByteOn(s.mem, s.pc, 0) == 0x08;
        ZeroStep(s);
        var less, q := d - 1, Wrap(s.pc + 1);
        forall e | 0 <= e < less
          ensures ByteOn(s.mem, q, e) == 0x08
        {
          OneOn(s.pc, e);
          var f := e + 1;
          assert ByteOn(s.mem, s.pc, f) == 0x08;
        }
        OneOn(s.pc, less);
        assert Nops(s.mem, q, less);
      } else {
        ZeroStep(s);
      }
    }
  }

  lemma {:induction false} TrapForever(s: State, k: nat, n: nat)
    requires k <= n && Trap(StepN(s, k))
    ensures Trap(StepN(s, n)) && Total(s, n) == Total(s, k) && (n > k ==> Cycles(StepN(s, n - 1)) == 0)
    decreases n
  {
    hide Step, Trap, Cycles, ZeroCost, Cost;
    if n > k {
      TrapForever(s, k, n - 1);
      TrapKept(StepN(s, n - 1));
      ZeroStep(StepN(s, n - 1));
    }
  }

  /** Once in a trap before its budget is used, the loop never ends. */
  lemma TrapNeverEnds(s: State, cycles: int, k: nat, n: nat)
    requires GoesOn(s, cycles, k) && Trap(StepN(s, k))
    ensures !StopsAfter(s, cycles, n)
  {
    hide Step, StepN, Trap, Cycles, Total;
    if n > k {
      TrapForever(s, k, n);
    }
  }

  /** The run of opcodes 0x08 in front of the program counter, walked over. */
  lemma {:induction false} WalkNops(s: State, d: nat)
    requires Nops(s.mem, s.pc, d)
    ensures StepN(s, d) == s.(pc := Wrap(s.pc + d))
    ensures forall e :: 0 <= e < d ==> ZeroCost(StepN(s, e))
  {
    hide Step, Wrap;
    WrapSelf(s.pc);
    if d > 0 {
      var less := d - 1;
      WalkNops(s, less);
      assert ByteOn(s.mem, s.pc, less) == 0x08;
      assert ZeroCost(StepN(s, less));
      ZeroStep(StepN(s, less));
      assert Wrap(Wrap(s.pc + less) + 1) == Wrap(s.pc + d) by { OneAfter(s.pc, less); }
      forall e | 0 <= e < d
        ensures ZeroCost(StepN(s, e))
      {
        assert e < less || e == less;
      }
    }
  }

  lemma OneAfter(p: int, e: int)
    ensures Wrap(Wrap(p + e) + 1) == Wrap(p + (e + 1))
  {
  }

  /** How many opcodes 0x08 there are from an address on, up to the size of the memory. */
  function NopRun(m: Memory, p: int, d: nat): (n: nat)
    requires d <= 0x1_0000 && Nops(m, p, d)
    ensures d <= n <= 0x1_0000 && Nops(m, p, n) && (n < 0x1_0000 ==> ByteOn(m, p, n) != 0x08)
    decreases 0x1_0000 - d
  {
    if d == 0x1_0000 || ByteOn(m, p, d) != 0x08 then d else NopRun(m, p, d + 1)
  }

  lemma NopsAllRound(m: Memory, p: int)
    requires Nops(m, p, 0x1_0000)
    ensures AllNops(m)
  {
    forall i | 0 <= i < 0x1_0000
      ensures m[i] == 0x08
    {
      var e := Wrap(i - p);
      assert ByteOn(m, p, e) == 0x08;
      assert Wrap(p + e) == i;
    }
  }

  /** Every opcode of the first m steps takes no time, and the next one takes some, or reports a trap. */
  ghost predicate FirstCost(s: State, m: nat) {
    !ZeroCost(StepN(s, m)) && forall e :: 0 <= e < m ==> ZeroCost(StepN(s, e))
  }

  lemma CostLater(s: State, m: nat, n: nat, f: nat, e: nat)
    requires FirstCost(StepN(s, m), n) && f < n && e == m + f
    ensures ZeroCost(StepN(s, e))
  {
    hide Step, StepN, ZeroCost;
    StepNAdd(s, m, f);
  }

  lemma Joined(s: State, m: nat, n: nat)
    requires forall e :: 0 <= e < m ==> ZeroCost(StepN(s, e))
    requires FirstCost(StepN(s, m), n)
    ensures FirstCost(s, m + n)
  {
    hide Step, StepN, ZeroCost;
    StepNAdd(s, m, n);
    var end := m + n;
    forall e | 0 <= e < end
      ensures ZeroCost(StepN(s, e))
    {
      if e >= m {
        CostLater(s, m, n, e - m, e);
      }
    }
    assert !ZeroCost(StepN(s, end));
  }

  /** Outside a trap some step takes time, soon. */
  lemma OutOfTrap(s: State)
    requires !Trap(s)
    ensures exists m: nat :: FirstCost(s, m)
  {
    hide Step, StepN, Wrap, Nops;
    assert Nops(s.mem, s.pc, 0) && Nops(s.mem, 1, 0) by { NoNops(s.mem); }
    var d := NopRun(s.mem, s.pc, 0);
    if d == 0x1_0000 {
      NopsAllRound(s.mem, s.pc);
    } else {
      WalkNops(s, d);
      var at := StepN(s, d);
      WrapSelf(at.pc);
      if Opcode(at) == 0xC7 {
        ResetOnce(s, d);
      } else {
        assert FirstCost(s, d);
      }
    }
  }

  lemma NoNops(m: Memory)
    ensures forall p: int :: Nops(m, p, 0)
  {
  }

  /** Behind an RST 0 that is no trap. */
  lemma ResetOnce(s: State, d: nat)
    requires !Trap(s) && d < 0x1_0000 && Nops(s.mem, s.pc, d) && ByteOn(s.mem, s.pc, d) == 0xC7
    ensures exists m: nat :: FirstCost(s, m)
  {
    hide Step, Wrap, Nops, ZeroCost, AllNops;
    WalkNops(s, d);
    var at := StepN(s, d);
    assert ZeroCost(at) && Opcode(at) == 0xC7 by { ResetCosts(at); }
    ZeroStep(at);
    var after := d + 1;
    var t := StepN(s, after);
    assert t == s.(pc := 1);
    assert Nops(s.mem, 1, 0) by { NoNops(s.mem); }
    var n := NopRun(s.mem, 1, 0);
    if n == 0x1_0000 {
      NopsAllRound(s.mem, 1);
    } else {
      WalkNops(t, n);
      assert Opcode(StepN(t, n)) !in {0x08, 0xC7};
      assert FirstCost(t, n) by { CostThere(StepN(t, n)); }
      Joined(s, after, n);
      assert FirstCost(s, after + n);
    }
  }

  lemma ResetCosts(s: State)
    requires s.mem[s.pc] == 0xC7
    ensures ZeroCost(s) && Opcode(s) == 0xC7
  {
  }

  lemma CostThere(s: State)
    requires Opcode(s) !in {0x08, 0xC7}
    ensures !ZeroCost(s)
  {
  }

  lemma {:induction false} ZeroTotal(s: State, k: nat, m: nat)
    requires forall e :: 0 <= e < m ==> ZeroCost(StepN(StepN(s, k), e))
    ensures Total(s, k + m) == Total(s, k) && (m > 0 ==> Cycles(StepN(s, k + m - 1)) == 0)
    ensures forall j :: k <= j < k + m ==> Total(s, j) == Total(s, k) && Cycles(StepN(s, j)) == 0
    decreases m
  {
    hide Step, StepN, ZeroCost, Cycles, Cost;
    if m > 0 {
      var less := m - 1;
      ZeroTotal(s, k, less);
      StepNAdd(s, k, less);
      ZeroStep(StepN(s, k + less));
    }
  }

  /** The next turn that takes time or reports a status. */
  lemma NextCost(s: State, cycles: int, k: nat) returns (j: nat)
    requires GoesOn(s, cycles, k) && !Trap(StepN(s, k))
    ensures k <= j && GoesOn(s, cycles, j) && !ZeroCost(StepN(s, j)) && Total(s, j) == Total(s, k)
  {
    hide Step, StepN, Trap, Cycles, Cost, ZeroCost, Total;
    OutOfTrap(StepN(s, k));
    var m: nat :| FirstCost(StepN(s, k), m);
    ZeroTotal(s, k, m);
    StepNAdd(s, k, m);
    j := k + m;
  }

  lemma TurnsOn(s: State, cycles: int, j: nat)
    requires GoesOn(s, cycles, j)
    ensures Turns(s, cycles, j + 1)
  {
    hide StepN, Cycles, Total;
  }

  /** From any turn the loop ends, if it meets no trap from there on before its budget is used. */
  lemma {:induction false} EndsFrom(s: State, cycles: int, k: nat)
    requires GoesOn(s, cycles, k) && forall j :: k <= j && GoesOn(s, cycles, j) ==> !Trap(StepN(s, j))
    ensures exists n :: StopsAfter(s, cycles, n)
    decreases cycles - Total(s, k)
  {
    hide Step, StepN, Trap, Cycles, Cost, ZeroCost, Total, Turns;
    var j := NextCost(s, cycles, k);
    StepCost(StepN(s, j));
    var next := j + 1;
    TurnsOn(s, cycles, j);
    assert Total(s, next) == Total(s, j) + Cost(StepN(s, j)) by { TotalStep(s, j); }
    CostIs(StepN(s, j));
    if Cycles(StepN(s, j)) < 0 || Total(s, next) >= cycles {
      assert StopsAfter(s, cycles, next);
    } else {
      assert GoesOn(s, cycles, next);
      EndsFrom(s, cycles, next);
    }
  }

  lemma TotalStep(s: State, j: nat)
    ensures Total(s, j + 1) == Total(s, j) + Cost(StepN(s, j))
  {
    hide Cost, StepN;
  }

  lemma CostIs(s: State)
    ensures Cost(s) == if Cycles(s) < 0 then 0 else Cycles(s)
  {
    hide Cycles;
  }

  /**
   * For every machine and every positive budget: the loop ends exactly when it does not reach a trap before its
   * budget is used.
   */
  lemma EndsExactly(s: State, cycles: int)
    requires cycles > 0
    ensures (exists n :: StopsAfter(s, cycles, n)) <==> !exists k :: GoesOn(s, cycles, k) && Trap(StepN(s, k))
  {
    hide Step, StepN, Trap, Cycles, Cost;
    if k :| GoesOn(s, cycles, k) && Trap(StepN(s, k)) {
      forall n: nat
        ensures !StopsAfter(s, cycles, n)
      {
        TrapNeverEnds(s, cycles, k, n);
      }
    } else {
      assert Total(s, 0) == 0;
      assert GoesOn(s, cycles, 0);
      EndsFrom(s, cycles, 0);
    }
  }

  /** So a machine with 0x08 all over its memory never ends, whatever positive budget it is given. */
  lemma NopsNeverEnd(s: State, cycles: int, n: nat)
    requires AllNops(s.mem) && cycles > 0
    ensures !StopsAfter(s, cycles, n)
  {
    hide Cycles, Step;
    assert GoesOn(s, cycles, 0);
    TrapNeverEnds(s, cycles, 0, n);
  }
}
