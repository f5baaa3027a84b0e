/** The two parity routines of the CPU header: one clears the lowest set bit, one shifts. */
module Parity {
  import opened Bits

  lemma AndStep(x: nat, y: nat)
    requires x > 0 && y > 0
    ensures And(x, y) == 2 * And(x / 2, y / 2) + if x % 2 == 1 && y % 2 == 1 then 1 else 0
  {
  }

  lemma CountStep(x: nat)
    ensures PopCount(x) == x % 2 + PopCount(x / 2)
  {
  }

  /** Clearing the lowest set bit, `x & (x - 1)`, removes exactly one bit from the count. */
  lemma {:induction false} ClearLowestBit(x: nat)
    requires x > 0
    ensures And(x, x - 1) < x
    ensures PopCount(And(x, x - 1)) == PopCount(x) - 1
  {
    hide And, PopCount;
    var y := x / 2;
    CountStep(x);
    if x == 1 {
      assert And(1, 0) == 0 && PopCount(0) == 0 by { NoBits(); }
    } else {
      AndStep(x, x - 1);
      CountStep(And(x, x - 1));
      if x % 2 == 1 {
        AndSelf(y);
        assert (x - 1) / 2 == y;
      } else {
        ClearLowestBit(y);
        assert (x - 1) / 2 == y - 1;
      }
    }
  }

  lemma NoBits()
    ensures And(1, 0) == 0 && PopCount(0) == 0
  {
  }

  lemma {:induction false} AndSelf(x: nat)
    ensures And(x, x) == x
  {
    if x != 0 {
      AndSelf(x / 2);
    }
  }

  lemma {:induction false} PopCountBound(x: nat, k: nat)
    requires x < Pow2(k)
    ensures PopCount(x) <= k
  {
    if x != 0 {
      PopCountBound(x / 2, k - 1);
    }
  }

  /** The loop that clears one bit a turn counts the set bits, in as many turns as there are. */
  method Parity(inp: byte) returns (n: byte, turns: nat)
    ensures n == PopCount(inp) <= 8
    ensures turns == PopCount(inp)
  {
    PopCountBound(inp, 8) by {
      assert Pow2(8) == 0x100;
    }
    var x: byte := inp;
    n, turns := 0, 0;
    while x != 0
      invariant n + PopCount(x) == PopCount(inp)
      invariant turns == n
      decreases x
    {
      ClearLowestBit(x);
      n := n + 1;
      x := And(x, x - 1);
      turns := turns + 1;
    }
  }

  /** The set bits among the lowest `size`. */
  function CountLow(x: nat, size: nat): nat {
    if size == 0 then 0 else x % 2 + CountLow(x / 2, size - 1)
  }

  lemma BitFirst(bit: nat, rest: nat)
    requires bit <= 1
    ensures PopCount(bit + 2 * rest) == bit + PopCount(rest)
  {
    var x := bit + 2 * rest;
    assert x % 2 == bit && x / 2 == rest;
  }

  lemma {:induction false} CountLowIsPopCount(x: nat, size: nat)
    ensures CountLow(x, size) == PopCount(LowBits(x, size))
  {
    if size != 0 {
      CountLowIsPopCount(x / 2, size - 1);
      BitFirst(x % 2, LowBits(x / 2, size - 1));
    }
  }

  /** C's `x && y`: 1 when both are non-zero, and not the bitwise and. */
  function LogicalAnd(x: int, y: int): nat {
    if x != 0 && y != 0 then 1 else 0
  }

  /** The shift loop: 1 when the number of set bits among the lowest `size` is even. */
  method ShiftLoop(masked: nat, size: nat) returns (even: nat)
    ensures even == if CountLow(masked, size) % 2 == 0 then 1 else 0
  {
    var x, i, p := masked, 0, 0;
    while i < size
      invariant 0 <= i <= size
      invariant p + CountLow(x, size - i) == CountLow(masked, size)
    {
      if x % 2 == 1 {
        p := p + 1;
      }
      x := x / 2;
      i := i + 1;
    }
    even := if p % 2 == 0 then 1 else 0;
  }

  /** The routine as written, for any `int`: its mask is a logical `&&`, so it only tells zero from non-zero. */
  method Parity2(inp: int, size: nat) returns (even: nat)
    ensures even == if inp == 0 || size == 0 then 1 else 0
  {
    Parity2AsWritten(inp, size);
    even := ShiftLoop(LogicalAnd(inp, Pow2(size) - 1), size);
  }

  /** The routine with the mask meant bitwise, which keeps the low bits: it decides whether their count is even. */
  method Parity2Meant(inp: int, size: nat) returns (even: nat)
    ensures even == if PopCount(LowBits(inp, size)) % 2 == 0 then 1 else 0
  {
    Parity2AsMeant(inp, size);
    even := ShiftLoop(LowBits(inp, size), size);
  }

  lemma MaskNonzero(size: nat)
    ensures Pow2(size) - 1 == 0 <==> size == 0
  {
  }

  lemma OneBit(size: nat)
    requires size > 0
    ensures PopCount(LowBits(1, size)) == 1
  {
    LowBitsOfZero(size - 1);
    assert LowBits(1, size) == 1 + 2 * LowBits(0, size - 1);
    BitFirst(1, 0);
  }

  lemma Parity2AsWritten(x: int, size: nat)
    ensures CountLow(LogicalAnd(x, Pow2(size) - 1), size) % 2 == 0 <==> x == 0 || size == 0
  {
    hide CountLow, Pow2, PopCount, LowBits;
    MaskNonzero(size);
    CountLowIsPopCount(0, size);
    CountLowIsPopCount(1, size);
    LowBitsOfZero(size);
    if size > 0 {
      OneBit(size);
    }
    assert PopCount(0) == 0 by { NoBits(); }
  }

  lemma {:induction false} LowBitsTwice(x: int, size: nat)
    ensures LowBits(LowBits(x, size), size) == LowBits(x, size)
    decreases size
  {
    if size != 0 {
      LowBitsTwice(x / 2, size - 1);
    }
  }

  /** The low bits are what the bitwise mask keeps, and the loop counts them. */
  lemma Parity2AsMeant(x: int, size: nat)
    ensures x >= 0 ==> And(x, Pow2(size) - 1) == LowBits(x, size)
    ensures CountLow(LowBits(x, size), size) == PopCount(LowBits(x, size))
  {
    if x >= 0 {
      AndLowMask(x, size);
    }
    CountLowIsPopCount(LowBits(x, size), size);
    LowBitsTwice(x, size);
  }

  /**
   * The written routine agrees with the meant one exactly on values whose masked bits are odd in
   * number, on zero, and at width zero; so it is wrong on every other value, 3 for one.
   */
  lemma Parity2Agreement(x: int, size: nat)
    ensures (CountLow(LogicalAnd(x, Pow2(size) - 1), size) % 2 == 0 <==> CountLow(LowBits(x, size), size) % 2 == 0)
            <==> (x == 0 || size == 0 || PopCount(LowBits(x, size)) % 2 == 1)
  {
    Parity2AsWritten(x, size);
    Parity2AsMeant(x, size);
    LowBitsOfZero(size);
  }

  /** `cc.p` after an arithmetic instruction: the routine as written, on the low byte, 16 bits wide. */
  function ArithParity(x: byte): bool {
    CountLow(LogicalAnd(x, Pow2(16) - 1), 16) % 2 == 0
  }

  /** `cc.p` after a logic instruction: the bit count cut to the flag's single bit, so set when odd. */
  function LogicParity(x: byte): bool {
    PopCount(x) % 2 == 1
  }

  /** The two settings of the one flag agree exactly on the non-zero bytes with an even bit count. */
  lemma ParityFlagsCompared(x: byte)
    ensures ArithParity(x) <==> x == 0
    ensures ArithParity(x) == LogicParity(x) <==> x != 0 && PopCount(x) % 2 == 0
  {
    Parity2AsWritten(x, 16);
  }
}
