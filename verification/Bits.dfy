/** Machine numbers as bounded integers, and C's bitwise operators on them. */
module Bits {
  type byte = x: int | 0 <= x < 0x100
  type word = x: int | 0 <= x < 0x1_0000

  function Pow2(n: nat): (r: nat)
    ensures r > 0
  {
    if n == 0 then 1 else 2 * Pow2(n - 1)
  }

  function And(x: nat, y: nat): (r: nat)
    ensures r <= x && r <= y
  {
    if x == 0 || y == 0 then 0
    else 2 * And(x / 2, y / 2) + if x % 2 == 1 && y % 2 == 1 then 1 else 0
  }

  function Or(x: nat, y: nat): (r: nat)
    ensures x <= r && y <= r && r <= x + y
  {
    if x == 0 then y else if y == 0 then x
    else 2 * Or(x / 2, y / 2) + if x % 2 == 1 || y % 2 == 1 then 1 else 0
  }

  function Xor(x: nat, y: nat): (r: nat)
    ensures r <= x + y
  {
    if x == 0 then y else if y == 0 then x
    else 2 * Xor(x / 2, y / 2) + if x % 2 != y % 2 then 1 else 0
  }

  function Shl(x: nat, n: nat): nat
  {
    if n == 0 then x else 2 * Shl(x, n - 1)
  }

  function Shr(x: nat, n: nat): nat
  {
    if n == 0 then x else Shr(x / 2, n - 1)
  }

  /** The value of the n lowest bits, of a negative number in two's complement. */
  function LowBits(x: int, n: nat): (r: nat)
    ensures r < Pow2(n)
    decreases n
  {
    if n == 0 then 0 else x % 2 + 2 * LowBits(x / 2, n - 1)
  }

  /** The n lowest bits are clear. */
  predicate Aligned(x: nat, n: nat)
  {
    n == 0 || (x % 2 == 0 && Aligned(x / 2, n - 1))
  }

  /** The unsigned 32-bit value a C `int` becomes when it is or-ed into a `uint32_t`. */
  function U32(x: int): nat { x % 0x1_0000_0000 }

  function Lo(x: int): byte { x % 0x100 }

  function Hi(x: int): byte { x / 0x100 % 0x100 }

  /** The number of set bits. */
  function PopCount(x: nat): (n: nat)
    ensures n <= x
    ensures x > 0 ==> n > 0
  {
    if x == 0 then 0 else x % 2 + PopCount(x / 2)
  }

  // ---- bitwise operators against arithmetic ----

  /** Or-ing a field into bits that are clear is addition. */
  lemma {:induction false} OrIsSum(x: nat, y: nat, n: nat)
    requires Aligned(x, n) && y < Pow2(n)
    ensures Or(x, y) == x + y && Or(y, x) == x + y
  {
    if x != 0 && y != 0 {
      OrIsSum(x / 2, y / 2, n - 1);
    }
  }

  lemma {:induction false} ProductAligned(x: nat, n: nat)
    ensures Aligned(Pow2(n) * x, n)
  {
    if n != 0 {
      assert Pow2(n) * x == 2 * (Pow2(n - 1) * x);
      ProductAligned(x, n - 1);
    }
  }

  /** A field of n bits below another number. */
  lemma OrField(x: nat, y: nat, n: nat, p: nat)
    requires p == Pow2(n) && y < p
    ensures Or(p * x, y) == p * x + y && Or(y, p * x) == p * x + y
  {
    ProductAligned(x, n);
    OrIsSum(p * x, y, n);
  }

  /** Or-ing into the n lowest bits leaves the rest alone. */
  lemma {:induction false} OrLow(a: nat, x: nat, y: nat, n: nat)
    requires x < Pow2(n) && y < Pow2(n)
    ensures Or(Pow2(n) * a + x, y) == Pow2(n) * a + Or(x, y)
    ensures Or(x, y) < Pow2(n)
  {
    if n != 0 {
      hide Or;
      var p := Pow2(n - 1);
      assert Pow2(n) * a == 2 * (p * a);
      OrLow(a, x / 2, y / 2, n - 1);
      var z := 2 * (p * a) + x;
      assert z / 2 == p * a + x / 2 && z % 2 == x % 2;
      OrStep(z, y);
      OrStep(x, y);
    }
  }

  lemma OrStep(x: nat, y: nat)
    ensures Or(x, y) == 2 * Or(x / 2, y / 2) + if x % 2 == 1 || y % 2 == 1 then 1 else 0
  {
  }

  lemma OrLowBits(a: nat, x: nat, y: nat, n: nat, p: nat)
    requires p == Pow2(n) && x < p && y < p
    ensures Or(p * a + x, y) == p * a + Or(x, y) && Or(x, y) < p
  {
    OrLow(a, x, y, n);
  }

  lemma {:induction false} OrShl(x: nat, y: nat, n: nat)
    ensures Or(Shl(x, n), Shl(y, n)) == Shl(Or(x, y), n)
  {
    if n != 0 {
      OrShl(x, y, n - 1);
      OrStep(Shl(x, n), Shl(y, n));
    }
  }

  lemma OrBytes(x: nat, y: nat)
    ensures Or(0x100 * x, 0x100 * y) == 0x100 * Or(x, y)
  {
    hide Or, Shl, Shr, LowBits;
    OrShl(x, y, 8);
    SplitByte(x);
    SplitByte(y);
    SplitByte(Or(x, y));
  }

  /** Masking with 2^n - 1 keeps the n lowest bits. */
  lemma {:induction false} AndLowMask(x: nat, n: nat)
    ensures And(x, Pow2(n) - 1) == LowBits(x, n)
  {
    if n != 0 {
      AndLowMask(x / 2, n - 1);
      LowBitsOfZero(n);
    }
  }

  lemma {:induction false} LowBitsOfZero(n: nat)
    ensures LowBits(0, n) == 0
  {
    if n != 0 {
      LowBitsOfZero(n - 1);
    }
  }

  /** The mask m shifted up by n bits selects the bits of x from n upwards. */
  lemma {:induction false} AndShl(x: nat, m: nat, n: nat)
    ensures And(x, Shl(m, n)) == Shl(And(Shr(x, n), m), n)
  {
    if n != 0 {
      AndShl(x / 2, m, n - 1);
      AndDouble(x, Shl(m, n - 1));
    }
  }

  lemma {:induction false} AndDouble(x: nat, y: nat)
    ensures And(x, 2 * y) == 2 * And(x / 2, y)
  {
    var z := 2 * y;
    assert z / 2 == y && z % 2 == 0;
    assert x / 2 == 0 || y == 0 ==> And(x / 2, y) == 0;
  }

  /** A number is its n lowest bits and the rest, shifted. */
  lemma {:induction false} Split(x: nat, n: nat)
    ensures x == LowBits(x, n) + Shl(Shr(x, n), n)
  {
    if n != 0 {
      Split(x / 2, n - 1);
    }
  }

  lemma {:induction false} ShlIsProduct(x: nat, n: nat)
    ensures Shl(x, n) == Pow2(n) * x
  {
    if n != 0 {
      ShlIsProduct(x, n - 1);
    }
  }

  lemma ShlBy(x: nat, n: nat, p: nat)
    requires p == Pow2(n)
    ensures Shl(x, n) == p * x
  {
    ShlIsProduct(x, n);
  }

  lemma SplitByte(x: nat)
    ensures LowBits(x, 8) == x % 0x100
    ensures Shr(x, 8) == x / 0x100
    ensures Shl(x, 8) == x * 0x100
  {
    hide LowBits, Shr, Shl;
    Split(x, 8);
    assert Pow2(8) == 0x100;
    ShlIsProduct(x, 8);
    ShlIsProduct(Shr(x, 8), 8);
  }

  lemma AndLowByte(x: nat)
    ensures And(x, 0xFF) == x % 0x100
  {
    hide LowBits, And;
    assert Pow2(8) == 0x100;
    AndLowMask(x, 8);
    SplitByte(x);
  }

  lemma AndHighByte(x: nat)
    ensures And(x, 0xFF00) == 0x100 * (x / 0x100 % 0x100)
  {
    hide LowBits, Shr, Shl, And;
    SplitByte(0xFF);
    AndShl(x, 0xFF, 8);
    SplitByte(x);
    AndLowByte(x / 0x100);
    SplitByte(x / 0x100 % 0x100);
  }

  /** The halves of a number kept in 16 bits. */
  lemma HalvesWrap(x: int)
    ensures Hi(x % 0x1_0000) == Hi(x) && Lo(x % 0x1_0000) == Lo(x)
  {
    var q, r := x / 0x1_0000, x % 0x1_0000;
    assert x == 0x100 * (0x100 * q) + r;
    DivideSum(r, 0x100 * q, 0x100);
    assert x / 0x100 == 0x100 * q + r / 0x100;
    DivideSum(r / 0x100, q, 0x100);
  }

  lemma DivideSum(r: int, q: int, n: int)
    requires n == 0x100
    ensures (n * q + r) / n == q + r / n && (n * q + r) % n == r % n
  {
  }
}
