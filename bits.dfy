/**
 * Unsigned 32-bit arithmetic and the bitwise operators of C, stated on natural
 * numbers. A `uint32_t` of the firmware is a `u32`; `x & y`, `x | y`, `~x`,
 * `x << k`, `x * y` and `x - y` on `uint32_t` are `And`, `Or`, `Not32`,
 * `Shl32`, `Mul32` and `Sub32`. `Bit(x, i)` names bit `i` of `x`, and the lemmas
 * say what each operator does to the bits.
 */
module Bits {

  const WORD: nat := 0x1_0000_0000

  /** A `uint32_t`. */
  type u32 = x: nat | x < 0x1_0000_0000

  /** A `uint8_t`. */
  type u8 = x: nat | x < 0x100

  /** 2^n, the value of `1U << n` while it fits. */
  function Pow2(n: nat): (p: nat)
    ensures p >= 1
  {
    if n == 0 then 1 else 2 * Pow2(n - 1)
  }

  /** Bit `i` of `x`; bit 0 is the least significant. */
  function Bit(x: nat, i: nat): (b: nat)
    ensures b < 2
  {
    if i == 0 then x % 2 else Bit(x / 2, i - 1)
  }

  /** `x & y`, computed one bit at a time from the least significant bit. */
  function And(x: nat, y: nat): nat
    decreases x
  {
    if x == 0 || y == 0 then 0
    else 2 * And(x / 2, y / 2) + (if x % 2 == 1 && y % 2 == 1 then 1 else 0)
  }

  /** `x | y`, computed one bit at a time from the least significant bit. */
  function Or(x: nat, y: nat): nat
    decreases x + y
  {
    if x == 0 then y
    else if y == 0 then x
    else 2 * Or(x / 2, y / 2) + (if x % 2 == 1 || y % 2 == 1 then 1 else 0)
  }

  /** `~x` on 32 bits. */
  function Not32(x: u32): u32
  {
    WORD - 1 - x
  }

  /** `x * y` on `uint32_t`: the product wraps around modulo 2^32. */
  function Mul32(x: nat, y: nat): u32
  {
    (x * y) % WORD
  }

  /** `x - y` on `uint32_t`: the difference wraps around modulo 2^32. */
  function Sub32(x: nat, y: nat): u32
  {
    (x - y) % WORD
  }

  /** `x << k` on `uint32_t`: bits shifted past bit 31 are lost. */
  function Shl32(x: nat, k: nat): u32
  {
    (x * Pow2(k)) % WORD
  }

  /** The conversion of a `uint32_t` argument to a `uint8_t` parameter. */
  function Trunc8(x: nat): u8
  {
    x % 0x100
  }

  /** The powers of two the register layout uses. */
  lemma Pow2Table()
    ensures Pow2(1) == 2 && Pow2(2) == 4 && Pow2(3) == 8 && Pow2(4) == 16 && Pow2(5) == 32
    ensures Pow2(6) == 64 && Pow2(7) == 128 && Pow2(10) == 1024 && Pow2(11) == 2048
    ensures Pow2(12) == 4096 && Pow2(13) == 8192
    ensures Pow2(15) == 0x8000 && Pow2(16) == 0x1_0000 && Pow2(28) == 0x1000_0000
    ensures Pow2(30) == 0x4000_0000 && Pow2(31) == 0x8000_0000 && Pow2(32) == WORD
  {
    assert Pow2(1) == 0x2;
    assert Pow2(2) == 0x4;
    assert Pow2(3) == 0x8;
    assert Pow2(4) == 0x10;
    assert Pow2(5) == 0x20;
    assert Pow2(6) == 0x40;
    assert Pow2(7) == 0x80;
    assert Pow2(8) == 0x100;
    assert Pow2(9) == 0x200;
    assert Pow2(10) == 0x400;
    assert Pow2(11) == 0x800;
    assert Pow2(12) == 0x1000;
    assert Pow2(13) == 0x2000;
    assert Pow2(14) == 0x4000;
    assert Pow2(15) == 0x8000;
    assert Pow2(16) == 0x10000;
    assert Pow2(17) == 0x20000;
    assert Pow2(18) == 0x40000;
    assert Pow2(19) == 0x80000;
    assert Pow2(20) == 0x100000;
    assert Pow2(21) == 0x200000;
    assert Pow2(22) == 0x400000;
    assert Pow2(23) == 0x800000;
    assert Pow2(24) == 0x1000000;
    assert Pow2(25) == 0x2000000;
    assert Pow2(26) == 0x4000000;
    assert Pow2(27) == 0x8000000;
    assert Pow2(28) == 0x10000000;
    assert Pow2(29) == 0x20000000;
    assert Pow2(30) == 0x40000000;
    assert Pow2(31) == 0x80000000;
    assert Pow2(32) == 0x100000000;
  }

  lemma {:induction false} Pow2Monotone(m: nat, n: nat)
    requires m <= n
    ensures Pow2(m) <= Pow2(n)
  {
    if m < n {
      Pow2Monotone(m, n - 1);
    }
  }

  /** `1U << bit` for a bit of a 32-bit register. */
  lemma Pow2Fits(bit: nat)
    requires bit < 32
    ensures Pow2(bit) < WORD
  {
    Pow2Monotone(bit, 31);
    Pow2Table();
  }

  lemma {:induction false} BitOfZero(i: nat)
    ensures Bit(0, i) == 0
  {
    if i > 0 {
      BitOfZero(i - 1);
    }
  }

  /** The only bit set in 2^k is bit k. */
  lemma {:induction false} BitOfPow2(k: nat, i: nat)
    ensures Bit(Pow2(k), i) == if i == k then 1 else 0
  {
    if k == 0 {
      if i > 0 {
        BitOfZero(i - 1);
      }
    } else if i > 0 {
      assert Pow2(k) / 2 == Pow2(k - 1);
      BitOfPow2(k - 1, i - 1);
    }
  }

  /** Bit i of `x & y` is set exactly when it is set in both. */
  lemma {:induction false} BitOfAnd(x: nat, y: nat, i: nat)
    ensures Bit(And(x, y), i) == if Bit(x, i) == 1 && Bit(y, i) == 1 then 1 else 0
  {
    if x == 0 || y == 0 {
      BitOfZero(i);
    } else if i > 0 {
      assert And(x, y) / 2 == And(x / 2, y / 2);
      BitOfAnd(x / 2, y / 2, i - 1);
    }
  }

  /** Bit i of `x | y` is set exactly when it is set in either. */
  lemma {:induction false} BitOfOr(x: nat, y: nat, i: nat)
    ensures Bit(Or(x, y), i) == if Bit(x, i) == 1 || Bit(y, i) == 1 then 1 else 0
  {
    if x == 0 || y == 0 {
      BitOfZero(i);
    } else if i > 0 {
      assert Or(x, y) / 2 == Or(x / 2, y / 2);
      BitOfOr(x / 2, y / 2, i - 1);
    }
  }

  /** Below bit n, 2^n - 1 - x has exactly the bits x lacks. */
  lemma {:induction false} BitOfComplement(x: nat, n: nat, i: nat)
    requires x < Pow2(n) && i < n
    ensures Bit(Pow2(n) - 1 - x, i) == 1 - Bit(x, i)
  {
    if i > 0 {
      assert (Pow2(n) - 1 - x) / 2 == Pow2(n - 1) - 1 - x / 2;
      BitOfComplement(x / 2, n - 1, i - 1);
    }
  }

  /** Two n-bit numbers with the same n bits are equal. */
  lemma {:induction false} BitsDetermine(x: nat, y: nat, n: nat)
    requires x < Pow2(n) && y < Pow2(n)
    requires forall i :: 0 <= i < n ==> Bit(x, i) == Bit(y, i)
    ensures x == y
  {
    if n > 0 {
      assert Bit(x, 0) == Bit(y, 0);
      forall i | 0 <= i < n - 1
        ensures Bit(x / 2, i) == Bit(y / 2, i)
      {
        assert Bit(x, i + 1) == Bit(y, i + 1);
      }
      BitsDetermine(x / 2, y / 2, n - 1);
    }
  }

  /** `x | y` of two n-bit numbers is an n-bit number. */
  lemma {:induction false} OrBelow(x: nat, y: nat, n: nat)
    requires x < Pow2(n) && y < Pow2(n)
    ensures Or(x, y) < Pow2(n)
  {
    if x != 0 && y != 0 {
      OrBelow(x / 2, y / 2, n - 1);
    }
  }

  /** `x & y` never exceeds x. */
  lemma {:induction false} AndAtMost(x: nat, y: nat)
    ensures And(x, y) <= x
  {
    if x != 0 && y != 0 {
      AndAtMost(x / 2, y / 2);
    }
  }

  /** `x & (1 << k)` keeps bit k of x and nothing else. */
  lemma {:induction false} AndPow2(x: nat, k: nat)
    ensures And(x, Pow2(k)) == if Bit(x, k) == 1 then Pow2(k) else 0
  {
    if x == 0 {
      BitOfZero(k);
    } else if k == 0 {
      assert And(x, 1) == 2 * And(x / 2, 0) + (if x % 2 == 1 then 1 else 0);
    } else {
      var p := Pow2(k - 1);
      assert Pow2(k) == 2 * p;
      assert And(x, 2 * p) == 2 * And(x / 2, p);
      AndPow2(x / 2, k - 1);
    }
  }

  /** The mask `(1 << k) - 1` leaves every k-bit number as it is. */
  lemma {:induction false} AndLowMask(x: nat, k: nat)
    requires x < Pow2(k)
    ensures And(x, Pow2(k) - 1) == x
  {
    if x != 0 {
      assert (Pow2(k) - 1) / 2 == Pow2(k - 1) - 1;
      AndLowMask(x / 2, k - 1);
    }
  }

  /** `(x << k) | y` is `x * 2^k + y` when y fits in the k low bits. */
  lemma {:induction false} OrDisjoint(x: nat, y: nat, k: nat)
    requires y < Pow2(k)
    ensures Or(x * Pow2(k), y) == x * Pow2(k) + y
  {
    if k > 0 && x != 0 && y != 0 {
      var high := x * Pow2(k - 1);
      assert x * Pow2(k) == 2 * high;
      OrDisjoint(x, y / 2, k - 1);
      assert Or(2 * high, y) == 2 * Or(high, y / 2) + y % 2;
    }
  }

  /** A word made of a high part above bit 16 and a low part below it. */
  lemma SplitAt16(high: nat, low: nat)
    requires low < 0x1_0000
    ensures (high * 0x1_0000 + low) / 0x1_0000 == high
    ensures (high * 0x1_0000 + low) % 0x1_0000 == low
  {
  }

  /** A word made of a high part above bit 28 and a low part below it. */
  lemma SplitAt28(high: nat, low: nat)
    requires low < 0x1000_0000
    ensures (high * 0x1000_0000 + low) / 0x1000_0000 == high
    ensures (high * 0x1000_0000 + low) % 0x1000_0000 == low
  {
  }

  /** Or'ing a 15-bit value shifted to bit 16 with a 16-bit value places the
      two side by side. */
  lemma PackHalves(high: nat, low: nat)
    requires high < 0x8000 && low < 0x1_0000
    ensures Or(Shl32(high, 16), low) == high * 0x1_0000 + low
  {
    assert Pow2(16) == 0x1_0000 by {
      Pow2Table();
    }
    assert Shl32(high, 16) == high * 0x1_0000;
    OrDisjoint(high, low, 16);
  }

  /** A product below 2^32 does not wrap. */
  lemma Mul32NoWrap(x: nat, y: nat)
    requires x * y < WORD
    ensures Mul32(x, y) == x * y
  {
  }

  /** A difference that is not negative does not wrap. */
  lemma Sub32NoWrap(x: u32, y: u32)
    requires y <= x
    ensures Sub32(x, y) == x - y
  {
  }

  /** Truncating division by a positive divisor: the quotient is at most the
      dividend, and quotient times divisor falls within one divisor below it. */
  lemma DivBounds(a: nat, b: nat)
    requires b > 0
    ensures a / b <= a
    ensures (a / b) * b <= a < (a / b + 1) * b
  {
    var q := a / b;
    assert a == q * b + a % b;
    assert (q + 1) * b == q * b + b;
    MulAtLeast(q, b);
  }

  /** The quotient of a truncating division is at most the dividend. */
  lemma DivAtMost(a: nat, b: nat)
    requires b > 0
    ensures 0 <= a / b <= a
  {
    DivBounds(a, b);
  }

  /** Multiplying by a natural number keeps the order. */
  lemma MulMonotone(x: nat, y: nat, b: nat)
    requires x <= y
    ensures x * b <= y * b
  {
    assert y * b == x * b + (y - x) * b;
  }

  /** Dividing a multiple of a positive divisor gives back the multiplier. */
  lemma MulDivCancel(a: nat, b: nat)
    requires b > 0
    ensures (a * b) / b == a
  {
    var q := (a * b) / b;
    DivBounds(a * b, b);
    if q < a {
      MulMonotone(q + 1, a, b);
    } else if q > a {
      MulMonotone(a + 1, q, b);
    }
  }

  lemma {:induction false} MulAtLeast(q: nat, b: nat)
    requires b >= 1
    ensures q <= q * b
  {
    if b > 1 {
      MulAtLeast(q, b - 1);
      assert q * b == q * (b - 1) + q;
    }
  }
}
