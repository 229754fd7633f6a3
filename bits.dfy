/** Non-negative integers seen as strings of binary digits: bit `i` of a
    value, and the bitwise OR and AND that C++ computes on unsigned and
    non-negative operands. Bitwise operators never carry, so a result is no
    wider than its widest operand (BitOrWithinWidth); the model can therefore
    use unbounded naturals for 32-bit flag words. */
module Bits {
  /** Bit `i` of `x` (bit 0 is the least significant). */
  predicate Bit(x: nat, i: nat)
  {
    if i == 0 then x % 2 == 1 else Bit(x / 2, i - 1)
  }

  /** 2 to the power `k`. */
  function Pow2(k: nat): (p: nat)
    ensures p >= 1
  {
    if k == 0 then 1 else 2 * Pow2(k - 1)
  }

  /** Zero has no bit set. */
  lemma {:induction false} ZeroHasNoBits()
    ensures forall i: nat :: !Bit(0, i)
  {
    forall i: nat ensures !Bit(0, i) { ZeroBit(i); }
  }

  lemma {:induction false} ZeroBit(i: nat)
    ensures !Bit(0, i)
  {
    if i > 0 { ZeroBit(i - 1); }
  }

  /** Bitwise OR, digit by digit from the least significant. */
  function BitOr(a: nat, b: nat): (r: nat)
    decreases a + b
    ensures forall i: nat :: Bit(r, i) <==> Bit(a, i) || Bit(b, i)
  {
    if a == 0 && b == 0 then 0
    else 2 * BitOr(a / 2, b / 2) + (if a % 2 == 1 || b % 2 == 1 then 1 else 0)
  }

  /** Bitwise AND, digit by digit from the least significant. */
  function BitAnd(a: nat, b: nat): (r: nat)
    decreases a + b
    ensures forall i: nat :: Bit(r, i) <==> Bit(a, i) && Bit(b, i)
  {
    if a == 0 || b == 0 then ZeroHasNoBits(); 0
    else 2 * BitAnd(a / 2, b / 2) + (if a % 2 == 1 && b % 2 == 1 then 1 else 0)
  }

  /** Two values with the same bits are equal. */
  lemma {:induction false} BitsDetermineValue(x: nat, y: nat)
    requires forall i: nat :: Bit(x, i) == Bit(y, i)
    ensures x == y
    decreases x + y
  {
    if x != 0 || y != 0 {
      assert Bit(x, 0) == Bit(y, 0);
      forall i: nat ensures Bit(x / 2, i) == Bit(y / 2, i) {
        assert Bit(x, i + 1) == Bit(y, i + 1);
      }
      BitsDetermineValue(x / 2, y / 2);
    }
  }

  /** OR of two `k`-bit values is a `k`-bit value. */
  lemma {:induction false} BitOrWithinWidth(a: nat, b: nat, k: nat)
    requires a < Pow2(k) && b < Pow2(k)
    ensures BitOr(a, b) < Pow2(k)
  {
    if k > 0 && (a != 0 || b != 0) {
      BitOrWithinWidth(a / 2, b / 2, k - 1);
    }
  }

  /** AND never exceeds either operand. */
  lemma {:induction false} BitAndAtMost(a: nat, b: nat)
    ensures BitAnd(a, b) <= a && BitAnd(a, b) <= b
    decreases a + b
  {
    if a != 0 && b != 0 {
      BitAndAtMost(a / 2, b / 2);
    }
  }
}
