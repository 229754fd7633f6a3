/** The state(s) of a button: a flag enumeration whose enumerators are
    single bits of the underlying integer, combined with bitwise `|` and `&`
    on that integer. */
module KeyStateFlags {
  import opened Bits

  /** A key state is its underlying (non-negative) integer: combinations such
      as `pressed | down` are values of the type without being enumerators. */
  type KeyState = nat

  const None: KeyState := 0x00
  const Pressed: KeyState := 0x01
  const Down: KeyState := 0x02
  const Released: KeyState := 0x04

  /** `a | b`: the bitwise OR of the underlying values. */
  function Or(a: KeyState, b: KeyState): (r: KeyState)
    ensures forall i: nat :: Bit(r, i) <==> Bit(a, i) || Bit(b, i)
  {
    BitOr(a, b)
  }

  /** `a & b`: the bitwise AND of the underlying values. */
  function And(a: KeyState, b: KeyState): (r: KeyState)
    ensures forall i: nat :: Bit(r, i) <==> Bit(a, i) && Bit(b, i)
  {
    BitAnd(a, b)
  }

  /** `a |= b` assigns `a | b` to `a` and returns a reference to `a`: the
      value handed back is the new value of `a`, which keeps every bit of
      the old `a` and gains every bit of `b`. */
  function OrAssign(a: KeyState, b: KeyState): (newA: KeyState)
    ensures newA == Or(a, b)
    ensures forall i: nat :: Bit(a, i) ==> Bit(newA, i)
    ensures forall i: nat :: Bit(b, i) ==> Bit(newA, i)
  {
    Or(a, b)
  }

  /** `a &= b` assigns `a & b` to `a` and returns a reference to `a`: the
      new `a` keeps exactly those old bits that `b` also has. */
  function AndAssign(a: KeyState, b: KeyState): (newA: KeyState)
    ensures newA == And(a, b)
    ensures forall i: nat :: Bit(newA, i) <==> Bit(a, i) && Bit(b, i)
  {
    And(a, b)
  }

  /** `none` has no bit; `pressed`, `down` and `released` are bits 0, 1
      and 2, so any two of them have nothing in common. */
  lemma EnumeratorsAreDisjointBits()
    ensures forall i: nat :: !Bit(None, i)
    ensures forall i: nat :: Bit(Pressed, i) <==> i == 0
    ensures forall i: nat :: Bit(Down, i) <==> i == 1
    ensures forall i: nat :: Bit(Released, i) <==> i == 2
    ensures And(Pressed, Down) == None && And(Pressed, Released) == None && And(Down, Released) == None
  {
    ZeroHasNoBits();
    forall i: nat
      ensures Bit(Pressed, i) <==> i == 0
      ensures Bit(Down, i) <==> i == 1
      ensures Bit(Released, i) <==> i == 2
    {
      if i >= 3 {
        assert Bit(Pressed, i) == Bit(0, i - 1);
        assert Bit(Down, i) == Bit(0, i - 2);
        assert Bit(Released, i) == Bit(2, i - 1) == Bit(1, i - 2) == Bit(0, i - 3);
      }
    }
  }

  /** `|` is commutative, associative and idempotent, with `none` as its
      identity. */
  lemma OrAlgebra(a: KeyState, b: KeyState, c: KeyState)
    ensures Or(a, b) == Or(b, a)
    ensures Or(Or(a, b), c) == Or(a, Or(b, c))
    ensures Or(a, a) == a
    ensures Or(a, None) == a && Or(None, a) == a
  {
    ZeroHasNoBits();
    BitsDetermineValue(Or(a, b), Or(b, a));
    BitsDetermineValue(Or(Or(a, b), c), Or(a, Or(b, c)));
    BitsDetermineValue(Or(a, a), a);
    BitsDetermineValue(Or(a, None), a);
    BitsDetermineValue(Or(None, a), a);
  }

  /** `none` annihilates `&`. */
  lemma AndWithNone(a: KeyState)
    ensures And(a, None) == None && And(None, a) == None
  {
  }

  /** Absorption: `(a | b) & b == b` and `(a & b) | b == b`. */
  lemma Absorption(a: KeyState, b: KeyState)
    ensures And(Or(a, b), b) == b
    ensures Or(And(a, b), b) == b
  {
    BitsDetermineValue(And(Or(a, b), b), b);
    BitsDetermineValue(Or(And(a, b), b), b);
  }

  /** Every combination of the enumerators fits the three low bits, so the
      underlying integer's width never comes into play. */
  lemma CombinationsFitThreeBits(a: KeyState, b: KeyState)
    requires a < 8 && b < 8
    ensures Or(a, b) < 8 && And(a, b) < 8
  {
    assert Pow2(3) == 8;
    BitOrWithinWidth(a, b, 3);
    BitAndAtMost(a, b);
  }
}
