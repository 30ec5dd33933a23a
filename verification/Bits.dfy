/** Machine words as naturals. Every operator is defined on binary digits, so that the shifts, masks
    and unions of fixed-width integers can be reasoned about one bit at a time. */
module Bits {

  function Pow2(n: nat): (r: nat)
    ensures r >= 1
  {
    if n == 0 then 1 else 2 * Pow2(n - 1)
  }

  /** Binary digit `i` of `x`, least significant first. */
  predicate Bit(x: nat, i: nat) {
    if i == 0 then x % 2 == 1 else Bit(x / 2, i - 1)
  }

  function And(x: nat, y: nat): nat {
    if x == 0 then 0
    else 2 * And(x / 2, y / 2) + (if x % 2 == 1 && y % 2 == 1 then 1 else 0)
  }

  function Or(x: nat, y: nat): nat
    decreases x + y
  {
    if x == 0 && y == 0 then 0
    else 2 * Or(x / 2, y / 2) + (if x % 2 == 1 || y % 2 == 1 then 1 else 0)
  }

  /** Unbounded left shift; `Low(Shl(x, s), w)` is the shift of a `w`-bit machine word. */
  function Shl(x: nat, s: nat): nat {
    if s == 0 then x else 2 * Shl(x, s - 1)
  }

  function Shr(x: nat, s: nat): nat {
    if s == 0 then x else Shr(x / 2, s - 1)
  }

  /** The low `w` bits of `x`. */
  function Low(x: nat, w: nat): nat {
    if w == 0 then 0 else 2 * Low(x / 2, w - 1) + x % 2
  }

  /** The word with all `w` bits set. */
  function Ones(w: nat): nat {
    if w == 0 then 0 else 2 * Ones(w - 1) + 1
  }

  /** The `w`-bit complement. */
  function Not(x: nat, w: nat): nat {
    if w == 0 then 0 else 2 * Not(x / 2, w - 1) + (1 - x % 2)
  }

  lemma {:induction false} BitOfZero(i: nat)
    ensures !Bit(0, i)
  {
    if i > 0 { BitOfZero(i - 1); }
  }

  lemma {:induction false} BitAnd(x: nat, y: nat, i: nat)
    ensures Bit(And(x, y), i) == (Bit(x, i) && Bit(y, i))
    decreases x
  {
    if x == 0 {
      BitOfZero(i);
    } else if i > 0 {
      assert And(x, y) / 2 == And(x / 2, y / 2);
      BitAnd(x / 2, y / 2, i - 1);
    }
  }

  lemma HalfOf(h: nat, x: nat)
    requires 2 * h <= x <= 2 * h + 1
    ensures x / 2 == h
  {
  }

  lemma OrDigits(x: nat, y: nat)
    ensures Or(x, y) / 2 == Or(x / 2, y / 2) && (Or(x, y) % 2 == 1 <==> x % 2 == 1 || y % 2 == 1)
  {
    HalfOf(Or(x / 2, y / 2), Or(x, y));
  }

  lemma {:induction false} BitOr(x: nat, y: nat, i: nat)
    ensures Bit(Or(x, y), i) == (Bit(x, i) || Bit(y, i))
    decreases i
  {
    OrDigits(x, y);
    if i > 0 {
      BitOr(x / 2, y / 2, i - 1);
    }
  }

  lemma {:induction false} BitShl(x: nat, s: nat, i: nat)
    ensures Bit(Shl(x, s), i) == (i >= s && Bit(x, i - s))
  {
    if s > 0 && i > 0 {
      assert Shl(x, s) / 2 == Shl(x, s - 1);
      BitShl(x, s - 1, i - 1);
    }
  }

  lemma {:induction false} BitShr(x: nat, s: nat, i: nat)
    ensures Bit(Shr(x, s), i) == Bit(x, i + s)
  {
    if s > 0 { BitShr(x / 2, s - 1, i); }
  }

  lemma {:induction false} BitLow(x: nat, w: nat, i: nat)
    ensures Bit(Low(x, w), i) == (i < w && Bit(x, i))
  {
    if w == 0 {
      BitOfZero(i);
    } else if i > 0 {
      assert Low(x, w) / 2 == Low(x / 2, w - 1);
      BitLow(x / 2, w - 1, i - 1);
    }
  }

  lemma {:induction false} BitOnes(w: nat, i: nat)
    ensures Bit(Ones(w), i) == (i < w)
  {
    if w == 0 {
      BitOfZero(i);
    } else if i > 0 {
      assert Ones(w) / 2 == Ones(w - 1);
      BitOnes(w - 1, i - 1);
    }
  }

  lemma {:induction false} BitNot(x: nat, w: nat, i: nat)
    ensures Bit(Not(x, w), i) == (i < w && !Bit(x, i))
  {
    if w == 0 {
      BitOfZero(i);
    } else if i > 0 {
      assert Not(x, w) / 2 == Not(x / 2, w - 1);
      BitNot(x / 2, w - 1, i - 1);
    }
  }

  /** Words with the same binary digits are the same word. */
  lemma {:induction false} Extensional(x: nat, y: nat)
    requires forall i: nat :: Bit(x, i) == Bit(y, i)
    ensures x == y
    decreases x + y
  {
    assert Bit(x, 0) == Bit(y, 0);
    if x != 0 || y != 0 {
      forall i: nat ensures Bit(x / 2, i) == Bit(y / 2, i) {
        assert Bit(x, i + 1) == Bit(y, i + 1);
      }
      Extensional(x / 2, y / 2);
    }
  }

  lemma {:induction false} OnesIsPow2(w: nat)
    ensures Ones(w) + 1 == Pow2(w)
  {
    if w > 0 { OnesIsPow2(w - 1); }
  }

  lemma {:induction false} HighBitsZero(x: nat, w: nat, i: nat)
    requires x < Pow2(w) && i >= w
    ensures !Bit(x, i)
    decreases i
  {
    if w == 0 {
      BitOfZero(i);
    } else {
      HighBitsZero(x / 2, w - 1, i - 1);
    }
  }
}
