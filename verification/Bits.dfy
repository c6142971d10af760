/** Machine words as naturals: shifts, single bits, and the two bit-scan builtins. */
module Bits {

  /** x >> d */
  function Shr(x: nat, d: int): nat
    decreases d
  {
    if d <= 0 then x else Shr(x, d - 1) / 2
  }

  /** x & (1 << d), as a truth value */
  predicate Bit(x: nat, d: int) {
    Shr(x, d) % 2 == 1
  }

  /** x | (1 << i) */
  function SetBit(x: nat, i: nat): nat {
    if i == 0 then x - x % 2 + 1 else 2 * SetBit(x / 2, i - 1) + x % 2
  }

  /** x & ~(1 << i) */
  function ClearBit(x: nat, i: nat): nat {
    if i == 0 then x - x % 2 else 2 * ClearBit(x / 2, i - 1) + x % 2
  }

  /** __builtin_ctz */
  function Ctz(x: nat): nat
    requires x > 0
  {
    if x % 2 == 1 then 0 else 1 + Ctz(x / 2)
  }

  /** 31 - __builtin_clz(x) */
  function Msb(x: nat): nat
    requires x > 0
  {
    if x == 1 then 0 else 1 + Msb(x / 2)
  }

  lemma {:induction false} ShrHalf(x: nat, d: int)
    requires d > 0
    ensures Shr(x, d) == Shr(x / 2, d - 1)
  {
    if d > 1 {
      ShrHalf(x, d - 1);
    }
  }

  lemma {:induction false} ShrMonotone(x: nat, y: nat, d: int)
    requires x <= y
    ensures Shr(x, d) <= Shr(y, d)
    decreases d
  {
    if d > 0 {
      ShrMonotone(x, y, d - 1);
    }
  }

  lemma {:induction false} ShrZero(d: int)
    ensures Shr(0, d) == 0
    decreases d
  {
    if d > 0 {
      ShrZero(d - 1);
    }
  }

  lemma {:induction false} ShrLe(x: nat, d: int)
    ensures Shr(x, d) <= x
    decreases d
  {
    if d > 0 {
      ShrLe(x, d - 1);
    }
  }

  lemma {:induction false} ShrShr(x: nat, a: nat, b: nat)
    ensures Shr(Shr(x, a), b) == Shr(x, a + b)
    decreases b
  {
    if b > 0 {
      ShrShr(x, a, b - 1);
    }
  }

  lemma {:induction false} BitOfSetBit(x: nat, i: nat, j: nat)
    ensures Bit(SetBit(x, i), j) <==> i == j || Bit(x, j)
    decreases i
  {
    var y := SetBit(x, i);
    if j > 0 {
      ShrHalf(x, j);
      ShrHalf(y, j);
      if i == 0 {
        assert y / 2 == x / 2;
      } else {
        assert y / 2 == SetBit(x / 2, i - 1);
        BitOfSetBit(x / 2, i - 1, j - 1);
      }
    }
  }

  lemma {:induction false} BitOfClearBit(x: nat, i: nat, j: nat)
    ensures Bit(ClearBit(x, i), j) <==> i != j && Bit(x, j)
    decreases i
  {
    var y := ClearBit(x, i);
    if j > 0 {
      ShrHalf(x, j);
      ShrHalf(y, j);
      if i == 0 {
        assert y / 2 == x / 2;
      } else {
        assert y / 2 == ClearBit(x / 2, i - 1);
        BitOfClearBit(x / 2, i - 1, j - 1);
      }
    }
  }

  lemma {:induction false} CtzIsLowestBit(x: nat)
    requires x > 0
    ensures Bit(x, Ctz(x))
    ensures forall j :: 0 <= j < Ctz(x) ==> !Bit(x, j)
  {
    if x % 2 == 0 {
      CtzIsLowestBit(x / 2);
      ShrHalf(x, Ctz(x));
      forall j | 0 <= j < Ctz(x)
        ensures !Bit(x, j)
      {
        if j > 0 {
          ShrHalf(x, j);
          assert !Bit(x / 2, j - 1);
        }
      }
    }
  }

  lemma {:induction false} MsbShift(x: nat)
    requires x > 0
    ensures Shr(x, Msb(x)) == 1
  {
    if x > 1 {
      MsbShift(x / 2);
      ShrHalf(x, Msb(x));
    }
  }

  lemma {:induction false} MsbMonotone(x: nat, y: nat)
    requires 0 < x <= y
    ensures Msb(x) <= Msb(y)
  {
    if x > 1 {
      MsbMonotone(x / 2, y / 2);
    }
  }
}
