/** Bitwise operations on machine words, read as natural numbers. */
module Bits {

  /** The greatest machine address. */
  const USIZE_MAX: nat := 0xffff_ffff_ffff_ffff

  function Pow2(k: nat): (p: nat)
    ensures p >= 1
  {
    if k == 0 then 1 else 2 * Pow2(k - 1)
  }

  /** x & y */
  function And(x: nat, y: nat): nat {
    if x == 0 || y == 0 then 0
    else 2 * And(x / 2, y / 2) + if x % 2 == 1 && y % 2 == 1 then 1 else 0
  }

  /** x | y */
  function Or(x: nat, y: nat): nat
    decreases x + y
  {
    if x == 0 then y else if y == 0 then x
    else 2 * Or(x / 2, y / 2) + if x % 2 == 1 || y % 2 == 1 then 1 else 0
  }

  /** !x in words of `width` bits */
  function Not(x: nat, width: nat): nat
    requires x < Pow2(width)
  {
    Pow2(width) - 1 - x
  }

  /** The number of bits that are set. */
  function CountOnes(x: nat): nat {
    if x == 0 then 0 else CountOnes(x / 2) + x % 2
  }

  // ---------- multiples ----------

  lemma DivMod(a: nat, p: nat)
    requires p > 0
    ensures a == p * (a / p) + a % p && 0 <= a % p < p
  {
  }

  /** Different multiples are at least one `p` apart. */
  lemma Gap(p: nat, x: nat, y: nat)
    requires p > 0
    ensures if x < y then p * x + p <= p * y else p * x >= p * y
  {
    if x < y {
      Distributes(p, x, 1);
      Distributes(p, x + 1, y - x - 1);
    } else {
      Distributes(p, y, x - y);
    }
  }

  lemma Distributes(p: nat, x: nat, y: nat)
    ensures p * (x + y) == p * x + p * y
    ensures p * x >= 0 && p * y >= 0 && p * 1 == p
  {
  }

  // ---------- the masks that the code uses ----------

  lemma Halve(a: nat, p: nat)
    requires p >= 1
    ensures a % (2 * p) == 2 * (a / 2 % p) + a % 2
    ensures a / (2 * p) == a / 2 / p
  {
    var q, r := a / 2 / p, a / 2 % p;
    assert a / 2 == p * q + r;
    assert a == (2 * p) * q + (2 * r + a % 2);
    Quotient(a, 2 * p, q, 2 * r + a % 2);
  }

  lemma Quotient(a: nat, d: nat, q: nat, r: nat)
    requires r < d && a == d * q + r
    ensures a / d == q && a % d == r
  {
    var e := a / d - q;
    assert d * e == d * (a / d) - d * q == r - a % d;
  }

  lemma Pow2Square(k: nat, v: nat)
    requires Pow2(k) == v
    ensures Pow2(k + k) == v * v
  {
    Pow2Add(k, k);
  }

  lemma DoubleProduct(x: nat, y: nat)
    ensures x * (2 * y) == 2 * (x * y)
  {
  }

  lemma {:induction false} Pow2Add(j: nat, k: nat)
    ensures Pow2(j + k) == Pow2(j) * Pow2(k)
  {
    if k > 0 {
      Pow2Add(j, k - 1);
      assert Pow2(j + k) == 2 * Pow2(j + k - 1);
      DoubleProduct(Pow2(j), Pow2(k - 1));
    }
  }

  lemma AndDouble(a: nat, m: nat)
    ensures And(a, 2 * m) == 2 * And(a / 2, m)
  {
    assert 2 * m / 2 == m && 2 * m % 2 == 0;
  }

  lemma AndDoublePlusOne(a: nat, m: nat)
    ensures And(a, 2 * m + 1) == 2 * And(a / 2, m) + a % 2
  {
    assert (2 * m + 1) / 2 == m && (2 * m + 1) % 2 == 1;
  }

  lemma OrDouble(a: nat, m: nat)
    ensures Or(a, 2 * m) == 2 * Or(a / 2, m) + a % 2
  {
    assert 2 * m / 2 == m && 2 * m % 2 == 0;
  }

  lemma LowMaskStep(a: nat, p: nat, m: nat)
    requires p >= 1 && m == 2 * (p - 1) + 1 && And(a / 2, p - 1) == a / 2 % p
    ensures And(a, m) == a % (2 * p)
  {
    AndDoublePlusOne(a, p - 1);
    Halve(a, p);
  }

  /** Masking with the low `k` bits is the remainder. */
  lemma {:induction false} AndLowMask(a: nat, k: nat)
    ensures And(a, Pow2(k) - 1) == a % Pow2(k)
  {
    if k > 0 {
      AndLowMask(a / 2, k - 1);
      LowMaskStep(a, Pow2(k - 1), Pow2(k) - 1);
    }
  }

  lemma BitStep(a: nat, p: nat)
    requires p >= 1 && And(a / 2, p) == if a / 2 / p % 2 == 1 then p else 0
    ensures And(a, 2 * p) == if a / (2 * p) % 2 == 1 then 2 * p else 0
  {
    AndDouble(a, p);
    Halve(a, p);
  }

  /** Masking with bit `k` alone tests it. */
  lemma {:induction false} AndBit(a: nat, k: nat)
    ensures And(a, Pow2(k)) == if a / Pow2(k) % 2 == 1 then Pow2(k) else 0
  {
    if k == 0 {
      AndDoublePlusOne(a, 0);
    } else {
      AndBit(a / 2, k - 1);
      BitStep(a, Pow2(k - 1));
    }
  }

  lemma OrStep(a: nat, p: nat)
    requires p >= 1 && Or(a / 2, p) == if a / 2 / p % 2 == 1 then a / 2 else a / 2 + p
    ensures Or(a, 2 * p) == if a / (2 * p) % 2 == 1 then a else a + 2 * p
  {
    OrDouble(a, p);
    Halve(a, p);
  }

  /** Or-ing bit `k` in adds it unless it is there. */
  lemma {:induction false} OrBit(a: nat, k: nat)
    ensures Or(a, Pow2(k)) == if a / Pow2(k) % 2 == 1 then a else a + Pow2(k)
  {
    if k == 0 {
      assert Or(a / 2, 0) == a / 2;
    } else {
      OrBit(a / 2, k - 1);
      OrStep(a, Pow2(k - 1));
    }
  }

  lemma HighMaskStep(a: nat, p: nat, half: nat, m: nat)
    requires p >= 1 && m == 2 * half && And(a / 2, half) == a / 2 - a / 2 % p
    ensures And(a, m) == a - a % (2 * p)
  {
    AndDouble(a, half);
    Halve(a, p);
  }

  /** Masking with the complement of the low `k` bits rounds down to a multiple of 2^k. */
  lemma {:induction false} AndHighMask(a: nat, k: nat, width: nat)
    requires k <= width && a < Pow2(width)
    ensures Pow2(k) <= Pow2(width)
    ensures And(a, Not(Pow2(k) - 1, width)) == a - a % Pow2(k)
  {
    Pow2Grows(k, width);
    if k == 0 {
      AndAllOnes(a, width);
    } else {
      AndHighMask(a / 2, k - 1, width - 1);
      var half, m := Not(Pow2(k - 1) - 1, width - 1), Not(Pow2(k) - 1, width);
      HighMaskStep(a, Pow2(k - 1), half, m);
    }
  }

  lemma {:induction false} Pow2Grows(k: nat, width: nat)
    requires k <= width
    ensures Pow2(k) <= Pow2(width)
  {
    if k < width {
      Pow2Grows(k, width - 1);
    }
  }

  lemma {:induction false} AndAllOnes(a: nat, width: nat)
    requires a < Pow2(width)
    ensures And(a, Pow2(width) - 1) == a
  {
    if width > 0 && a > 0 {
      AndAllOnes(a / 2, width - 1);
      assert (Pow2(width) - 1) / 2 == Pow2(width - 1) - 1;
    }
  }

  /** A word with exactly one bit set is a power of two, and the other way round. */
  lemma {:induction false} OneBitIsPowerOfTwo(p: nat) returns (k: nat)
    requires CountOnes(p) == 1
    ensures p == Pow2(k)
  {
    if p % 2 == 1 {
      NoBits(p / 2);
      k := 0;
    } else {
      k := OneBitIsPowerOfTwo(p / 2);
      k := k + 1;
    }
  }

  lemma {:induction false} NoBits(x: nat)
    requires CountOnes(x) == 0
    ensures x == 0
  {
    if x > 0 {
      NoBits(x / 2);
    }
  }

  lemma {:induction false} PowerOfTwoHasOneBit(k: nat)
    ensures CountOnes(Pow2(k)) == 1
  {
    if k > 0 {
      PowerOfTwoHasOneBit(k - 1);
      var p := Pow2(k - 1);
      assert Pow2(k) == 2 * p && 2 * p / 2 == p && 2 * p % 2 == 0;
    }
  }
}
