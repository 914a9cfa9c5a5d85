/** Bitwise operators on unbounded naturals.
    The C++ templates mask indices with `n & (capacity - 1)`. Working on naturals keeps the proofs inductive on
    the binary digits and free of machine bit-vectors. */
module Bits {
  import Residues

  /** n & m */
  function And(n: nat, m: nat): nat
    decreases n
  {
    if n == 0 then 0 else (if n % 2 == 1 && m % 2 == 1 then 1 else 0) + 2 * And(n / 2, m / 2)
  }

  /** The test `(c & (c - 1)) == 0` that the code uses to recognise powers of two (for c > 0). */
  predicate PowerOfTwo(c: nat) {
    c > 0 && And(c, c - 1) == 0
  }

  /** n >> k */
  function ShiftRight(n: nat, k: nat): nat {
    if k == 0 then n else ShiftRight(n / 2, k - 1)
  }

  function Pow2(k: nat): (p: nat)
    ensures p > 0
  {
    if k == 0 then 1 else 2 * Pow2(k - 1)
  }

  lemma {:induction false} AndSelf(n: nat)
    ensures And(n, n) == n
  {
    if n > 0 {
      AndSelf(n / 2);
    }
  }

  lemma {:induction false} AndZero(n: nat)
    ensures And(n, 0) == 0
  {
    if n > 0 {
      AndZero(n / 2);
    }
  }

  /** A recognised power of two is 1 or an even number whose half is again recognised. */
  lemma PowerOfTwoHalves(c: nat)
    requires PowerOfTwo(c)
    ensures c == 1 || (c % 2 == 0 && PowerOfTwo(c / 2))
  {
    if c % 2 == 1 {
      assert (c - 1) / 2 == c / 2;
      AndSelf(c / 2);
    } else {
      assert (c - 1) / 2 == c / 2 - 1;
    }
  }

  /** Masking with a power of two minus one is the remainder. */
  lemma {:induction false} AndMask(n: nat, c: nat)
    requires PowerOfTwo(c)
    ensures And(n, c - 1) == n % c
    decreases c
  {
    PowerOfTwoHalves(c);
    hide And, PowerOfTwo;
    if c == 1 {
      AndZero(n);
    } else {
      AndMask(n / 2, c / 2);
      MaskDouble(n, c / 2);
      assert c == 2 * (c / 2);
    }
  }

  lemma MaskDouble(n: nat, d: nat)
    requires d > 0 && And(n / 2, d - 1) == (n / 2) % d
    ensures And(n, 2 * d - 1) == n % (2 * d)
  {
    hide And;
    AndOddMask(n, d - 1);
    ModDouble(n, d);
  }

  lemma AndOddMask(n: nat, m: nat)
    ensures And(n, 2 * m + 1) == n % 2 + 2 * And(n / 2, m)
  {
    var w := 2 * m + 1;
    assert w % 2 == 1 && w / 2 == m;
  }

  lemma ModDouble(n: nat, d: nat)
    requires d > 0
    ensures n % (2 * d) == n % 2 + 2 * ((n / 2) % d)
  {
    var h := n / 2;
    var r := n % 2 + 2 * (h % d);
    var q := h / d;
    assert h == d * q + h % d;
    assert n == (2 * d) * q + r;
    Residues.QuotientUnique(n, 2 * d, q, r);
  }

  /** Doubling keeps the power-of-two test true. */
  lemma PowerOfTwoDouble(c: nat)
    requires PowerOfTwo(c)
    ensures PowerOfTwo(2 * c)
  {
    assert (2 * c - 1) / 2 == c - 1;
    assert (2 * c) / 2 == c;
  }

  /** A shift divides by a power of two. */
  lemma {:induction false} ShiftIsDivision(n: nat, k: nat)
    ensures ShiftRight(n, k) == n / Pow2(k)
    decreases k
  {
    if k > 0 {
      ShiftIsDivision(n / 2, k - 1);
      HalvedFirst(n, Pow2(k - 1));
    }
  }

  lemma HalvedFirst(n: nat, p: nat)
    requires p > 0
    ensures n / 2 / p == n / (2 * p)
  {
    var q, r := n / 2 / p, n / 2 % p;
    assert n / 2 == p * q + r;
    assert n == (2 * p) * q + (2 * r + n % 2);
    hide *;
    Residues.QuotientUnique(n, 2 * p, q, 2 * r + n % 2);
  }

  /** The test accepts every power of two, so `Setup` never takes the slow path for one. */
  lemma {:induction false} Pow2IsPowerOfTwo(k: nat)
    ensures PowerOfTwo(Pow2(k))
  {
    if k == 0 {
      assert And(1, 0) == 0 by { AndZero(1); }
    } else {
      Pow2IsPowerOfTwo(k - 1);
      PowerOfTwoDouble(Pow2(k - 1));
    }
  }
}
