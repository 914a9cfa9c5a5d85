/** Division facts shared by the modules that index modulo a capacity or count blocks. */
module Residues {

  function Min(a: int, b: int): int { if a < b then a else b }

  /** Ceiling division, `(x + y - 1) // y`. */
  function CeilDiv(x: nat, y: nat): nat
    requires y > 0
  {
    (x + y - 1) / y
  }

  /** Quotient and remainder are determined by the division equation. */
  lemma QuotientUnique(n: int, d: nat, q: int, r: nat)
    requires d > 0 && n == d * q + r && r < d
    ensures n % d == r && n / d == q
  {
    var q', r' := n / d, n % d;
    assert n == d * q' + r';
    if q > q' {
      MulStep(d, q, q');
    } else if q < q' {
      MulStep(d, q', q);
    }
  }

  lemma MulStep(d: nat, a: int, b: int)
    requires a > b
    ensures d * a >= d * b + d
  {
    MulPlus(d, b, a - b);
    MulPlus(d, a - b - 1, 1);
  }

  lemma MulPlus(d: nat, a: int, b: int)
    ensures d * (a + b) == d * a + d * b
    ensures a >= 0 ==> d * a >= 0
  {
  }

  lemma ModDistinct(a: nat, b: nat, c: nat)
    requires c > 0 && a < b < a + c
    ensures a % c != b % c
  {
    if a % c == b % c {
      var q, r := a / c, a % c;
      assert b == c * (b / c) + r && a == c * q + r;
      if b / c > q {
        MulStep(c, b / c, q);
      } else if b / c < q {
        MulStep(c, q, b / c);
      }
    }
  }

  lemma ModWraps(a: nat, c: nat)
    requires c > 0
    ensures (a + c) % c == a % c
  {
    assert a == c * (a / c) + a % c;
    assert a + c == c * (a / c + 1) + a % c;
    QuotientUnique(a + c, c, a / c + 1, a % c);
  }

  lemma ModSucc(n: nat, c: nat)
    requires c > 0
    ensures (n % c + 1) % c == (n + 1) % c
  {
    var q, r := n / c, n % c;
    assert n + 1 == c * q + r + 1;
    if r + 1 < c {
      QuotientUnique(n + 1, c, q, r + 1);
      QuotientUnique(r + 1, c, 0, r + 1);
    } else {
      QuotientUnique(n + 1, c, q + 1, 0);
      QuotientUnique(c, c, 1, 0);
    }
  }

  /** Ceiling division counts how many y's are needed to cover x. */
  lemma CeilDivCovers(x: nat, y: nat, q: nat)
    requires y > 0
    ensures CeilDiv(x, y) <= q <==> x <= y * q
  {
    var n := x + y - 1;
    var c := n / y;
    assert n == y * c + n % y;
    if c < q {
      MulStep(y, q, c);
    } else if c > q {
      MulStep(y, c, q);
    }
  }

  lemma MulMonotone(d: nat, a: int, b: int)
    requires a <= b
    ensures d * a <= d * b
  {
    if a < b {
      MulStep(d, b, a);
    }
  }

  /** size * k, kept as a function so that proofs about block boundaries stay linear. */
  function Span(size: nat, k: nat): nat { size * k }

  lemma SpanStep(size: nat, k: nat)
    ensures Span(size, k + 1) == Span(size, k) + size
    ensures Span(size, 0) == 0
  {
  }

  lemma SpanMonotone(size: nat, k: nat, n: nat)
    requires k <= n
    ensures Span(size, k) <= Span(size, n)
    ensures size > 0 && k < n ==> Span(size, k) + size <= Span(size, n)
  {
    MulMonotone(size, k, n);
    if k < n {
      MulStep(size, n, k);
    }
  }

  /** How many whole blocks fit into n tokens. */
  function WholeBlocks(size: nat, n: nat): nat
    requires size > 0
  {
    n / size
  }

  /** Division by the block size finds the block whose span contains a position. */
  lemma DivSpan(size: nat, x: nat, k: nat)
    requires size > 0
    ensures k <= WholeBlocks(size, x) <==> Span(size, k) <= x
  {
    var q := x / size;
    assert x == size * q + x % size;
    if k <= q {
      MulMonotone(size, k, q);
    } else {
      MulStep(size, k, q);
    }
  }

  lemma WholeBlocksMonotone(size: nat, a: nat, b: nat)
    requires size > 0 && a <= b
    ensures WholeBlocks(size, a) <= WholeBlocks(size, b)
  {
    hide WholeBlocks, Span;
    DivSpan(size, b, WholeBlocks(size, a));
    DivSpan(size, a, WholeBlocks(size, a));
  }

  lemma WholeBlocksOfSpan(size: nat, k: nat)
    requires size > 0
    ensures WholeBlocks(size, Span(size, k)) == k
  {
    QuotientUnique(Span(size, k), size, k, 0);
  }
}
