/** The launch grid of the attention kernels: which program computes which query token and head. */
module QueryGrid {
  import opened Residues

  /** Rows handled by one program. */
  const BLOCK_M: nat := 16

  /** Query lengths accumulated over the sequences of a batch, starting at 0. */
  ghost predicate Cumulative(cu: seq<nat>) {
    |cu| > 0 && cu[0] == 0 && forall i, j :: 0 <= i <= j < |cu| ==> cu[i] <= cu[j]
  }

  /** First q-block reserved for sequence i. */
  function FirstBlock(cu: seq<nat>, i: nat, blockQ: nat): nat
    requires i < |cu| && blockQ > 0
  {
    cu[i] / blockQ + i
  }

  /** The key the binary search compares: q-block numbers or token numbers. */
  function Key(cu: seq<nat>, i: nat, blockQ: nat, byBlock: bool): nat
    requires i < |cu| && blockQ > 0
  {
    if byBlock then FirstBlock(cu, i, blockQ) else cu[i]
  }

  lemma DivMonotone(a: nat, b: nat, d: nat)
    requires d > 0 && a <= b
    ensures a / d <= b / d
  {
    var p, q := a / d, b / d;
    assert a == d * p + a % d && b == d * q + b % d;
    if q < p {
      MulStep(d, p, q);
    }
  }

  lemma KeysAscend(cu: seq<nat>, i: nat, j: nat, blockQ: nat, byBlock: bool)
    requires Cumulative(cu) && i <= j < |cu| && blockQ > 0
    ensures Key(cu, i, blockQ, byBlock) <= Key(cu, j, blockQ, byBlock)
  {
    DivMonotone(cu[i], cu[j], blockQ);
  }

  /** The binary search: the last sequence whose key is not beyond the target. */
  method FindSeqIdx(cu: seq<nat>, target: nat, numSeqs: nat, blockQ: nat, byBlock: bool) returns (idx: int)
    requires Cumulative(cu) && numSeqs < |cu| && blockQ > 0
    ensures -1 <= idx < numSeqs
    ensures idx >= 0 ==> Key(cu, idx, blockQ, byBlock) <= target
    ensures idx + 1 < numSeqs ==> target < Key(cu, idx + 1, blockQ, byBlock)
    ensures numSeqs > 0 ==> idx >= 0
    ensures numSeqs > 0 && byBlock ==> Owns(cu, numSeqs, target, idx, blockQ)
    ensures numSeqs > 0 && !byBlock && target < cu[numSeqs] ==> cu[idx] <= target < cu[idx + 1]
  {
    var left, right := 0, numSeqs;
    while left < right
      invariant 0 <= left <= right <= numSeqs
      invariant left > 0 ==> Key(cu, left - 1, blockQ, byBlock) <= target
      invariant right < numSeqs ==> target < Key(cu, right, blockQ, byBlock)
    {
      var mid := (left + right) / 2;
      if Key(cu, mid, blockQ, byBlock) <= target {
        left := mid + 1;
      } else {
        right := mid;
      }
    }
    idx := left - 1;
    if numSeqs > 0 && left == 0 {
      ZeroKey(cu, blockQ, byBlock);
    }
  }

  lemma ZeroKey(cu: seq<nat>, blockQ: nat, byBlock: bool)
    requires Cumulative(cu) && blockQ > 0
    ensures Key(cu, 0, blockQ, byBlock) == 0
  {
    QuotientUnique(0, blockQ, 0, 0);
  }

  /** The sequence a q-block program works on: what the search returns, as a property. */
  ghost predicate Owns(cu: seq<nat>, numSeqs: nat, g: nat, s: nat, blockQ: nat)
    requires numSeqs < |cu| && blockQ > 0
  {
    s < numSeqs && FirstBlock(cu, s, blockQ) <= g && (s + 1 < numSeqs ==> g < FirstBlock(cu, s + 1, blockQ))
  }

  lemma OwnerUnique(cu: seq<nat>, numSeqs: nat, g: nat, s: nat, s': nat, blockQ: nat)
    requires Cumulative(cu) && numSeqs < |cu| && blockQ > 0
    requires Owns(cu, numSeqs, g, s, blockQ) && Owns(cu, numSeqs, g, s', blockQ)
    ensures s == s'
  {
    if s < s' {
      KeysAscend(cu, s + 1, s', blockQ, true);
    } else if s' < s {
      KeysAscend(cu, s' + 1, s, blockQ, true);
    }
  }

  /** A number written with quotient q and remainder r over a base. */
  function Mixed(base: nat, q: nat, r: nat): nat { base * q + r }

  lemma MixedUnique(base: nat, q: nat, r: nat, q': nat, r': nat)
    requires r < base && r' < base && Mixed(base, q, r) == Mixed(base, q', r')
    ensures q == q' && r == r'
  {
    QuotientUnique(Mixed(base, q, r), base, q, r);
    QuotientUnique(Mixed(base, q, r), base, q', r');
  }

  lemma MixedSplit(base: nat, n: nat)
    requires base > 0
    ensures n == Mixed(base, n / base, n % base) && n % base < base
  {
  }

  /** Query tokens handled by one program. */
  function BlockQ(perKv: nat): (r: nat)
    requires 0 < perKv <= BLOCK_M
    ensures r > 0
  {
    BlockQPositive(perKv);
    BLOCK_M / perKv
  }

  function RowToken(perKv: nat, m: nat): nat
    requires perKv > 0
  {
    m / perKv
  }

  function RowHead(perKv: nat, m: nat): nat
    requires perKv > 0
  {
    m % perKv
  }

  ghost predicate Divides(perKv: nat) {
    0 < perKv <= BLOCK_M && BLOCK_M % perKv == 0
  }

  lemma BlockQPositive(perKv: nat)
    requires 0 < perKv <= BLOCK_M
    ensures BLOCK_M / perKv > 0
  {
    DivMonotone(perKv, BLOCK_M, perKv);
    QuotientUnique(perKv, perKv, 1, 0);
  }

  /** Program (g, kv) handles row m as token t and head h, with g owned by sequence s. This is the kernels' own
      arithmetic: the early return, the row split and the mask on the query length. */
  ghost predicate Handles(cu: seq<nat>, numSeqs: nat, perKv: nat, g: nat, kv: nat, m: nat, s: nat, t: nat, h: nat)
    requires numSeqs < |cu| && 0 < perKv <= BLOCK_M
  {
    var blockQ := BlockQ(perKv);
    && Owns(cu, numSeqs, g, s, blockQ)
    && m < BLOCK_M
    && var local := g - FirstBlock(cu, s, blockQ);
       var pos := Mixed(blockQ, local, RowToken(perKv, m));
       && cu[s] + Mixed(blockQ, local, 0) < cu[s + 1]
       && cu[s] + pos < cu[s + 1]
       && t == cu[s] + pos
       && h == Mixed(perKv, kv, RowHead(perKv, m))
  }

  /** Number of q-block programs launched. */
  function Launched(total: nat, numSeqs: nat, blockQ: nat): nat
    requires blockQ > 0
  {
    total / blockQ + numSeqs
  }

  // ---------- every token and head has a program ----------

  lemma SumOfQuotients(a: nat, b: nat, d: nat)
    requires d > 0
    ensures a / d + b / d <= (a + b) / d
  {
    var p, q, r := a / d, b / d, (a + b) / d;
    assert a == d * p + a % d && b == d * q + b % d && a + b == d * r + (a + b) % d;
    if r < p + q {
      MulStep(d, p + q, r);
      MulSplit(d, p, q);
    }
  }

  lemma MulSplit(d: int, p: int, q: int)
    ensures d * (p + q) == d * p + d * q
  {
  }

  /** The program of a token: the q-block of its offset inside its sequence. It lies before the next sequence's
      blocks and inside the launch grid, although the grid size is only an upper bound on the blocks needed. */
  lemma ProgramExists(cu: seq<nat>, numSeqs: nat, s: nat, t: nat, blockQ: nat)
    requires Cumulative(cu) && s < numSeqs < |cu| && blockQ > 0 && cu[s] <= t < cu[s + 1]
    ensures var g := FirstBlock(cu, s, blockQ) + (t - cu[s]) / blockQ;
            Owns(cu, numSeqs, g, s, blockQ) && g < Launched(cu[numSeqs], numSeqs, blockQ)
  {
    SumOfQuotients(cu[s], t - cu[s], blockQ);
    DivMonotone(t, cu[s + 1], blockQ);
    DivMonotone(cu[s + 1], cu[numSeqs], blockQ);
  }

  /** Row of a token offset and head offset inside a program, and back. */
  lemma RowSplit(perKv: nat, a: nat, b: nat)
    requires Divides(perKv) && a < BlockQ(perKv) && b < perKv
    ensures var m := Mixed(perKv, a, b); m < BLOCK_M && RowToken(perKv, m) == a && RowHead(perKv, m) == b
  {
    MixedSplit(perKv, BLOCK_M);
    MulStep(perKv, BlockQ(perKv), a);
    QuotientUnique(Mixed(perKv, a, b), perKv, a, b);
  }

  lemma RowJoin(perKv: nat, m: nat)
    requires Divides(perKv) && m < BLOCK_M
    ensures RowToken(perKv, m) < BlockQ(perKv) && RowHead(perKv, m) < perKv
    ensures m == Mixed(perKv, RowToken(perKv, m), RowHead(perKv, m))
  {
    MixedSplit(perKv, BLOCK_M);
    MixedSplit(perKv, m);
    if RowToken(perKv, m) >= BlockQ(perKv) {
      MulMonotone(perKv, BlockQ(perKv), RowToken(perKv, m));
    }
  }

  /** Every query token and head is handled by some launched program. */
  lemma Covered(cu: seq<nat>, numSeqs: nat, perKv: nat, kvHeads: nat, s: nat, t: nat, h: nat)
    returns (g: nat, kv: nat, m: nat)
    requires Cumulative(cu) && s < numSeqs < |cu| && cu[s] <= t < cu[s + 1]
    requires Divides(perKv) && h < Mixed(perKv, kvHeads, 0)
    ensures Handles(cu, numSeqs, perKv, g, kv, m, s, t, h)
    ensures g < Launched(cu[numSeqs], numSeqs, BlockQ(perKv)) && kv < kvHeads && m < BLOCK_M
    ensures var blockQ, off := BlockQ(perKv), t - cu[s];
            && g == FirstBlock(cu, s, blockQ) + off / blockQ && kv == h / perKv
            && m == Mixed(perKv, off % blockQ, h % perKv)
  {
    hide Mixed, BlockQ, RowToken, RowHead, Owns, Launched, FirstBlock, Cumulative;
    var blockQ, off := BlockQ(perKv), t - cu[s];
    var q, a, b := off / blockQ, off % blockQ, h % perKv;
    g, kv, m := FirstBlock(cu, s, blockQ) + q, h / perKv, Mixed(perKv, a, b);
    ProgramExists(cu, numSeqs, s, t, blockQ);
    RowSplit(perKv, a, b);
    MixedSplit(blockQ, off);
    MixedSplit(perKv, h);
    HeadInRange(perKv, h, kvHeads);
    MixedAtLeast(blockQ, q, a);
  }

  lemma HeadInRange(perKv: nat, h: nat, kvHeads: nat)
    requires perKv > 0 && h < Mixed(perKv, kvHeads, 0)
    ensures h / perKv < kvHeads
  {
    MixedSplit(perKv, h);
    if h / perKv >= kvHeads {
      MulMonotone(perKv, kvHeads, h / perKv);
    }
  }

  lemma MixedAtLeast(base: nat, q: nat, r: nat)
    ensures Mixed(base, q, 0) <= Mixed(base, q, r)
  {
  }

  lemma SequenceOfToken(cu: seq<nat>, s: nat, s': nat, t: nat)
    requires Cumulative(cu) && s + 1 < |cu| && s' + 1 < |cu|
    requires cu[s] <= t < cu[s + 1] && cu[s'] <= t < cu[s' + 1]
    ensures s == s'
  {
  }

  /** Only one program, head program and row handle a given query token and head. */
  lemma HandledOnce(cu: seq<nat>, numSeqs: nat, perKv: nat, t: nat, h: nat,
                    g: nat, kv: nat, m: nat, s: nat, g': nat, kv': nat, m': nat, s': nat)
    requires Cumulative(cu) && numSeqs < |cu| && Divides(perKv)
    requires Handles(cu, numSeqs, perKv, g, kv, m, s, t, h) && Handles(cu, numSeqs, perKv, g', kv', m', s', t, h)
    ensures g == g' && kv == kv' && m == m' && s == s'
  {
    hide Mixed, BlockQ, RowToken, RowHead, FirstBlock;
    var blockQ := BlockQ(perKv);
    RowJoin(perKv, m);
    RowJoin(perKv, m');
    SequenceOfToken(cu, s, s', t);
    var first := FirstBlock(cu, s, blockQ);
    MixedUnique(blockQ, g - first, RowToken(perKv, m), g' - first, RowToken(perKv, m'));
    MixedUnique(perKv, kv, RowHead(perKv, m), kv', RowHead(perKv, m'));
  }

  /** Where the number of heads per key head does not divide the rows of a program, the last rows spill into the
      next program's tokens: for every such number some token and head is handled twice. */
  lemma NotDividingOverlaps(perKv: nat) returns (cu: seq<nat>)
    requires 0 < perKv <= BLOCK_M && !Divides(perKv)
    ensures Cumulative(cu) && |cu| == 2
    ensures Handles(cu, 1, perKv, 0, 0, Mixed(perKv, BlockQ(perKv), 0), 0, BlockQ(perKv), 0)
    ensures Handles(cu, 1, perKv, 1, 0, 0, 0, BlockQ(perKv), 0)
  {
    var n := BlockQ(perKv);
    cu := [0, n + 1];
    MixedSplit(perKv, BLOCK_M);
    QuotientUnique(Mixed(perKv, n, 0), perKv, n, 0);
    QuotientUnique(0, perKv, 0, 0);
    QuotientUnique(0, n, 0, 0);
  }
}
