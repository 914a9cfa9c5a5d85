/** Block ids: each full block of tokens is hashed together with the id of the block before it, so an id stands for
    the whole token prefix that ends with its block. */
module ChainedHash {
  import opened Residues

  type Token = int

  /** Ids are opaque: nothing but their equality is used. Having a value for each thing that is hashed shows that the
      digests assumed to be free of collisions exist. */
  datatype BlockId =
    | Raw(bytes: seq<nat>)
    | Digest(parent: BlockId, tokens: seq<Token>)
    | Rehashed(rank: nat, id: BlockId)

  /** Tokens per block, the digest of (parent id, block tokens), and the id before the first block. */
  datatype Hasher = Hasher(size: nat, digest: (BlockId, seq<Token>) -> BlockId, seed: BlockId)

  /** The id of the first k blocks of a token sequence. */
  function Chain(h: Hasher, ts: seq<Token>, k: nat): BlockId
    requires Span(h.size, k) <= |ts|
    decreases k
  {
    if k == 0 then h.seed
    else
      SpanMonotone(h.size, k - 1, k);
      h.digest(Chain(h, ts, k - 1), ts[Span(h.size, k - 1)..Span(h.size, k)])
  }

  /** The ids of the first k blocks. */
  function Ids(h: Hasher, ts: seq<Token>, k: nat): (ids: seq<BlockId>)
    requires Span(h.size, k) <= |ts|
    ensures |ids| == k && forall i :: 0 <= i < k ==> IdAt(h, ts, ids, i)
  {
    if k == 0 then []
    else
      SpanMonotone(h.size, k - 1, k);
      IdsExtend(h, ts, Ids(h, ts, k - 1), k);
      Ids(h, ts, k - 1) + [Chain(h, ts, k)]
  }

  lemma IdsExtend(h: Hasher, ts: seq<Token>, front: seq<BlockId>, k: nat)
    requires |front| + 1 == k && Span(h.size, k) <= |ts|
    requires forall i :: 0 <= i < |front| ==> IdAt(h, ts, front, i)
    ensures forall i :: 0 <= i < k ==> IdAt(h, ts, front + [Chain(h, ts, k)], i)
  {
    hide Span, Chain;
    var ids := front + [Chain(h, ts, k)];
    forall i | 0 <= i < k
      ensures IdAt(h, ts, ids, i)
    {
      assert i < |front| ==> IdAt(h, ts, front, i);
    }
  }

  /** The ids of all full blocks of a token sequence. */
  function BlockIds(h: Hasher, ts: seq<Token>): (ids: seq<BlockId>)
    requires h.size > 0
    ensures IsIdList(h, ts, ids)
  {
    DivSpan(h.size, |ts|, WholeBlocks(h.size, |ts|));
    Ids(h, ts, WholeBlocks(h.size, |ts|))
  }

  lemma IdListUnique(h: Hasher, ts: seq<Token>, ids: seq<BlockId>)
    requires h.size > 0 && IsIdList(h, ts, ids)
    ensures ids == BlockIds(h, ts)
  {
    hide Chain, Span, WholeBlocks, Ids;
    var all := BlockIds(h, ts);
    forall i | 0 <= i < |ids|
      ensures ids[i] == all[i]
    {
      assert IdAt(h, ts, ids, i) && IdAt(h, ts, all, i);
    }
  }

  /** `generate_hash`: one id per full block, a trailing partial block is not hashed. */
  method GenerateHash(h: Hasher, tokenIds: seq<Token>) returns (ids: seq<BlockId>)
    requires h.size > 0
    ensures IsIdList(h, tokenIds, ids) && ids == BlockIds(h, tokenIds)
  {
    hide Span, WholeBlocks;
    ids := [];
    var parent, start := h.seed, 0;
    SpanStep(h.size, 0);
    while start < |tokenIds|
      invariant start == Span(h.size, |ids|) <= |tokenIds| && parent == Chain(h, tokenIds, |ids|)
      invariant forall i :: 0 <= i < |ids| ==> IdAt(h, tokenIds, ids, i)
      decreases |tokenIds| - start
    {
      var end := start + h.size;
      SpanStep(h.size, |ids|);
      if end > |tokenIds| { break; }
      parent := h.digest(parent, tokenIds[start..end]);
      ghost var before := ids;
      ids := ids + [parent];
      start := end;
      forall i | 0 <= i < |ids|
        ensures IdAt(h, tokenIds, ids, i)
      {
        assert i < |before| ==> IdAt(h, tokenIds, before, i);
      }
    }
    FullBlocks(h.size, |tokenIds|, |ids|);
    IdListUnique(h, tokenIds, ids);
  }

  ghost predicate IdAt(h: Hasher, ts: seq<Token>, ids: seq<BlockId>, i: nat)
    requires i < |ids|
  {
    Span(h.size, i + 1) <= |ts| && ids[i] == Chain(h, ts, i + 1)
  }

  /** `ids` are the ids of all full blocks of `ts`. */
  ghost predicate IsIdList(h: Hasher, ts: seq<Token>, ids: seq<BlockId>)
    requires h.size > 0
  {
    |ids| == WholeBlocks(h.size, |ts|) && forall i :: 0 <= i < |ids| ==> IdAt(h, ts, ids, i)
  }

  lemma FullBlocks(size: nat, n: nat, k: nat)
    requires size > 0 && Span(size, k) <= n < Span(size, k) + size
    ensures WholeBlocks(size, n) == k
  {
    QuotientUnique(n, size, k, n - Span(size, k));
  }

  // ---------- an id stands for exactly one token prefix ----------

  /** The assumption on the digest: no collisions, and the seed is not a digest. */
  ghost predicate CollisionFree(h: Hasher) {
    && h.size > 0
    && (forall p, b, p', b' :: h.digest(p, b) == h.digest(p', b') ==> p == p' && b == b')
    && (forall p, b :: h.digest(p, b) != h.seed)
  }

  ghost predicate SamePrefix(ts: seq<Token>, ts': seq<Token>, n: nat) {
    n <= |ts| && n <= |ts'| && ts[..n] == ts'[..n]
  }

  lemma {:induction false} ChainOfPrefix(h: Hasher, ts: seq<Token>, ts': seq<Token>, k: nat)
    requires SamePrefix(ts, ts', Span(h.size, k))
    ensures Chain(h, ts, k) == Chain(h, ts', k)
  {
    if k > 0 {
      SpanMonotone(h.size, k - 1, k);
      var a, b := Span(h.size, k - 1), Span(h.size, k);
      assert ts[..a] == ts[..b][..a] && ts'[..a] == ts'[..b][..a];
      ChainOfPrefix(h, ts, ts', k - 1);
      assert ts[a..b] == ts[..b][a..] && ts'[a..b] == ts'[..b][a..];
    }
  }

  /** Equal ids mean equally long and equal token prefixes. */
  lemma {:induction false} ChainInjective(h: Hasher, ts: seq<Token>, k: nat, ts': seq<Token>, k': nat)
    requires CollisionFree(h) && Span(h.size, k) <= |ts| && Span(h.size, k') <= |ts'|
    requires Chain(h, ts, k) == Chain(h, ts', k')
    ensures k == k' && SamePrefix(ts, ts', Span(h.size, k))
    decreases k
  {
    if k == 0 || k' == 0 {
      SpanStep(h.size, 0);
    } else {
      SpanMonotone(h.size, k - 1, k);
      SpanMonotone(h.size, k' - 1, k');
      ChainInjective(h, ts, k - 1, ts', k' - 1);
      var a, b := Span(h.size, k - 1), Span(h.size, k);
      assert ts[..b] == ts[..a] + ts[a..b] && ts'[..b] == ts'[..a] + ts'[a..b];
    }
  }
}
