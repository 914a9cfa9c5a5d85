/** The scheduler side of cache blending: a prompt is split into text chunks whose caches were built on their own, and
    the blocks of those chunks that the store has are loaded and rotated to their new positions. */
module BlendDispatch {
  import opened Residues
  import opened Sequences
  import opened ChainedHash
  import opened Dispatch
  import opened BlendMask

  /** One text chunk of a prompt. Its blocks were cached at positions that start at `cachedStart`. */
  datatype ChunkMeta = ChunkMeta(startToken: int, tokensLen: int, startBlk: nat, blksLen: int, ids: seq<BlockId>,
                                 cachedStart: int, hits: seq<bool>, blocks: seq<BlockNo>)
  {
    function EndBlk(): int { startBlk + blksLen }

    /** How far the cached keys are rotated. */
    function PositionOffset(): int { startToken - cachedStart }
  }

  // ---- splitting a prompt ----

  /** Block b of the prompt ends with the token that closes a chunk. */
  predicate ClosesChunk(ts: seq<Token>, size: nat, end: Token, b: nat)
    requires size > 0 && b < WholeBlocks(size, |ts|)
  {
    BlockInside(ts, size, b);
    ts[Span(size, b + 1) - 1] == end
  }

  lemma BlockInside(ts: seq<Token>, size: nat, b: nat)
    requires size > 0 && b < WholeBlocks(size, |ts|)
    ensures 0 < Span(size, b + 1) <= |ts| && Span(size, b + 1) == Span(size, b) + size
  {
    DivSpan(size, |ts|, b + 1);
    SpanStep(size, b);
  }

  /** A fresh chunk: blocks `from` to `to`, hashed on their own and cached from position 0. */
  ghost predicate FreshChunk(c: ChunkMeta, h: Hasher, ts: seq<Token>, from: nat, to: nat)
    requires h.size > 0
  {
    && from < to && Span(h.size, from) <= Span(h.size, to) <= |ts|
    && c.startBlk == from && c.blksLen == to - from && c.startToken == Span(h.size, from)
    && c.tokensLen == Span(h.size, to - from) && c.cachedStart == 0
    && c.ids == BlockIds(h, ts[Span(h.size, from)..Span(h.size, to)]) && |c.ids| == to - from
  }

  /** The chunks of blocks 0 to `to`, in order: each ends at a closing block and has no closing block inside. */
  ghost predicate SplitsTo(chunks: seq<ChunkMeta>, h: Hasher, ts: seq<Token>, end: Token, to: nat)
    requires h.size > 0 && to <= WholeBlocks(h.size, |ts|)
  {
    if chunks == [] then to == 0
    else
      var c := chunks[|chunks| - 1];
      && c.startBlk < to && FreshChunk(c, h, ts, c.startBlk, to) && ClosesChunk(ts, h.size, end, to - 1)
      && NoneCloses(ts, h.size, end, c.startBlk, to - 1)
      && SplitsTo(chunks[..|chunks| - 1], h, ts, end, c.startBlk)
  }

  ghost predicate NoneCloses(ts: seq<Token>, size: nat, end: Token, from: nat, to: nat)
    requires size > 0 && to <= WholeBlocks(size, |ts|)
  {
    forall b :: from <= b < to ==> !ClosesChunk(ts, size, end, b)
  }

  function AllIds(chunks: seq<ChunkMeta>): seq<BlockId> {
    if chunks == [] then [] else AllIds(chunks[..|chunks| - 1]) + chunks[|chunks| - 1].ids
  }

  /** The metadata of a chunk of the blocks from..b. */
  function NewChunk(size: nat, from: nat, b: nat, ids: seq<BlockId>): ChunkMeta
    requires from <= b
  {
    ChunkMeta(Span(size, from), Span(size, b - from + 1), from, b - from + 1, ids, 0, [], [])
  }

  /** `_process_req`, the splitting loop: the chunks tile the blocks up to the last closing one. */
  method SplitChunks(h: Hasher, ts: seq<Token>, end: Token)
    returns (chunks: seq<ChunkMeta>, reqIds: seq<BlockId>, ghost covered: nat)
    requires h.size > 0
    ensures covered <= WholeBlocks(h.size, |ts|) && SplitsTo(chunks, h, ts, end, covered)
    ensures NoneCloses(ts, h.size, end, covered, WholeBlocks(h.size, |ts|)) && reqIds == AllIds(chunks)
  {
    chunks, reqIds := [], [];
    var startBlk, startToken := 0, 0;
    SpanStep(h.size, 0);
    assert SplitSoFar(chunks, reqIds, h, ts, end, 0, 0);
    hide *;
    for b := 0 to WholeBlocks(h.size, |ts|)
      invariant startToken == Span(h.size, startBlk) && SplitSoFar(chunks, reqIds, h, ts, end, startBlk, b)
    {
      CloseStep(chunks, reqIds, h, ts, end, startBlk, b);
      var endToken := Span(h.size, b + 1) - 1;
      if ts[endToken] == end {
        var ids := GenerateHash(h, ts[startToken..endToken + 1]);
        ChunkTaken(chunks, reqIds, ids, h, ts, end, startBlk, b);
        chunks, reqIds := chunks + [NewChunk(h.size, startBlk, b, ids)], reqIds + ids;
        startBlk, startToken := b + 1, endToken + 1;
      }
    }
    covered := startBlk;
    SplitDone(chunks, reqIds, h, ts, end, covered);
  }

  /** The first b blocks are looked at: the chunks reach up to block `from`, and no block since then closes one. */
  ghost predicate SplitSoFar(
    chunks: seq<ChunkMeta>, reqIds: seq<BlockId>, h: Hasher, ts: seq<Token>, end: Token, from: nat, b: nat)
  {
    && h.size > 0 && from <= b <= WholeBlocks(h.size, |ts|) && SplitsTo(chunks, h, ts, end, from)
    && NoneCloses(ts, h.size, end, from, b) && reqIds == AllIds(chunks)
  }

  lemma SplitDone(chunks: seq<ChunkMeta>, reqIds: seq<BlockId>, h: Hasher, ts: seq<Token>, end: Token, covered: nat)
    requires h.size > 0 && SplitSoFar(chunks, reqIds, h, ts, end, covered, WholeBlocks(h.size, |ts|))
    ensures covered <= WholeBlocks(h.size, |ts|) && SplitsTo(chunks, h, ts, end, covered)
    ensures NoneCloses(ts, h.size, end, covered, WholeBlocks(h.size, |ts|)) && reqIds == AllIds(chunks)
  {
    hide WholeBlocks, SplitsTo, NoneCloses, AllIds;
  }

  /** A closing block ends a chunk. */
  lemma ChunkTaken(chunks: seq<ChunkMeta>, reqIds: seq<BlockId>, ids: seq<BlockId>, h: Hasher, ts: seq<Token>,
                   end: Token, from: nat, b: nat)
    requires SplitSoFar(chunks, reqIds, h, ts, end, from, b) && b < WholeBlocks(h.size, |ts|)
    requires ClosesChunk(ts, h.size, end, b) && Span(h.size, from) <= Span(h.size, b + 1) <= |ts|
    requires ids == BlockIds(h, ts[Span(h.size, from)..Span(h.size, b + 1)])
    ensures SplitSoFar(chunks + [NewChunk(h.size, from, b, ids)], reqIds + ids, h, ts, end, b + 1, b + 1)
  {
    hide Span, WholeBlocks, SplitsTo, ClosesChunk, BlockIds, FreshChunk, AllIds;
    assert NoneCloses(ts, h.size, end, b + 1, b + 1);
    hide NoneCloses;
    var c := NewChunk(h.size, from, b, ids);
    ChunkIsFresh(c, h, ts, from, b + 1);
    SplitAppend(chunks, c, h, ts, end, b + 1);
    IdsAppend(chunks, c);
  }

  /** Block b closes a chunk or is one more that does not. */
  lemma CloseStep(
    chunks: seq<ChunkMeta>, reqIds: seq<BlockId>, h: Hasher, ts: seq<Token>, end: Token, from: nat, b: nat)
    requires SplitSoFar(chunks, reqIds, h, ts, end, from, b) && b < WholeBlocks(h.size, |ts|)
    ensures from <= b && 0 < Span(h.size, b + 1) <= |ts| && Span(h.size, from) < Span(h.size, b + 1)
    ensures ClosesChunk(ts, h.size, end, b) <==> ts[Span(h.size, b + 1) - 1] == end
    ensures !ClosesChunk(ts, h.size, end, b) ==> SplitSoFar(chunks, reqIds, h, ts, end, from, b + 1)
  {
    BlockInside(ts, h.size, b);
    SpanMonotone(h.size, from, b + 1);
    hide Span, WholeBlocks, SplitsTo, AllIds;
  }

  lemma ChunkIsFresh(c: ChunkMeta, h: Hasher, ts: seq<Token>, from: nat, to: nat)
    requires h.size > 0 && from < to && Span(h.size, from) <= Span(h.size, to) <= |ts|
    requires c.startBlk == from && c.blksLen == to - from && c.startToken == Span(h.size, from)
    requires c.tokensLen == Span(h.size, to - from) && c.cachedStart == 0
    requires c.ids == BlockIds(h, ts[Span(h.size, from)..Span(h.size, to)])
    ensures FreshChunk(c, h, ts, from, to)
  {
    SpanDifference(h.size, from, to);
    hide Span, WholeBlocks;
  }

  lemma IdsAppend(chunks: seq<ChunkMeta>, c: ChunkMeta)
    ensures AllIds(chunks + [c]) == AllIds(chunks) + c.ids
  {
    assert (chunks + [c])[..|chunks|] == chunks;
  }

  lemma SplitAppend(chunks: seq<ChunkMeta>, c: ChunkMeta, h: Hasher, ts: seq<Token>, end: Token, to: nat)
    requires h.size > 0 && c.startBlk < to <= WholeBlocks(h.size, |ts|)
    requires SplitsTo(chunks, h, ts, end, c.startBlk) && FreshChunk(c, h, ts, c.startBlk, to)
    requires ClosesChunk(ts, h.size, end, to - 1) && NoneCloses(ts, h.size, end, c.startBlk, to - 1)
    ensures SplitsTo(chunks + [c], h, ts, end, to)
  {
    assert (chunks + [c])[..|chunks|] == chunks;
    hide FreshChunk, ClosesChunk, NoneCloses, WholeBlocks;
  }

  lemma SpanDifference(size: nat, from: nat, to: nat)
    requires size > 0 && from <= to
    ensures Span(size, to) - Span(size, from) == Span(size, to - from)
    ensures WholeBlocks(size, Span(size, to) - Span(size, from)) == to - from
  {
    assert size * to - size * from == size * (to - from);
    WholeBlocksOfSpan(size, to - from);
  }

  datatype BlendStage = BuildChunkCache | BuildPrefixCache | CacheBlend

  /** The chunks of a prompt: they tile the blocks up to the last closing one, and none closes after it. */
  ghost predicate IsSplit(chunks: seq<ChunkMeta>, h: Hasher, ts: seq<Token>, end: Token, covered: nat) {
    && h.size > 0 && covered <= WholeBlocks(h.size, |ts|) && SplitsTo(chunks, h, ts, end, covered)
    && NoneCloses(ts, h.size, end, covered, WholeBlocks(h.size, |ts|))
  }

  /** A block-padded prompt that is one chunk to be cached on its own. */
  predicate IsPaddedChunk(h: Hasher, ts: seq<Token>, end: Token)
    requires h.size > 0 && ts != []
  {
    ts[|ts| - 1] == end && |ts| % h.size == 0
  }

  /** `_process_req`: a block-padded chunk on its own is cached as such; else a prompt with chunks is blended, and has
      tokens after its last chunk. */
  method ProcessReq(h: Hasher, ts: seq<Token>, end: Token)
    returns (stage: BlendStage, prefixIds: seq<BlockId>, chunks: seq<ChunkMeta>, reqIds: seq<BlockId>,
             ghost covered: nat)
    requires h.size > 0 && ts != []
    ensures prefixIds == BlockIds(h, ts) && reqIds == AllIds(chunks)
    ensures stage == BuildChunkCache <==> IsPaddedChunk(h, ts, end)
    ensures stage == CacheBlend ==> chunks != [] && IsSplit(chunks, h, ts, end, covered) && Span(h.size, covered) < |ts|
    ensures stage == BuildPrefixCache ==> NoneCloses(ts, h.size, end, 0, WholeBlocks(h.size, |ts|))
    ensures stage != CacheBlend ==> chunks == []
  {
    prefixIds := GenerateHash(h, ts);
    if ts[|ts| - 1] == end && |ts| % h.size == 0 {
      return BuildChunkCache, prefixIds, [], [], 0;
    }
    hide WholeBlocks, Span;
    chunks, reqIds, covered := SplitChunks(h, ts, end);
    stage := if chunks != [] then CacheBlend else BuildPrefixCache;
    if chunks != [] {
      GoesOnAfterChunks(chunks, h, ts, end, covered);
    }
  }

  /** A prompt with chunks that is not block-padded has tokens after the last one. */
  lemma GoesOnAfterChunks(chunks: seq<ChunkMeta>, h: Hasher, ts: seq<Token>, end: Token, covered: nat)
    requires h.size > 0 && ts != [] && covered <= WholeBlocks(h.size, |ts|) && SplitsTo(chunks, h, ts, end, covered)
    requires chunks != [] && !IsPaddedChunk(h, ts, end)
    ensures Span(h.size, covered) < |ts|
  {
    BlockInside(ts, h.size, covered - 1);
    assert ts[Span(h.size, covered) - 1] == end;
    if Span(h.size, covered) == |ts| {
      QuotientUnique(|ts|, h.size, covered, 0);
    }
  }

  // ---- looking the chunks up ----

  /** Which of the ids the store has. */
  function Lookup(present: set<BlockId>, ids: seq<BlockId>): seq<bool> {
    seq(|ids|, i requires 0 <= i < |ids| => ids[i] in present)
  }

  /** The blocks that are reused: the prefix hits, and the chunk blocks found by their own ids. */
  function AllHits(present: set<BlockId>, pc: nat, reqIds: seq<BlockId>): seq<bool> {
    AllTrue(pc) + Lookup(present, Slice(reqIds, pc, |reqIds|))
  }

  /** The chunk blocks after the prefix hit that the store has. */
  function FoundInChunks(present: set<BlockId>, pc: nat, reqIds: seq<BlockId>): nat {
    Count(Lookup(present, Slice(reqIds, pc, |reqIds|)))
  }

  function WithHits(c: ChunkMeta, all: seq<bool>): ChunkMeta {
    c.(hits := if c.EndBlk() < 0 then [] else Slice(all, c.startBlk, c.EndBlk()))
  }

  /** `update_meta_partial_pc`: the chunk without the first pc blocks. */
  function Trim(c: ChunkMeta, pc: nat, size: nat): ChunkMeta {
    if pc > 0 then
      c.(startToken := c.startToken + Span(size, pc), tokensLen := c.tokensLen - Span(size, pc),
         startBlk := c.startBlk + pc, blksLen := c.blksLen - pc, ids := Slice(c.ids, pc, |c.ids|),
         hits := Slice(c.hits, pc, |c.hits|), cachedStart := c.cachedStart + Span(size, pc))
    else c
  }

  /** Trimming the prefix hit does not change how far a chunk is rotated. */
  lemma TrimKeepsOffset(c: ChunkMeta, pc: nat, size: nat)
    ensures Trim(c, pc, size).PositionOffset() == c.PositionOffset()
    ensures Trim(c, pc, size).EndBlk() == c.EndBlk()
  {
  }

  function AllWithHits(chunks: seq<ChunkMeta>, all: seq<bool>): seq<ChunkMeta> {
    seq(|chunks|, i requires 0 <= i < |chunks| => WithHits(chunks[i], all))
  }

  /** The chunks with their hits, the first without the prefix hit, and without it altogether if nothing is left. */
  function Prepared(chunks: seq<ChunkMeta>, all: seq<bool>, pc: nat, size: nat): seq<ChunkMeta>
    requires chunks != []
  {
    var cs := AllWithHits(chunks, all);
    var first := Trim(cs[0], pc, size);
    if first.tokensLen == 0 then cs[1..] else [first] + cs[1..]
  }

  /** `_get_req_chunk_hit` */
  method GetReqChunkHit(size: nat, present: set<BlockId>, stage: BlendStage, prefixIds: seq<BlockId>,
                        chunks: seq<ChunkMeta>, reqIds: seq<BlockId>)
    returns (pc: nat, chunkHits: nat, ready: seq<ChunkMeta>)
    requires stage == CacheBlend ==> chunks != []
    ensures pc == PresentPrefix(present, prefixIds)
    ensures stage != CacheBlend ==> chunkHits == 0 && ready == chunks
    ensures stage == CacheBlend ==> ready == Prepared(chunks, AllHits(present, pc, reqIds), pc, size)
    ensures stage == CacheBlend ==> chunkHits == FoundInChunks(present, pc, reqIds)
  {
    var found := Lookup(present, prefixIds);
    pc := 0;
    while pc < |found| && found[pc]
      invariant pc <= |found| && forall i :: 0 <= i < pc ==> prefixIds[i] in present
    {
      pc := pc + 1;
    }
    PrefixUnique(present, prefixIds, pc);
    if stage != CacheBlend {
      return pc, 0, chunks;
    }
    var others := Lookup(present, Slice(reqIds, pc, |reqIds|));
    chunkHits := Count(others);
    var all := AllTrue(pc) + others;
    ready := AllWithHits(chunks, all);
    var first := Trim(ready[0], pc, size);
    ready := if first.tokensLen == 0 then ready[1..] else [first] + ready[1..];
  }

  lemma PrefixUnique(present: set<BlockId>, ids: seq<BlockId>, n: nat)
    requires n <= |ids| && (forall i :: 0 <= i < n ==> ids[i] in present) && (n < |ids| ==> ids[n] !in present)
    ensures n == PresentPrefix(present, ids)
  {
  }

  /** The chunks tile blocks `from` to `to`; each holds the ids and hits of its own blocks. */
  ghost predicate Ready(chunks: seq<ChunkMeta>, size: nat, ids: seq<BlockId>, all: seq<bool>, from: nat, to: nat) {
    if chunks == [] then from == to
    else
      var c := chunks[|chunks| - 1];
      && from <= c.startBlk <= to <= |ids| && to <= |all| && c.EndBlk() == to
      && c.ids == ids[c.startBlk..to] && c.hits == all[c.startBlk..to] && c.startToken == Span(size, c.startBlk)
      && Ready(chunks[..|chunks| - 1], size, ids, all, from, c.startBlk)
  }

  lemma {:induction false} IdsTile(chunks: seq<ChunkMeta>, h: Hasher, ts: seq<Token>, end: Token, to: nat)
    requires h.size > 0 && to <= WholeBlocks(h.size, |ts|) && SplitsTo(chunks, h, ts, end, to)
    ensures |AllIds(chunks)| == to
  {
    if chunks != [] {
      IdsTile(chunks[..|chunks| - 1], h, ts, end, chunks[|chunks| - 1].startBlk);
    }
  }

  /** With no prefix hit, the fresh chunks with their hits tile the covered blocks. */
  lemma {:induction false} HitsTile(chunks: seq<ChunkMeta>, h: Hasher, ts: seq<Token>, end: Token, to: nat,
                                    ids: seq<BlockId>, all: seq<bool>)
    requires h.size > 0 && to <= WholeBlocks(h.size, |ts|) && SplitsTo(chunks, h, ts, end, to)
    requires to <= |ids| && to <= |all| && AllIds(chunks) == ids[..to]
    ensures Ready(AllWithHits(chunks, all), h.size, ids, all, 0, to)
  {
    if chunks != [] {
      var n := |chunks| - 1;
      var front, c := chunks[..n], chunks[n];
      IdsTile(front, h, ts, end, c.startBlk);
      LastChunk(chunks, h, ts, end, to, all);
      hide *;
      IdsPart(AllIds(front), c.ids, ids, c.startBlk, to);
      HitsTile(front, h, ts, end, c.startBlk, ids, all);
      ReadyAppend(AllWithHits(front, all), WithHits(c, all), h.size, ids, all, 0, to);
    }
  }

  /** What the splitting says of the last chunk, with its hits. */
  lemma LastChunk(chunks: seq<ChunkMeta>, h: Hasher, ts: seq<Token>, end: Token, to: nat, all: seq<bool>)
    requires h.size > 0 && to <= WholeBlocks(h.size, |ts|) && SplitsTo(chunks, h, ts, end, to) && chunks != []
    requires to <= |all|
    ensures var front, c := chunks[..|chunks| - 1], chunks[|chunks| - 1];
            && c.startBlk < to && SplitsTo(front, h, ts, end, c.startBlk) && AllIds(chunks) == AllIds(front) + c.ids
            && AllWithHits(chunks, all) == AllWithHits(front, all) + [WithHits(c, all)]
            && var c' := WithHits(c, all);
               && c'.startBlk == c.startBlk && c'.EndBlk() == to && c'.ids == c.ids && c'.hits == all[c.startBlk..to]
               && c'.startToken == Span(h.size, c.startBlk)
  {
    hide Span, WholeBlocks, BlockIds, NoneCloses, ClosesChunk;
  }

  lemma ReadyAppend(cs: seq<ChunkMeta>, c: ChunkMeta, size: nat, ids: seq<BlockId>, all: seq<bool>, from: nat, to: nat)
    requires from <= c.startBlk <= to <= |ids| && to <= |all| && c.EndBlk() == to
    requires c.ids == ids[c.startBlk..to] && c.hits == all[c.startBlk..to] && c.startToken == Span(size, c.startBlk)
    requires Ready(cs, size, ids, all, from, c.startBlk)
    ensures Ready(cs + [c], size, ids, all, from, to)
  {
    assert (cs + [c])[..|cs|] == cs;
    hide Span;
  }

  lemma IdsPart(front: seq<BlockId>, last: seq<BlockId>, ids: seq<BlockId>, s: nat, to: nat)
    requires |front| == s <= to <= |ids| && front + last == ids[..to]
    ensures front == ids[..s] && last == ids[s..to]
  {
    assert (front + last)[..s] == front && (front + last)[s..] == last;
    assert ids[..to][..s] == ids[..s] && ids[..to][s..] == ids[s..to];
  }

  /** Trimming a prefix of the first chunk leaves a tiling of the rest. */
  lemma {:induction false} TrimTiles(cs: seq<ChunkMeta>, size: nat, ids: seq<BlockId>, all: seq<bool>, pc: nat, to: nat)
    requires cs != [] && Ready(cs, size, ids, all, 0, to) && pc <= cs[0].EndBlk()
    ensures Ready([Trim(cs[0], pc, size)] + cs[1..], size, ids, all, pc, to)
    ensures pc == cs[0].EndBlk() ==> Ready(cs[1..], size, ids, all, pc, to)
  {
    var n := |cs| - 1;
    var first := Trim(cs[0], pc, size);
    if n == 0 {
      FirstStartsAtZero(cs, size, ids, all, to);
      TrimmedFirst(cs[0], size, ids, all, pc, to);
      assert cs[1..] == [] && ([first] + cs[1..])[..0] == [];
    } else {
      TrimTiles(cs[..n], size, ids, all, pc, cs[n].startBlk);
      assert cs[..n][1..] == cs[1..][..n - 1];
      assert ([first] + cs[1..])[..n] == [first] + cs[..n][1..];
    }
  }

  lemma FirstStartsAtZero(cs: seq<ChunkMeta>, size: nat, ids: seq<BlockId>, all: seq<bool>, to: nat)
    requires |cs| == 1 && Ready(cs, size, ids, all, 0, to)
    ensures cs[0].startBlk == 0
  {
    assert cs[..0] == [];
  }

  lemma TrimmedFirst(c: ChunkMeta, size: nat, ids: seq<BlockId>, all: seq<bool>, pc: nat, to: nat)
    requires c.startBlk == 0 && c.EndBlk() == to && pc <= to <= |ids| && to <= |all|
    requires c.ids == ids[..to] && c.hits == all[..to] && c.startToken == Span(size, 0)
    ensures var t := Trim(c, pc, size);
            && t.startBlk == pc && t.EndBlk() == to && t.ids == ids[pc..to] && t.hits == all[pc..to]
            && t.startToken == Span(size, pc)
  {
  }

  lemma {:induction false} FirstChunk(chunks: seq<ChunkMeta>, h: Hasher, ts: seq<Token>, end: Token, to: nat)
    requires h.size > 0 && to <= WholeBlocks(h.size, |ts|) && SplitsTo(chunks, h, ts, end, to) && chunks != []
    ensures var c := chunks[0];
            c.startBlk == 0 && 0 < c.blksLen <= to && |c.ids| == c.blksLen && c.tokensLen == Span(h.size, c.blksLen)
  {
    var n := |chunks| - 1;
    if n > 0 {
      FirstChunk(chunks[..n], h, ts, end, chunks[n].startBlk);
    } else {
      assert chunks[..0] == [];
    }
  }

  /** When the prefix hit lies within the first chunk, the prepared chunks tile exactly the blocks after it. */
  lemma PreparedTiles(chunks: seq<ChunkMeta>, h: Hasher, ts: seq<Token>, end: Token, to: nat, present: set<BlockId>,
                      pc: nat)
    requires h.size > 0 && to <= WholeBlocks(h.size, |ts|) && SplitsTo(chunks, h, ts, end, to) && chunks != []
    requires pc <= chunks[0].blksLen
    ensures var ids := AllIds(chunks);
            var all := AllHits(present, pc, ids);
            |ids| == to == |all| && Ready(Prepared(chunks, all, pc, h.size), h.size, ids, all, pc, to)
  {
    var ids := AllIds(chunks);
    var all := AllHits(present, pc, ids);
    FirstChunk(chunks, h, ts, end, to);
    IdsTile(chunks, h, ts, end, to);
    AllHitsPrefix(present, pc, ids);
    var cs := AllWithHits(chunks, all);
    assert cs[0] == WithHits(chunks[0], all) && cs[0].EndBlk() == chunks[0].EndBlk();
    TrimEmpty(cs[0], pc, h.size);
    assert ids[..to] == ids;
    var first := Trim(cs[0], pc, h.size);
    assert Prepared(chunks, all, pc, h.size) == if first.tokensLen == 0 then cs[1..] else [first] + cs[1..];
    hide *;
    HitsTile(chunks, h, ts, end, to, ids, all);
    TrimTiles(cs, h.size, ids, all, pc, to);
  }

  /** Nothing is left of a chunk exactly when the whole of it is trimmed. */
  lemma TrimEmpty(c: ChunkMeta, pc: nat, size: nat)
    requires size > 0 && 0 < c.blksLen && pc <= c.blksLen && c.tokensLen == Span(size, c.blksLen)
    ensures Trim(c, pc, size).tokensLen == 0 <==> pc == c.blksLen
  {
    SpanMonotone(size, pc, c.blksLen);
    SpanMonotone(size, 0, c.blksLen);
    hide Span;
  }

  /** What is at each place of the prepared list. */
  lemma PreparedAt(chunks: seq<ChunkMeta>, all: seq<bool>, pc: nat, size: nat, i: nat)
    requires chunks != [] && i < |Prepared(chunks, all, pc, size)|
    ensures var ready := Prepared(chunks, all, pc, size);
            && |chunks| - 1 <= |ready| <= |chunks|
            && (i + |chunks| - |ready| > 0 ==> ready[i] == WithHits(chunks[i + |chunks| - |ready|], all))
            && (i + |chunks| - |ready| == 0 ==> ready[i] == Trim(WithHits(chunks[0], all), pc, size))
            && (|ready| == |chunks| <==> Trim(WithHits(chunks[0], all), pc, size).tokensLen != 0)
  {
    hide Trim, WithHits;
  }

  // ---- dispatching the loads ----

  /** `itertools.compress` */
  function Compress<T>(xs: seq<T>, mask: seq<bool>): seq<T> {
    var n := if |xs| < |mask| then |xs| else |mask|;
    Select(xs[..n], mask[..n])
  }

  /** `vllm_block_ids[start:end]` of a chunk. */
  function WithBlocks(c: ChunkMeta, blocks: seq<BlockNo>): ChunkMeta {
    c.(blocks := if c.EndBlk() < 0 then [] else Slice(blocks, c.startBlk, c.EndBlk()))
  }

  function AllWithBlocks(chunks: seq<ChunkMeta>, blocks: seq<BlockNo>): seq<ChunkMeta> {
    seq(|chunks|, i requires 0 <= i < |chunks| => WithBlocks(chunks[i], blocks))
  }

  function HitIds(chunks: seq<ChunkMeta>): seq<BlockId> {
    if chunks == [] then []
    else HitIds(chunks[..|chunks| - 1]) + Compress(chunks[|chunks| - 1].ids, chunks[|chunks| - 1].hits)
  }

  function HitBlocks(chunks: seq<ChunkMeta>, blocks: seq<BlockNo>): seq<BlockNo> {
    if chunks == [] then []
    else
      var c := WithBlocks(chunks[|chunks| - 1], blocks);
      HitBlocks(chunks[..|chunks| - 1], blocks) + Compress(c.blocks, c.hits)
  }

  /** `_generate_blend_dispatch_meta` */
  method GenerateBlendDispatchMeta(stage: BlendStage, pc: nat, ids: seq<BlockId>, chunks: seq<ChunkMeta>,
                                   blocks: seq<BlockNo>)
    returns (meta: DispatchMeta, placed: seq<ChunkMeta>)
    ensures stage == CacheBlend ==>
              && meta.loadIds == Slice(ids, 0, pc) + HitIds(chunks)
              && meta.loadBlocks == Slice(blocks, 0, pc) + HitBlocks(chunks, blocks)
              && meta.dumpIds == [] && meta.dumpBlocks == []
              && placed == AllWithBlocks(chunks, blocks)
    ensures stage != CacheBlend ==>
              && meta == DispatchMeta(Slice(ids, 0, pc), Slice(blocks, 0, pc),
                                      Slice(ids, pc, |ids|), Slice(blocks, pc, |ids|))
              && placed == chunks
  {
    var loadIds, loadBlocks := Slice(ids, 0, pc), Slice(blocks, 0, pc);
    if stage != CacheBlend {
      return DispatchMeta(loadIds, loadBlocks, Slice(ids, pc, |ids|), Slice(blocks, pc, |ids|)), chunks;
    }
    var hitIds, hitBlocks;
    hitIds, hitBlocks, placed := LoadChunks(chunks, blocks);
    meta := DispatchMeta(loadIds + hitIds, loadBlocks + hitBlocks, [], []);
  }

  /** The loop over the chunks: each is given its blocks, and its hits are loaded. */
  method LoadChunks(chunks: seq<ChunkMeta>, blocks: seq<BlockNo>)
    returns (hitIds: seq<BlockId>, hitBlocks: seq<BlockNo>, placed: seq<ChunkMeta>)
    ensures hitIds == HitIds(chunks) && hitBlocks == HitBlocks(chunks, blocks)
    ensures placed == AllWithBlocks(chunks, blocks)
  {
    hitIds, hitBlocks, placed := [], [], [];
    assert chunks[..0] == [] && chunks[..|chunks|] == chunks;
    assert HitIds(chunks[..0]) == [] && HitBlocks(chunks[..0], blocks) == [] &&
           AllWithBlocks(chunks[..0], blocks) == [];
    hide *;
    for k := 0 to |chunks|
      invariant hitIds == HitIds(chunks[..k]) && hitBlocks == HitBlocks(chunks[..k], blocks)
      invariant placed == AllWithBlocks(chunks[..k], blocks)
    {
      var c := WithBlocks(chunks[k], blocks);
      HitStep(chunks, blocks, k);
      hitIds, hitBlocks := hitIds + Compress(c.ids, c.hits), hitBlocks + Compress(c.blocks, c.hits);
      placed := placed + [c];
    }
  }

  lemma HitStep(chunks: seq<ChunkMeta>, blocks: seq<BlockNo>, k: nat)
    requires k < |chunks|
    ensures var c := WithBlocks(chunks[k], blocks);
            && AllWithBlocks(chunks[..k + 1], blocks) == AllWithBlocks(chunks[..k], blocks) + [c]
            && HitIds(chunks[..k + 1]) == HitIds(chunks[..k]) + Compress(c.ids, c.hits)
            && HitBlocks(chunks[..k + 1], blocks) == HitBlocks(chunks[..k], blocks) + Compress(c.blocks, c.hits)
  {
    assert chunks[..k + 1][..k] == chunks[..k];
    hide Compress;
  }

  lemma {:induction false} SelectAppend<T>(a: seq<T>, b: seq<T>, m: seq<bool>, n: seq<bool>)
    requires |a| == |m| && |b| == |n|
    ensures Select(a + b, m + n) == Select(a, m) + Select(b, n)
  {
    if b == [] {
      assert a + b == a && m + n == m;
    } else {
      var k := |b| - 1;
      SelectAppend(a, b[..k], m, n[..k]);
      assert (a + b)[..|a| + k] == a + b[..k] && (m + n)[..|a| + k] == m + n[..k];
    }
  }

  lemma {:induction false} SelectAll<T>(xs: seq<T>)
    ensures Select(xs, AllTrue(|xs|)) == xs
  {
    if xs != [] {
      var k := |xs| - 1;
      SelectAll(xs[..k]);
      assert AllTrue(|xs|)[..k] == AllTrue(k);
    }
  }

  /** The chunks' hits, taken chunk by chunk, are the hits of the whole range. */
  lemma {:induction false} ChunkLoads(cs: seq<ChunkMeta>, size: nat, ids: seq<BlockId>, all: seq<bool>,
                                      blocks: seq<BlockNo>, from: nat, to: nat)
    requires Ready(cs, size, ids, all, from, to) && from <= to <= |ids| && to <= |all| && to <= |blocks|
    ensures HitIds(cs) == Select(ids[from..to], all[from..to])
    ensures HitBlocks(cs, blocks) == Select(blocks[from..to], all[from..to])
  {
    if cs != [] {
      var c := cs[|cs| - 1];
      var s := c.startBlk;
      ChunkLoads(cs[..|cs| - 1], size, ids, all, blocks, from, s);
      ChunkHits(c, ids, all, blocks, to);
      HitStep(cs, blocks, |cs| - 1);
      assert cs[..|cs| - 1 + 1] == cs;
      assert WithBlocks(c, blocks).ids == c.ids && WithBlocks(c, blocks).hits == c.hits;
      hide *;
      SelectSplit(ids, all, from, s, to);
      SelectSplit(blocks, all, from, s, to);
    }
  }

  /** The hits of one chunk. */
  lemma ChunkHits(c: ChunkMeta, ids: seq<BlockId>, all: seq<bool>, blocks: seq<BlockNo>, to: nat)
    requires c.startBlk <= to <= |ids| && to <= |all| && to <= |blocks| && c.EndBlk() == to
    requires c.ids == ids[c.startBlk..to] && c.hits == all[c.startBlk..to]
    ensures Compress(c.ids, c.hits) == Select(ids[c.startBlk..to], all[c.startBlk..to])
    ensures var c' := WithBlocks(c, blocks);
            Compress(c'.blocks, c'.hits) == Select(blocks[c.startBlk..to], all[c.startBlk..to])
  {
    hide Select;
    var c' := WithBlocks(c, blocks);
    assert c'.blocks == blocks[c.startBlk..to];
    assert c'.blocks[..|c'.blocks|] == c'.blocks && c.ids[..|c.ids|] == c.ids && c.hits[..|c.hits|] == c.hits;
  }

  lemma SelectSplit<T>(xs: seq<T>, mask: seq<bool>, a: nat, b: nat, c: nat)
    requires a <= b <= c <= |xs| && c <= |mask|
    ensures Select(xs[a..c], mask[a..c]) == Select(xs[a..b], mask[a..b]) + Select(xs[b..c], mask[b..c])
  {
    SelectAppend(xs[a..b], xs[b..c], mask[a..b], mask[b..c]);
    hide Select;
    assert xs[a..c] == xs[a..b] + xs[b..c] && mask[a..c] == mask[a..b] + mask[b..c];
  }

  lemma SelectAfterPrefix<T>(xs: seq<T>, mask: seq<bool>, pc: nat)
    requires |xs| == |mask| && pc <= |xs| && mask[..pc] == AllTrue(pc)
    ensures Select(xs, mask) == xs[..pc] + Select(xs[pc..|xs|], mask[pc..|xs|])
  {
    hide Select;
    SelectSplit(xs, mask, 0, pc, |xs|);
    SelectAll(xs[..pc]);
    assert xs[0..|xs|] == xs && mask[0..|xs|] == mask && xs[0..pc] == xs[..pc] && mask[0..pc] == mask[..pc];
  }

  /** Ids and physical blocks are loaded under the same mask: each pair shares its logical index, each block is loaded
      at most once, and a block is loaded exactly when it is a prefix hit or its chunk's cache has it. */
  lemma LoadsAligned(cs: seq<ChunkMeta>, size: nat, ids: seq<BlockId>, present: set<BlockId>, blocks: seq<BlockNo>,
                     pc: nat, to: nat)
    requires pc <= to == |ids| <= |blocks|
    requires Ready(cs, size, ids, AllHits(present, pc, ids), pc, to)
    ensures Slice(ids, 0, pc) + HitIds(cs) == Select(ids, AllHits(present, pc, ids))
    ensures Slice(blocks, 0, pc) + HitBlocks(cs, blocks) == Select(blocks[..to], AllHits(present, pc, ids))
  {
    var all := AllHits(present, pc, ids);
    hide *;
    AllHitsPrefix(present, pc, ids);
    TakePrefix(ids, pc, to);
    TakePrefix(blocks, pc, to);
    assert ids[..to] == ids;
    ChunkLoads(cs, size, ids, all, blocks, pc, to);
    SelectAfterPrefix(ids, all, pc);
    SelectAfterPrefix(blocks[..to], all, pc);
  }

  lemma AllHitsPrefix(present: set<BlockId>, pc: nat, ids: seq<BlockId>)
    requires pc <= |ids|
    ensures var all := AllHits(present, pc, ids); |all| == |ids| && all[..pc] == AllTrue(pc)
  {
  }

  lemma TakePrefix<T>(s: seq<T>, pc: nat, to: nat)
    requires pc <= to <= |s|
    ensures Slice(s, 0, pc) == s[..to][..pc] && s[..to][pc..to] == s[pc..to]
  {
  }

  lemma {:induction false} SelectDistinct(xs: seq<BlockNo>, mask: seq<bool>)
    requires |xs| == |mask| && Distinct(xs)
    ensures Distinct(Select(xs, mask)) && forall x :: x in Select(xs, mask) ==> x in xs
  {
    if xs != [] {
      var k := |xs| - 1;
      SelectDistinct(xs[..k], mask[..k]);
      assert xs[k] !in xs[..k];
    }
  }
}
