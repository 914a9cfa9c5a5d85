/** From a prompt to its loads: what is recorded for a prompt with chunks, when the loads that follow from it are right,
    and how the loaded keys are rotated. */
module BlendPlan {
  import opened Residues
  import opened Sequences
  import opened Options
  import opened ChainedHash
  import opened Dispatch
  import opened BlendMask
  import opened BlendDispatch

  // ---- what is recorded for a prompt ----

  /** Fewer chunk hits than this are not worth blending. */
  const MinBlendHits: nat := 16

  datatype BlendMeta = BlendMeta(ids: seq<BlockId>, pc: nat, chunks: seq<ChunkMeta>, stage: BlendStage)

  /** What is recorded for a prompt with the given chunks: with too few hits it is treated as one without chunks. */
  function Recorded(h: Hasher, ts: seq<Token>, chunks: seq<ChunkMeta>, present: set<BlockId>): BlendMeta
    requires h.size > 0
  {
    var prefixIds, ids := BlockIds(h, ts), AllIds(chunks);
    var pc := PresentPrefix(present, prefixIds);
    if chunks == [] || FoundInChunks(present, pc, ids) < MinBlendHits then
      BlendMeta(prefixIds, pc, [], BuildPrefixCache)
    else
      BlendMeta(ids, pc, Prepared(chunks, AllHits(present, pc, ids), pc, h.size), CacheBlend)
  }

  /** The tokens of a prefix hit of pc blocks, all but one if that is the whole prompt. */
  predicate TokensRight(size: nat, length: nat, pc: nat, tokens: nat) {
    if Span(size, pc) == length then tokens + 1 == length else tokens == Span(size, pc)
  }

  /** What is recorded: the prefix hit, and the ids of the chunks if the prompt blends, else those of its prefix. */
  ghost predicate RecordRight(h: Hasher, ts: seq<Token>, chunks: seq<ChunkMeta>, present: set<BlockId>, meta: BlendMeta)
    requires h.size > 0
  {
    var ids := BlockIds(h, ts);
    && meta.pc == PresentPrefix(present, ids)
    && (meta.stage == CacheBlend <==> Blends(h, ts, chunks, present))
    && (Blends(h, ts, chunks, present) ==> meta.ids == AllIds(chunks))
    && (!Blends(h, ts, chunks, present) ==> meta.ids == ids && meta.chunks == [])
  }

  lemma RecordedRight(h: Hasher, ts: seq<Token>, chunks: seq<ChunkMeta>, present: set<BlockId>)
    requires h.size > 0
    ensures RecordRight(h, ts, chunks, present, Recorded(h, ts, chunks, present))
  {
    FoundIsCount(present, PresentPrefix(present, BlockIds(h, ts)), AllIds(chunks));
    hide BlockIds, AllIds, PresentPrefix, FoundInChunks, FoundBlocks, Prepared, AllHits;
  }

  /** `get_num_new_matched_tokens`: the tokens of the prefix hit, all but one if that is the whole prompt. */
  method GetNumNewMatchedTokens(h: Hasher, ts: seq<Token>, end: Token, present: set<BlockId>)
    returns (tokens: nat, meta: Option<BlendMeta>, ghost chunks: seq<ChunkMeta>, ghost covered: nat)
    requires h.size > 0
    ensures WholeBlocks(h.size, |ts|) == 0 ==> tokens == 0 && meta == None
    ensures WholeBlocks(h.size, |ts|) > 0 ==>
              && ts != [] && meta == Some(Recorded(h, ts, chunks, present))
              && RecordRight(h, ts, chunks, present, meta.value)
              && TokensRight(h.size, |ts|, PresentPrefix(present, BlockIds(h, ts)), tokens)
              && (chunks == [] ==>
                    IsPaddedChunk(h, ts, end) || NoneCloses(ts, h.size, end, 0, WholeBlocks(h.size, |ts|)))
              && (chunks != [] ==> && !IsPaddedChunk(h, ts, end) && IsSplit(chunks, h, ts, end, covered)
                                   && Span(h.size, covered) < |ts|)
  {
    if WholeBlocks(h.size, |ts|) == 0 {
      return 0, None, [], 0;
    }
    assert ts != [] by { QuotientUnique(0, h.size, 0, 0); }
    hide WholeBlocks, Span, BlockIds, Prepared, AllHits, Count, AllIds, NoneCloses, IsSplit, IsPaddedChunk, RecordRight;
    var stage, prefixIds, reqChunks, reqIds;
    stage, prefixIds, reqChunks, reqIds, covered := ProcessReq(h, ts, end);
    var pc, chunkHits, ready := GetReqChunkHit(h.size, present, stage, prefixIds, reqChunks, reqIds);
    chunks := reqChunks;
    if chunkHits < MinBlendHits {
      stage, ready := BuildPrefixCache, [];
    }
    var ids := if stage == CacheBlend then reqIds else prefixIds;
    tokens := Span(h.size, pc);
    if tokens == |ts| {
      tokens := tokens - 1;
    }
    meta := Some(BlendMeta(ids, pc, ready, stage));
    RecordedRight(h, ts, chunks, present);
  }

  function LoadIds(meta: BlendMeta): seq<BlockId> {
    Slice(meta.ids, 0, meta.pc) + if meta.stage == CacheBlend then HitIds(meta.chunks) else []
  }

  function LoadBlocks(meta: BlendMeta, blocks: seq<BlockNo>): seq<BlockNo> {
    Slice(blocks, 0, meta.pc) + if meta.stage == CacheBlend then HitBlocks(meta.chunks, blocks) else []
  }

  // ---- exactly when the loads are right ----

  /** Every id is paired with a block of its own, no block is loaded twice, and the store has every id. */
  ghost predicate LoadsRight(loadIds: seq<BlockId>, loadBlocks: seq<BlockNo>, present: set<BlockId>) {
    && |loadIds| == |loadBlocks| && Distinct(loadBlocks)
    && forall i :: 0 <= i < |loadIds| ==> loadIds[i] in present
  }

  lemma {:induction false} SecondChunk(chunks: seq<ChunkMeta>, h: Hasher, ts: seq<Token>, end: Token, to: nat)
    requires h.size > 0 && to <= WholeBlocks(h.size, |ts|) && SplitsTo(chunks, h, ts, end, to) && |chunks| >= 2
    ensures chunks[1].startBlk == chunks[0].EndBlk() < chunks[1].EndBlk() <= to
  {
    var n := |chunks| - 1;
    if n > 1 {
      SecondChunk(chunks[..n], h, ts, end, chunks[n].startBlk);
    } else {
      assert chunks[..n][0] == chunks[0] && chunks[..n][..0] == [];
    }
  }

  lemma {:induction false} HitBlocksGrow(cs: seq<ChunkMeta>, blocks: seq<BlockNo>, k: nat, x: BlockNo)
    requires k <= |cs| && x in HitBlocks(cs[..k], blocks)
    ensures x in HitBlocks(cs, blocks)
    decreases |cs|
  {
    if k == |cs| {
      assert cs[..k] == cs;
    } else {
      assert cs[..|cs| - 1][..k] == cs[..k];
      HitBlocksGrow(cs[..|cs| - 1], blocks, k, x);
    }
  }

  /** The first block of a chunk is loaded when it is a hit. */
  lemma FirstHitLoaded(c: ChunkMeta, blocks: seq<BlockNo>)
    requires c.startBlk < c.EndBlk() && c.startBlk < |blocks| && c.hits != [] && c.hits[0]
    ensures var c' := WithBlocks(c, blocks); blocks[c.startBlk] in Compress(c'.blocks, c'.hits)
  {
    var c' := WithBlocks(c, blocks);
    var n := if |c'.blocks| < |c'.hits| then |c'.blocks| else |c'.hits|;
    assert c'.blocks[0] == blocks[c.startBlk];
    SelectAt(c'.blocks[..n], c'.hits[..n], 0);
  }

  /** A prefix hit beyond the first chunk loads the first block of the second chunk twice. */
  lemma LoadedTwice(chunks: seq<ChunkMeta>, h: Hasher, ts: seq<Token>, end: Token, to: nat, present: set<BlockId>,
                    pc: nat, blocks: seq<BlockNo>)
    requires h.size > 0 && to <= WholeBlocks(h.size, |ts|) && SplitsTo(chunks, h, ts, end, to) && |chunks| >= 2
    requires chunks[0].blksLen < pc <= |blocks| && to <= |blocks|
    ensures var cs := Prepared(chunks, AllHits(present, pc, AllIds(chunks)), pc, h.size);
            !Distinct(Slice(blocks, 0, pc) + HitBlocks(cs, blocks))
  {
    var all := AllHits(present, pc, AllIds(chunks));
    var cs := Prepared(chunks, all, pc, h.size);
    var len := chunks[0].blksLen;
    SecondPrepared(chunks, h, ts, end, to, present, pc);
    FirstHitLoaded(cs[1], blocks);
    assert Slice(blocks, 0, pc)[len] == blocks[len];
    hide *;
    HitStep(cs, blocks, 1);
    HitBlocksGrow(cs, blocks, 2, blocks[len]);
    RepeatsOf(Slice(blocks, 0, pc), HitBlocks(cs, blocks), len);
  }

  /** Past the first chunk, the prefix hit makes the second chunk start with a hit. */
  lemma SecondPrepared(chunks: seq<ChunkMeta>, h: Hasher, ts: seq<Token>, end: Token, to: nat, present: set<BlockId>,
                       pc: nat)
    requires h.size > 0 && to <= WholeBlocks(h.size, |ts|) && SplitsTo(chunks, h, ts, end, to) && |chunks| >= 2
    requires chunks[0].blksLen < pc
    ensures var cs := Prepared(chunks, AllHits(present, pc, AllIds(chunks)), pc, h.size);
            && 0 <= chunks[0].blksLen && |cs| >= 2 && cs[1].startBlk == chunks[0].blksLen < cs[1].EndBlk() <= to
            && cs[1].hits != [] && cs[1].hits[0]
  {
    var ids := AllIds(chunks);
    var all := AllHits(present, pc, ids);
    FirstChunk(chunks, h, ts, end, to);
    SecondChunk(chunks, h, ts, end, to);
    TrimPast(chunks[0], all, pc, h.size);
    SecondHits(chunks[1], present, ids, pc);
    hide *;
    PreparedAt(chunks, all, pc, h.size, 0);
    PreparedAt(chunks, all, pc, h.size, 1);
  }

  /** A chunk shorter than the prefix hit is left with a negative length. */
  lemma TrimPast(c: ChunkMeta, all: seq<bool>, pc: nat, size: nat)
    requires size > 0 && 0 <= c.blksLen < pc && c.tokensLen == Span(size, c.blksLen)
    ensures Trim(WithHits(c, all), pc, size).tokensLen != 0
  {
    SpanMonotone(size, c.blksLen, pc);
    hide Span;
  }

  /** A chunk that starts inside the prefix hit starts with a hit. */
  lemma SecondHits(c: ChunkMeta, present: set<BlockId>, ids: seq<BlockId>, pc: nat)
    requires c.startBlk < c.EndBlk() && c.startBlk < pc
    ensures var c' := WithHits(c, AllHits(present, pc, ids));
            c'.startBlk == c.startBlk && c'.EndBlk() == c.EndBlk() && c'.hits != [] && c'.hits[0]
  {
    var all := AllHits(present, pc, ids);
    assert |all| >= pc && all[c.startBlk];
    hide AllHits;
  }

  lemma RepeatsOf(a: seq<BlockNo>, b: seq<BlockNo>, i: nat)
    requires i < |a| && a[i] in b
    ensures !Distinct(a + b)
  {
    var j :| 0 <= j < |b| && b[j] == a[i];
    assert (a + b)[i] == (a + b)[|a| + j];
  }

  /** Enough hits after a prefix hit that goes beyond the first chunk mean that there is a second chunk. */
  lemma HitsNeedSecondChunk(chunks: seq<ChunkMeta>, h: Hasher, ts: seq<Token>, end: Token, to: nat,
                            present: set<BlockId>, pc: nat)
    requires h.size > 0 && to <= WholeBlocks(h.size, |ts|) && SplitsTo(chunks, h, ts, end, to) && chunks != []
    requires chunks[0].blksLen < pc && FoundInChunks(present, pc, AllIds(chunks)) > 0
    ensures |chunks| >= 2
  {
    IdsTile(chunks, h, ts, end, to);
    SingleChunk(chunks, h, ts, end, to);
    hide AllIds, SplitsTo, Span, WholeBlocks;
    FoundAfter(present, pc, AllIds(chunks));
  }

  lemma FoundAfter(present: set<BlockId>, pc: nat, ids: seq<BlockId>)
    ensures FoundInChunks(present, pc, ids) > 0 ==> pc < |ids|
  {
    if |ids| <= pc {
      assert Slice(ids, pc, |ids|) == [];
    }
  }

  lemma SingleChunk(chunks: seq<ChunkMeta>, h: Hasher, ts: seq<Token>, end: Token, to: nat)
    requires h.size > 0 && to <= WholeBlocks(h.size, |ts|) && SplitsTo(chunks, h, ts, end, to) && chunks != []
    ensures |chunks| == 1 ==> to == chunks[0].blksLen
  {
    assert chunks[..0] == [];
  }

  /** When chunk blocks are found after the prefix hit, some chunk is left to hand over. */
  lemma PreparedNotEmpty(chunks: seq<ChunkMeta>, h: Hasher, ts: seq<Token>, end: Token, to: nat,
                         present: set<BlockId>, pc: nat)
    requires IsSplit(chunks, h, ts, end, to) && chunks != []
    requires FoundInChunks(present, pc, AllIds(chunks)) > 0
    ensures Prepared(chunks, AllHits(present, pc, AllIds(chunks)), pc, h.size) != []
  {
    if |chunks| == 1 {
      var all := AllHits(present, pc, AllIds(chunks));
      SingleChunk(chunks, h, ts, end, to);
      IdsTile(chunks, h, ts, end, to);
      FirstChunk(chunks, h, ts, end, to);
      FoundAfter(present, pc, AllIds(chunks));
      hide AllIds, SplitsTo, Span, WholeBlocks, FoundInChunks, AllHits, Trim, NoneCloses;
      TrimEmpty(WithHits(chunks[0], all), pc, h.size);
    }
  }

  lemma FoundAreHits(present: set<BlockId>, pc: nat, ids: seq<BlockId>)
    requires pc <= |ids|
    ensures |AllHits(present, pc, ids)| == |ids|
    ensures ReusedMask(AllHits(present, pc, ids), ids, pc, present)
    ensures Count(AllHits(present, pc, ids)[pc..]) == FoundInChunks(present, pc, ids)
  {
    assert AllHits(present, pc, ids)[pc..] == Lookup(present, Slice(ids, pc, |ids|));
    hide Count;
  }

  /** The id of block b is the one that the cache of its own chunk has for it. */
  lemma {:induction false} IdOfBlock(chunks: seq<ChunkMeta>, h: Hasher, ts: seq<Token>, end: Token, to: nat,
                                     j: nat, b: nat)
    requires h.size > 0 && to <= WholeBlocks(h.size, |ts|) && SplitsTo(chunks, h, ts, end, to)
    requires j < |chunks| && chunks[j].startBlk <= b < chunks[j].EndBlk()
    ensures b < to == |AllIds(chunks)| && IsChunkId(AllIds(chunks)[b], h, ts, chunks[j], b)
  {
    var n := |chunks| - 1;
    var front, c := chunks[..n], chunks[n];
    assert AllIds(chunks) == AllIds(front) + c.ids;
    IdsTile(front, h, ts, end, c.startBlk);
    if j < n {
      IdOfBlock(front, h, ts, end, c.startBlk, j, b);
    } else {
      var part, k := ts[Span(h.size, c.startBlk)..Span(h.size, to)], b - c.startBlk;
      assert IdAt(h, part, BlockIds(h, part), k);
    }
  }

  /** `id` is the chain of the chunk's own tokens up to block b. */
  ghost predicate IsChunkId(id: BlockId, h: Hasher, ts: seq<Token>, c: ChunkMeta, b: nat) {
    && c.startBlk <= b && 0 <= c.EndBlk() && Span(h.size, c.startBlk) <= Span(h.size, c.EndBlk()) <= |ts|
    && var part := ts[Span(h.size, c.startBlk)..Span(h.size, c.EndBlk())];
       Span(h.size, b - c.startBlk + 1) <= |part| && id == Chain(h, part, b - c.startBlk + 1)
  }

  /** The ids of the first chunk, on its own, are those of the prompt's prefix. */
  lemma FirstChunkIsPrefix(chunks: seq<ChunkMeta>, h: Hasher, ts: seq<Token>, end: Token, to: nat, b: nat)
    requires h.size > 0 && to <= WholeBlocks(h.size, |ts|) && SplitsTo(chunks, h, ts, end, to) && chunks != []
    requires b < chunks[0].blksLen
    ensures b < |AllIds(chunks)| && b < |BlockIds(h, ts)| && AllIds(chunks)[b] == BlockIds(h, ts)[b]
  {
    FirstChunk(chunks, h, ts, end, to);
    IdOfBlock(chunks, h, ts, end, to, 0, b);
    var n := Span(h.size, chunks[0].blksLen);
    SpanStep(h.size, 0);
    SpanMonotone(h.size, b + 1, chunks[0].blksLen);
    assert IdAt(h, ts, BlockIds(h, ts), b);
    hide SplitsTo, AllIds, BlockIds, WholeBlocks;
    var part, m := ts[..n], Span(h.size, b + 1);
    assert ts[Span(h.size, 0)..n] == part;
    assert part[..m] == ts[..m];
    ChainOfPrefix(h, part, ts, b + 1);
  }

  /** Within the first chunk, every reused block is in the store under the id it is loaded by. */
  lemma ReusedArePresent(chunks: seq<ChunkMeta>, h: Hasher, ts: seq<Token>, end: Token, to: nat, present: set<BlockId>,
                         b: nat)
    requires h.size > 0 && to <= WholeBlocks(h.size, |ts|) && SplitsTo(chunks, h, ts, end, to) && chunks != []
    requires var pc := PresentPrefix(present, BlockIds(h, ts));
             pc <= chunks[0].blksLen && b < |AllHits(present, pc, AllIds(chunks))| == |AllIds(chunks)| &&
             AllHits(present, pc, AllIds(chunks))[b]
    ensures AllIds(chunks)[b] in present
  {
    var pc := PresentPrefix(present, BlockIds(h, ts));
    var ids, prefixIds := AllIds(chunks), BlockIds(h, ts);
    hide AllIds, BlockIds, SplitsTo, WholeBlocks;
    if b < pc {
      FirstChunkIsPrefix(chunks, h, ts, end, to, b);
      assert prefixIds[b] in present;
    } else {
      hide PresentPrefix;
      FoundByOwnId(present, pc, ids, b);
    }
  }

  lemma FoundByOwnId(present: set<BlockId>, pc: nat, ids: seq<BlockId>, b: nat)
    requires pc <= b < |ids| && b < |AllHits(present, pc, ids)| && AllHits(present, pc, ids)[b]
    ensures ids[b] in present
  {
  }

  lemma {:induction false} SelectedIn(ids: seq<BlockId>, mask: seq<bool>, present: set<BlockId>)
    requires |ids| == |mask| && forall b :: 0 <= b < |ids| && mask[b] ==> ids[b] in present
    ensures forall i :: 0 <= i < |Select(ids, mask)| ==> Select(ids, mask)[i] in present
  {
    if ids != [] {
      SelectedIn(ids[..|ids| - 1], mask[..|ids| - 1], present);
    }
  }

  /** The loads of a prompt with chunks are right exactly when its prefix hit does not go beyond the first chunk or too
      few chunk blocks are found for blending. */
  lemma LoadsRightIff(chunks: seq<ChunkMeta>, h: Hasher, ts: seq<Token>, end: Token, covered: nat,
                      present: set<BlockId>,
                      blocks: seq<BlockNo>)
    requires IsSplit(chunks, h, ts, end, covered) && chunks != []
    requires WholeBlocks(h.size, |ts|) <= |blocks| && Distinct(blocks)
    ensures var pc, meta := PresentPrefix(present, BlockIds(h, ts)), Recorded(h, ts, chunks, present);
            LoadsRight(LoadIds(meta), LoadBlocks(meta, blocks), present) <==>
            pc <= chunks[0].blksLen || FoundInChunks(present, pc, AllIds(chunks)) < MinBlendHits
  {
    var ids, prefixIds := AllIds(chunks), BlockIds(h, ts);
    var pc, meta := PresentPrefix(present, prefixIds), Recorded(h, ts, chunks, present);
    FirstChunk(chunks, h, ts, end, covered);
    hide AllIds, BlockIds, AllHits, Prepared, HitIds, HitBlocks, Distinct, SplitsTo, WholeBlocks, Span, FoundInChunks;
    if FoundInChunks(present, pc, ids) < MinBlendHits {
      PrefixLoadsRight(prefixIds, present, blocks);
    } else if pc <= chunks[0].blksLen {
      BlendLoads(chunks, h, ts, end, covered, present, blocks);
    } else {
      HitsNeedSecondChunk(chunks, h, ts, end, covered, present, pc);
      LoadedTwice(chunks, h, ts, end, covered, present, pc, blocks);
    }
  }

  lemma PrefixLoadsRight(ids: seq<BlockId>, present: set<BlockId>, blocks: seq<BlockNo>)
    requires |ids| <= |blocks| && Distinct(blocks)
    ensures var pc := PresentPrefix(present, ids);
            LoadsRight(Slice(ids, 0, pc) + [], Slice(blocks, 0, pc) + [], present)
  {
    var pc := PresentPrefix(present, ids);
    assert Slice(ids, 0, pc) == ids[..pc] && Slice(blocks, 0, pc) == blocks[..pc];
  }

  /** With the prefix hit inside the first chunk, ids and physical blocks are loaded under one mask of logical
      indices, and the store has every loaded id. */
  lemma BlendLoads(chunks: seq<ChunkMeta>, h: Hasher, ts: seq<Token>, end: Token, covered: nat, present: set<BlockId>,
                   blocks: seq<BlockNo>)
    requires IsSplit(chunks, h, ts, end, covered) && chunks != []
    requires WholeBlocks(h.size, |ts|) <= |blocks| && Distinct(blocks)
    requires PresentPrefix(present, BlockIds(h, ts)) <= chunks[0].blksLen
    ensures var ids, pc := AllIds(chunks), PresentPrefix(present, BlockIds(h, ts));
            var all := AllHits(present, pc, ids);
            var cs := Prepared(chunks, all, pc, h.size);
            && |ids| == |all| == covered && Ready(cs, h.size, ids, all, pc, covered)
            && Slice(ids, 0, pc) + HitIds(cs) == Select(ids, all)
            && Slice(blocks, 0, pc) + HitBlocks(cs, blocks) == Select(blocks[..covered], all)
            && LoadsRight(Slice(ids, 0, pc) + HitIds(cs), Slice(blocks, 0, pc) + HitBlocks(cs, blocks), present)
  {
    var ids, pc := AllIds(chunks), PresentPrefix(present, BlockIds(h, ts));
    var all := AllHits(present, pc, ids);
    FirstChunk(chunks, h, ts, end, covered);
    PreparedTiles(chunks, h, ts, end, covered, present, pc);
    assert Distinct(blocks[..covered]);
    forall b | 0 <= b < |ids| && all[b] ensures ids[b] in present {
      ReusedArePresent(chunks, h, ts, end, covered, present, b);
    }
    hide AllIds, BlockIds, AllHits, Prepared, HitIds, HitBlocks, Slice, Select, Distinct, SplitsTo, WholeBlocks, Span,
         Ready, Count;
    LoadsAligned(Prepared(chunks, all, pc, h.size), h.size, ids, present, blocks, pc, covered);
    SelectDistinct(blocks[..covered], all);
    SelectLength(ids, all);
    SelectLength(blocks[..covered], all);
    SelectedIn(ids, all, present);
  }

  // ---- rotating the loaded keys ----

  function Repeated(n: nat, v: int): (s: seq<int>)
    ensures |s| == n
  {
    seq(n, _ => v)
  }

  /** The offset of each block that the chunks cover. */
  function BlockOffsets(chunks: seq<ChunkMeta>): seq<int> {
    if chunks == [] then []
    else
      var c := chunks[|chunks| - 1];
      BlockOffsets(chunks[..|chunks| - 1]) + Repeated(if c.blksLen < 0 then 0 else c.blksLen, c.PositionOffset())
  }

  /** `bind_connector_metadata`: the blocks to rotate, and by how much. */
  method RotationMeta(chunks: seq<ChunkMeta>) returns (ids: seq<BlockNo>, positions: seq<int>)
    ensures ids == RotatedBlocks(chunks) && positions == RotatedBy(chunks)
  {
    ids, positions := [], [];
    for k := 0 to |chunks|
      invariant ids == RotatedBlocks(chunks[..k]) && positions == RotatedBy(chunks[..k])
    {
      assert chunks[..k + 1][..k] == chunks[..k];
      var c := chunks[k];
      var hitBlocks := Compress(c.blocks, c.hits);
      ids := ids + hitBlocks;
      positions := positions + Repeated(|hitBlocks|, c.PositionOffset());
    }
    assert chunks[..|chunks|] == chunks;
  }

  function RotatedBlocks(chunks: seq<ChunkMeta>): seq<BlockNo> {
    if chunks == [] then []
    else RotatedBlocks(chunks[..|chunks| - 1]) + Compress(chunks[|chunks| - 1].blocks, chunks[|chunks| - 1].hits)
  }

  function RotatedBy(chunks: seq<ChunkMeta>): seq<int> {
    if chunks == [] then []
    else
      var c := chunks[|chunks| - 1];
      RotatedBy(chunks[..|chunks| - 1]) + Repeated(|Compress(c.blocks, c.hits)|, c.PositionOffset())
  }

  lemma {:induction false} SelectConst(n: nat, v: int, mask: seq<bool>)
    requires |mask| == n
    ensures Select(Repeated(n, v), mask) == Repeated(Count(mask), v)
  {
    if n > 0 {
      SelectConst(n - 1, v, mask[..n - 1]);
      assert Repeated(n, v)[..n - 1] == Repeated(n - 1, v);
    }
  }

  /** The rotated blocks and their offsets are taken under the same mask as the loaded chunk blocks. */
  lemma {:induction false} RotationAligned(cs: seq<ChunkMeta>, size: nat, ids: seq<BlockId>, all: seq<bool>,
                                           blocks: seq<BlockNo>, from: nat, to: nat)
    requires Ready(cs, size, ids, all, from, to) && from <= to <= |ids| && to <= |all| && to <= |blocks|
    requires cs == AllWithBlocks(cs, blocks)
    ensures |BlockOffsets(cs)| == to - from
    ensures RotatedBlocks(cs) == Select(blocks[from..to], all[from..to])
    ensures RotatedBy(cs) == Select(BlockOffsets(cs), all[from..to])
  {
    if cs != [] {
      var c := cs[|cs| - 1];
      var s, front := c.startBlk, cs[..|cs| - 1];
      assert c == AllWithBlocks(cs, blocks)[|cs| - 1];
      assert front == AllWithBlocks(front, blocks);
      RotationAligned(front, size, ids, all, blocks, from, s);
      ChunkRotation(c, ids, all, blocks, to);
      var offsets := Repeated(to - s, c.PositionOffset());
      assert BlockOffsets(cs) == BlockOffsets(front) + offsets;
      assert RotatedBlocks(cs) == RotatedBlocks(front) + Compress(c.blocks, c.hits);
      assert RotatedBy(cs) == RotatedBy(front) + Repeated(|Compress(c.blocks, c.hits)|, c.PositionOffset());
      hide *;
      SliceJoin(all, from, s, to);
      SelectSplit(blocks, all, from, s, to);
      SelectAppend(BlockOffsets(front), offsets, all[from..s], all[s..to]);
    }
  }

  lemma SliceJoin(mask: seq<bool>, a: nat, b: nat, c: nat)
    requires a <= b <= c <= |mask|
    ensures mask[a..c] == mask[a..b] + mask[b..c]
  {
  }

  lemma ChunkRotation(c: ChunkMeta, ids: seq<BlockId>, all: seq<bool>, blocks: seq<BlockNo>, to: nat)
    requires c.startBlk <= to <= |ids| && to <= |all| && to <= |blocks| && c.EndBlk() == to
    requires c.ids == ids[c.startBlk..to] && c.hits == all[c.startBlk..to] && c == WithBlocks(c, blocks)
    ensures Compress(c.blocks, c.hits) == Select(blocks[c.startBlk..to], all[c.startBlk..to])
    ensures Repeated(|Compress(c.blocks, c.hits)|, c.PositionOffset()) ==
            Select(Repeated(to - c.startBlk, c.PositionOffset()), all[c.startBlk..to])
  {
    ChunkHits(c, ids, all, blocks, to);
    hide Select, Compress, WithBlocks;
    SelectLength(blocks[c.startBlk..to], all[c.startBlk..to]);
    SelectConst(to - c.startBlk, c.PositionOffset(), all[c.startBlk..to]);
  }

  /** Block b is rotated by the offset of the chunk that covers it. */
  lemma {:induction false} OffsetOfBlock(cs: seq<ChunkMeta>, size: nat, ids: seq<BlockId>, all: seq<bool>,
                                         from: nat, to: nat, b: nat) returns (i: nat)
    requires Ready(cs, size, ids, all, from, to) && from <= b < to
    ensures i < |cs| && cs[i].startBlk <= b < cs[i].EndBlk()
    ensures b - from < |BlockOffsets(cs)| && BlockOffsets(cs)[b - from] == cs[i].PositionOffset()
  {
    var n := |cs| - 1;
    var c, front := cs[n], cs[..n];
    OffsetsLength(front, size, ids, all, from, c.startBlk);
    if b < c.startBlk {
      i := OffsetOfBlock(front, size, ids, all, from, c.startBlk, b);
    } else {
      i := n;
    }
  }

  lemma {:induction false} OffsetsLength(cs: seq<ChunkMeta>, size: nat, ids: seq<BlockId>, all: seq<bool>,
                                         from: nat, to: nat)
    requires Ready(cs, size, ids, all, from, to)
    ensures from <= to && |BlockOffsets(cs)| == to - from
  {
    if cs != [] {
      OffsetsLength(cs[..|cs| - 1], size, ids, all, from, cs[|cs| - 1].startBlk);
    }
  }

  /** A fresh chunk is rotated to where it starts: it was cached from position 0. */
  lemma {:induction false} FreshOffset(chunks: seq<ChunkMeta>, h: Hasher, ts: seq<Token>, end: Token, to: nat, j: nat)
    requires h.size > 0 && to <= WholeBlocks(h.size, |ts|) && SplitsTo(chunks, h, ts, end, to) && j < |chunks|
    ensures chunks[j].PositionOffset() == Span(h.size, chunks[j].startBlk) && chunks[j].EndBlk() <= to
  {
    var n := |chunks| - 1;
    if j < n {
      FreshOffset(chunks[..n], h, ts, end, chunks[n].startBlk, j);
    }
  }

  /** A block lies in one chunk only. */
  lemma {:induction false} ChunksDisjoint(chunks: seq<ChunkMeta>, h: Hasher, ts: seq<Token>, end: Token, to: nat,
                                          i: nat, j: nat, b: nat)
    requires h.size > 0 && to <= WholeBlocks(h.size, |ts|) && SplitsTo(chunks, h, ts, end, to)
    requires i < |chunks| && chunks[i].startBlk <= b < chunks[i].EndBlk()
    requires j < |chunks| && chunks[j].startBlk <= b < chunks[j].EndBlk()
    ensures i == j
  {
    var n := |chunks| - 1;
    var front := chunks[..n];
    if i < n {
      FreshOffset(front, h, ts, end, chunks[n].startBlk, i);
    }
    if j < n {
      FreshOffset(front, h, ts, end, chunks[n].startBlk, j);
    }
    if i < n && j < n {
      ChunksDisjoint(front, h, ts, end, chunks[n].startBlk, i, j, b);
    }
  }

  /** A prepared chunk covers blocks of the fresh chunk it came from, and is rotated as that one. */
  lemma PreparedFrom(chunks: seq<ChunkMeta>, h: Hasher, ts: seq<Token>, end: Token, to: nat, all: seq<bool>, pc: nat,
                     i: nat) returns (j: nat)
    requires h.size > 0 && to <= WholeBlocks(h.size, |ts|) && SplitsTo(chunks, h, ts, end, to) && chunks != []
    requires i < |Prepared(chunks, all, pc, h.size)|
    ensures j < |chunks|
    ensures var c, f := Prepared(chunks, all, pc, h.size)[i], chunks[j];
            f.startBlk <= c.startBlk && c.EndBlk() == f.EndBlk() && c.PositionOffset() == Span(h.size, f.startBlk)
  {
    hide SplitsTo, Prepared, WholeBlocks, Span;
    PreparedAt(chunks, all, pc, h.size, i);
    j := i + |chunks| - |Prepared(chunks, all, pc, h.size)|;
    FreshOffset(chunks, h, ts, end, to, j);
    TrimKeepsOffset(WithHits(chunks[0], all), pc, h.size);
  }

  /** The rotation of block b, which lies in chunk j of the prompt, is its position in the prompt less its position in
      chunk j's own cache. */
  lemma RotationIsDistance(chunks: seq<ChunkMeta>, h: Hasher, ts: seq<Token>, end: Token, to: nat, ids: seq<BlockId>,
                           all: seq<bool>, pc: nat, j: nat, b: nat)
    requires h.size > 0 && to <= WholeBlocks(h.size, |ts|) && SplitsTo(chunks, h, ts, end, to) && chunks != []
    requires Ready(Prepared(chunks, all, pc, h.size), h.size, ids, all, pc, to) && pc <= b < to
    requires j < |chunks| && chunks[j].startBlk <= b < chunks[j].EndBlk()
    ensures var offsets := BlockOffsets(Prepared(chunks, all, pc, h.size));
            b - pc < |offsets| && offsets[b - pc] == Span(h.size, b) - Span(h.size, b - chunks[j].startBlk)
  {
    hide SplitsTo, Ready, Prepared, WholeBlocks, Span, BlockOffsets;
    var i := OffsetOfBlock(Prepared(chunks, all, pc, h.size), h.size, ids, all, pc, to, b);
    var j' := PreparedFrom(chunks, h, ts, end, to, all, pc, i);
    ChunksDisjoint(chunks, h, ts, end, to, j, j', b);
    SpanDifference(h.size, b - chunks[j].startBlk, b);
  }

  // ---- the whole of it ----

  /** The hit mask of a request as the sparse attention sees it: the hits of its chunks, joined. */
  function JoinedHits(chunks: seq<ChunkMeta>): seq<bool> {
    if chunks == [] then [] else JoinedHits(chunks[..|chunks| - 1]) + chunks[|chunks| - 1].hits
  }

  /** The hits of each chunk, as they are handed to the sparse attention. */
  function HitsOf(chunks: seq<ChunkMeta>): seq<seq<bool>> {
    seq(|chunks|, i requires 0 <= i < |chunks| => chunks[i].hits)
  }

  lemma {:induction false} JoinedHitsOf(chunks: seq<ChunkMeta>)
    ensures Joined(HitsOf(chunks)) == JoinedHits(chunks)
  {
    if chunks != [] {
      JoinedHitsOf(chunks[..|chunks| - 1]);
      assert HitsOf(chunks)[..|chunks| - 1] == HitsOf(chunks[..|chunks| - 1]);
    }
  }

  lemma {:induction false} JoinedHitsTile(cs: seq<ChunkMeta>, size: nat, ids: seq<BlockId>, all: seq<bool>,
                                          from: nat, to: nat)
    requires Ready(cs, size, ids, all, from, to) && to <= |all|
    ensures from <= to && JoinedHits(cs) == all[from..to]
  {
    if cs != [] {
      var c := cs[|cs| - 1];
      JoinedHitsTile(cs[..|cs| - 1], size, ids, all, from, c.startBlk);
      SliceJoin(all, from, c.startBlk, to);
    }
  }

  /** Every chunk block is loaded under the id of its own chunk's cache, and rotated by the distance from there. */
  ghost predicate ChunkBlocksRight(chunks: seq<ChunkMeta>, h: Hasher, ts: seq<Token>, ids: seq<BlockId>,
                                   offsets: seq<int>, pc: nat) {
    forall j, b :: 0 <= j < |chunks| && chunks[j].startBlk <= b < chunks[j].EndBlk() ==>
                     ChunkBlockRight(chunks[j], h, ts, ids, offsets, pc, b)
  }

  ghost predicate ChunkBlockRight(c: ChunkMeta, h: Hasher, ts: seq<Token>, ids: seq<BlockId>, offsets: seq<int>,
                                  pc: nat, b: nat)
    requires c.startBlk <= b
  {
    && b < |ids| && IsChunkId(ids[b], h, ts, c, b)
    && (pc <= b ==> b - pc < |offsets| && offsets[b - pc] == Span(h.size, b) - Span(h.size, b - c.startBlk))
  }

  /** The plan for a blended prompt: loads and rotations are taken from the prompt's blocks under one mask of reused
      blocks, the store has everything that is loaded, and the request still has tokens after its chunks to compute. */
  ghost predicate PlanRight(h: Hasher, ts: seq<Token>, chunks: seq<ChunkMeta>, covered: nat, present: set<BlockId>,
                            blocks: seq<BlockNo>, plan: Plan)
    requires h.size > 0 && chunks != []
  {
    var ids, pc := AllIds(chunks), PresentPrefix(present, BlockIds(h, ts));
    var all := AllHits(present, pc, ids);
    var offsets := BlockOffsets(Prepared(chunks, all, pc, h.size));
    && ReusedMask(all, ids, pc, present) && TakenUnder(plan, ids, blocks, all, offsets, pc, covered)
    && ChunkBlocksRight(chunks, h, ts, ids, offsets, pc) && Span(h.size, |plan.Hits()|) < |ts| - plan.tokens
    && Count(plan.Hits()) >= MinBlendHits
  }

  /** The blocks of the prefix hit are reused, and the later ones whose id the store has. */
  ghost predicate ReusedMask(all: seq<bool>, ids: seq<BlockId>, pc: nat, present: set<BlockId>) {
    && |all| == |ids|
    && forall b :: 0 <= b < |all| ==> (all[b] <==> b < pc || ids[b] in present)
  }

  /** Ids, blocks, rotations and hits are those of one mask over the covered blocks. */
  ghost predicate TakenUnder(plan: Plan, ids: seq<BlockId>, blocks: seq<BlockNo>, all: seq<bool>, offsets: seq<int>,
                             pc: nat, covered: nat) {
    && pc <= covered == |ids| == |all| <= |blocks| && |offsets| == covered - pc
    && plan.meta.loadIds == Select(ids, all) && plan.meta.loadBlocks == Select(blocks[..covered], all)
    && plan.rotated == Select(blocks[pc..covered], all[pc..covered])
    && plan.rotation == Select(offsets, all[pc..covered])
    && plan.Hits() == all[pc..covered]
  }

  /** What comes out for a prompt: the tokens reported as cached, the loads and dumps, the blocks to rotate and by how
      much, and the hits of the chunks for the sparse attention. */
  datatype Plan = Plan(tokens: nat, meta: DispatchMeta, rotated: seq<BlockNo>, rotation: seq<int>,
                       chunkHits: seq<seq<bool>>)
  {
    function Hits(): seq<bool> { Joined(chunkHits) }
  }

  /** The plan that follows from a record. */
  function PlanOf(meta: BlendMeta, tokens: nat, blocks: seq<BlockNo>): Plan {
    var placed := if meta.stage == CacheBlend then AllWithBlocks(meta.chunks, blocks) else meta.chunks;
    var dumps := if meta.stage == CacheBlend then ([], [])
                 else (Slice(meta.ids, meta.pc, |meta.ids|), Slice(blocks, meta.pc, |meta.ids|));
    Plan(tokens, DispatchMeta(LoadIds(meta), LoadBlocks(meta, blocks), dumps.0, dumps.1),
         RotatedBlocks(placed), RotatedBy(placed), HitsOf(meta.chunks))
  }

  method MakePlan(meta: BlendMeta, tokens: nat, blocks: seq<BlockNo>) returns (plan: Plan)
    ensures plan == PlanOf(meta, tokens, blocks)
  {
    var d, placed := GenerateBlendDispatchMeta(meta.stage, meta.pc, meta.ids, meta.chunks, blocks);
    var rotated, rotation := RotationMeta(placed);
    hide Slice, HitIds, HitBlocks, RotatedBlocks, RotatedBy, AllWithBlocks, HitsOf;
    plan := Plan(tokens, d, rotated, rotation, HitsOf(meta.chunks));
  }

  /** A prompt from its match to its loads and rotations. Without blending the loads are always right. With blending
      they are right exactly when the prefix hit does not go beyond the first chunk, and then so is the whole plan. */
  method ServePrompt(h: Hasher, ts: seq<Token>, end: Token, present: set<BlockId>, blocks: seq<BlockNo>)
    returns (plan: Option<Plan>, ghost chunks: seq<ChunkMeta>, ghost covered: nat)
    requires h.size > 0 && WholeBlocks(h.size, |ts|) <= |blocks| && Distinct(blocks)
    ensures plan.None? <==> WholeBlocks(h.size, |ts|) == 0
    ensures plan.Some? ==> ts != []
    ensures plan.Some? && chunks == [] ==>
              IsPaddedChunk(h, ts, end) || NoneCloses(ts, h.size, end, 0, WholeBlocks(h.size, |ts|))
    ensures plan.Some? && chunks != [] ==> IsSplit(chunks, h, ts, end, covered) && Span(h.size, covered) < |ts|
    ensures plan.Some? ==> Served(h, ts, chunks, covered, present, blocks, plan.value)
  {
    hide *;
    var tokens, meta;
    tokens, meta, chunks, covered := GetNumNewMatchedTokens(h, ts, end, present);
    if meta.None? {
      return None, chunks, covered;
    }
    var p := MakePlan(meta.value, tokens, blocks);
    if chunks == [] {
      NoChunksNoBlend(h, ts, present);
      PlainPlan(h, ts, [], covered, present, blocks, tokens);
    } else {
      ChunkedPlan(h, ts, end, chunks, covered, present, blocks, tokens);
    }
    plan := Some(p);
  }

  /** What is promised of a plan: the tokens of the prefix hit are reported. Without blending the blocks of the prefix
      hit are loaded, each under its own id, and the rest of the prompt's full blocks are dumped under theirs. With
      blending nothing is dumped, and the loads are right exactly under the condition. Chunk hits are handed over
      exactly for a prompt that blends. */
  ghost predicate Served(h: Hasher, ts: seq<Token>, chunks: seq<ChunkMeta>, covered: nat, present: set<BlockId>,
                         blocks: seq<BlockNo>, plan: Plan)
    requires h.size > 0
  {
    var right := LoadsRight(plan.meta.loadIds, plan.meta.loadBlocks, present);
    && TokensRight(h.size, |ts|, PresentPrefix(present, BlockIds(h, ts)), plan.tokens)
    && if !Blends(h, ts, chunks, present) then
      && PrefixPlan(BlockIds(h, ts), PresentPrefix(present, BlockIds(h, ts)), blocks, plan.meta)
      && right && plan.rotated == [] && plan.rotation == [] && plan.chunkHits == []
    else
      && plan.meta.dumpIds == [] && plan.meta.dumpBlocks == [] && plan.chunkHits != []
      && (right <==> PresentPrefix(present, BlockIds(h, ts)) <= chunks[0].blksLen)
      && (right ==> PlanRight(h, ts, chunks, covered, present, blocks, plan))
  }

  /** The first pc ids go with the first pc blocks into the loads, the other ids with the next blocks into the dumps. */
  ghost predicate PrefixPlan(ids: seq<BlockId>, pc: nat, blocks: seq<BlockNo>, meta: DispatchMeta) {
    && pc <= |ids| <= |blocks|
    && meta.loadIds == ids[..pc] && meta.loadBlocks == blocks[..pc]
    && meta.dumpIds == ids[pc..] && meta.dumpBlocks == blocks[pc..|ids|]
  }

  lemma PlainPlan(h: Hasher, ts: seq<Token>, chunks: seq<ChunkMeta>, covered: nat, present: set<BlockId>,
                  blocks: seq<BlockNo>, tokens: nat)
    requires h.size > 0 && WholeBlocks(h.size, |ts|) <= |blocks| && Distinct(blocks) && !Blends(h, ts, chunks, present)
    requires TokensRight(h.size, |ts|, PresentPrefix(present, BlockIds(h, ts)), tokens)
    ensures Served(h, ts, chunks, covered, present, blocks, PlanOf(Recorded(h, ts, chunks, present), tokens, blocks))
  {
    hide *;
    PlainRecorded(h, ts, chunks, present);
    PlainPlanOf(BlockIds(h, ts), present, blocks, tokens);
    PlainServed(h, ts, chunks, covered, present, blocks, PlanOf(Recorded(h, ts, chunks, present), tokens, blocks));
  }

  lemma PlainRecorded(h: Hasher, ts: seq<Token>, chunks: seq<ChunkMeta>, present: set<BlockId>)
    requires h.size > 0 && !Blends(h, ts, chunks, present)
    ensures var ids := BlockIds(h, ts);
            && |ids| == WholeBlocks(h.size, |ts|)
            && Recorded(h, ts, chunks, present) == BlendMeta(ids, PresentPrefix(present, ids), [], BuildPrefixCache)
  {
    FoundIsCount(present, PresentPrefix(present, BlockIds(h, ts)), AllIds(chunks));
    hide WholeBlocks, AllIds, PresentPrefix, FoundInChunks, FoundBlocks, Prepared, AllHits;
  }

  lemma PlainPlanOf(ids: seq<BlockId>, present: set<BlockId>, blocks: seq<BlockNo>, tokens: nat)
    requires |ids| <= |blocks| && Distinct(blocks)
    ensures var pc := PresentPrefix(present, ids);
            var plan := PlanOf(BlendMeta(ids, pc, [], BuildPrefixCache), tokens, blocks);
            && PrefixPlan(ids, pc, blocks, plan.meta) && plan.tokens == tokens
            && plan.rotated == [] && plan.rotation == [] && plan.chunkHits == []
            && LoadsRight(plan.meta.loadIds, plan.meta.loadBlocks, present)
  {
    var pc := PresentPrefix(present, ids);
    PrefixLoadsRight(ids, present, blocks);
    hide *;
    SliceAll(ids, pc, |ids|);
    SliceAll(blocks, pc, |ids|);
    PlanOfPrefix(ids, pc, blocks, tokens);
  }

  lemma PlanOfPrefix(ids: seq<BlockId>, pc: nat, blocks: seq<BlockNo>, tokens: nat)
    requires pc <= |ids| <= |blocks|
    ensures var plan := PlanOf(BlendMeta(ids, pc, [], BuildPrefixCache), tokens, blocks);
            && PrefixPlan(ids, pc, blocks, plan.meta) && plan.tokens == tokens
            && plan.rotated == [] && plan.rotation == [] && plan.chunkHits == []
            && plan.meta.loadIds == Slice(ids, 0, pc) + [] && plan.meta.loadBlocks == Slice(blocks, 0, pc) + []
  {
    SliceAll(ids, pc, |ids|);
    SliceAll(blocks, pc, |ids|);
    hide Slice, HitIds, HitBlocks;
  }

  lemma PlainServed(h: Hasher, ts: seq<Token>, chunks: seq<ChunkMeta>, covered: nat, present: set<BlockId>,
                    blocks: seq<BlockNo>, plan: Plan)
    requires h.size > 0 && !Blends(h, ts, chunks, present)
    requires TokensRight(h.size, |ts|, PresentPrefix(present, BlockIds(h, ts)), plan.tokens)
    requires PrefixPlan(BlockIds(h, ts), PresentPrefix(present, BlockIds(h, ts)), blocks, plan.meta)
    requires plan.rotated == [] && plan.rotation == [] && plan.chunkHits == []
    requires LoadsRight(plan.meta.loadIds, plan.meta.loadBlocks, present)
    ensures Served(h, ts, chunks, covered, present, blocks, plan)
  {
    hide Blends, TokensRight, PrefixPlan, LoadsRight, PresentPrefix, BlockIds;
  }

  lemma SliceAll<X>(s: seq<X>, a: nat, b: nat)
    requires a <= b <= |s|
    ensures Slice(s, 0, a) == s[..a] && Slice(s, a, b) == s[a..b]
  {
  }

  lemma ChunkedPlan(h: Hasher, ts: seq<Token>, end: Token, chunks: seq<ChunkMeta>, covered: nat, present: set<BlockId>,
                    blocks: seq<BlockNo>, tokens: nat)
    requires IsSplit(chunks, h, ts, end, covered) && chunks != [] && Span(h.size, covered) < |ts|
    requires WholeBlocks(h.size, |ts|) <= |blocks| && Distinct(blocks)
    requires TokensRight(h.size, |ts|, PresentPrefix(present, BlockIds(h, ts)), tokens)
    ensures Served(h, ts, chunks, covered, present, blocks, PlanOf(Recorded(h, ts, chunks, present), tokens, blocks))
  {
    hide *;
    SplitFacts(chunks, h, ts, end, covered);
    if Blends(h, ts, chunks, present) {
      BlendingPlan(h, ts, end, chunks, covered, present, blocks, tokens);
    } else {
      PlainPlan(h, ts, chunks, covered, present, blocks, tokens);
    }
  }

  lemma BlendingPlan(h: Hasher, ts: seq<Token>, end: Token, chunks: seq<ChunkMeta>, covered: nat,
                     present: set<BlockId>, blocks: seq<BlockNo>, tokens: nat)
    requires IsSplit(chunks, h, ts, end, covered) && chunks != [] && Span(h.size, covered) < |ts|
    requires WholeBlocks(h.size, |ts|) <= |blocks| && Distinct(blocks) && Blends(h, ts, chunks, present)
    requires TokensRight(h.size, |ts|, PresentPrefix(present, BlockIds(h, ts)), tokens)
    ensures Served(h, ts, chunks, covered, present, blocks, PlanOf(Recorded(h, ts, chunks, present), tokens, blocks))
  {
    var pc := PresentPrefix(present, BlockIds(h, ts));
    hide IsSplit, Distinct, AllIds, BlockIds, AllHits, Prepared, HitIds, HitBlocks, WholeBlocks, Span, Slice,
         LoadsRight, PlanRight, RotatedBlocks, RotatedBy, PresentPrefix, AllWithBlocks, Recorded;
    LoadsRightIff(chunks, h, ts, end, covered, present, blocks);
    BlendsFound(h, ts, chunks, present);
    BlendRecorded(h, ts, chunks, present);
    PreparedNotEmpty(chunks, h, ts, end, covered, present, pc);
    hide FoundInChunks;
    if pc <= chunks[0].blksLen {
      BlendedPlan(h, ts, end, chunks, covered, present, blocks, tokens);
    }
  }

  /** The plan of a blended prompt whose prefix hit lies within its first chunk. */
  lemma BlendedPlan(h: Hasher, ts: seq<Token>, end: Token, chunks: seq<ChunkMeta>, covered: nat, present: set<BlockId>,
                    blocks: seq<BlockNo>, tokens: nat)
    requires IsSplit(chunks, h, ts, end, covered) && chunks != [] && Span(h.size, covered) < |ts|
    requires WholeBlocks(h.size, |ts|) <= |blocks| && Distinct(blocks) && Blends(h, ts, chunks, present)
    requires PresentPrefix(present, BlockIds(h, ts)) <= chunks[0].blksLen
    requires TokensRight(h.size, |ts|, PresentPrefix(present, BlockIds(h, ts)), tokens)
    ensures PlanRight(h, ts, chunks, covered, present, blocks, PlanOf(Recorded(h, ts, chunks, present), tokens, blocks))
  {
    hide *;
    BlendedParts(h, ts, end, chunks, covered, present, blocks, tokens);
    TokensLeft(h.size, |ts|, PresentPrefix(present, BlockIds(h, ts)), covered, tokens);
    BlendsFound(h, ts, chunks, present);
    PlanAssembled(h, ts, chunks, covered, present, blocks, PlanOf(Recorded(h, ts, chunks, present), tokens, blocks));
  }

  lemma BlendedParts(h: Hasher, ts: seq<Token>, end: Token, chunks: seq<ChunkMeta>, covered: nat, present: set<BlockId>,
                     blocks: seq<BlockNo>, tokens: nat)
    requires IsSplit(chunks, h, ts, end, covered) && chunks != []
    requires WholeBlocks(h.size, |ts|) <= |blocks| && Distinct(blocks) && Blends(h, ts, chunks, present)
    requires PresentPrefix(present, BlockIds(h, ts)) <= chunks[0].blksLen
    ensures h.size > 0 && chunks != [] && PresentPrefix(present, BlockIds(h, ts)) <= covered
    ensures var plan := PlanOf(Recorded(h, ts, chunks, present), tokens, blocks);
            plan.tokens == tokens && Parts(h, ts, chunks, covered, present, blocks, plan, tokens)
  {
    var ids, pc := AllIds(chunks), PresentPrefix(present, BlockIds(h, ts));
    var all := AllHits(present, pc, ids);
    var meta := BlendMeta(ids, pc, Prepared(chunks, all, pc, h.size), CacheBlend);
    hide AllIds, PresentPrefix, BlockIds, AllHits, Prepared, BlockOffsets, TakenUnder, ChunkBlocksRight, Span, Recorded,
         PlanOf, IsSplit, Blends, WholeBlocks, SplitsTo, Ready, Slice, HitIds, HitBlocks, Select, LoadsRight, Distinct;
    SplitFacts(chunks, h, ts, end, covered);
    BlendRecorded(h, ts, chunks, present);
    BlendLoads(chunks, h, ts, end, covered, present, blocks);
    BlendTaken(meta, h.size, ids, all, blocks, tokens, covered);
    AllBlocksRight(chunks, h, ts, end, covered, ids, all, pc);
  }

  ghost predicate Parts(h: Hasher, ts: seq<Token>, chunks: seq<ChunkMeta>, covered: nat, present: set<BlockId>,
                        blocks: seq<BlockNo>, plan: Plan, tokens: nat)
    requires h.size > 0 && chunks != []
  {
    var ids, pc := AllIds(chunks), PresentPrefix(present, BlockIds(h, ts));
    var all := AllHits(present, pc, ids);
    var offsets := BlockOffsets(Prepared(chunks, all, pc, h.size));
    && TakenUnder(plan, ids, blocks, all, offsets, pc, covered)
    && ChunkBlocksRight(chunks, h, ts, ids, offsets, pc)
    && plan.tokens == tokens && pc <= covered && |plan.Hits()| == covered - pc
  }

  /** The plan of a blended record whose chunks tile the blocks after the prefix hit. */
  lemma BlendTaken(meta: BlendMeta, size: nat, ids: seq<BlockId>, all: seq<bool>, blocks: seq<BlockNo>, tokens: nat,
                   covered: nat)
    requires meta.stage == CacheBlend && meta.ids == ids && |ids| == |all| == covered <= |blocks| && meta.pc <= covered
    requires Ready(meta.chunks, size, ids, all, meta.pc, covered)
    requires Slice(ids, 0, meta.pc) + HitIds(meta.chunks) == Select(ids, all)
    requires Slice(blocks, 0, meta.pc) + HitBlocks(meta.chunks, blocks) == Select(blocks[..covered], all)
    ensures var plan := PlanOf(meta, tokens, blocks);
            && TakenUnder(plan, ids, blocks, all, BlockOffsets(meta.chunks), meta.pc, covered)
            && plan.tokens == tokens && |plan.Hits()| == covered - meta.pc
  {
    BlendPlanOf(meta, tokens, blocks);
    hide PlanOf, Ready, Slice, HitIds, HitBlocks, Select, RotatedBlocks, RotatedBy, BlockOffsets, JoinedHits,
         AllWithBlocks;
    PlacedRotation(meta.chunks, size, ids, all, blocks, meta.pc, covered);
    JoinedHitsTile(meta.chunks, size, ids, all, meta.pc, covered);
  }

  lemma SplitFacts(chunks: seq<ChunkMeta>, h: Hasher, ts: seq<Token>, end: Token, covered: nat)
    requires IsSplit(chunks, h, ts, end, covered) && chunks != []
    ensures h.size > 0 && covered <= WholeBlocks(h.size, |ts|) && SplitsTo(chunks, h, ts, end, covered)
    ensures 0 < chunks[0].blksLen <= covered
  {
    hide WholeBlocks, SplitsTo, NoneCloses;
    FirstChunk(chunks, h, ts, end, covered);
  }

  lemma BlendRecorded(h: Hasher, ts: seq<Token>, chunks: seq<ChunkMeta>, present: set<BlockId>)
    requires h.size > 0 && Blends(h, ts, chunks, present)
    ensures var ids, pc := AllIds(chunks), PresentPrefix(present, BlockIds(h, ts));
            chunks != [] && Recorded(h, ts, chunks, present) ==
                            BlendMeta(ids, pc, Prepared(chunks, AllHits(present, pc, ids), pc, h.size), CacheBlend)
  {
    BlendsFound(h, ts, chunks, present);
    hide AllIds, PresentPrefix, BlockIds, Prepared, AllHits, FoundInChunks, FoundBlocks;
  }

  lemma TokensLeft(size: nat, length: nat, pc: nat, covered: nat, tokens: nat)
    requires size > 0 && pc <= covered && Span(size, covered) < length
    requires TokensRight(size, length, pc, tokens)
    ensures Span(size, covered - pc) < length - tokens
  {
    SpanMonotone(size, pc, covered);
    SpanDifference(size, pc, covered);
    hide Span;
  }

  lemma BlendPlanOf(meta: BlendMeta, tokens: nat, blocks: seq<BlockNo>)
    requires meta.stage == CacheBlend
    ensures var plan, placed := PlanOf(meta, tokens, blocks), AllWithBlocks(meta.chunks, blocks);
            && plan.tokens == tokens && plan.meta.loadIds == Slice(meta.ids, 0, meta.pc) + HitIds(meta.chunks)
            && plan.meta.loadBlocks == Slice(blocks, 0, meta.pc) + HitBlocks(meta.chunks, blocks)
            && plan.rotated == RotatedBlocks(placed) && plan.rotation == RotatedBy(placed)
            && plan.Hits() == JoinedHits(meta.chunks)
  {
    JoinedHitsOf(meta.chunks);
    hide Slice, HitIds, HitBlocks, RotatedBlocks, RotatedBy, JoinedHits, AllWithBlocks, Joined;
  }

  lemma PlanAssembled(h: Hasher, ts: seq<Token>, chunks: seq<ChunkMeta>, covered: nat, present: set<BlockId>,
                      blocks: seq<BlockNo>, plan: Plan)
    requires h.size > 0 && chunks != [] && Parts(h, ts, chunks, covered, present, blocks, plan, plan.tokens)
    requires FoundInChunks(present, PresentPrefix(present, BlockIds(h, ts)), AllIds(chunks)) >= MinBlendHits
    requires var pc := PresentPrefix(present, BlockIds(h, ts));
             pc <= covered && Span(h.size, covered - pc) < |ts| - plan.tokens
    ensures PlanRight(h, ts, chunks, covered, present, blocks, plan)
  {
    var ids, pc := AllIds(chunks), PresentPrefix(present, BlockIds(h, ts));
    var all := AllHits(present, pc, ids);
    assert TakenUnder(plan, ids, blocks, all, BlockOffsets(Prepared(chunks, all, pc, h.size)), pc, covered);
    hide AllIds, PresentPrefix, BlockIds, AllHits, Prepared, BlockOffsets, ChunkBlocksRight, Span, Joined,
         FoundInChunks, Count, Select, ReusedMask;
    assert covered == |ids| && plan.Hits() == all[pc..covered];
    hide TakenUnder;
    FoundAreHits(present, pc, ids);
    assert all[pc..] == all[pc..covered];
  }

  /** Giving the chunks their blocks changes neither their tiling nor their offsets. */
  lemma PlacedRotation(cs: seq<ChunkMeta>, size: nat, ids: seq<BlockId>, all: seq<bool>, blocks: seq<BlockNo>,
                       from: nat, to: nat)
    requires Ready(cs, size, ids, all, from, to) && from <= to <= |ids| && to <= |all| && to <= |blocks|
    ensures |BlockOffsets(cs)| == to - from
    ensures RotatedBlocks(AllWithBlocks(cs, blocks)) == Select(blocks[from..to], all[from..to])
    ensures RotatedBy(AllWithBlocks(cs, blocks)) == Select(BlockOffsets(cs), all[from..to])
  {
    var placed := AllWithBlocks(cs, blocks);
    hide *;
    PlacedTiles(cs, size, ids, all, blocks, from, to);
    PlacedAgain(cs, blocks);
    RotationAligned(placed, size, ids, all, blocks, from, to);
  }

  lemma PlacedAgain(cs: seq<ChunkMeta>, blocks: seq<BlockNo>)
    ensures AllWithBlocks(AllWithBlocks(cs, blocks), blocks) == AllWithBlocks(cs, blocks)
  {
    hide Slice;
  }

  lemma {:induction false} PlacedTiles(cs: seq<ChunkMeta>, size: nat, ids: seq<BlockId>, all: seq<bool>,
                                       blocks: seq<BlockNo>, from: nat, to: nat)
    requires Ready(cs, size, ids, all, from, to)
    ensures Ready(AllWithBlocks(cs, blocks), size, ids, all, from, to)
    ensures BlockOffsets(AllWithBlocks(cs, blocks)) == BlockOffsets(cs)
  {
    if cs != [] {
      var n := |cs| - 1;
      var front, c := cs[..n], WithBlocks(cs[n], blocks);
      assert front + [cs[n]] == cs;
      assert Ready(front, size, ids, all, from, cs[n].startBlk);
      assert from <= c.startBlk <= to <= |ids| && to <= |all| && c.EndBlk() == to && c.ids == ids[c.startBlk..to] &&
             c.hits == all[c.startBlk..to] && c.startToken == Span(size, c.startBlk) by { hide Slice; }
      AllPlacedAppend(front, cs[n], blocks);
      hide *;
      PlacedTiles(front, size, ids, all, blocks, from, cs[n].startBlk);
      OffsetsAppend(front, cs[n]);
      OffsetsAppend(AllWithBlocks(front, blocks), c);
      ReadyAppend(AllWithBlocks(front, blocks), c, size, ids, all, from, to);
    }
  }

  lemma AllPlacedAppend(cs: seq<ChunkMeta>, c: ChunkMeta, blocks: seq<BlockNo>)
    ensures AllWithBlocks(cs + [c], blocks) == AllWithBlocks(cs, blocks) + [WithBlocks(c, blocks)]
    ensures var c' := WithBlocks(c, blocks); c'.blksLen == c.blksLen && c'.PositionOffset() == c.PositionOffset()
  {
    hide Slice;
  }

  lemma OffsetsAppend(cs: seq<ChunkMeta>, c: ChunkMeta)
    ensures BlockOffsets(cs + [c]) ==
            BlockOffsets(cs) + Repeated(if c.blksLen < 0 then 0 else c.blksLen, c.PositionOffset())
  {
    assert (cs + [c])[..|cs|] == cs;
  }

  lemma AllBlocksRight(chunks: seq<ChunkMeta>, h: Hasher, ts: seq<Token>, end: Token, to: nat, ids: seq<BlockId>,
                       all: seq<bool>, pc: nat)
    requires h.size > 0 && to <= WholeBlocks(h.size, |ts|) && SplitsTo(chunks, h, ts, end, to) && chunks != []
    requires ids == AllIds(chunks) && Ready(Prepared(chunks, all, pc, h.size), h.size, ids, all, pc, to)
    ensures ChunkBlocksRight(chunks, h, ts, ids, BlockOffsets(Prepared(chunks, all, pc, h.size)), pc)
  {
    hide SplitsTo, AllIds, Ready, Prepared, WholeBlocks, Span, BlockOffsets, IsChunkId;
    forall j, b: nat | 0 <= j < |chunks| && chunks[j].startBlk <= b < chunks[j].EndBlk()
      ensures ChunkBlockRight(chunks[j], h, ts, ids, BlockOffsets(Prepared(chunks, all, pc, h.size)), pc, b)
    {
      IdOfBlock(chunks, h, ts, end, to, j, b);
      if pc <= b {
        RotationIsDistance(chunks, h, ts, end, to, ids, all, pc, j, b);
      }
    }
  }

  /** The prompt has chunks, and enough of their blocks are found after the prefix hit. */
  ghost predicate Blends(h: Hasher, ts: seq<Token>, chunks: seq<ChunkMeta>, present: set<BlockId>)
    requires h.size > 0
  {
    chunks != [] && |FoundBlocks(present, PresentPrefix(present, BlockIds(h, ts)), AllIds(chunks))| >= MinBlendHits
  }

  /** The blocks after the first pc whose id the store has. */
  ghost function FoundBlocks(present: set<BlockId>, pc: nat, ids: seq<BlockId>): set<int> {
    set b | pc <= b < |ids| && ids[b] in present
  }

  lemma {:induction false} FoundIsCount(present: set<BlockId>, pc: nat, ids: seq<BlockId>)
    ensures FoundInChunks(present, pc, ids) == |FoundBlocks(present, pc, ids)|
  {
    if |ids| <= pc {
      assert FoundBlocks(present, pc, ids) == {};
    } else {
      var n := |ids| - 1;
      FoundIsCount(present, pc, ids[..n]);
      var found := Lookup(present, Slice(ids, pc, |ids|));
      assert found[..n - pc] == Lookup(present, Slice(ids[..n], pc, n));
      assert FoundBlocks(present, pc, ids) ==
             FoundBlocks(present, pc, ids[..n]) + if ids[n] in present then {n} else {};
    }
  }

  lemma NoChunksNoBlend(h: Hasher, ts: seq<Token>, present: set<BlockId>)
    requires h.size > 0
    ensures !Blends(h, ts, [], present)
  {
  }

  lemma BlendsFound(h: Hasher, ts: seq<Token>, chunks: seq<ChunkMeta>, present: set<BlockId>)
    requires h.size > 0 && Blends(h, ts, chunks, present)
    ensures FoundInChunks(present, PresentPrefix(present, BlockIds(h, ts)), AllIds(chunks)) >= MinBlendHits
  {
    FoundIsCount(present, PresentPrefix(present, BlockIds(h, ts)), AllIds(chunks));
  }

  // ---- a prompt is split in one way ----

  ghost predicate SameChunk(a: ChunkMeta, b: ChunkMeta) {
    a.startBlk == b.startBlk && a.blksLen == b.blksLen && a.ids == b.ids
  }

  ghost predicate SameChunks(a: seq<ChunkMeta>, b: seq<ChunkMeta>) {
    |a| == |b| && forall i :: 0 <= i < |a| ==> SameChunk(a[i], b[i])
  }

  lemma {:induction false} SplitUnique(a: seq<ChunkMeta>, b: seq<ChunkMeta>, h: Hasher, ts: seq<Token>, end: Token,
                                       to: nat)
    requires h.size > 0 && to <= WholeBlocks(h.size, |ts|)
    requires SplitsTo(a, h, ts, end, to) && SplitsTo(b, h, ts, end, to)
    ensures SameChunks(a, b)
  {
    if a != [] && b != [] {
      var m, n := |a| - 1, |b| - 1;
      hide WholeBlocks, Span, ClosesChunk, BlockIds;
      StartsNoLater(a, b, h, ts, end, to);
      StartsNoLater(b, a, h, ts, end, to);
      SplitUnique(a[..m], b[..n], h, ts, end, a[m].startBlk);
      forall i | 0 <= i < |a| ensures SameChunk(a[i], b[i]) {
        assert i < m ==> SameChunk(a[..m][i], b[..n][i]);
      }
    }
  }

  /** The last chunk starts right after the last closing block but one. */
  lemma StartsNoLater(a: seq<ChunkMeta>, b: seq<ChunkMeta>, h: Hasher, ts: seq<Token>, end: Token, to: nat)
    requires h.size > 0 && to <= WholeBlocks(h.size, |ts|) && a != [] && b != []
    requires SplitsTo(a, h, ts, end, to) && SplitsTo(b, h, ts, end, to)
    ensures b[|b| - 1].startBlk <= a[|a| - 1].startBlk
  {
    hide WholeBlocks, Span, ClosesChunk, FreshChunk;
    LastCloses(b[..|b| - 1], h, ts, end, b[|b| - 1].startBlk);
  }

  lemma LastCloses(chunks: seq<ChunkMeta>, h: Hasher, ts: seq<Token>, end: Token, to: nat)
    requires h.size > 0 && to <= WholeBlocks(h.size, |ts|) && SplitsTo(chunks, h, ts, end, to)
    ensures to > 0 ==> ClosesChunk(ts, h.size, end, to - 1)
  {
    hide WholeBlocks, Span, ClosesChunk, FreshChunk;
  }

  /** The chunks of a prompt, and how far they reach, are determined. */
  lemma IsSplitUnique(a: seq<ChunkMeta>, to: nat, b: seq<ChunkMeta>, to': nat, h: Hasher, ts: seq<Token>, end: Token)
    requires IsSplit(a, h, ts, end, to) && IsSplit(b, h, ts, end, to')
    ensures to == to' && SameChunks(a, b) && AllIds(a) == AllIds(b)
  {
    hide WholeBlocks, Span, ClosesChunk, FreshChunk;
    LastCloses(a, h, ts, end, to);
    LastCloses(b, h, ts, end, to');
    hide SplitsTo;
    SplitUnique(a, b, h, ts, end, to);
    SameIds(a, b);
  }

  lemma {:induction false} SameIds(a: seq<ChunkMeta>, b: seq<ChunkMeta>)
    requires SameChunks(a, b)
    ensures AllIds(a) == AllIds(b)
  {
    if a != [] {
      SameIds(a[..|a| - 1], b[..|b| - 1]);
    }
  }

  // ---- a prompt whose loads go wrong ----

  const ExampleEnd: Token := 0

  /** One-token blocks: a chunk of one block, a chunk of 18 blocks, and a question. */
  function ExamplePrompt(): seq<Token> { [ExampleEnd] + Ones(17) + [ExampleEnd] + Ones(1) }

  function Ones(n: nat): seq<Token> { seq(n, _ => 1) }

  function ExampleChunk(h: Hasher, from: nat, to: nat): ChunkMeta
    requires h.size == 1 && from < to <= |ExamplePrompt()|
  {
    ChunkMeta(from, to - from, from, to - from, BlockIds(h, ExamplePrompt()[from..to]), 0, [], [])
  }

  function ExampleChunks(h: Hasher): seq<ChunkMeta>
    requires h.size == 1
  {
    [ExampleChunk(h, 0, 1), ExampleChunk(h, 1, 19)]
  }

  /** The store has the first two blocks of the prompt as a prefix, and all blocks of its chunks. */
  function ExampleStore(h: Hasher): (store: set<BlockId>)
    requires h.size == 1
    ensures store == Elements(BlockIds(h, ExamplePrompt())[..2]) + Elements(AllIds(ExampleChunks(h)))
  {
    ExampleIds(h, 0);
    (set id | id in BlockIds(h, ExamplePrompt())[..2]) + (set id | id in AllIds(ExampleChunks(h)))
  }

  lemma OneTokenBlocks(n: nat)
    ensures Span(1, n) == n && WholeBlocks(1, n) == n
  {
  }

  lemma ExampleSplits(h: Hasher)
    requires h.size == 1
    ensures IsSplit(ExampleChunks(h), h, ExamplePrompt(), ExampleEnd, 19)
    ensures !IsPaddedChunk(h, ExamplePrompt(), ExampleEnd)
  {
    var ts, a, b := ExamplePrompt(), ExampleChunk(h, 0, 1), ExampleChunk(h, 1, 19);
    forall n: nat { OneTokenBlocks(n); }
    hide Span, WholeBlocks, BlockIds;
    assert ts[0] == ts[18] == ExampleEnd && ts[19] == 1 && forall i :: 1 <= i < 18 ==> ts[i] == 1;
    ChunkIsFresh(a, h, ts, 0, 1);
    SplitAppend([], a, h, ts, ExampleEnd, 1);
    ChunkIsFresh(b, h, ts, 1, 19);
    assert [] + [a] == [a];
    SplitAppend([a], b, h, ts, ExampleEnd, 19);
    assert [a] + [b] == ExampleChunks(h);
  }

  lemma ChainsDiffer(h: Hasher, ts: seq<Token>, k: nat, ts': seq<Token>, k': nat)
    requires CollisionFree(h) && Span(h.size, k) <= |ts| && Span(h.size, k') <= |ts'|
    requires k != k' || !SamePrefix(ts, ts', Span(h.size, k))
    ensures Chain(h, ts, k) != Chain(h, ts', k')
  {
    if Chain(h, ts, k) == Chain(h, ts', k') {
      ChainInjective(h, ts, k, ts', k');
    }
  }

  lemma SameStart(ts: seq<Token>, ts': seq<Token>, n: nat)
    requires n > 0 && ts != [] && ts' != []
    ensures SamePrefix(ts, ts', n) ==> ts[0] == ts'[0]
  {
    if SamePrefix(ts, ts', n) {
      assert ts[..n][0] == ts'[..n][0];
    }
  }

  lemma ExampleIds(h: Hasher, i: nat)
    requires h.size == 1 && i < 20
    ensures |BlockIds(h, ExamplePrompt())| == 20 && Span(h.size, i + 1) <= 20
    ensures BlockIds(h, ExamplePrompt())[i] == Chain(h, ExamplePrompt(), i + 1)
  {
    OneTokenBlocks(20);
    assert IdAt(h, ExamplePrompt(), BlockIds(h, ExamplePrompt()), i);
  }

  /** A chunk block has another id than the third block of the prompt: it is another block, or its chunk begins
      differently. */
  lemma ExampleIdDiffers(h: Hasher, b: nat)
    requires CollisionFree(h) && h.size == 1 && b < 19
    ensures b < |AllIds(ExampleChunks(h))| && AllIds(ExampleChunks(h))[b] != Chain(h, ExamplePrompt(), 3)
  {
    var ts, chunks := ExamplePrompt(), ExampleChunks(h);
    ExampleSplits(h);
    var j := if b < 1 then 0 else 1;
    var c := chunks[j];
    var part, k := ts[c.startBlk..c.EndBlk()], b - c.startBlk + 1;
    assert j == 1 ==> part[0] == 1;
    assert ts[0] == ExampleEnd;
    hide AllIds, SplitsTo, CollisionFree, Span, Chain, WholeBlocks, ExamplePrompt, NoneCloses, BlockIds;
    IdOfBlock(chunks, h, ts, ExampleEnd, 19, j, b);
    OneTokenBlocks(c.startBlk);
    OneTokenBlocks(c.EndBlk());
    OneTokenBlocks(k);
    OneTokenBlocks(3);
    SameStart(part, ts, 3);
    ChainsDiffer(h, part, k, ts, 3);
  }

  /** The prefix hit is two blocks: the third prefix block has the id of no chunk block. */
  lemma ExamplePrefixHit(h: Hasher)
    requires CollisionFree(h) && h.size == 1
    ensures PresentPrefix(ExampleStore(h), BlockIds(h, ExamplePrompt())) == 2
  {
    var ts, chunks, store := ExamplePrompt(), ExampleChunks(h), ExampleStore(h);
    var ids := BlockIds(h, ts);
    ExampleSplits(h);
    hide BlockIds, AllIds, CollisionFree, Span, WholeBlocks, Chain, ExampleChunks, ExamplePrompt, SplitsTo, NoneCloses;
    IdsTile(chunks, h, ts, ExampleEnd, 19);
    ExampleIds(h, 2);
    forall i | 0 <= i < 2 ensures ids[..2][i] != ids[2] {
      ThirdIsNew(h, i);
    }
    forall b | 0 <= b < 19 ensures AllIds(chunks)[b] != ids[2] {
      ExampleIdDiffers(h, b);
    }
    assert ids[..2][0] in ids[..2] && ids[..2][1] in ids[..2];
    NotAmong(ids[..2], AllIds(chunks), ids[2]);
    PrefixUnique(store, ids, 2);
  }

  lemma ThirdIsNew(h: Hasher, i: nat)
    requires CollisionFree(h) && h.size == 1 && i < 2
    ensures var ids := BlockIds(h, ExamplePrompt()); |ids| == 20 && ids[i] != ids[2]
  {
    var ts := ExamplePrompt();
    hide BlockIds, Chain, CollisionFree;
    ExampleIds(h, i);
    ExampleIds(h, 2);
    ChainsDiffer(h, ts, i + 1, ts, 3);
  }

  lemma NotAmong(a: seq<BlockId>, b: seq<BlockId>, x: BlockId)
    requires (forall i :: 0 <= i < |a| ==> a[i] != x) && (forall i :: 0 <= i < |b| ==> b[i] != x)
    ensures x !in Elements(a) + Elements(b)
  {
  }

  /** The example blends: 17 chunk blocks are found after a prefix hit of two blocks. */
  lemma ExampleBlends(h: Hasher)
    requires CollisionFree(h) && h.size == 1
    ensures IsSplit(ExampleChunks(h), h, ExamplePrompt(), ExampleEnd, 19)
    ensures Blends(h, ExamplePrompt(), ExampleChunks(h), ExampleStore(h))
    ensures PresentPrefix(ExampleStore(h), BlockIds(h, ExamplePrompt())) == 2
  {
    var ts, chunks, store := ExamplePrompt(), ExampleChunks(h), ExampleStore(h);
    ExampleSplits(h);
    ExamplePrefixHit(h);
    IdsTile(chunks, h, ts, ExampleEnd, 19);
    var ids := AllIds(chunks);
    var rest := Slice(ids, 2, |ids|);
    assert Lookup(store, rest) == AllTrue(17);
    CountAllTrue(17);
    FoundIsCount(store, 2, ids);
    hide BlockIds, AllIds, CollisionFree, IsSplit, PresentPrefix, Count, WholeBlocks, ExampleStore;
  }

  /** However the example prompt is split, its prefix hit goes beyond the first chunk. */
  lemma ExampleBeyondFirst(h: Hasher, chunks: seq<ChunkMeta>, covered: nat)
    requires CollisionFree(h) && h.size == 1 && IsSplit(chunks, h, ExamplePrompt(), ExampleEnd, covered)
    ensures chunks != [] && Blends(h, ExamplePrompt(), chunks, ExampleStore(h))
    ensures PresentPrefix(ExampleStore(h), BlockIds(h, ExamplePrompt())) > chunks[0].blksLen
  {
    ExampleBlends(h);
    hide BlockIds, AllIds, CollisionFree, IsSplit, PresentPrefix, FoundInChunks, ExampleStore;
    IsSplitUnique(ExampleChunks(h), 19, chunks, covered, h, ExamplePrompt(), ExampleEnd);
    assert SameChunk(ExampleChunks(h)[0], chunks[0]);
  }

  /** So its loads go wrong, with every hash. */
  lemma LoadsGoWrong(h: Hasher, blocks: seq<BlockNo>, chunks: seq<ChunkMeta>, covered: nat)
    requires CollisionFree(h) && h.size == 1 && Distinct(blocks) && |blocks| == 20
    requires IsSplit(chunks, h, ExamplePrompt(), ExampleEnd, covered)
    ensures chunks != [] && Blends(h, ExamplePrompt(), chunks, ExampleStore(h))
    ensures var meta := Recorded(h, ExamplePrompt(), chunks, ExampleStore(h));
            !LoadsRight(LoadIds(meta), LoadBlocks(meta, blocks), ExampleStore(h))
  {
    OneTokenBlocks(20);
    ExampleCloses(h);
    hide *;
    ExampleBeyondFirst(h, chunks, covered);
    BlendsFound(h, ExamplePrompt(), chunks, ExampleStore(h));
    LoadsRightIff(chunks, h, ExamplePrompt(), ExampleEnd, covered, ExampleStore(h), blocks);
  }

  /** From the match to the loads: the plan made for the example prompt and store loads wrongly. */
  method ExampleServed(h: Hasher, blocks: seq<BlockNo>) returns (plan: Option<Plan>)
    requires CollisionFree(h) && h.size == 1 && Distinct(blocks) && |blocks| == 20
    ensures plan.Some? && !LoadsRight(plan.value.meta.loadIds, plan.value.meta.loadBlocks, ExampleStore(h))
  {
    OneTokenBlocks(20);
    ExampleCloses(h);
    hide *;
    ghost var chunks, covered;
    plan, chunks, covered := ServePrompt(h, ExamplePrompt(), ExampleEnd, ExampleStore(h), blocks);
    ExampleBeyondFirst(h, chunks, covered);
    ServedWrongly(h, ExamplePrompt(), chunks, covered, ExampleStore(h), blocks, plan.value);
  }

  lemma ServedWrongly(h: Hasher, ts: seq<Token>, chunks: seq<ChunkMeta>, covered: nat, present: set<BlockId>,
                      blocks: seq<BlockNo>, plan: Plan)
    requires h.size > 0 && chunks != [] && Served(h, ts, chunks, covered, present, blocks, plan)
    requires Blends(h, ts, chunks, present) && PresentPrefix(present, BlockIds(h, ts)) > chunks[0].blksLen
    ensures !LoadsRight(plan.meta.loadIds, plan.meta.loadBlocks, present)
  {
    hide Blends, LoadsRight, PlanRight, PresentPrefix, BlockIds;
  }

  lemma ExampleCloses(h: Hasher)
    requires h.size == 1
    ensures |ExamplePrompt()| == 20 && !IsPaddedChunk(h, ExamplePrompt(), ExampleEnd)
    ensures !NoneCloses(ExamplePrompt(), h.size, ExampleEnd, 0, WholeBlocks(h.size, 20))
  {
    ExampleSplits(h);
    OneTokenBlocks(20);
    OneTokenBlocks(1);
    assert ClosesChunk(ExamplePrompt(), h.size, ExampleEnd, 0);
  }
}
