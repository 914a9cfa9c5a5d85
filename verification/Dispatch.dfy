/** The scheduler side of the prefix-cache connector: matching a request against the store and cutting its blocks
    into HBM hits, blocks to load and blocks to dump, over any number of scheduling steps. */
module Dispatch {
  import opened Residues
  import opened ChainedHash
  import opened Options
  import opened Sequences

  type ReqId = int
  type BlockNo = int

  /** `size` tokens per vLLM block; each vLLM block covers `cp` hash blocks, one per context-parallel rank. */
  datatype Config = Config(size: nat, cp: nat, threshold: nat)

  datatype RequestMeta = RequestMeta(
    ids: seq<BlockId>, hbmHit: nat, totalHit: nat, numTokens: nat, blocks: seq<BlockNo>, processed: nat)

  datatype DispatchMeta = DispatchMeta(
    loadIds: seq<BlockId>, loadBlocks: seq<BlockNo>, dumpIds: seq<BlockId>, dumpBlocks: seq<BlockNo>)

  /** s[a:b] with the clipping of the source language. */
  function Slice<X>(s: seq<X>, a: nat, b: nat): seq<X> {
    var hi := if b < |s| then b else |s|;
    if a < hi then s[a..hi] else []
  }

  lemma SliceSplits<X>(s: seq<X>, a: nat, b: nat, c: nat)
    requires a <= b <= c
    ensures Slice(s, a, b) + Slice(s, b, c) == Slice(s, a, c)
  {
  }

  lemma SliceOfExtension<X>(s: seq<X>, t: seq<X>, a: nat, b: nat)
    requires b <= |s|
    ensures Slice(s + t, a, b) == Slice(s, a, b)
  {
  }

  // ---------- matching ----------

  datatype MatchOutcome = Skipped | Recorded(meta: RequestMeta, newTokens: int)

  /** `get_num_new_matched_tokens`. `lookup` is how many leading ids past the HBM hits the store has, or None when
      the lookup failed. A skipped match leaves whatever was recorded for the request before. */
  function Match(cfg: Config, ids: seq<BlockId>, numTokens: nat, hbmHit: nat, lookup: Option<nat>): MatchOutcome
    requires cfg.cp > 0
  {
    if cfg.threshold > numTokens then Skipped
    else if Slice(ids, Span(cfg.cp, hbmHit), |ids|) == [] then Skipped
    else
      var external := if lookup.None? then 0 else lookup.value / cfg.cp;
      var total := hbmHit + external;
      var hitTokens := Span(cfg.size, total);
      Recorded(
        RequestMeta(ids, hbmHit, total, numTokens, [], hitTokens),
        Span(cfg.size, external) - if hitTokens == numTokens then 1 else 0)
  }

  /** What a match that is not skipped records and returns: the ids of the request, the HBM hits, the whole blocks that
      the store's answer covers, and the tokens of these, less one if that was the whole prompt. */
  ghost predicate Reports(cfg: Config, ids: seq<BlockId>, numTokens: nat, hbmHit: nat, lookup: Option<nat>,
                          meta: RequestMeta, newTokens: int) {
    var k := meta.totalHit - hbmHit;
    && meta.ids == ids && meta.numTokens == numTokens && meta.hbmHit == hbmHit && meta.blocks == [] && k >= 0
    && (lookup.None? ==> k == 0)
    && (lookup.Some? ==> Span(cfg.cp, k) <= lookup.value < Span(cfg.cp, k + 1))
    && meta.processed == Span(cfg.size, hbmHit) + Span(cfg.size, k)
    && newTokens == if meta.processed == numTokens then Span(cfg.size, k) - 1 else Span(cfg.size, k)
  }

  /** A match is skipped exactly for a request below the threshold or with no id past the HBM hits. */
  ghost predicate TooShort(cfg: Config, ids: seq<BlockId>, numTokens: nat, hbmHit: nat) {
    numTokens < cfg.threshold || |ids| <= Span(cfg.cp, hbmHit)
  }

  lemma MatchReports(cfg: Config, ids: seq<BlockId>, numTokens: nat, hbmHit: nat, lookup: Option<nat>)
    requires cfg.cp > 0
    ensures var out := Match(cfg, ids, numTokens, hbmHit, lookup);
            && (out.Skipped? <==> TooShort(cfg, ids, numTokens, hbmHit))
            && (out.Recorded? ==> Reports(cfg, ids, numTokens, hbmHit, lookup, out.meta, out.newTokens))
  {
    var k := if lookup.None? then 0 else WholeBlocks(cfg.cp, lookup.value);
    SpanLess(cfg.size, hbmHit, hbmHit + k);
    if lookup.Some? {
      DivSpan(cfg.cp, lookup.value, k);
      DivSpan(cfg.cp, lookup.value, k + 1);
    }
    hide Span;
  }

  /** The number of leading ids that are present: what `lookup_on_prefix` plus one means. */
  function PresentPrefix(present: set<BlockId>, ids: seq<BlockId>): (n: nat)
    ensures n <= |ids| && (forall i :: 0 <= i < n ==> ids[i] in present) && (n < |ids| ==> ids[n] !in present)
  {
    if ids == [] || ids[0] !in present then 0 else 1 + PresentPrefix(present, ids[1..])
  }

  // ---------- dispatching one scheduling step ----------

  function Dispatched(cfg: Config, meta: RequestMeta, newTokens: nat, newBlocks: seq<BlockNo>, needLoad: bool):
      (RequestMeta, DispatchMeta)
    requires cfg.size > 0
  {
    var blocks := meta.blocks + newBlocks;
    var loadIds := if needLoad then Slice(meta.ids, Span(cfg.cp, meta.hbmHit), Span(cfg.cp, meta.totalHit)) else [];
    var loadBlocks := if needLoad then Slice(newBlocks, meta.hbmHit, meta.totalHit) else [];
    if meta.processed < meta.numTokens then
      var start, end := WholeBlocks(cfg.size, meta.processed), WholeBlocks(cfg.size, meta.processed + newTokens);
      (meta.(blocks := blocks, processed := meta.processed + newTokens),
       DispatchMeta(loadIds, loadBlocks,
                    Slice(meta.ids, Span(cfg.cp, start), Span(cfg.cp, end)), Slice(blocks, start, end)))
    else
      (meta.(blocks := blocks), DispatchMeta(loadIds, loadBlocks, [], []))
  }

  /** A record that fits the step: hits come first and are processed, ids reach as far as what is scheduled, and the
      blocks for it have been handed out. */
  ghost predicate Consistent(cfg: Config, meta: RequestMeta, newTokens: nat, newBlocks: seq<BlockNo>, needLoad: bool) {
    && cfg.size > 0 && meta.hbmHit <= meta.totalHit <= WholeBlocks(cfg.size, meta.processed)
    && Span(cfg.cp, meta.totalHit) <= |meta.ids| && (needLoad ==> meta.totalHit <= |newBlocks|)
    && (meta.processed < meta.numTokens ==>
          var end := WholeBlocks(cfg.size, meta.processed + newTokens);
          Span(cfg.cp, end) <= |meta.ids| && end <= |meta.blocks| + |newBlocks|)
  }

  /** Physical blocks with their ids: entry i is block `from + i` of the request, with each of its `cp` ids. */
  ghost predicate Paired(cp: nat, ids: seq<BlockId>, blocks: seq<BlockNo>, allIds: seq<BlockId>,
                         allBlocks: seq<BlockNo>, from: nat)
  {
    && |ids| == Span(cp, |blocks|) && from + |blocks| <= |allBlocks|
    && (forall i :: 0 <= i < |blocks| ==> blocks[i] == allBlocks[from + i])
    && (forall i: nat, r: nat :: i < |blocks| && r < cp ==> PairedId(cp, ids, allIds, from, i, r))
  }

  ghost predicate PairedId(cp: nat, ids: seq<BlockId>, allIds: seq<BlockId>, from: nat, i: nat, r: nat) {
    && Position(cp, r, i) < |ids| && Position(cp, r, from + i) < |allIds|
    && ids[Position(cp, r, i)] == allIds[Position(cp, r, from + i)]
  }

  /** What a caller gets: the hit blocks past the HBM hits with all their ids if the request loads, the blocks that the
      step completes with all their ids while the prompt is not done, and nothing is both loaded and dumped. */
  ghost predicate DispatchRight(cfg: Config, meta: RequestMeta, newTokens: nat, newBlocks: seq<BlockNo>,
                                needLoad: bool, d: DispatchMeta)
    requires cfg.size > 0
  {
    var start, end := WholeBlocks(cfg.size, meta.processed), WholeBlocks(cfg.size, meta.processed + newTokens);
    && |d.loadBlocks| == (if needLoad then meta.totalHit - meta.hbmHit else 0)
    && Paired(cfg.cp, d.loadIds, d.loadBlocks, meta.ids, newBlocks, if needLoad then meta.hbmHit else 0)
    && |d.dumpBlocks| == (if meta.processed < meta.numTokens then end - start else 0)
    && Paired(cfg.cp, d.dumpIds, d.dumpBlocks, meta.ids, meta.blocks + newBlocks,
              if meta.processed < meta.numTokens then start else 0)
    && (Distinct(meta.ids) ==> forall x :: x in d.loadIds ==> x !in d.dumpIds)
  }

  lemma SlicePaired(cp: nat, allIds: seq<BlockId>, allBlocks: seq<BlockNo>, from: nat, to: nat)
    requires from <= to <= |allBlocks| && Span(cp, from) <= Span(cp, to) <= |allIds|
    ensures Paired(cp, Slice(allIds, Span(cp, from), Span(cp, to)), Slice(allBlocks, from, to), allIds, allBlocks, from)
    ensures |Slice(allBlocks, from, to)| == to - from
  {
    var ids, blocks := Slice(allIds, Span(cp, from), Span(cp, to)), Slice(allBlocks, from, to);
    SpanLess(cp, from, to);
    forall i: nat, r: nat | i < |blocks| && r < cp ensures PairedId(cp, ids, allIds, from, i, r) {
      SpanLess(cp, i, from + i);
      SpanMonotone(cp, i + 1, |blocks|);
      SpanStep(cp, i);
      hide Span;
    }
  }

  lemma NonePaired(cp: nat, allIds: seq<BlockId>, allBlocks: seq<BlockNo>)
    ensures Paired(cp, [], [], allIds, allBlocks, 0)
  {
  }

  lemma DispatchedIsRight(cfg: Config, meta: RequestMeta, newTokens: nat, newBlocks: seq<BlockNo>, needLoad: bool)
    requires Consistent(cfg, meta, newTokens, newBlocks, needLoad)
    ensures DispatchRight(cfg, meta, newTokens, newBlocks, needLoad,
                          Dispatched(cfg, meta, newTokens, newBlocks, needLoad).1)
  {
    var blocks := meta.blocks + newBlocks;
    var a, b := meta.hbmHit, meta.totalHit;
    var start, end := WholeBlocks(cfg.size, meta.processed), WholeBlocks(cfg.size, meta.processed + newTokens);
    WholeBlocksMonotone(cfg.size, meta.processed, meta.processed + newTokens);
    hide WholeBlocks;
    SpanMonotone(cfg.cp, a, b);
    SpanMonotone(cfg.cp, b, start);
    SpanMonotone(cfg.cp, start, end);
    hide Span, Distinct, Paired, Slice;
    NonePaired(cfg.cp, meta.ids, newBlocks);
    NonePaired(cfg.cp, meta.ids, blocks);
    if needLoad {
      SlicePaired(cfg.cp, meta.ids, newBlocks, a, b);
    }
    if meta.processed < meta.numTokens {
      SlicePaired(cfg.cp, meta.ids, blocks, start, end);
      if Distinct(meta.ids) {
        SlicesDisjoint(meta.ids, Span(cfg.cp, a), Span(cfg.cp, b), Span(cfg.cp, start), Span(cfg.cp, end));
      }
    }
  }

  /** The record of a match fits every first step that stays within the prompt. */
  lemma MatchIsConsistent(cfg: Config, ids: seq<BlockId>, numTokens: nat, hbmHit: nat, lookup: Option<nat>, n: nat,
                          blocks: seq<BlockNo>)
    requires cfg.size > 0 && cfg.cp > 0 && Match(cfg, ids, numTokens, hbmHit, lookup).Recorded?
    requires Span(cfg.cp, WholeBlocks(cfg.size, numTokens)) <= |ids|
    requires lookup.Some? ==> Span(cfg.cp, hbmHit) + lookup.value <= |ids|
    requires var meta := Match(cfg, ids, numTokens, hbmHit, lookup).meta;
             && meta.processed + n <= numTokens && meta.totalHit <= |blocks|
             && WholeBlocks(cfg.size, meta.processed + n) <= |blocks|
    ensures Consistent(cfg, Match(cfg, ids, numTokens, hbmHit, lookup).meta, n, blocks, true)
  {
    var meta := Match(cfg, ids, numTokens, hbmHit, lookup).meta;
    var external := meta.totalHit - hbmHit;
    WholeBlocksOfSpan(cfg.size, meta.totalHit);
    WholeBlocksMonotone(cfg.size, meta.processed + n, numTokens);
    SpanMonotone(cfg.cp, WholeBlocks(cfg.size, meta.processed + n), WholeBlocks(cfg.size, numTokens));
    SpanLess(cfg.cp, hbmHit, meta.totalHit);
    SpanStep(cfg.cp, 0);
    if lookup.Some? {
      DivSpan(cfg.cp, lookup.value, external);
    }
  }

  lemma SpanLess(size: nat, a: nat, b: nat)
    requires a <= b
    ensures Span(size, b) - Span(size, a) == Span(size, b - a)
  {
    assert size * b - size * a == size * (b - a);
  }

  lemma SlicesDisjoint<X(!new)>(s: seq<X>, a: nat, b: nat, c: nat, d: nat)
    requires Distinct(s) && a <= b <= c <= d <= |s|
    ensures forall x :: x in Slice(s, a, b) ==> x !in Slice(s, c, d)
  {
  }

  // ---------- dumping over all steps of a prefill ----------

  datatype Chunk = Chunk(tokens: nat, blocks: seq<BlockNo>)

  function Tokens(steps: seq<Chunk>): nat {
    if steps == [] then 0 else Tokens(steps[..|steps| - 1]) + steps[|steps| - 1].tokens
  }

  function Blocks(steps: seq<Chunk>): seq<BlockNo> {
    if steps == [] then [] else Blocks(steps[..|steps| - 1]) + steps[|steps| - 1].blocks
  }

  /** The request after the steps, and everything dumped in them. */
  function DumpRun(cfg: Config, meta: RequestMeta, steps: seq<Chunk>): (RequestMeta, seq<BlockId>, seq<BlockNo>)
    requires cfg.size > 0
  {
    if steps == [] then (meta, [], [])
    else
      var last := steps[|steps| - 1];
      var before := DumpRun(cfg, meta, steps[..|steps| - 1]);
      var after := Dispatched(cfg, before.0, last.tokens, last.blocks, |steps| == 1);
      (after.0, before.1 + after.1.dumpIds, before.2 + after.1.dumpBlocks)
  }

  /** Each step schedules at least one token, never more than the prompt, and the engine has handed out the blocks
      for what it schedules. */
  ghost predicate Schedulable(cfg: Config, meta: RequestMeta, steps: seq<Chunk>)
    requires cfg.size > 0
  {
    && (forall i :: 0 <= i < |steps| ==> steps[i].tokens > 0)
    && (forall i :: 0 <= i <= |steps| ==> PrefixFits(cfg, meta, steps, i))
  }

  ghost predicate PrefixFits(cfg: Config, meta: RequestMeta, steps: seq<Chunk>, i: nat)
    requires cfg.size > 0 && i <= |steps|
  {
    var done := meta.processed + Tokens(steps[..i]);
    done <= meta.numTokens && WholeBlocks(cfg.size, done) <= |meta.blocks| + |Blocks(steps[..i])|
  }

  lemma SchedulablePrefix(cfg: Config, meta: RequestMeta, steps: seq<Chunk>)
    requires cfg.size > 0 && steps != [] && Schedulable(cfg, meta, steps)
    ensures Schedulable(cfg, meta, steps[..|steps| - 1])
  {
    var front := steps[..|steps| - 1];
    forall i | 0 <= i <= |front|
      ensures PrefixFits(cfg, meta, front, i)
    {
      assert front[..i] == steps[..i];
      assert PrefixFits(cfg, meta, steps, i);
    }
  }

  /** What has been dumped after the steps: the blocks from the first unprocessed one to the last fully scheduled
      one, each once, ids and physical blocks in step. */
  ghost predicate Telescoped(cfg: Config, meta: RequestMeta, steps: seq<Chunk>)
    requires cfg.size > 0
  {
    var run := DumpRun(cfg, meta, steps);
    var done := meta.processed + Tokens(steps);
    && run.0 == meta.(blocks := meta.blocks + Blocks(steps), processed := done)
    && run.1 == DumpedIds(cfg, meta, done)
    && run.2 == Slice(run.0.blocks, WholeBlocks(cfg.size, meta.processed), WholeBlocks(cfg.size, done))
  }

  ghost function DumpedIds(cfg: Config, meta: RequestMeta, done: nat): seq<BlockId>
    requires cfg.size > 0
  {
    Slice(meta.ids, Span(cfg.cp, WholeBlocks(cfg.size, meta.processed)), Span(cfg.cp, WholeBlocks(cfg.size, done)))
  }

  /** For every split of the prefill into steps, the dumped slices are consecutive and telescope. */
  lemma {:induction false} DumpsTelescope(cfg: Config, meta: RequestMeta, steps: seq<Chunk>)
    requires cfg.size > 0 && Schedulable(cfg, meta, steps)
    ensures Telescoped(cfg, meta, steps)
    decreases |steps|
  {
    hide Span, Slice, WholeBlocks;
    if steps == [] {
      assert meta.blocks + Blocks(steps) == meta.blocks;
      EmptySlices(cfg, meta);
    } else {
      var n := |steps| - 1;
      var front, last := steps[..n], steps[n];
      SchedulablePrefix(cfg, meta, steps);
      DumpsTelescope(cfg, meta, front);
      assert PrefixFits(cfg, meta, steps, n) && PrefixFits(cfg, meta, steps, n + 1);
      assert steps[..n + 1] == steps;
      var blocks, p := meta.blocks + Blocks(front), meta.processed + Tokens(front);
      IdsJoin(cfg, meta, p, p + last.tokens);
      BlocksJoin(cfg.size, blocks, last.blocks, meta.processed, p, p + last.tokens);
      assert blocks + last.blocks == meta.blocks + Blocks(steps);
    }
  }

  lemma EmptySlices(cfg: Config, meta: RequestMeta)
    requires cfg.size > 0
    ensures DumpedIds(cfg, meta, meta.processed) == []
    ensures var b := WholeBlocks(cfg.size, meta.processed); Slice(meta.blocks, b, b) == []
  {
  }

  lemma IdsJoin(cfg: Config, meta: RequestMeta, p: nat, q: nat)
    requires cfg.size > 0 && meta.processed <= p <= q
    ensures DumpedIds(cfg, meta, p) +
            Slice(meta.ids, Span(cfg.cp, WholeBlocks(cfg.size, p)), Span(cfg.cp, WholeBlocks(cfg.size, q)))
            == DumpedIds(cfg, meta, q)
  {
    hide Span, Slice, WholeBlocks;
    var a, b, c := WholeBlocks(cfg.size, meta.processed), WholeBlocks(cfg.size, p), WholeBlocks(cfg.size, q);
    WholeBlocksMonotone(cfg.size, meta.processed, p);
    WholeBlocksMonotone(cfg.size, p, q);
    SpanMonotone(cfg.cp, a, b);
    SpanMonotone(cfg.cp, b, c);
    SliceSplits(meta.ids, Span(cfg.cp, a), Span(cfg.cp, b), Span(cfg.cp, c));
  }

  lemma BlocksJoin(size: nat, blocks: seq<BlockNo>, more: seq<BlockNo>, o: nat, p: nat, q: nat)
    requires size > 0 && o <= p <= q && WholeBlocks(size, p) <= |blocks|
    ensures Slice(blocks, WholeBlocks(size, o), WholeBlocks(size, p)) +
            Slice(blocks + more, WholeBlocks(size, p), WholeBlocks(size, q))
            == Slice(blocks + more, WholeBlocks(size, o), WholeBlocks(size, q))
  {
    hide Slice, WholeBlocks;
    WholeBlocksMonotone(size, o, p);
    WholeBlocksMonotone(size, p, q);
    SliceSplits(blocks + more, WholeBlocks(size, o), WholeBlocks(size, p), WholeBlocks(size, q));
    SliceOfExtension(blocks, more, WholeBlocks(size, o), WholeBlocks(size, p));
  }

  /** The whole prefill: after a match, scheduling all the remaining tokens dumps each full block past the hits once
      (nothing of the load range, which ends at totalHit), no block whose last token is missing, and nothing is
      dumped afterwards. */
  lemma PrefillDumpsEachBlockOnce(cfg: Config, ids: seq<BlockId>, numTokens: nat, hbmHit: nat, lookup: Option<nat>,
                                  steps: seq<Chunk>)
    requires cfg.size > 0 && cfg.cp > 0 && Match(cfg, ids, numTokens, hbmHit, lookup).Recorded?
    requires var meta := Match(cfg, ids, numTokens, hbmHit, lookup).meta;
             Schedulable(cfg, meta, steps) && Span(cfg.size, meta.totalHit) + Tokens(steps) == numTokens
    ensures var meta := Match(cfg, ids, numTokens, hbmHit, lookup).meta;
            var run := DumpRun(cfg, meta, steps);
            var full := WholeBlocks(cfg.size, numTokens);
            && run.1 == Slice(ids, Span(cfg.cp, meta.totalHit), Span(cfg.cp, full))
            && run.2 == Slice(run.0.blocks, meta.totalHit, full)
            && Span(cfg.size, full) <= numTokens < Span(cfg.size, full + 1)
            && (forall n, more, load :: Dispatched(cfg, run.0, n, more, load).1.dumpIds == [])
  {
    hide Span, Slice, WholeBlocks, Tokens, Blocks, DumpRun;
    var meta := Match(cfg, ids, numTokens, hbmHit, lookup).meta;
    DumpsTelescope(cfg, meta, steps);
    WholeBlocksOfSpan(cfg.size, meta.totalHit);
    DivSpan(cfg.size, numTokens, WholeBlocks(cfg.size, numTokens));
    DivSpan(cfg.size, numTokens, WholeBlocks(cfg.size, numTokens) + 1);
  }

  // ---------- context-parallel strides ----------

  /** s[r::step] */
  function Stride<X>(s: seq<X>, r: nat, step: nat): seq<X>
    requires step > 0
    decreases |s| - r
  {
    if r >= |s| then [] else [s[r]] + Stride(s, r + step, step)
  }

  lemma {:induction false} StrideElements<X>(s: seq<X>, r: nat, step: nat, i: nat)
    requires step > 0
    ensures i < |Stride(s, r, step)| <==> r + Span(step, i) < |s|
    ensures i < |Stride(s, r, step)| ==> Stride(s, r, step)[i] == s[r + Span(step, i)]
    decreases |s| - r
  {
    hide Span;
    SpanStep(step, 0);
    if i > 0 {
      SpanStep(step, i - 1);
    }
    if r < |s| && i > 0 {
      StrideElements(s, r + step, step, i - 1);
    }
  }

  /** Where in the id list hash block r of vLLM block i stands. */
  function Position(cp: nat, r: nat, i: nat): nat {
    r + Span(cp, i)
  }

  /** On a list of cp ids per vLLM block, rank r's stride is as long as the block list, and its i-th id is hash
      block r of vLLM block i. */
  lemma StridesAlign(ids: seq<BlockId>, cp: nat, blocks: nat, r: nat)
    requires r < cp && |ids| == Span(cp, blocks)
    ensures |Stride(ids, r, cp)| == blocks
    ensures forall i :: 0 <= i < blocks ==>
              Position(cp, r, i) < |ids| && Stride(ids, r, cp)[i] == ids[Position(cp, r, i)]
  {
    hide Stride, Span;
    StrideLength(ids, r, cp, blocks);
    forall i | 0 <= i < blocks
      ensures Position(cp, r, i) < |ids| && Stride(ids, r, cp)[i] == ids[Position(cp, r, i)]
    {
      StrideElements(ids, r, cp, i);
    }
  }

  /** The strides of all ranks give every id to exactly one rank, at one place. */
  lemma StridesPartition(cp: nat, blocks: nat, j: nat) returns (r: nat, i: nat)
    requires cp > 0 && j < Span(cp, blocks)
    ensures r < cp && i < blocks && Position(cp, r, i) == j
    ensures forall r': nat, i': nat :: r' < cp && Position(cp, r', i') == j ==> r' == r && i' == i
  {
    i := WholeBlocks(cp, j);
    DivSpan(cp, j, i);
    DivSpan(cp, j, i + 1);
    DivSpan(cp, j, blocks);
    SpanStep(cp, i);
    r := j - Span(cp, i);
    forall r': nat, i': nat | r' < cp && Position(cp, r', i') == j
      ensures r' == r && i' == i
    {
      QuotientUnique(j, cp, i', r');
    }
  }

  lemma StrideLength(ids: seq<BlockId>, r: nat, cp: nat, blocks: nat)
    requires r < cp && |ids| == Span(cp, blocks)
    ensures |Stride(ids, r, cp)| == blocks
  {
    StrideElements(ids, r, cp, blocks);
    if blocks > 0 {
      SpanStep(cp, blocks - 1);
      StrideElements(ids, r, cp, blocks - 1);
    }
  }
}
