/** Every step of every run keeps the cache sound. */
module CacheSoundness {
  import opened Residues
  import opened Sequences
  import opened ChainedHash
  import opened Dispatch
  import opened PrefixCache
  import opened CacheRuns

  // ---------- memory ----------

  ghost predicate SameExcept(mem: Memory, mem': Memory, block: BlockNo) {
    forall r: nat, b, o: nat :: b != block ==> mem'(r, b, o) == mem(r, b, o)
  }

  /** A write to a block that a request does not hold leaves its content alone. */
  lemma UntouchedContent(en: Engine, mem: Memory, mem': Memory, run: Run, block: BlockNo)
    requires en.Size() > 0 && ContentRight(en, mem, run) && SameExcept(mem, mem', block) && block !in run.blocks
    ensures ContentRight(en, mem', run)
  {
    hide Present, Span, WholeBlocks, IsShare;
    forall r: nat, p: nat | r < en.ranks && Present(en, run, r, p)
      ensures Right(en, mem', run.tokens, run.blocks, r, p)
    {
      assert Right(en, mem, run.tokens, run.blocks, r, p);
      AddressBounds(en.Size(), p);
      var b, o := run.blocks[BlockIndex(en.Size(), p)], Offset(en.Size(), p);
      assert b in run.blocks;
      assert mem'(r, b, o) == mem(r, b, o);
    }
  }

  /** Two tokens of a request at the same block and offset are the same token. */
  lemma AddressInjective(size: nat, p: nat, p': nat)
    requires size > 0 && BlockIndex(size, p) == BlockIndex(size, p') && Offset(size, p) == Offset(size, p')
    ensures p == p'
  {
    AddressBounds(size, p);
    AddressBounds(size, p');
  }

  lemma CellRight(en: Engine, mem: Memory, ts: seq<Token>, blocks: seq<BlockNo>, p: nat)
    requires Sound(en) && en.Size() > 0 && p < |ts| && BlockIndex(en.Size(), p) < |blocks|
    requires InMemory(en, mem, ts, blocks, p + 1)
    ensures ReadCell(en, mem, blocks, p) == IdealCell(en, ts, p)
  {
    hide IdealCell, WholeBlocks, Span, Read, Sound;
    IdealCellShape(en, ts, p);
    var c, d := ReadCell(en, mem, blocks, p), IdealCell(en, ts, p);
    forall r | 0 <= r < en.ranks
      ensures c[r] == d[r]
    {
      assert Right(en, mem, ts, blocks, r, p);
    }
  }

  /** Reading back cells that are all right gives the cells of computing from scratch. */
  lemma {:induction false} CellsRight(en: Engine, mem: Memory, ts: seq<Token>, blocks: seq<BlockNo>, n: nat)
    requires Sound(en) && en.Size() > 0 && InMemory(en, mem, ts, blocks, n)
    ensures ReadCells(en, mem, blocks, n) == Ideal(en, ts, n)
    decreases n
  {
    hide Sound, WholeBlocks, Span, ReadCell, Right;
    if n > 0 {
      assert InMemory(en, mem, ts, blocks, n - 1);
      CellsRight(en, mem, ts, blocks, n - 1);
      IndexBelow(en.Size(), n - 1, |blocks|);
      CellRight(en, mem, ts, blocks, n - 1);
    }
  }

  /** With everything loaded, all tokens before `pos` are present on all ranks. */
  lemma LoadedPresent(en: Engine, run: Run, r: nat, p: nat)
    requires en.Size() > 0 && r < en.ranks && p < run.pos
    requires LoadsAligned(en, run) && AllLoaded(en, run)
    ensures Present(en, run, r, p)
  {
    hide Span, WholeBlocks, Aligned;
    if run.base <= p < run.from {
      IndexAtLeast(en.Size(), p, run.loadAt);
      IndexBelow(en.Size(), p, run.loadAt + |run.d.loadIds|);
      var i: nat := BlockIndex(en.Size(), p) - run.loadAt;
      assert (r, i) in run.loaded;
    }
  }

  lemma LoadedInMemory(en: Engine, mem: Memory, run: Run)
    requires en.Size() > 0 && Fits(en, run) && LoadsAligned(en, run) && AllLoaded(en, run)
    requires ContentRight(en, mem, run)
    ensures InMemory(en, mem, run.tokens, run.blocks, run.pos)
  {
    hide Span, WholeBlocks, Right, Present, Aligned, AllLoaded, LoadsAligned;
    forall r: nat, p: nat | r < en.ranks && p < run.pos
      ensures Right(en, mem, run.tokens, run.blocks, r, p)
    {
      LoadedPresent(en, run, r, p);
    }
  }

  // ---------- computing a token ----------

  /** The computed cell is the one computing from scratch would give, and no other cell changes. */
  lemma ComputeContent(en: Engine, s: State, q: ReqId)
    requires Sound(en) && en.Size() > 0 && IsRunning(s, q) && RunOk(en, s, q)
    requires s.reqs[q].run.pos < s.reqs[q].run.target && AllLoaded(en, s.reqs[q].run) && s.reqs[q].run.intact
    ensures CanCompute(en, s.reqs[q].run)
    ensures ContentRight(en, ComputeToken(en, s, q).mem, ComputeToken(en, s, q).reqs[q].run)
  {
    hide Sound, Span, WholeBlocks, Aligned, AllLoaded;
    var run := s.reqs[q].run;
    var s' := ComputeToken(en, s, q);
    var run', mem' := s'.reqs[q].run, s'.mem;
    LoadedInMemory(en, s.mem, run);
    CellsRight(en, s.mem, run.tokens, run.blocks, run.pos);
    IndexBelow(en.Size(), run.pos, |run.blocks|);
    AddressBounds(en.Size(), run.pos);
    IdealCellShape(en, run.tokens, run.pos);
    forall r: nat, p: nat | r < en.ranks && Present(en, run', r, p)
      ensures Right(en, mem', run.tokens, run.blocks, r, p)
    {
      if p != run.pos {
        assert Present(en, run, r, p);
        assert Right(en, s.mem, run.tokens, run.blocks, r, p);
        ReadAfterCell(en, s.mem, run.blocks, run.pos, p, r, IdealCell(en, run.tokens, run.pos));
      }
    }
  }

  lemma ReadAfterCell(en: Engine, mem: Memory, blocks: seq<BlockNo>, p: nat, p': nat, r: nat, cell: Cell)
    requires en.Size() > 0 && BlockIndex(en.Size(), p) < |blocks| && BlockIndex(en.Size(), p') < |blocks|
    requires Distinct(blocks) && p != p' && 0 <= Offset(en.Size(), p)
    ensures Read(en, WriteCell(mem, blocks[BlockIndex(en.Size(), p)], Offset(en.Size(), p), cell), blocks, r, p')
            == Read(en, mem, blocks, r, p')
  {
    hide Span, WholeBlocks;
    AddressBounds(en.Size(), p');
    if BlockIndex(en.Size(), p) == BlockIndex(en.Size(), p') && Offset(en.Size(), p) == Offset(en.Size(), p') {
      AddressInjective(en.Size(), p, p');
    }
  }

  // ---------- loading a block ----------

  /** A loaded block equals what recomputation would give. */
  lemma LoadedBlockIsRight(en: Engine, s: State, q: ReqId, rank: nat, i: nat)
    requires en.Size() > 0 && StoreSound(en, s.store) && IsRunning(s, q) && rank < en.ranks
    requires LoadsAligned(en, s.reqs[q].run) && i < |s.reqs[q].run.d.loadIds|
    requires KeyOf(en, rank, s.reqs[q].run.d.loadIds[i]) in s.store
    ensures var run := s.reqs[q].run;
            && Span(en.Size(), run.loadAt + i + 1) <= |run.tokens|
            && IsBlockKv(en, run.tokens, run.loadAt + i + 1, rank, s.store[KeyOf(en, rank, run.d.loadIds[i])])
  {
    hide IsBlockKv, Span, Chain, KeyOf;
    var run := s.reqs[q].run;
    assert PairAligned(en, run, run.d.loadIds, run.d.loadBlocks, run.loadAt, i);
    assert HasKey(en, run.tokens, run.loadAt + i + 1, rank);
    assert EntrySound(en, s.store, run.tokens, run.loadAt + i + 1, rank);
  }

  lemma LoadContent(en: Engine, mem: Memory, run: Run, rank: nat, i: nat, data: seq<Part>)
    requires en.Size() > 0 && Fits(en, run) && LoadsAligned(en, run) && ContentRight(en, mem, run)
    requires i < |run.d.loadIds| && Span(en.Size(), run.loadAt + i + 1) <= |run.tokens|
    requires IsBlockKv(en, run.tokens, run.loadAt + i + 1, rank, data)
    ensures ContentRight(en, WriteBlock(mem, rank, run.d.loadBlocks[i], data), run.(loaded := run.loaded + {(rank, i)}))
  {
    hide Span, WholeBlocks, IsShare;
    assert PairAligned(en, run, run.d.loadIds, run.d.loadBlocks, run.loadAt, i);
    var k := run.loadAt + i;
    var mem', run' := WriteBlock(mem, rank, run.blocks[k], data), run.(loaded := run.loaded + {(rank, i)});
    forall r: nat, p: nat | r < en.ranks && Present(en, run', r, p)
      ensures Right(en, mem', run.tokens, run.blocks, r, p)
    {
      AddressBounds(en.Size(), p);
      if BlockIndex(en.Size(), p) == k && r == rank {
        assert HoldsShare(en, run.tokens, rank, k + 1, Offset(en.Size(), p), data[Offset(en.Size(), p)]);
      } else {
        assert Present(en, run, r, p);
        assert Right(en, mem, run.tokens, run.blocks, r, p);
      }
    }
  }

  // ---------- dumping a block ----------

  /** A dumped block holds the cells of exactly the prefix its id stands for. */
  lemma DumpedBlockIsRight(en: Engine, s: State, q: ReqId, rank: nat, j: nat)
    requires en.Size() > 0 && IsRunning(s, q) && RunOk(en, s, q) && rank < en.ranks
    requires var run := s.reqs[q].run;
             run.pos == run.target && j < |run.d.dumpIds| == |run.d.dumpBlocks| && run.intact
    ensures var run := s.reqs[q].run;
            && Span(en.Size(), run.dumpAt + j + 1) <= |run.tokens|
            && run.d.dumpIds[j] == Chain(en.hasher, run.tokens, run.dumpAt + j + 1)
            && IsBlockKv(en, run.tokens, run.dumpAt + j + 1, rank, ReadBlock(en, s.mem, rank, run.d.dumpBlocks[j]))
  {
    hide Span, WholeBlocks, Chain, IsShare;
    var run := s.reqs[q].run;
    var k := run.dumpAt + j;
    assert PairAligned(en, run, run.d.dumpIds, run.d.dumpBlocks, run.dumpAt, j);
    LoadedInMemory(en, s.mem, run);
    SpanMonotone(en.Size(), k + 1, run.dumpAt + |run.d.dumpIds|);
    SpanStep(en.Size(), k);
    var data := ReadBlock(en, s.mem, rank, run.blocks[k]);
    forall o | 0 <= o < en.Size()
      ensures HoldsShare(en, run.tokens, rank, k + 1, o, data[o])
    {
      var p := Span(en.Size(), k) + o;
      IndexAtLeast(en.Size(), p, k);
      IndexBelow(en.Size(), p, k + 1);
      AddressBounds(en.Size(), p);
      assert Right(en, s.mem, run.tokens, run.blocks, rank, p);
    }
  }

  // ---------- scheduling ----------

  /** Past the HBM hits, the hits are exactly the leading blocks that the store has. */
  ghost predicate FindsStored(ids: seq<BlockId>, store: Store, hbmHit: nat, totalHit: nat) {
    && hbmHit <= totalHit <= |ids| && (forall i :: hbmHit <= i < totalHit ==> ids[i] in store)
    && (totalHit < |ids| ==> ids[totalHit] !in store)
  }

  /** The ids a match records, and how far the hits reach: as far as the store goes, when the lookup succeeds. */
  lemma MatchRecords(en: Engine, s: State, ts: seq<Token>, hbmHit: nat, ok: bool)
    requires en.Size() > 0 && MatchResult(en, s, ts, hbmHit, ok).Recorded?
    ensures var out := MatchResult(en, s, ts, hbmHit, ok);
            && MatchOk(en, ts, Matched(hbmHit, out.newTokens, true), out.meta)
            && out.meta.ids == BlockIds(en.hasher, ts)
            && (if ok then FindsStored(out.meta.ids, s.store, hbmHit, out.meta.totalHit)
                else out.meta.totalHit == hbmHit)
  {
    hide WholeBlocks, IdAt;
    var ids, out := BlockIds(en.hasher, ts), MatchResult(en, s, ts, hbmHit, ok);
    var external := Slice(ids, hbmHit, |ids|);
    assert Span(1, hbmHit) == hbmHit;
    var found := out.meta.totalHit - hbmHit;
    assert found <= |external|;
    FoundStored(ids, s.store, hbmHit, found);
    SpanSum(en.Size(), hbmHit, found);
    DivSpan(en.Size(), |ts|, |ids|);
    if found == 0 {
      SpanMonotone(en.Size(), hbmHit, |ids|);
    }
  }

  lemma FoundStored(ids: seq<BlockId>, store: Store, hbmHit: nat, found: nat)
    requires hbmHit <= |ids|
    ensures found == PresentPrefix(store.Keys, Slice(ids, hbmHit, |ids|)) ==>
              FindsStored(ids, store, hbmHit, hbmHit + found)
  {
    var external := Slice(ids, hbmHit, |ids|);
    assert external == ids[hbmHit..];
    if found == PresentPrefix(store.Keys, external) {
      forall i | hbmHit <= i < hbmHit + found ensures ids[i] in store {
        assert external[i - hbmHit] in store.Keys;
      }
    }
  }

  lemma SpanSum(size: nat, a: nat, b: nat)
    ensures Span(size, a + b) == Span(size, a) + Span(size, b)
  {
  }

  lemma SliceIds(en: Engine, run: Run, ids: seq<BlockId>, blocks: seq<BlockNo>, a: nat, b: nat)
    requires a <= b <= |ids| && b <= |run.blocks| && blocks == Slice(run.blocks, a, b)
    requires forall i :: 0 <= i < |ids| ==> IdAt(en.hasher, run.tokens, ids, i)
    ensures Aligned(en, run, Slice(ids, a, b), blocks, a) && |Slice(ids, a, b)| == b - a
  {
    hide Span, Chain;
    var sliced := Slice(ids, a, b);
    forall i | 0 <= i < |sliced|
      ensures PairAligned(en, run, sliced, blocks, a, i)
    {
      assert IdAt(en.hasher, run.tokens, ids, a + i);
    }
  }

  /** What one dispatch dumps, for a request whose ids and blocks the connector tracks. */
  lemma DispatchDumps(en: Engine, meta: RequestMeta, n: nat, more: seq<BlockNo>, load: bool, run: Run)
    requires en.Size() > 0 && run.blocks == meta.blocks + more && run.d == Dispatched(en.Cfg(), meta, n, more, load).1
    requires run.dumpAt == WholeBlocks(en.Size(), meta.processed)
    requires |meta.ids| == WholeBlocks(en.Size(), meta.numTokens)
    requires forall i :: 0 <= i < |meta.ids| ==> IdAt(en.hasher, run.tokens, meta.ids, i)
    requires run.target <= Span(en.Size(), |run.blocks|)
    requires meta.processed < meta.numTokens ==> meta.processed + n == run.target <= meta.numTokens
    ensures DumpsAligned(en, run)
  {
    hide WholeBlocks, Chain, IdAt, Slice, Span, Aligned;
    if meta.processed < meta.numTokens {
      var at, end := run.dumpAt, WholeBlocks(en.Size(), run.target);
      SpanOne(at);
      SpanOne(end);
      WholeBlocksMonotone(en.Size(), meta.processed, run.target);
      WholeBlocksMonotone(en.Size(), run.target, meta.numTokens);
      DivSpan(en.Size(), run.target, end);
      BlocksReach(en.Size(), |run.blocks|, end, run.target);
      SliceIds(en, run, meta.ids, run.d.dumpBlocks, at, end);
    } else {
      NothingAligned(en, run, run.dumpAt);
    }
  }

  lemma NothingAligned(en: Engine, run: Run, at: nat)
    ensures Aligned(en, run, [], [], at)
  {
  }

  lemma SpanOne(k: nat)
    ensures Span(1, k) == k
  {
  }

  /** A new or resumed request after a recorded match. */
  lemma StartTracked(en: Engine, ts: seq<Token>, m: Matched, meta: RequestMeta, blocks: seq<BlockNo>, n: nat, run: Run)
    requires en.Size() > 0 && MatchOk(en, ts, m, meta) && n > 0 && Distinct(blocks)
    requires 0 <= FirstComputed(en, m) && FirstComputed(en, m) + n <= |ts|
    requires FirstComputed(en, m) + n <= Span(en.Size(), |blocks|)
    requires var from := FirstComputed(en, m);
             run == Run(ts, blocks, Span(en.Size(), m.hbmHit), from, from, from + n,
                        Dispatched(en.Cfg(), meta, n, blocks, true).1, m.hbmHit,
                        WholeBlocks(en.Size(), meta.processed), {}, true)
    ensures Fits(en, run) && LoadsAligned(en, run) && DumpsAligned(en, run)
    ensures Tracks(en, Dispatched(en.Cfg(), meta, n, blocks, true).0, run)
  {
    hide WholeBlocks, Chain, IdAt, Slice, Span, Aligned;
    assert [] + blocks == blocks;
    SpanOne(meta.hbmHit);
    SpanOne(meta.totalHit);
    BaseBeforeStart(en, ts, m, meta);
    BlocksReach(en.Size(), |blocks|, meta.totalHit, run.target);
    SliceIds(en, run, meta.ids, run.d.loadBlocks, meta.hbmHit, meta.totalHit);
    DispatchDumps(en, meta, n, blocks, true, run);
  }

  /** The HBM hits lie before the first computed token, and the external hits reach up to it. */
  lemma BaseBeforeStart(en: Engine, ts: seq<Token>, m: Matched, meta: RequestMeta)
    requires en.Size() > 0 && MatchOk(en, ts, m, meta)
    ensures Span(en.Size(), m.hbmHit) <= FirstComputed(en, m) <= Span(en.Size(), meta.totalHit)
    ensures Span(en.Size(), meta.totalHit) <= FirstComputed(en, m) + 1
  {
    hide WholeBlocks, Span;
    SpanMonotone(en.Size(), m.hbmHit, meta.totalHit);
    SpanMonotone(en.Size(), m.hbmHit, |meta.ids|);
    DivSpan(en.Size(), |ts|, |meta.ids|);
  }

  lemma BlocksReach(size: nat, blocks: nat, k: nat, tokens: nat)
    requires size > 0 && tokens <= Span(size, blocks) && Span(size, k) <= tokens
    ensures k <= blocks
  {
    hide Span;
    if k > blocks {
      SpanMonotone(size, blocks, k);
    }
  }

  // ---------- what the other requests see ----------

  /** Everything the invariant says about requests other than q carries over. */
  ghost predicate OthersKept(s: State, s': State, q: ReqId) {
    && s'.reqs.Keys + {q} == s.reqs.Keys + {q} && s'.metas.Keys + {q} == s.metas.Keys + {q}
    && (forall q' :: q' != q && q' in s.reqs ==> q' in s'.reqs && s'.reqs[q'] == s.reqs[q'])
    && (forall q' :: q' != q && q' in s.metas ==> q' in s'.metas && s'.metas[q'] == s.metas[q'])
  }

  /** The invariant after a step that changes only request q, given what the step has to show. */
  lemma StepKeepsInv(en: Engine, s: State, s': State, q: ReqId)
    requires Inv(en, s) && OthersKept(s, s', q) && StoreSound(en, s'.store)
    requires forall q' :: q' != q && IsRunning(s, q') ==> ContentOk(en, s'.mem, s.reqs[q'].run)
    requires IsRunning(s', q) ==> RunOk(en, s', q)
    requires IsWaiting(s', q) ==> WaitOk(en, s', q)
    requires IsRunning(s', q) ==> forall q' :: q' != q && IsRunning(s, q') ==>
               NoConflict(en, s'.reqs[q].run, s.reqs[q'].run)
    ensures Inv(en, s')
  {
    hide ContentOk, Fits, LoadsAligned, DumpsAligned, Tracks, MatchOk, StoreSound, Span;
    forall q' | IsRunning(s', q')
      ensures RunOk(en, s', q')
    {
      if q' != q {
        assert q' in s'.reqs.Keys + {q};
        assert q' in s.metas <==> q' in s'.metas by {
          assert q' in s.metas.Keys + {q} <==> q' in s'.metas.Keys + {q};
        }
        assert IsRunning(s, q') && RunOk(en, s, q');
      }
    }
    forall q' | IsWaiting(s', q')
      ensures WaitOk(en, s', q')
    {
      if q' != q {
        assert q' in s'.reqs.Keys + {q};
        assert q' in s.metas <==> q' in s'.metas by {
          assert q' in s.metas.Keys + {q} <==> q' in s'.metas.Keys + {q};
        }
        assert IsWaiting(s, q') && WaitOk(en, s, q');
      }
    }
    forall a, b | a != b && IsRunning(s', a) && IsRunning(s', b)
      ensures NoConflict(en, s'.reqs[a].run, s'.reqs[b].run)
    {
      assert a in s'.reqs.Keys + {q} && b in s'.reqs.Keys + {q};
      if a == q {
        assert IsRunning(s, b);
      } else if b == q {
        assert IsRunning(s, a);
        ConflictSymmetric(en, s'.reqs[q].run, s.reqs[a].run);
      } else {
        assert IsRunning(s, a) && IsRunning(s, b);
      }
    }
  }

  lemma ConflictSymmetric(en: Engine, a: Run, b: Run)
    requires NoConflict(en, a, b)
    ensures NoConflict(en, b, a)
  {
  }

  /** Runs that agree on blocks and base agree on conflicts. */
  lemma SameConflicts(en: Engine, s: State, q: ReqId, run: Run)
    requires Inv(en, s) && IsRunning(s, q)
    requires run.blocks == s.reqs[q].run.blocks && run.base >= s.reqs[q].run.base
    ensures forall q' :: q' != q && IsRunning(s, q') ==> NoConflict(en, run, s.reqs[q'].run)
  {
    hide RunOk, WaitOk, StoreSound, Span;
    forall q' | q' != q && IsRunning(s, q')
      ensures NoConflict(en, run, s.reqs[q'].run)
    {
      assert NoConflict(en, s.reqs[q].run, s.reqs[q'].run);
    }
  }

  /** A block the request is still writing is held by no other request. */
  lemma WrittenBlockIsPrivate(en: Engine, s: State, q: ReqId, mem': Memory, k: nat)
    requires Inv(en, s) && IsRunning(s, q) && k < |s.reqs[q].run.blocks|
    requires Span(en.Size(), k + 1) > s.reqs[q].run.base && SameExcept(s.mem, mem', s.reqs[q].run.blocks[k])
    ensures forall q' :: q' != q && IsRunning(s, q') ==> ContentOk(en, mem', s.reqs[q'].run)
  {
    hide WaitOk, StoreSound, Span, ContentRight, Fits, LoadsAligned, DumpsAligned, Tracks;
    forall q' | q' != q && IsRunning(s, q')
      ensures ContentOk(en, mem', s.reqs[q'].run)
    {
      assert NoConflict(en, s.reqs[q].run, s.reqs[q'].run) && RunOk(en, s, q');
      if s.reqs[q'].run.intact {
        UntouchedContent(en, s.mem, mem', s.reqs[q'].run, s.reqs[q].run.blocks[k]);
      }
    }
  }

  // ---------- every step keeps the invariant ----------

  lemma StartKeeps(en: Engine, s: State, e: Event)
    requires Sound(en) && Inv(en, s) && e.Start? && Enabled(en, s, e) && FreshRecord(s, e)
    ensures Inv(en, Step(en, s, e))
  {
    hide Sound, StoreSound, ContentRight, Tracks, MatchOk, Fits, LoadsAligned, DumpsAligned, Dispatched, Span,
         WholeBlocks;
    var q, s' := e.q, Step(en, s, e);
    var m, run := s.reqs[q].matched.value, s'.reqs[q].run;
    assert WaitOk(en, s, q);
    if q in s.metas {
      StartTracked(en, run.tokens, m, s.metas[q], e.blocks, e.n, run);
    } else {
      StartUntracked(en, run);
    }
    StartContent(en, s.mem, run, m.hbmHit);
    forall q' | q' != q && IsRunning(s, q')
      ensures ContentOk(en, s'.mem, s.reqs[q'].run) && NoConflict(en, run, s.reqs[q'].run)
    {
      assert RunOk(en, s, q');
      assert SharesOnlyHits(en, e.blocks, m.hbmHit, s.reqs[q'].run);
      HitsDoNotConflict(en, run, m.hbmHit, s.reqs[q'].run);
    }
    StepKeepsInv(en, s, s', q);
  }

  lemma HitsDoNotConflict(en: Engine, run: Run, hits: nat, other: Run)
    requires run.base == Span(en.Size(), hits) && SharesOnlyHits(en, run.blocks, hits, other)
    ensures NoConflict(en, run, other)
  {
    hide Span;
    forall i, j | 0 <= i < |run.blocks| && 0 <= j < |other.blocks| && run.blocks[i] == other.blocks[j]
      ensures Span(en.Size(), i + 1) <= run.base && Span(en.Size(), j + 1) <= other.base
    {
      SpanMonotone(en.Size(), i + 1, hits);
    }
  }

  lemma StartUntracked(en: Engine, run: Run)
    requires en.Size() > 0 && run.d == NoDispatch && run.base == run.from == run.pos < run.target <= |run.tokens|
    requires run.target <= Span(en.Size(), |run.blocks|) && Distinct(run.blocks)
    ensures Fits(en, run) && LoadsAligned(en, run) && DumpsAligned(en, run)
  {
  }

  lemma StartContent(en: Engine, mem: Memory, run: Run, hits: nat)
    requires en.Size() > 0 && run.loaded == {} && run.from == run.pos && run.base == Span(en.Size(), hits)
    requires InMemory(en, mem, run.tokens, run.blocks, run.base)
    ensures ContentRight(en, mem, run)
  {
    hide Span, WholeBlocks, Right;
  }

  lemma ContinueKeeps(en: Engine, s: State, e: Event)
    requires Sound(en) && Inv(en, s) && e.Continue? && Enabled(en, s, e)
    ensures Inv(en, Step(en, s, e))
  {
    hide Sound, StoreSound, ContentRight, LoadsAligned, DumpsAligned, Span, WholeBlocks, Dispatched, Distinct;
    var q, s' := e.q, Step(en, s, e);
    var before, run := s.reqs[q].run, s'.reqs[q].run;
    assert RunOk(en, s, q);
    ContinueFits(en, before, run, e.n);
    if q in s.metas {
      DispatchDumps(en, s.metas[q], e.n, e.blocks, false, run);
      ContinueTracks(en, s.metas[q], before, run, e.n, e.blocks);
    } else {
      ContinueUntracked(en, run);
    }
    if before.intact {
      LoadedInMemoryAfterStep(en, s.mem, before);
      ExtendContent(en, s.mem, before, run);
    }
    forall q' | q' != q && IsRunning(s, q')
      ensures ContentOk(en, s'.mem, s.reqs[q'].run) && NoConflict(en, run, s.reqs[q'].run)
    {
      assert RunOk(en, s, q') && NoConflict(en, before, s.reqs[q'].run);
      assert SharesOnlyHits(en, e.blocks, 0, s.reqs[q'].run);
      ExtensionDoesNotConflict(en, before, run, e.blocks, s.reqs[q'].run);
    }
    StepKeepsInv(en, s, s', q);
  }

  lemma ContinueFits(en: Engine, before: Run, run: Run, n: nat)
    requires en.Size() > 0 && Fits(en, before) && n > 0
    requires run.tokens == before.tokens && before.blocks <= run.blocks && Distinct(run.blocks)
    requires run.base == run.from == run.pos == before.target && run.target == before.target + n <= |run.tokens|
    requires run.target <= Span(en.Size(), |run.blocks|)
    ensures Fits(en, run)
  {
  }

  lemma ContinueTracks(en: Engine, meta: RequestMeta, before: Run, run: Run, n: nat, more: seq<BlockNo>)
    requires en.Size() > 0 && Tracks(en, meta, before) && run.tokens == before.tokens
    requires run.blocks == before.blocks + more && run.target == before.target + n <= |run.tokens|
    requires run.d == Dispatched(en.Cfg(), meta, n, more, false).1 && run.base == run.from == run.pos
    ensures run.d.loadIds == [] && LoadsAligned(en, run)
    ensures Tracks(en, Dispatched(en.Cfg(), meta, n, more, false).0, run)
  {
    hide WholeBlocks, Span, Slice;
  }

  lemma ContinueUntracked(en: Engine, run: Run)
    requires run.d == NoDispatch && run.base == run.from == run.pos
    ensures LoadsAligned(en, run) && DumpsAligned(en, run)
  {
  }

  /** When all scheduled tokens are computed, everything before `target` is in memory. */
  lemma LoadedInMemoryAfterStep(en: Engine, mem: Memory, run: Run)
    requires en.Size() > 0 && Fits(en, run) && LoadsAligned(en, run) && ContentRight(en, mem, run)
    requires run.pos == run.target
    ensures InMemory(en, mem, run.tokens, run.blocks, run.target)
  {
    hide ContentRight, Aligned, AllLoaded, Span, InMemory, Distinct;
    LoadedInMemory(en, mem, run);
  }

  lemma ExtendContent(en: Engine, mem: Memory, before: Run, run: Run)
    requires en.Size() > 0 && InMemory(en, mem, before.tokens, before.blocks, before.target)
    requires before.tokens <= run.tokens && before.blocks <= run.blocks
    requires run.base == run.from == run.pos == before.target && run.d.loadIds == []
    ensures ContentRight(en, mem, run)
  {
    hide Span, WholeBlocks, IsShare;
    forall r: nat, p: nat | r < en.ranks && Present(en, run, r, p)
      ensures Right(en, mem, run.tokens, run.blocks, r, p)
    {
      assert Right(en, mem, before.tokens, before.blocks, r, p);
      ShareOfPrefix(en, before.tokens, run.tokens, r, p, Read(en, mem, before.blocks, r, p));
    }
  }

  lemma ShareOfPrefix(en: Engine, ts: seq<Token>, ts': seq<Token>, r: nat, p: nat, x: Part)
    requires p < |ts| && ts <= ts' && IsShare(en, ts, r, p, x)
    ensures IsShare(en, ts', r, p, x)
  {
    assert ts'[..p + 1] == ts[..p + 1];
    IdealCellOfPrefix(en, ts, ts', p);
  }

  lemma ExtensionDoesNotConflict(en: Engine, before: Run, run: Run, more: seq<BlockNo>, other: Run)
    requires NoConflict(en, before, other) && SharesOnlyHits(en, more, 0, other)
    requires run.blocks == before.blocks + more && run.base >= before.base
    ensures NoConflict(en, run, other)
  {
    hide Span;
    forall i, j | 0 <= i < |run.blocks| && 0 <= j < |other.blocks| && run.blocks[i] == other.blocks[j]
      ensures Span(en.Size(), i + 1) <= run.base && Span(en.Size(), j + 1) <= other.base
    {
      assert forall k :: 0 <= k < |more| ==> more[k] != other.blocks[j];
      assert i < |before.blocks|;
      assert before.blocks[i] == other.blocks[j];
    }
  }

  lemma LoadKeeps(en: Engine, s: State, e: Event)
    requires Sound(en) && Inv(en, s) && e.LoadBlock? && Enabled(en, s, e)
    ensures Inv(en, Step(en, s, e))
  {
    hide Sound, StoreSound, ContentRight, Fits, DumpsAligned, Span, WholeBlocks, Tracks, IsBlockKv;
    var q, s' := e.q, Step(en, s, e);
    var run, run' := s.reqs[q].run, s'.reqs[q].run;
    assert RunOk(en, s, q);
    LoadedBlockIsRight(en, s, q, e.rank, e.i);
    if run.intact {
      LoadContent(en, s.mem, run, e.rank, e.i, s.store[KeyOf(en, e.rank, run.d.loadIds[e.i])]);
    }
    assert PairAligned(en, run, run.d.loadIds, run.d.loadBlocks, run.loadAt, e.i);
    SpanMonotone(en.Size(), run.loadAt, run.loadAt + e.i + 1);
    LoadedRunOk(en, run, run');
    WrittenBlockIsPrivate(en, s, q, s'.mem, run.loadAt + e.i);
    SameConflicts(en, s, q, run');
    StepKeepsInv(en, s, s', q);
  }

  /** A failed load writes nothing; from then on nothing is claimed of what the request has in memory. */
  lemma FailKeeps(en: Engine, s: State, e: Event)
    requires Inv(en, s) && e.FailLoad? && Enabled(en, s, e)
    ensures Inv(en, Step(en, s, e))
  {
    hide StoreSound, ContentRight, Fits, DumpsAligned, LoadsAligned, Span, WholeBlocks, Tracks;
    var q, s' := e.q, Step(en, s, e);
    var run, run' := s.reqs[q].run, s'.reqs[q].run;
    assert RunOk(en, s, q);
    LoadedRunOk(en, run, run');
    SameConflicts(en, s, q, run');
    OthersContent(en, s, q);
    StepKeepsInv(en, s, s', q);
  }

  /** Alignment depends on the request's tokens and blocks only. */
  lemma SameAlignment(en: Engine, run: Run, run': Run, ids: seq<BlockId>, blocks: seq<BlockNo>, at: nat)
    requires Aligned(en, run, ids, blocks, at) && run.tokens <= run'.tokens && run.blocks == run'.blocks
    ensures Aligned(en, run', ids, blocks, at)
  {
    hide Span, Chain;
    forall i | 0 <= i < |ids|
      ensures PairAligned(en, run', ids, blocks, at, i)
    {
      assert PairAligned(en, run, ids, blocks, at, i);
      var n := Span(en.Size(), at + i + 1);
      assert run.tokens[..n] == run'.tokens[..n];
      ChainOfPrefix(en.hasher, run.tokens, run'.tokens, at + i + 1);
    }
  }

  lemma LoadedRunOk(en: Engine, run: Run, run': Run)
    requires en.Size() > 0 && Fits(en, run) && LoadsAligned(en, run) && DumpsAligned(en, run)
    requires run' == run.(loaded := run'.loaded, intact := run'.intact) && run.loaded <= run'.loaded
    ensures Fits(en, run') && LoadsAligned(en, run') && DumpsAligned(en, run')
    ensures forall meta :: Tracks(en, meta, run) ==> Tracks(en, meta, run')
  {
    hide Span, Chain, WholeBlocks, IdAt, Aligned;
    SameAlignment(en, run, run', run.d.loadIds, run.d.loadBlocks, run.loadAt);
    SameAlignment(en, run, run', run.d.dumpIds, run.d.dumpBlocks, run.dumpAt);
  }

  lemma ComputeKeeps(en: Engine, s: State, e: Event)
    requires Sound(en) && Inv(en, s) && e.Compute? && Enabled(en, s, e)
    ensures CanCompute(en, s.reqs[e.q].run) && Inv(en, Step(en, s, e))
  {
    hide Sound, StoreSound, ContentRight, LoadsAligned, DumpsAligned, Span, WholeBlocks, Tracks, ReadCells, AllLoaded,
         Distinct;
    var q, run := e.q, s.reqs[e.q].run;
    assert RunOk(en, s, q);
    if run.intact {
      ComputeContent(en, s, q);
    }
    var s' := Step(en, s, e);
    var run' := s'.reqs[q].run;
    ComputedRunOk(en, run, run');
    IndexBelow(en.Size(), run.pos, |run.blocks|);
    AddressBounds(en.Size(), run.pos);
    WrittenBlockIsPrivate(en, s, q, s'.mem, BlockIndex(en.Size(), run.pos));
    SameConflicts(en, s, q, run');
    StepKeepsInv(en, s, s', q);
  }

  lemma ComputedRunOk(en: Engine, run: Run, run': Run)
    requires en.Size() > 0 && Fits(en, run) && LoadsAligned(en, run) && DumpsAligned(en, run)
    requires run' == run.(pos := run.pos + 1) && run.pos < run.target && AllLoaded(en, run)
    ensures Fits(en, run') && LoadsAligned(en, run') && DumpsAligned(en, run')
    ensures forall meta :: Tracks(en, meta, run) ==> Tracks(en, meta, run')
  {
    hide Span, Chain, WholeBlocks, IdAt, Aligned;
    SameAlignment(en, run, run', run.d.loadIds, run.d.loadBlocks, run.loadAt);
    SameAlignment(en, run, run', run.d.dumpIds, run.d.dumpBlocks, run.dumpAt);
  }

  lemma DumpKeeps(en: Engine, s: State, e: Event)
    requires Sound(en) && Inv(en, s) && e.DumpBlock? && Enabled(en, s, e) && s.reqs[e.q].run.intact
    ensures Inv(en, Step(en, s, e))
  {
    hide Sound, StoreSound, ContentRight, Fits, LoadsAligned, Span, WholeBlocks, Tracks, IsBlockKv, KeyOf, Chain;
    var q, s' := e.q, Step(en, s, e);
    var run := s.reqs[q].run;
    assert RunOk(en, s, q);
    DumpedBlockIsRight(en, s, q, e.rank, e.j);
    StoreKeeps(en, s.store, run.tokens, run.dumpAt + e.j + 1, e.rank, ReadBlock(en, s.mem, e.rank,
                                                                                run.d.dumpBlocks[e.j]));
    SameConflicts(en, s, q, run);
    OthersContent(en, s, q);
    StepKeepsInv(en, s, s', q);
  }

  lemma OthersContent(en: Engine, s: State, q: ReqId)
    requires Inv(en, s)
    ensures forall q' :: q' != q && IsRunning(s, q') ==> ContentOk(en, s.mem, s.reqs[q'].run)
  {
    hide StoreSound, ContentOk, Fits, LoadsAligned, DumpsAligned, Tracks, NoConflict;
    forall q' | q' != q && IsRunning(s, q')
      ensures ContentOk(en, s.mem, s.reqs[q'].run)
    {
      assert RunOk(en, s, q');
    }
  }

  lemma SampleKeeps(en: Engine, s: State, e: Event)
    requires Sound(en) && Inv(en, s) && e.Sample? && Enabled(en, s, e)
    ensures Inv(en, Step(en, s, e))
  {
    hide Sound, StoreSound, ContentRight, Fits, LoadsAligned, DumpsAligned, Span, WholeBlocks, Tracks;
    var q, s' := e.q, Step(en, s, e);
    var run, run' := s.reqs[q].run, s'.reqs[q].run;
    assert RunOk(en, s, q);
    SampledRunOk(en, run, run');
    if run.intact {
      SampledContent(en, s.mem, run, run');
    }
    if q in s.metas {
      SampledTracks(en, s.metas[q], run, run');
    }
    SameConflicts(en, s, q, run');
    OthersContent(en, s, q);
    StepKeepsInv(en, s, s', q);
  }

  lemma SampledRunOk(en: Engine, run: Run, run': Run)
    requires en.Size() > 0 && Fits(en, run) && LoadsAligned(en, run) && DumpsAligned(en, run)
    requires run' == run.(tokens := run'.tokens) && run.tokens <= run'.tokens
    ensures Fits(en, run') && LoadsAligned(en, run') && DumpsAligned(en, run')
  {
    hide Span, Chain, WholeBlocks, Aligned;
    SameAlignment(en, run, run', run.d.loadIds, run.d.loadBlocks, run.loadAt);
    SameAlignment(en, run, run', run.d.dumpIds, run.d.dumpBlocks, run.dumpAt);
  }

  lemma SampledContent(en: Engine, mem: Memory, run: Run, run': Run)
    requires en.Size() > 0 && ContentRight(en, mem, run)
    requires run' == run.(tokens := run'.tokens) && run.tokens <= run'.tokens
    ensures ContentRight(en, mem, run')
  {
    hide Span, WholeBlocks, IsShare;
    forall r: nat, p: nat | r < en.ranks && Present(en, run', r, p)
      ensures Right(en, mem, run'.tokens, run.blocks, r, p)
    {
      assert Present(en, run, r, p);
      assert Right(en, mem, run.tokens, run.blocks, r, p);
      ShareOfPrefix(en, run.tokens, run'.tokens, r, p, Read(en, mem, run.blocks, r, p));
    }
  }

  lemma SampledTracks(en: Engine, meta: RequestMeta, run: Run, run': Run)
    requires en.Size() > 0 && Tracks(en, meta, run) && run.target == |run.tokens|
    requires run' == run.(tokens := run'.tokens) && run.tokens <= run'.tokens
    ensures Tracks(en, meta, run')
  {
    hide Span, WholeBlocks, Chain;
    forall i | 0 <= i < |meta.ids|
      ensures IdAt(en.hasher, run'.tokens, meta.ids, i)
    {
      assert IdAt(en.hasher, run.tokens, meta.ids, i);
      var n := Span(en.Size(), i + 1);
      assert run.tokens[..n] == run'.tokens[..n];
      ChainOfPrefix(en.hasher, run.tokens, run'.tokens, i + 1);
    }
  }

  lemma MatchKeeps(en: Engine, s: State, e: Event)
    requires Sound(en) && Inv(en, s) && e.Match? && Enabled(en, s, e)
    ensures Inv(en, Step(en, s, e))
  {
    hide Sound, StoreSound, ContentRight, Fits, LoadsAligned, DumpsAligned, Span, WholeBlocks, Tracks, MatchOk,
         MatchResult;
    var q, s' := e.q, Step(en, s, e);
    var ts := s.reqs[q].tokens;
    if MatchResult(en, s, ts, e.hbmHit, e.lookupOk).Recorded? {
      MatchRecords(en, s, ts, e.hbmHit, e.lookupOk);
    }
    OthersContent(en, s, q);
    StepKeepsInv(en, s, s', q);
  }

  /** Arrivals, preemptions and finished requests. */
  lemma LeaveKeeps(en: Engine, s: State, e: Event)
    requires Sound(en) && Inv(en, s) && (e.Arrive? || e.Preempt? || e.Finish?) && Enabled(en, s, e)
    ensures Inv(en, Step(en, s, e))
  {
    hide Sound, StoreSound, ContentRight, Fits, LoadsAligned, DumpsAligned, Span, WholeBlocks, Tracks, MatchOk;
    OthersContent(en, s, e.q);
    StepKeepsInv(en, s, Step(en, s, e), e.q);
  }

  lemma EvictKeeps(en: Engine, s: State, e: Event)
    requires Sound(en) && Inv(en, s) && e.Evict?
    ensures Inv(en, Step(en, s, e))
  {
    hide Sound, IsBlockKv, KeyOf, Chain, Span, ContentRight, Fits, LoadsAligned, DumpsAligned, Tracks, MatchOk;
    var s' := Step(en, s, e);
    forall ts, k: nat, r: nat | HasKey(en, ts, k, r)
      ensures EntrySound(en, s'.store, ts, k, r)
    {
      assert EntrySound(en, s.store, ts, k, r);
    }
    forall q | IsRunning(s', q)
      ensures RunOk(en, s', q)
    {
      assert RunOk(en, s, q);
    }
    forall q | IsWaiting(s', q)
      ensures WaitOk(en, s', q)
    {
      assert WaitOk(en, s, q);
    }
  }

  lemma EventKeeps(en: Engine, s: State, e: Event)
    requires Sound(en) && Inv(en, s) && Enabled(en, s, e) && DumpsIntact(s, e) && FreshRecord(s, e)
    ensures e.Compute? ==> CanCompute(en, s.reqs[e.q].run)
    ensures Inv(en, Step(en, s, e))
  {
    hide Sound, Inv, Enabled, Step;
    match e
    case Start(_, _, _) => StartKeeps(en, s, e);
    case Continue(_, _, _) => ContinueKeeps(en, s, e);
    case LoadBlock(_, _, _) => LoadKeeps(en, s, e);
    case FailLoad(_, _, _) => FailKeeps(en, s, e);
    case Compute(_) => ComputeKeeps(en, s, e);
    case DumpBlock(_, _, _) => DumpKeeps(en, s, e);
    case Sample(_, _) => SampleKeeps(en, s, e);
    case Match(_, _, _) => MatchKeeps(en, s, e);
    case Evict(_) => EvictKeeps(en, s, e);
    case Arrive(_, _) => LeaveKeeps(en, s, e);
    case Preempt(_) => LeaveKeeps(en, s, e);
    case Finish(_) => LeaveKeeps(en, s, e);
  }

  // ---------- whole runs ----------

  /** s' is reached from s by the events, each where it is enabled. */
  ghost predicate Reaches(en: Engine, s: State, events: seq<Event>, s': State)
    decreases |events|
  {
    if events == [] then s' == s
    else Goes(en, s, events[0]) && Reaches(en, Step(en, s, events[0]), events[1..], s')
  }

  ghost predicate Goes(en: Engine, s: State, e: Event) {
    && en.Size() > 0 && Enabled(en, s, e) && (e.Compute? ==> CanCompute(en, s.reqs[e.q].run))
  }

  /** A dump is one of a request none of whose loads has failed since it was started. */
  ghost predicate DumpsIntact(s: State, e: Event) {
    e.DumpBlock? ==> IsRunning(s, e.q) && s.reqs[e.q].run.intact
  }

  /** A request is started with the record of its last match, not with one that an early return left behind. */
  ghost predicate FreshRecord(s: State, e: Event) {
    e.Start? && e.q in s.metas ==>
      IsWaiting(s, e.q) && s.reqs[e.q].matched.Some? && s.reqs[e.q].matched.value.recorded
  }

  ghost predicate FreshRun(en: Engine, s: State, events: seq<Event>)
    decreases |events|
  {
    events != [] && Goes(en, s, events[0]) ==>
      FreshRecord(s, events[0]) && FreshRun(en, Step(en, s, events[0]), events[1..])
  }

  /** In the run no request dumps anything between a failed load of its and its preemption or end. */
  ghost predicate CarefulRun(en: Engine, s: State, events: seq<Event>)
    decreases |events|
  {
    events != [] && Goes(en, s, events[0]) ==>
      DumpsIntact(s, events[0]) && CarefulRun(en, Step(en, s, events[0]), events[1..])
  }

  ghost predicate NoFailedLoad(events: seq<Event>) {
    forall i :: 0 <= i < |events| ==> !events[i].FailLoad?
  }

  lemma {:induction false} RunKeeps(en: Engine, s: State, events: seq<Event>, s': State)
    requires Sound(en) && Inv(en, s) && Reaches(en, s, events, s')
    requires CarefulRun(en, s, events) && FreshRun(en, s, events)
    ensures Inv(en, s')
    decreases |events|
  {
    hide Sound, Inv, Enabled, Step, DumpsIntact, FreshRecord, CanCompute;
    if events != [] {
      EventKeeps(en, s, events[0]);
      RunKeeps(en, Step(en, s, events[0]), events[1..], s');
    }
  }

  ghost predicate AllIntact(s: State) {
    forall q :: IsRunning(s, q) ==> s.reqs[q].run.intact
  }

  lemma StaysIntact(en: Engine, s: State, e: Event)
    requires Goes(en, s, e) && AllIntact(s) && !e.FailLoad?
    ensures DumpsIntact(s, e) && AllIntact(Step(en, s, e))
  {
    hide Span, WholeBlocks, Dispatched, ReadCells, WriteCell, ReadBlock, MatchResult, WriteBlock;
  }

  /** A run without failed loads is careful, and leaves all requests intact. */
  lemma {:induction false} NoFailureIsCareful(en: Engine, s: State, events: seq<Event>, s': State)
    requires Reaches(en, s, events, s') && AllIntact(s) && NoFailedLoad(events)
    ensures CarefulRun(en, s, events) && AllIntact(s')
    decreases |events|
  {
    hide Enabled, Step, DumpsIntact, AllIntact;
    if events != [] {
      StaysIntact(en, s, events[0]);
      NoFailureIsCareful(en, Step(en, s, events[0]), events[1..], s');
    }
  }

  /** Soundness of the cache with failed loads: from an empty store, any interleaving of any number of requests in which
      requests start with the record of their last match and a request dumps nothing between a failed load of its and
      its preemption or end leads to a state where
      - each store entry holds the cells of exactly the token prefix its id stands for,
      - each block about to be loaded is what recomputation would give, and
      - each request that has finished its step, and had no failed load, has in memory, on every rank, the cells of
        computing all its tokens from scratch. */
  lemma CarefulIsSound(en: Engine, s0: State, events: seq<Event>, s: State)
    requires Sound(en) && Init(en, s0) && Reaches(en, s0, events, s)
    requires CarefulRun(en, s0, events) && FreshRun(en, s0, events)
    ensures en.Size() > 0 && StoreSound(en, s.store)
    ensures forall q, rank: nat, i: nat :: Enabled(en, s, LoadBlock(q, rank, i)) ==> LoadIsRight(en, s, q, rank, i)
    ensures forall q :: StepDone(s, q) && s.reqs[q].run.intact ==> AsFromScratch(en, s, q)
  {
    assert Inv(en, s0) by { EmptyStore(en, s0); }
    hide *;
    RunKeeps(en, s0, events, s);
    InvSound(en, s);
  }

  /** So it is in every run in which no load fails, and then every request that has finished its step is right. */
  lemma CacheIsSound(en: Engine, s0: State, events: seq<Event>, s: State)
    requires Sound(en) && Init(en, s0) && Reaches(en, s0, events, s)
    requires NoFailedLoad(events) && FreshRun(en, s0, events)
    ensures en.Size() > 0 && StoreSound(en, s.store)
    ensures forall q, rank: nat, i: nat :: Enabled(en, s, LoadBlock(q, rank, i)) ==> LoadIsRight(en, s, q, rank, i)
    ensures forall q :: StepDone(s, q) ==> AsFromScratch(en, s, q)
  {
    assert AllIntact(s0);
    NoFailureIsCareful(en, s0, events, s);
    forall q | StepDone(s, q) ensures s.reqs[q].run.intact {
      assert IsRunning(s, q);
    }
    hide *;
    CarefulIsSound(en, s0, events, s);
  }

  // ---------- what was dumped is found ----------

  /** A dump adds the entry of the rank's share of the request's own block, and changes nothing else. */
  lemma DumpStores(en: Engine, s: State, q: ReqId, rank: nat, j: nat)
    requires Sound(en) && Inv(en, s) && Enabled(en, s, DumpBlock(q, rank, j)) && s.reqs[q].run.intact
    ensures var run, s' := s.reqs[q].run, Step(en, s, DumpBlock(q, rank, j));
            var k := run.dumpAt + j + 1;
            && Span(en.Size(), k) <= |run.tokens|
            && var key := KeyOf(en, rank, Chain(en.hasher, run.tokens, k));
               && key in s'.store && IsBlockKv(en, run.tokens, k, rank, s'.store[key])
               && s'.store - {key} == s.store - {key}
               && s'.mem == s.mem && s'.metas == s.metas && s'.reqs == s.reqs
  {
    hide Sound, StoreSound, IsBlockKv, Span, WholeBlocks, WaitOk, KeyOf, Chain, ReadBlock, RunOk, NoConflict;
    assert RunOk(en, s, q);
    DumpedBlockIsRight(en, s, q, rank, j);
    var run := s.reqs[q].run;
    OneEntry(s.store, KeyOf(en, rank, run.d.dumpIds[j]), ReadBlock(en, s.mem, rank, run.d.dumpBlocks[j]));
  }

  lemma OneEntry(store: Store, key: BlockId, data: seq<Part>)
    ensures store[key := data] - {key} == store - {key}
  {
  }

  /** When the store has the leading blocks of a request up to block n, a match whose lookup succeeds hits at least
      those, and all the tokens of its hits are taken as computed, but for one if they are the whole prompt. */
  lemma StoredIsFound(en: Engine, s: State, ts: seq<Token>, hbmHit: nat, n: nat)
    requires en.Size() > 0 && |ts| >= en.threshold && hbmHit < WholeBlocks(en.Size(), |ts|)
    requires n <= WholeBlocks(en.Size(), |ts|)
    requires forall k: nat :: hbmHit < k <= n ==>
                                Span(en.Size(), k) <= |ts| && KeyOf(en, 0, Chain(en.hasher, ts, k)) in s.store
    ensures var out := MatchResult(en, s, ts, hbmHit, true);
            && out.Recorded? && n <= out.meta.totalHit
            && Span(en.Size(), hbmHit) + out.newTokens ==
               Span(en.Size(), out.meta.totalHit) -
               if Span(en.Size(), out.meta.totalHit) == |ts| then 1 else 0
  {
    var ids := BlockIds(en.hasher, ts);
    SpanOne(hbmHit);
    MatchReports(en.Cfg(), ids, |ts|, hbmHit, LookupResult(en, s, ts, hbmHit, true));
    hide Span, WholeBlocks, Chain, MatchResult;
    MatchRecords(en, s, ts, hbmHit, true);
    forall i | hbmHit <= i < n ensures ids[i] in s.store {
      assert IdAt(en.hasher, ts, ids, i);
    }
  }

  /** What is about to be loaded is the rank's share of the request's own block. */
  ghost predicate LoadIsRight(en: Engine, s: State, q: ReqId, rank: nat, i: nat)
    requires en.Size() > 0 && Enabled(en, s, LoadBlock(q, rank, i))
  {
    var run := s.reqs[q].run;
    && Span(en.Size(), run.loadAt + i + 1) <= |run.tokens|
    && IsBlockKv(en, run.tokens, run.loadAt + i + 1, rank, s.store[KeyOf(en, rank, run.d.loadIds[i])])
  }

  predicate StepDone(s: State, q: ReqId) {
    IsRunning(s, q) && s.reqs[q].run.pos == s.reqs[q].run.target
  }

  /** All tokens of the request's step are in memory as if computed from scratch. */
  ghost predicate AsFromScratch(en: Engine, s: State, q: ReqId)
    requires en.Size() > 0 && IsRunning(s, q)
  {
    var run := s.reqs[q].run;
    && run.target <= Span(en.Size(), |run.blocks|) && run.target <= |run.tokens|
    && ReadCells(en, s.mem, run.blocks, run.target) == Ideal(en, run.tokens, run.target)
  }

  lemma InvSound(en: Engine, s: State)
    requires Sound(en) && Inv(en, s)
    ensures en.Size() > 0 && StoreSound(en, s.store)
    ensures forall q, rank: nat, i: nat :: Enabled(en, s, LoadBlock(q, rank, i)) ==> LoadIsRight(en, s, q, rank, i)
    ensures forall q :: StepDone(s, q) && s.reqs[q].run.intact ==> AsFromScratch(en, s, q)
  {
    hide Sound, StoreSound, IsBlockKv, ReadCells, Ideal, Span, WholeBlocks, ContentRight, DumpsAligned, Tracks, WaitOk,
         KeyOf;
    forall q, rank: nat, i: nat | Enabled(en, s, LoadBlock(q, rank, i)) ensures LoadIsRight(en, s, q, rank, i) {
      assert RunOk(en, s, q);
      LoadedBlockIsRight(en, s, q, rank, i);
    }
    forall q | StepDone(s, q) && s.reqs[q].run.intact ensures AsFromScratch(en, s, q) {
      assert RunOk(en, s, q);
      var run := s.reqs[q].run;
      LoadedInMemoryAfterStep(en, s.mem, run);
      CellsRight(en, s.mem, run.tokens, run.blocks, run.target);
    }
  }

  lemma EmptyStore(en: Engine, s: State)
    requires Init(en, s)
    ensures StoreSound(en, s.store)
  {
  }
}
