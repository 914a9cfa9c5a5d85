/** The engine and the prefix cache as a transition system, and the invariant that makes every run sound. */
module CacheRuns {
  import opened Residues
  import opened Sequences
  import opened ChainedHash
  import opened Dispatch
  import opened Options
  import opened PrefixCache

  /** Device memory: the share that a rank holds for an offset of a physical block. */
  type Memory = (nat, BlockNo, nat) -> Part

  /** A request that holds blocks. The first `base` tokens were in memory when the current step was scheduled; the
      step loads `d.loadIds`, then computes tokens `from`..`target` one by one (`pos` is the next), then dumps. `intact`
      is history: since the request was started, no load of its has failed. */
  datatype Run = Run(
    tokens: seq<Token>, blocks: seq<BlockNo>, base: nat, from: nat, pos: nat, target: nat,
    d: DispatchMeta, loadAt: nat, dumpAt: nat, loaded: set<(nat, nat)>, intact: bool)

  datatype Matched = Matched(hbmHit: nat, newTokens: int, recorded: bool)

  datatype Req = Waiting(tokens: seq<Token>, matched: Option<Matched>) | Running(run: Run)

  datatype State = State(store: Store, mem: Memory, metas: map<ReqId, RequestMeta>, reqs: map<ReqId, Req>)

  datatype Event =
    | Arrive(q: ReqId, tokens: seq<Token>)
    | Match(q: ReqId, hbmHit: nat, lookupOk: bool)
    | Start(q: ReqId, blocks: seq<BlockNo>, n: nat)
    | Continue(q: ReqId, blocks: seq<BlockNo>, n: nat)
    | LoadBlock(q: ReqId, rank: nat, i: nat)
    | FailLoad(q: ReqId, rank: nat, i: nat)
    | Compute(q: ReqId)
    | DumpBlock(q: ReqId, rank: nat, j: nat)
    | Sample(q: ReqId, token: Token)
    | Preempt(q: ReqId)
    | Finish(q: ReqId)
    | Evict(key: BlockId)

  // ---------- addresses ----------

  /** The block that holds token p, and the token's offset in it. */
  function BlockIndex(size: nat, p: nat): nat
    requires size > 0
  {
    WholeBlocks(size, p)
  }

  function Offset(size: nat, p: nat): int
    requires size > 0
  {
    p - Span(size, WholeBlocks(size, p))
  }

  lemma AddressBounds(size: nat, p: nat)
    requires size > 0
    ensures Span(size, BlockIndex(size, p)) <= p < Span(size, BlockIndex(size, p) + 1)
    ensures 0 <= Offset(size, p) < size && p == Span(size, BlockIndex(size, p)) + Offset(size, p)
  {
    hide Span, WholeBlocks;
    DivSpan(size, p, WholeBlocks(size, p));
    DivSpan(size, p, WholeBlocks(size, p) + 1);
    SpanStep(size, WholeBlocks(size, p));
  }

  lemma IndexBelow(size: nat, p: nat, k: nat)
    requires size > 0 && p < Span(size, k)
    ensures BlockIndex(size, p) < k
  {
    hide Span, WholeBlocks;
    DivSpan(size, p, k);
  }

  lemma IndexAtLeast(size: nat, p: nat, k: nat)
    requires size > 0 && Span(size, k) <= p
    ensures k <= BlockIndex(size, p)
  {
    hide Span, WholeBlocks;
    DivSpan(size, p, k);
  }

  function Read(en: Engine, mem: Memory, blocks: seq<BlockNo>, r: nat, p: nat): Part
    requires en.Size() > 0 && BlockIndex(en.Size(), p) < |blocks|
  {
    AddressBounds(en.Size(), p);
    mem(r, blocks[BlockIndex(en.Size(), p)], Offset(en.Size(), p))
  }

  function ReadCell(en: Engine, mem: Memory, blocks: seq<BlockNo>, p: nat): (c: Cell)
    requires en.Size() > 0 && BlockIndex(en.Size(), p) < |blocks|
    ensures |c| == en.ranks && forall r :: 0 <= r < en.ranks ==> c[r] == Read(en, mem, blocks, r, p)
  {
    seq(en.ranks, r requires 0 <= r < en.ranks => Read(en, mem, blocks, r, p))
  }

  /** The cells of the first p tokens as they are in memory. */
  function ReadCells(en: Engine, mem: Memory, blocks: seq<BlockNo>, p: nat): (cells: seq<Cell>)
    requires en.Size() > 0 && p <= Span(en.Size(), |blocks|)
    ensures |cells| == p
  {
    if p == 0 then []
    else
      IndexBelow(en.Size(), p - 1, |blocks|);
      ReadCells(en, mem, blocks, p - 1) + [ReadCell(en, mem, blocks, p - 1)]
  }

  function WriteCell(mem: Memory, block: BlockNo, offset: nat, cell: Cell): Memory {
    (r: nat, b: BlockNo, o: nat) => if b == block && o == offset && 0 <= r < |cell| then cell[r] else mem(r, b, o)
  }

  function WriteBlock(mem: Memory, rank: nat, block: BlockNo, data: seq<Part>): Memory {
    (r: nat, b: BlockNo, o: nat) => if r == rank && b == block && 0 <= o < |data| then data[o] else mem(r, b, o)
  }

  /** The share of one rank in a physical block. */
  function ReadBlock(en: Engine, mem: Memory, rank: nat, block: BlockNo): (data: seq<Part>)
    ensures |data| == en.Size() && forall o :: 0 <= o < en.Size() ==> data[o] == mem(rank, block, o)
  {
    seq(en.Size(), o requires 0 <= o < en.Size() => mem(rank, block, o))
  }

  // ---------- steps ----------

  const NoDispatch := DispatchMeta([], [], [], [])

  ghost function LookupResult(en: Engine, s: State, ts: seq<Token>, hbmHit: nat, ok: bool): Option<nat>
    requires en.Size() > 0
  {
    var ids := BlockIds(en.hasher, ts);
    if ok then Some(PresentPrefix(s.store.Keys, Slice(ids, hbmHit, |ids|))) else None
  }

  ghost function MatchResult(en: Engine, s: State, ts: seq<Token>, hbmHit: nat, ok: bool): MatchOutcome
    requires en.Size() > 0
  {
    Dispatch.Match(en.Cfg(), BlockIds(en.hasher, ts), |ts|, hbmHit, LookupResult(en, s, ts, hbmHit, ok))
  }

  /** The dispatch of a scheduled step: what the connector computes for a request it tracks, nothing otherwise. */
  function StepDispatch(en: Engine, metas: map<ReqId, RequestMeta>, q: ReqId, n: nat, blocks: seq<BlockNo>, load: bool):
      (map<ReqId, RequestMeta>, DispatchMeta)
    requires en.Size() > 0
  {
    if q in metas then
      var out := Dispatched(en.Cfg(), metas[q], n, blocks, load);
      (metas[q := out.0], out.1)
    else (metas, NoDispatch)
  }

  predicate IsRunning(s: State, q: ReqId) { q in s.reqs && s.reqs[q].Running? }
  predicate IsWaiting(s: State, q: ReqId) { q in s.reqs && s.reqs[q].Waiting? }

  /** A block of q is not being written by another request: shared blocks are complete for both. */
  ghost predicate SharesOnlyHits(en: Engine, blocks: seq<BlockNo>, hits: nat, other: Run) {
    forall i, j :: 0 <= i < |blocks| && 0 <= j < |other.blocks| && blocks[i] == other.blocks[j] ==>
      i < hits && Span(en.Size(), j + 1) <= other.base
  }

  /** The cells of the first n tokens are in memory in these blocks. */
  ghost predicate InMemory(en: Engine, mem: Memory, ts: seq<Token>, blocks: seq<BlockNo>, n: nat)
    requires en.Size() > 0
  {
    && n <= |ts| && n <= Span(en.Size(), |blocks|)
    && forall r: nat, p: nat :: r < en.ranks && p < n ==> Right(en, mem, ts, blocks, r, p)
  }

  ghost predicate Right(en: Engine, mem: Memory, ts: seq<Token>, blocks: seq<BlockNo>, r: nat, p: nat)
    requires en.Size() > 0
  {
    && p < |ts| && BlockIndex(en.Size(), p) < |blocks|
    && IsShare(en, ts, r, p, Read(en, mem, blocks, r, p))
  }

  /** First token the engine computes: after the HBM hits and the external hits it was told about. */
  function FirstComputed(en: Engine, m: Matched): int {
    Span(en.Size(), m.hbmHit) + m.newTokens
  }

  ghost predicate AllLoaded(en: Engine, run: Run) {
    forall r: nat, i: nat :: r < en.ranks && i < |run.d.loadIds| ==> (r, i) in run.loaded
  }

  ghost predicate Enabled(en: Engine, s: State, e: Event)
    requires en.Size() > 0
  {
    match e
    case Arrive(q, _) => q !in s.reqs
    case Match(q, hbmHit, _) => IsWaiting(s, q) && Span(en.Size(), hbmHit) <= |s.reqs[q].tokens|
    case Start(q, blocks, n) =>
      && IsWaiting(s, q) && s.reqs[q].matched.Some? && n > 0
      && var m, ts := s.reqs[q].matched.value, s.reqs[q].tokens;
         && 0 <= FirstComputed(en, m) && FirstComputed(en, m) + n <= |ts|
         && FirstComputed(en, m) + n <= Span(en.Size(), |blocks|)
         // what the engine guarantees about the blocks it hands out
         && Distinct(blocks) && InMemory(en, s.mem, ts, blocks, Span(en.Size(), m.hbmHit))
         && forall q' :: q' != q && IsRunning(s, q') ==> SharesOnlyHits(en, blocks, m.hbmHit, s.reqs[q'].run)
    case Continue(q, blocks, n) =>
      && IsRunning(s, q) && n > 0
      && var run := s.reqs[q].run;
         && run.pos == run.target && run.target + n <= |run.tokens|
         && run.target + n <= Span(en.Size(), |run.blocks + blocks|)
         && Distinct(run.blocks + blocks)
         && forall q' :: q' != q && IsRunning(s, q') ==> SharesOnlyHits(en, blocks, 0, s.reqs[q'].run)
    case LoadBlock(q, rank, i) =>
      && IsRunning(s, q) && rank < en.ranks
      && var run := s.reqs[q].run;
         && i < |run.d.loadIds| == |run.d.loadBlocks| && (rank, i) !in run.loaded
         && KeyOf(en, rank, run.d.loadIds[i]) in s.store
    case FailLoad(q, rank, i) =>
      && IsRunning(s, q) && rank < en.ranks && i < |s.reqs[q].run.d.loadIds| && (rank, i) !in s.reqs[q].run.loaded
    case Compute(q) =>
      IsRunning(s, q) && s.reqs[q].run.pos < s.reqs[q].run.target && AllLoaded(en, s.reqs[q].run)
    case DumpBlock(q, rank, j) =>
      && IsRunning(s, q) && rank < en.ranks && (en.mla ==> rank == 0)
      && var run := s.reqs[q].run;
         run.pos == run.target && j < |run.d.dumpIds| == |run.d.dumpBlocks|
    case Sample(q, _) =>
      IsRunning(s, q) && s.reqs[q].run.pos == s.reqs[q].run.target == |s.reqs[q].run.tokens|
    case Preempt(q) => IsRunning(s, q)
    case Finish(q) => q in s.reqs
    case Evict(_) => true
  }

  function SetRun(s: State, q: ReqId, run: Run): State {
    s.(reqs := s.reqs[q := Running(run)])
  }

  /** Where a computing step writes, and what. */
  predicate CanCompute(en: Engine, run: Run)
  {
    en.Size() > 0 && run.pos < |run.tokens| && run.pos < Span(en.Size(), |run.blocks|)
  }

  function ComputeToken(en: Engine, s: State, q: ReqId): State
    requires IsRunning(s, q) && CanCompute(en, s.reqs[q].run)
  {
    var run := s.reqs[q].run;
    var cells := ReadCells(en, s.mem, run.blocks, run.pos);
    IndexBelow(en.Size(), run.pos, |run.blocks|);
    AddressBounds(en.Size(), run.pos);
    var mem := WriteCell(s.mem, run.blocks[BlockIndex(en.Size(), run.pos)], Offset(en.Size(), run.pos),
                         en.forward(cells, run.tokens[run.pos]));
    SetRun(s, q, run.(pos := run.pos + 1)).(mem := mem)
  }

  ghost function Step(en: Engine, s: State, e: Event): State
    requires en.Size() > 0 && Enabled(en, s, e)
    requires e.Compute? ==> CanCompute(en, s.reqs[e.q].run)
  {
    match e
    case Arrive(q, ts) => s.(reqs := s.reqs[q := Waiting(ts, None)])
    case Match(q, hbmHit, ok) =>
      var ts := s.reqs[q].tokens;
      var out := MatchResult(en, s, ts, hbmHit, ok);
      if out.Skipped? then s.(reqs := s.reqs[q := Waiting(ts, Some(Matched(hbmHit, 0, false)))])
      else s.(reqs := s.reqs[q := Waiting(ts, Some(Matched(hbmHit, out.newTokens, true)))],
              metas := s.metas[q := out.meta])
    case Start(q, blocks, n) =>
      var m, ts := s.reqs[q].matched.value, s.reqs[q].tokens;
      var from := FirstComputed(en, m);
      var (metas, d) := StepDispatch(en, s.metas, q, n, blocks, true);
      var dumpAt := if q in s.metas then WholeBlocks(en.Size(), s.metas[q].processed) else 0;
      SetRun(s, q, Run(ts, blocks, Span(en.Size(), m.hbmHit), from, from, from + n, d, m.hbmHit, dumpAt, {}, true))
        .(metas := metas)
    case Continue(q, blocks, n) =>
      var run := s.reqs[q].run;
      var (metas, d) := StepDispatch(en, s.metas, q, n, blocks, false);
      var dumpAt := if q in s.metas then WholeBlocks(en.Size(), s.metas[q].processed) else 0;
      SetRun(s, q, Run(run.tokens, run.blocks + blocks, run.target, run.target, run.target, run.target + n,
                       d, 0, dumpAt, {}, run.intact))
        .(metas := metas)
    case LoadBlock(q, rank, i) =>
      var run := s.reqs[q].run;
      var mem := WriteBlock(s.mem, rank, run.d.loadBlocks[i], s.store[KeyOf(en, rank, run.d.loadIds[i])]);
      SetRun(s, q, run.(loaded := run.loaded + {(rank, i)})).(mem := mem)
    // a load that fails is over without having written anything
    case FailLoad(q, rank, i) =>
      var run := s.reqs[q].run;
      SetRun(s, q, run.(loaded := run.loaded + {(rank, i)}, intact := false))
    case Compute(q) => ComputeToken(en, s, q)
    case DumpBlock(q, rank, j) =>
      var run := s.reqs[q].run;
      s.(store := s.store[KeyOf(en, rank, run.d.dumpIds[j]) := ReadBlock(en, s.mem, rank, run.d.dumpBlocks[j])])
    case Sample(q, t) =>
      var run := s.reqs[q].run;
      SetRun(s, q, run.(tokens := run.tokens + [t]))
    case Preempt(q) => s.(reqs := s.reqs[q := Waiting(s.reqs[q].run.tokens, None)])
    case Finish(q) => s.(reqs := s.reqs - {q}, metas := s.metas - {q})
    case Evict(key) => s.(store := s.store - {key})
  }

  // ---------- the invariant ----------

  ghost predicate Fits(en: Engine, run: Run) {
    && run.base <= run.from <= run.pos <= run.target <= |run.tokens| && run.from < run.target
    && run.target <= Span(en.Size(), |run.blocks|) && Distinct(run.blocks)
  }

  /** Where the tokens that are in memory once everything is loaded end. */
  function LoadEnd(en: Engine, run: Run): nat {
    if run.d.loadIds == [] then run.base else Span(en.Size(), run.loadAt + |run.d.loadIds|)
  }

  /** Entry i of a list pair stands for block `at + i` of the request: the id of the prefix that ends with it, and
      the physical block it lives in. */
  ghost predicate PairAligned(en: Engine, run: Run, ids: seq<BlockId>, blocks: seq<BlockNo>, at: nat, i: nat)
    requires i < |ids| == |blocks|
  {
    && at + i < |run.blocks| && Span(en.Size(), at + i + 1) <= |run.tokens|
    && ids[i] == Chain(en.hasher, run.tokens, at + i + 1) && blocks[i] == run.blocks[at + i]
  }

  ghost predicate Aligned(en: Engine, run: Run, ids: seq<BlockId>, blocks: seq<BlockNo>, at: nat) {
    |ids| == |blocks| && forall i :: 0 <= i < |ids| ==> PairAligned(en, run, ids, blocks, at, i)
  }

  ghost predicate LoadsAligned(en: Engine, run: Run) {
    && Aligned(en, run, run.d.loadIds, run.d.loadBlocks, run.loadAt)
    && (run.d.loadIds != [] ==> run.base == Span(en.Size(), run.loadAt))
    && run.from <= LoadEnd(en, run)
    && (run.from < run.pos ==> AllLoaded(en, run))
  }

  ghost predicate DumpsAligned(en: Engine, run: Run) {
    && Aligned(en, run, run.d.dumpIds, run.d.dumpBlocks, run.dumpAt)
    && (run.d.dumpIds != [] ==> Span(en.Size(), run.dumpAt + |run.d.dumpIds|) <= run.target)
  }

  /** Rank r's share of token p is in memory by now. */
  ghost predicate Present(en: Engine, run: Run, r: nat, p: nat)
    requires en.Size() > 0
  {
    || p < run.base
    || (run.base <= p < LoadEnd(en, run) && (r, BlockIndex(en.Size(), p) - run.loadAt) in run.loaded)
    || run.from <= p < run.pos
  }

  ghost predicate ContentRight(en: Engine, mem: Memory, run: Run)
    requires en.Size() > 0
  {
    forall r: nat, p: nat :: r < en.ranks && Present(en, run, r, p) ==> Right(en, mem, run.tokens, run.blocks, r, p)
  }

  /** What a request has in memory is right as long as no load of its has failed. */
  ghost predicate ContentOk(en: Engine, mem: Memory, run: Run)
    requires en.Size() > 0
  {
    run.intact ==> ContentRight(en, mem, run)
  }

  /** What the connector has recorded agrees with the request. */
  ghost predicate Tracks(en: Engine, meta: RequestMeta, run: Run)
    requires en.Size() > 0
  {
    && meta.blocks == run.blocks && meta.numTokens <= |run.tokens|
    && |meta.ids| == WholeBlocks(en.Size(), meta.numTokens)
    && (forall i :: 0 <= i < |meta.ids| ==> IdAt(en.hasher, run.tokens, meta.ids, i))
    && (meta.processed < meta.numTokens ==> meta.processed == run.target && |run.tokens| == meta.numTokens)
  }

  ghost predicate RunOk(en: Engine, s: State, q: ReqId)
    requires en.Size() > 0 && IsRunning(s, q)
  {
    var run := s.reqs[q].run;
    && Fits(en, run) && LoadsAligned(en, run) && DumpsAligned(en, run)
    && ContentOk(en, s.mem, run)
    && (q in s.metas ==> Tracks(en, s.metas[q], run))
  }

  /** A recorded match describes the waiting request. */
  ghost predicate MatchOk(en: Engine, ts: seq<Token>, m: Matched, meta: RequestMeta)
    requires en.Size() > 0
  {
    && IsIdList(en.hasher, ts, meta.ids) && meta.numTokens == |ts| && meta.blocks == []
    && meta.hbmHit == m.hbmHit <= meta.totalHit <= |meta.ids| && m.hbmHit < |meta.ids|
    && meta.processed == Span(en.Size(), meta.totalHit)
    && FirstComputed(en, m) == meta.processed - if meta.processed == |ts| then 1 else 0
  }

  ghost predicate WaitOk(en: Engine, s: State, q: ReqId)
    requires en.Size() > 0 && IsWaiting(s, q)
  {
    var m := s.reqs[q].matched;
    m.Some? ==>
      if m.value.recorded then q in s.metas && MatchOk(en, s.reqs[q].tokens, m.value, s.metas[q])
      else m.value.newTokens == 0
  }

  /** Blocks held by two requests are complete for both, so neither writes them. */
  ghost predicate NoConflict(en: Engine, a: Run, b: Run) {
    forall i, j :: 0 <= i < |a.blocks| && 0 <= j < |b.blocks| && a.blocks[i] == b.blocks[j] ==>
      Span(en.Size(), i + 1) <= a.base && Span(en.Size(), j + 1) <= b.base
  }

  ghost predicate Inv(en: Engine, s: State) {
    && en.Size() > 0 && StoreSound(en, s.store)
    && (forall q :: IsRunning(s, q) ==> RunOk(en, s, q))
    && (forall q :: IsWaiting(s, q) ==> WaitOk(en, s, q))
    && (forall q, q' :: q != q' && IsRunning(s, q) && IsRunning(s, q') ==>
        NoConflict(en, s.reqs[q].run, s.reqs[q'].run))
  }

  ghost predicate Init(en: Engine, s: State) {
    en.Size() > 0 && s.store == map[] && s.metas == map[] && s.reqs == map[]
  }
}
