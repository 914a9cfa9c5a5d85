/** Why a failed load has to be excluded: nothing keeps the blocks that were computed over it out of the store. A run of
    two requests in which one load fails ends with a store entry that is not what recomputation would give. */
module CacheFailure {
  import opened Residues
  import opened Sequences
  import opened Options
  import opened ChainedHash
  import opened Dispatch
  import opened PrefixCache
  import opened CacheRuns
  import opened CacheSoundness

  /** One rank, one token per block, and a model whose cells depend on the cell before. */
  ghost function Reader(): Engine {
    Engine(Hasher(1, (p: BlockId, b: seq<Token>) => Digest(p, b), Raw([])), (r: nat, id: BlockId) => Rehashed(r, id),
           1, false, (cells: seq<Cell>, t: Token) => [t + LastPart(cells)], 0)
  }

  function LastPart(cells: seq<Cell>): Part {
    if cells == [] || cells[|cells| - 1] == [] then 0 else cells[|cells| - 1][0]
  }

  ghost function FirstId(): BlockId { Digest(Raw([]), [5]) }
  ghost function SecondId(): BlockId { Digest(FirstId(), [6]) }

  ghost function Blank(): Memory { (r: nat, b: BlockNo, o: nat) => 0 }
  ghost function Written(): Memory { WriteCell(Blank(), 7, 0, [5]) }
  ghost function WrittenOver(): Memory { WriteCell(Written(), 9, 0, [6]) }

  ghost function FirstRun(pos: nat): Req {
    Running(Run([5], [7], 0, 0, pos, 1, DispatchMeta([], [], [FirstId()], [7]), 0, 0, {}, true))
  }

  ghost function SecondRun(pos: nat, loaded: set<(nat, nat)>): Req {
    Running(Run([5, 6], [8, 9], 0, 1, pos, 2, DispatchMeta([FirstId()], [8], [SecondId()], [9]), 0, 1, loaded,
                loaded == {}))
  }

  /** The first request is computed and dumped; the second, with one token more, finds its block, but loading it
      fails. */
  ghost function EventAt(k: nat): Event {
    match k
    case 0 => Arrive(0, [5])
    case 1 => Event.Match(0, 0, true)
    case 2 => Start(0, [7], 1)
    case 3 => Compute(0)
    case 4 => DumpBlock(0, 0, 0)
    case 5 => Finish(0)
    case 6 => Arrive(1, [5, 6])
    case 7 => Event.Match(1, 0, true)
    case 8 => Start(1, [8, 9], 1)
    case 9 => FailLoad(1, 0, 0)
    case 10 => Compute(1)
    case _ => DumpBlock(1, 0, 0)
  }

  ghost function StateAt(k: nat): State {
    var stored: Store := map[FirstId() := [5]];
    match k
    case 0 => State(map[], Blank(), map[], map[])
    case 1 => State(map[], Blank(), map[], map[0 := Waiting([5], None)])
    case 2 => State(map[], Blank(), map[0 := RequestMeta([FirstId()], 0, 0, 1, [], 0)],
                    map[0 := Waiting([5], Some(Matched(0, 0, true)))])
    case 3 => State(map[], Blank(), map[0 := RequestMeta([FirstId()], 0, 0, 1, [7], 1)], map[0 := FirstRun(0)])
    case 4 => State(map[], Written(), map[0 := RequestMeta([FirstId()], 0, 0, 1, [7], 1)], map[0 := FirstRun(1)])
    case 5 => State(stored, Written(), map[0 := RequestMeta([FirstId()], 0, 0, 1, [7], 1)], map[0 := FirstRun(1)])
    case 6 => State(stored, Written(), map[], map[])
    case 7 => State(stored, Written(), map[], map[1 := Waiting([5, 6], None)])
    case 8 => State(stored, Written(), map[1 := RequestMeta([FirstId(), SecondId()], 0, 1, 2, [], 1)],
                    map[1 := Waiting([5, 6], Some(Matched(0, 1, true)))])
    case 9 => State(stored, Written(), map[1 := RequestMeta([FirstId(), SecondId()], 0, 1, 2, [8, 9], 2)],
                    map[1 := SecondRun(1, {})])
    case 10 => State(stored, Written(), map[1 := RequestMeta([FirstId(), SecondId()], 0, 1, 2, [8, 9], 2)],
                     map[1 := SecondRun(1, {(0, 0)})])
    case 11 => State(stored, WrittenOver(), map[1 := RequestMeta([FirstId(), SecondId()], 0, 1, 2, [8, 9], 2)],
                     map[1 := SecondRun(2, {(0, 0)})])
    case _ => State(stored[SecondId() := [6]], WrittenOver(),
                    map[1 := RequestMeta([FirstId(), SecondId()], 0, 1, 2, [8, 9], 2)],
                    map[1 := SecondRun(2, {(0, 0)})])
  }

  ghost predicate GoesAt(k: nat) {
    && Goes(Reader(), StateAt(k), EventAt(k))
    && Step(Reader(), StateAt(k), EventAt(k)) == StateAt(k + 1)
  }

  // ---- what an event does to a state with one request ----

  lemma OneTokenBlocks()
    ensures forall n: nat :: Span(1, n) == n
    ensures forall n: nat :: WholeBlocks(1, n) == n
  {
  }

  lemma Replaced<V>(q: ReqId, before: V, after: V)
    ensures map[q := before][q := after] == map[q := after]
  {
  }

  /** The start of a matched request, in a state without others. */
  lemma StartGives(en: Engine, store: Store, mem: Memory, q: ReqId, blocks: seq<BlockNo>, ts: seq<Token>, m: Matched,
                   meta: RequestMeta, meta': RequestMeta, d: DispatchMeta)
    requires en.Size() == 1 && m.hbmHit == 0 && 0 <= m.newTokens < |ts| <= |blocks| && m.recorded && Distinct(blocks)
    requires Dispatched(en.Cfg(), meta, 1, blocks, true) == (meta', d)
    ensures var s := State(store, mem, map[q := meta], map[q := Waiting(ts, Some(m))]);
            && Enabled(en, s, Start(q, blocks, 1))
            && Step(en, s, Start(q, blocks, 1)) ==
               State(store, mem, map[q := meta'],
                     map[q := Running(Run(ts, blocks, 0, m.newTokens, m.newTokens, m.newTokens + 1, d, 0,
                                          meta.processed, {}, true))])
  {
    var s := State(store, mem, map[q := meta], map[q := Waiting(ts, Some(m))]);
    OneTokenBlocks();
    hide Dispatched, Span, WholeBlocks;
    assert s.reqs[q] == Waiting(ts, Some(m)) && FirstComputed(en, m) == m.newTokens;
    assert InMemory(en, mem, ts, blocks, 0);
    assert Enabled(en, s, Start(q, blocks, 1));
    Replaced(q, meta, meta');
    var run := Run(ts, blocks, 0, m.newTokens, m.newTokens, m.newTokens + 1, d, 0, meta.processed, {}, true);
    Replaced(q, Waiting(ts, Some(m)), Running(run));
  }

  /** The computation of a token of a request that has its loads behind it. */
  lemma ComputeGives(en: Engine, store: Store, mem: Memory, metas: map<ReqId, RequestMeta>, q: ReqId, run: Run,
                     cells: seq<Cell>, cell: Cell)
    requires en.Size() == 1 && run.pos < |run.tokens| && run.pos < |run.blocks| && run.pos < run.target
    requires AllLoaded(en, run) && run.pos <= Span(1, |run.blocks|)
    requires ReadCells(en, mem, run.blocks, run.pos) == cells && en.forward(cells, run.tokens[run.pos]) == cell
    ensures var s := State(store, mem, metas, map[q := Running(run)]);
            && Enabled(en, s, Compute(q)) && CanCompute(en, run)
            && Step(en, s, Compute(q)) == State(store, WriteCell(mem, run.blocks[run.pos], 0, cell), metas,
                                                map[q := Running(run.(pos := run.pos + 1))])
  {
    var s := State(store, mem, metas, map[q := Running(run)]);
    OneTokenBlocks();
    hide ReadCells, WriteCell, Span, WholeBlocks;
    assert s.reqs[q].run == run;
    Replaced(q, Running(run), Running(run.(pos := run.pos + 1)));
  }

  lemma DumpGives(en: Engine, store: Store, mem: Memory, metas: map<ReqId, RequestMeta>, q: ReqId, run: Run, part: Part)
    requires en.Size() == 1 && en.ranks == 1 && run.pos == run.target && |run.d.dumpIds| == |run.d.dumpBlocks| == 1
    requires mem(0, run.d.dumpBlocks[0], 0) == part
    ensures var s := State(store, mem, metas, map[q := Running(run)]);
            && Enabled(en, s, DumpBlock(q, 0, 0))
            && Step(en, s, DumpBlock(q, 0, 0)) == State(store[run.d.dumpIds[0] := [part]], mem, metas, s.reqs)
  {
    assert ReadBlock(en, mem, 0, run.d.dumpBlocks[0]) == [part];
  }

  lemma FailGives(en: Engine, store: Store, mem: Memory, metas: map<ReqId, RequestMeta>, q: ReqId, run: Run)
    requires en.Size() == 1 && en.ranks == 1 && |run.d.loadIds| == 1 && run.loaded == {}
    ensures var s := State(store, mem, metas, map[q := Running(run)]);
            && Enabled(en, s, FailLoad(q, 0, 0))
            && Step(en, s, FailLoad(q, 0, 0)) ==
               State(store, mem, metas, map[q := Running(run.(loaded := {(0, 0)}, intact := false))])
  {
    Replaced(q, Running(run), Running(run.(loaded := {(0, 0)}, intact := false)));
    assert run.loaded + {(0, 0)} == {(0, 0)};
  }

  lemma MatchGives(en: Engine, store: Store, mem: Memory, q: ReqId, ts: seq<Token>, meta: RequestMeta, n: nat)
    requires en.Size() == 1 && ts != []
    requires MatchResult(en, State(store, mem, map[], map[q := Waiting(ts, None)]), ts, 0, true) == Recorded(meta, n)
    ensures var s := State(store, mem, map[], map[q := Waiting(ts, None)]);
            && Enabled(en, s, Event.Match(q, 0, true))
            && Step(en, s, Event.Match(q, 0, true)) ==
               State(store, mem, map[q := meta], map[q := Waiting(ts, Some(Matched(0, n, true)))])
  {
    var s := State(store, mem, map[], map[q := Waiting(ts, None)]);
    hide MatchResult;
    assert s.reqs[q] == Waiting(ts, None);
    Replaced(q, Waiting(ts, None), Waiting(ts, Some(Matched(0, n, true))));
  }

  // ---- the run ----

  lemma ReaderIs()
    ensures Reader().Size() == 1 && Reader().ranks == 1 && !Reader().mla && Reader().Cfg() == Config(1, 1, 0)
    ensures forall cells, t :: Reader().forward(cells, t) == [t + LastPart(cells)]
  {
  }

  lemma Ids()
    ensures BlockIds(Reader().hasher, [5]) == [FirstId()]
    ensures BlockIds(Reader().hasher, [5, 6]) == [FirstId(), SecondId()]
    ensures Chain(Reader().hasher, [5, 6], 2) == SecondId()
  {
    var h := Reader().hasher;
    OneTokenBlocks();
    assert Chain(h, [5], 1) == FirstId() by { assert [5][0..1] == [5]; }
    assert Chain(h, [5, 6], 1) == FirstId() by { assert [5, 6][0..1] == [5]; }
    assert Chain(h, [5, 6], 2) == SecondId() by { assert [5, 6][1..2] == [6]; }
    var a, b := BlockIds(h, [5]), BlockIds(h, [5, 6]);
    assert |a| == 1 && IdAt(h, [5], a, 0);
    assert |b| == 2 && IdAt(h, [5, 6], b, 0) && IdAt(h, [5, 6], b, 1);
  }

  lemma FirstArrives()
    ensures GoesAt(0)
  {
    hide FirstRun, SecondRun, FirstId, SecondId, Blank, Written, WrittenOver;
  }

  lemma FirstMatches()
    ensures GoesAt(1)
  {
    var en := Reader();
    Ids();
    ReaderIs();
    OneTokenBlocks();
    hide BlockIds, Span, WholeBlocks, Reader, FirstRun, SecondRun, FirstId, SecondId, Blank, Written, WrittenOver,
         LastPart, Enabled, Step;
    NothingPresent([FirstId()]);
    assert Slice([FirstId()], 0, 1) == [FirstId()];
    assert MatchResult(en, StateAt(1), [5], 0, true) == Recorded(RequestMeta([FirstId()], 0, 0, 1, [], 0), 0);
    MatchGives(en, map[], Blank(), 0, [5], RequestMeta([FirstId()], 0, 0, 1, [], 0), 0);
  }

  lemma NothingPresent(ids: seq<BlockId>)
    ensures PresentPrefix({}, ids) == 0
  {
  }

  lemma FirstDispatched()
    ensures Dispatched(Reader().Cfg(), RequestMeta([FirstId()], 0, 0, 1, [], 0), 1, [7], true) ==
            (RequestMeta([FirstId()], 0, 0, 1, [7], 1), DispatchMeta([], [], [FirstId()], [7]))
  {
    var a := FirstId();
    OneTokenBlocks();
    hide Span, WholeBlocks, FirstId;
    assert [] + [7] == [7];
    assert Slice([a], 0, 1) == [a] && Slice([7], 0, 1) == [7];
  }

  lemma FirstStarts()
    ensures GoesAt(2)
  {
    ReaderIs();
    FirstDispatched();
    hide Reader, FirstId, SecondId, Blank, Written, WrittenOver, SecondRun, Dispatched, LastPart, Enabled, Step;
    assert Distinct([7]);
    StartGives(Reader(), map[], Blank(), 0, [7], [5], Matched(0, 0, true), RequestMeta([FirstId()], 0, 0, 1, [], 0),
               RequestMeta([FirstId()], 0, 0, 1, [7], 1), DispatchMeta([], [], [FirstId()], [7]));
  }

  lemma FirstComputes()
    ensures GoesAt(3)
  {
    ReaderIs();
    OneTokenBlocks();
    assert ReadCells(Reader(), Blank(), [7], 0) == [];
    assert LastPart([]) == 0;
    hide Reader, FirstId, SecondId, Blank, WriteCell, WrittenOver, SecondRun, LastPart, Enabled, Step, Span,
         WholeBlocks, ReadCells, CanCompute;
    ComputeGives(Reader(), map[], Blank(), map[0 := RequestMeta([FirstId()], 0, 0, 1, [7], 1)], 0, FirstRun(0).run, [],
                 [5]);
  }

  lemma FirstDumps()
    ensures GoesAt(4)
  {
    ReaderIs();
    assert Written()(0, 7, 0) == 5;
    hide Reader, FirstId, SecondId, Blank, Written, WrittenOver, SecondRun, LastPart, Enabled, Step;
    DumpGives(Reader(), map[], Written(), map[0 := RequestMeta([FirstId()], 0, 0, 1, [7], 1)], 0, FirstRun(1).run, 5);
  }

  lemma FirstFinishes()
    ensures GoesAt(5)
  {
    hide FirstRun, SecondRun, FirstId, SecondId, Blank, Written, WrittenOver;
    Removed(0, RequestMeta([FirstId()], 0, 0, 1, [7], 1));
    Removed(0, FirstRun(1));
  }

  lemma Removed<V>(q: ReqId, x: V)
    ensures map[q := x] - {q} == map[]
  {
  }

  lemma SecondArrives()
    ensures GoesAt(6)
  {
    hide FirstRun, SecondRun, FirstId, SecondId, Blank, Written, WrittenOver;
  }

  lemma SecondMatches()
    ensures GoesAt(7)
  {
    var en, s := Reader(), StateAt(7);
    var ids := [FirstId(), SecondId()];
    Ids();
    ReaderIs();
    OneTokenBlocks();
    assert FirstId() != SecondId();
    hide BlockIds, Span, WholeBlocks, Chain, Reader, FirstRun, SecondRun, FirstId, SecondId, Blank, Written,
         WrittenOver, LastPart, Enabled, Step;
    assert Slice(ids, 0, 2) == ids;
    PresentOne(s.store.Keys, ids);
    assert LookupResult(en, s, [5, 6], 0, true) == Some(1);
    assert MatchResult(en, s, [5, 6], 0, true) == Recorded(RequestMeta(ids, 0, 1, 2, [], 1), 1);
    MatchGives(en, map[FirstId() := [5]], Written(), 1, [5, 6], RequestMeta(ids, 0, 1, 2, [], 1), 1);
  }

  lemma PresentOne(present: set<BlockId>, ids: seq<BlockId>)
    requires |ids| == 2 && ids[0] in present && ids[1] !in present
    ensures PresentPrefix(present, ids) == 1
  {
  }

  lemma SecondDispatched()
    ensures var ids := [FirstId(), SecondId()];
            Dispatched(Reader().Cfg(), RequestMeta(ids, 0, 1, 2, [], 1), 1, [8, 9], true) ==
            (RequestMeta(ids, 0, 1, 2, [8, 9], 2), DispatchMeta([FirstId()], [8], [SecondId()], [9]))
  {
    var a, b := FirstId(), SecondId();
    OneTokenBlocks();
    hide Span, WholeBlocks, FirstId, SecondId;
    assert [] + [8, 9] == [8, 9];
    assert Slice([a, b], 0, 1) == [a] && Slice([8, 9], 0, 1) == [8];
    assert Slice([a, b], 1, 2) == [b] && Slice([8, 9], 1, 2) == [9];
  }

  lemma SecondStarts()
    ensures GoesAt(8)
  {
    var ids := [FirstId(), SecondId()];
    ReaderIs();
    SecondDispatched();
    hide Reader, FirstId, SecondId, Blank, Written, WrittenOver, FirstRun, Dispatched, LastPart, Enabled, Step;
    assert Distinct([8, 9]);
    StartGives(Reader(), map[FirstId() := [5]], Written(), 1, [8, 9], [5, 6], Matched(0, 1, true),
               RequestMeta(ids, 0, 1, 2, [], 1), RequestMeta(ids, 0, 1, 2, [8, 9], 2),
               DispatchMeta([FirstId()], [8], [SecondId()], [9]));
  }

  lemma LoadFails()
    ensures GoesAt(9)
  {
    ReaderIs();
    hide Reader, FirstId, SecondId, Blank, Written, WrittenOver, FirstRun, LastPart, Enabled, Step;
    FailGives(Reader(), map[FirstId() := [5]], Written(),
              map[1 := RequestMeta([FirstId(), SecondId()], 0, 1, 2, [8, 9], 2)], 1, SecondRun(1, {}).run);
  }

  /** The second token is computed over whatever the block that was not loaded held before. */
  lemma StaleCells()
    ensures Reader().Size() == 1 && 1 <= Span(1, 2) && ReadCells(Reader(), Written(), [8, 9], 1) == [[0]]
  {
    var en, mem := Reader(), Written();
    OneTokenBlocks();
    hide Span, WholeBlocks;
    assert ReadCells(en, mem, [8, 9], 0) == [];
    assert ReadCell(en, mem, [8, 9], 0) == [0];
  }

  lemma SecondComputes()
    ensures GoesAt(10)
  {
    ReaderIs();
    StaleCells();
    assert LastPart([[0]]) == 0;
    hide Reader, FirstId, SecondId, Blank, Written, FirstRun, LastPart, Enabled, Step, Span, ReadCells, CanCompute,
         WriteCell;
    assert AllLoaded(Reader(), SecondRun(1, {(0, 0)}).run);
    ComputeGives(Reader(), map[FirstId() := [5]], Written(),
                 map[1 := RequestMeta([FirstId(), SecondId()], 0, 1, 2, [8, 9], 2)], 1, SecondRun(1, {(0, 0)}).run,
                     [[0]], [6]);
  }

  lemma SecondDumps()
    ensures GoesAt(11)
  {
    ReaderIs();
    assert WrittenOver()(0, 9, 0) == 6;
    hide Reader, FirstId, SecondId, Blank, Written, WrittenOver, FirstRun, LastPart, Enabled, Step;
    DumpGives(Reader(), map[FirstId() := [5]], WrittenOver(),
              map[1 := RequestMeta([FirstId(), SecondId()], 0, 1, 2, [8, 9], 2)], 1, SecondRun(2, {(0, 0)}).run, 6);
  }

  lemma {:induction false} RunFrom(k: nat)
    requires k <= 12
    ensures Reaches(Reader(), StateAt(k), EventsFrom(k), StateAt(12))
    decreases 12 - k
  {
    hide Enabled, Step, StateAt, EventAt, Reader;
    if k < 12 {
      EachGoes(k);
      RunFrom(k + 1);
      assert EventsFrom(k)[1..] == EventsFrom(k + 1);
    }
  }

  ghost function EventsFrom(k: nat): seq<Event>
    requires k <= 12
  {
    seq(12 - k, i requires 0 <= i < 12 - k => EventAt(k + i))
  }

  lemma EachGoes(k: nat)
    requires k < 12
    ensures GoesAt(k) && Reader().Size() > 0
  {
    assert Reader().Size() > 0;
    hide GoesAt, Reader;
    match k
    case 0 => FirstArrives();
    case 1 => FirstMatches();
    case 2 => FirstStarts();
    case 3 => FirstComputes();
    case 4 => FirstDumps();
    case 5 => FirstFinishes();
    case 6 => SecondArrives();
    case 7 => SecondMatches();
    case 8 => SecondStarts();
    case 9 => LoadFails();
    case 10 => SecondComputes();
    case 11 => SecondDumps();
  }

  lemma ReaderIsSound()
    ensures Sound(Reader())
  {
  }

  /** The entry of the second block should be 11, the sum of both tokens. */
  lemma WrongEntry()
    ensures !StoreSound(Reader(), StateAt(12).store)
  {
    var en, ts := Reader(), [5, 6];
    Ids();
    OneTokenBlocks();
    assert Ideal(en, ts, 0) == [] && Ideal(en, ts, 1) == [[5]];
    assert IdealCell(en, ts, 1) == [11];
    hide Span, WholeBlocks, BlockIds, Chain, Ideal, IdealCell;
    assert HasKey(en, ts, 2, 0);
    assert !HoldsShare(en, ts, 0, 2, 0, 6);
    assert !EntrySound(en, StateAt(12).store, ts, 2, 0);
  }

  /** A sound engine, an empty store and a run with one failed load: the store ends up unsound. */
  lemma FailedLoadBreaksStore()
    ensures Sound(Reader()) && Init(Reader(), StateAt(0)) && !NoFailedLoad(EventsFrom(0))
    ensures Reaches(Reader(), StateAt(0), EventsFrom(0), StateAt(12)) && !StoreSound(Reader(), StateAt(12).store)
  {
    hide *;
    ReaderIsSound();
    RunFrom(0);
    WrongEntry();
    StartsEmpty();
  }

  lemma StartsEmpty()
    ensures Init(Reader(), StateAt(0)) && !NoFailedLoad(EventsFrom(0))
  {
    assert Reader().Size() > 0;
    assert EventsFrom(0)[9] == EventAt(9);
    assert EventAt(9).FailLoad?;
    hide EventAt, Reader;
  }
}
