/** Why a request must not be started with the record of an older match. A request is preempted; when it is matched
    again all its full blocks are in the engine's own cache, the match returns early and leaves the old record behind.
    The record pairs the ids with the blocks of before the preemption, and one of those is dumped. */
module StaleRecord {
  import opened Residues
  import opened Sequences
  import opened Options
  import opened ChainedHash
  import opened Dispatch
  import opened PrefixCache
  import opened CacheRuns
  import opened CacheSoundness

  /** One rank, two tokens per block, and a model whose cells are the tokens. */
  ghost function Copier(): Engine {
    Engine(Hasher(2, (p: BlockId, b: seq<Token>) => Digest(p, b), Raw([])), (r: nat, id: BlockId) => Rehashed(r, id),
           1, false, (cells: seq<Cell>, t: Token) => [t], 0)
  }

  ghost function Prompt(): seq<Token> { [5, 6, 4] }
  ghost function Id(): BlockId { Digest(Raw([]), [5, 6]) }

  /** Block 9 holds the cells of the first two tokens; that another request computed them is left out of the run. */
  ghost function Cached(): Memory { (r: nat, b: BlockNo, o: nat) => if b != 9 then 0 else if o == 0 then 5 else 6 }
  ghost function Computed(): Memory { WriteCell(Cached(), 10, 0, [4]) }

  ghost function Meta(blocks: seq<BlockNo>, processed: nat): RequestMeta {
    RequestMeta([Id()], 0, 0, 3, blocks, processed)
  }

  ghost function FirstRun(): Run { Run(Prompt(), [7, 8], 0, 0, 0, 1, DispatchMeta([], [], [], []), 0, 0, {}, true) }

  ghost function SecondRun(pos: nat): Run {
    Run(Prompt(), [9, 10], 2, 2, pos, 3, DispatchMeta([], [], [Id()], [7]), 1, 0, {}, true)
  }

  ghost function EventAt(k: nat): Event {
    match k
    case 0 => Arrive(0, Prompt())
    case 1 => Event.Match(0, 0, true)
    case 2 => Start(0, [7, 8], 1)
    case 3 => Preempt(0)
    case 4 => Event.Match(0, 1, true)
    case 5 => Start(0, [9, 10], 1)
    case 6 => Compute(0)
    case _ => DumpBlock(0, 0, 0)
  }

  ghost function StateAt(k: nat): State {
    match k
    case 0 => State(map[], Cached(), map[], map[])
    case 1 => State(map[], Cached(), map[], map[0 := Waiting(Prompt(), None)])
    case 2 => State(map[], Cached(), map[0 := Meta([], 0)], map[0 := Waiting(Prompt(), Some(Matched(0, 0, true)))])
    case 3 => State(map[], Cached(), map[0 := Meta([7, 8], 1)], map[0 := Running(FirstRun())])
    case 4 => State(map[], Cached(), map[0 := Meta([7, 8], 1)], map[0 := Waiting(Prompt(), None)])
    case 5 => State(map[], Cached(), map[0 := Meta([7, 8], 1)],
                    map[0 := Waiting(Prompt(), Some(Matched(1, 0, false)))])
    case 6 => State(map[], Cached(), map[0 := Meta([7, 8, 9, 10], 2)], map[0 := Running(SecondRun(2))])
    case 7 => State(map[], Computed(), map[0 := Meta([7, 8, 9, 10], 2)], map[0 := Running(SecondRun(3))])
    case _ => State(map[Id() := [0, 0]], Computed(), map[0 := Meta([7, 8, 9, 10], 2)],
                    map[0 := Running(SecondRun(3))])
  }

  ghost predicate GoesAt(k: nat) {
    && Goes(Copier(), StateAt(k), EventAt(k))
    && Step(Copier(), StateAt(k), EventAt(k)) == StateAt(k + 1)
  }

  lemma CopierIs()
    ensures Copier().Size() == 2 && Copier().ranks == 1 && !Copier().mla && Copier().Cfg() == Config(2, 1, 0)
    ensures forall cells, t :: Copier().forward(cells, t) == [t]
  {
  }

  /** The block arithmetic of the run. */
  lemma Sizes()
    ensures Span(2, 0) == 0 && Span(2, 1) == 2 && Span(2, 2) == 4 && Span(1, 0) == 0 && Span(1, 1) == 1
    ensures WholeBlocks(2, 0) == 0 && WholeBlocks(2, 1) == 0 && WholeBlocks(2, 2) == 1 && WholeBlocks(2, 3) == 1
  {
  }

  lemma Ids()
    ensures BlockIds(Copier().hasher, Prompt()) == [Id()]
    ensures Span(2, 1) <= |Prompt()| && Chain(Copier().hasher, Prompt(), 1) == Id()
  {
    var h := Copier().hasher;
    Sizes();
    assert Prompt()[0..2] == [5, 6];
    assert Chain(h, Prompt(), 0) == Raw([]);
    var ids := BlockIds(h, Prompt());
    assert |ids| == 1 && IdAt(h, Prompt(), ids, 0);
  }

  lemma Replaced<V>(before: V, after: V)
    ensures map[0 := before][0 := after] == map[0 := after]
  {
  }

  lemma Arrives()
    ensures GoesAt(0)
  {
    hide Copier, Prompt, Id, Cached, Computed;
    CopierIs();
  }

  lemma FirstMatch()
    ensures MatchResult(Copier(), StateAt(1), Prompt(), 0, true) == Recorded(Meta([], 0), 0)
  {
    Ids();
    CopierIs();
    Sizes();
    hide Copier, Id, Cached, Computed, BlockIds, Span, WholeBlocks;
    assert Slice([Id()], 0, 1) == [Id()];
    assert PresentPrefix({}, [Id()]) == 0;
    assert LookupResult(Copier(), StateAt(1), Prompt(), 0, true) == Some(0);
  }

  lemma Matches()
    ensures GoesAt(1)
  {
    FirstMatch();
    CopierIs();
    Sizes();
    hide Copier, Id, Cached, Computed, MatchResult, Span, WholeBlocks;
    Replaced(Waiting(Prompt(), None), Waiting(Prompt(), Some(Matched(0, 0, true))));
  }

  lemma FirstDispatch()
    ensures Dispatched(Copier().Cfg(), Meta([], 0), 1, [7, 8], true) ==
            (Meta([7, 8], 1), DispatchMeta([], [], [], []))
  {
    CopierIs();
    Sizes();
    hide Copier, Id, Span, WholeBlocks;
    assert [] + [7, 8] == [7, 8];
    assert Slice([Id()], 0, 0) == [] && Slice([7, 8], 0, 0) == [];
  }

  lemma Starts()
    ensures GoesAt(2)
  {
    FirstDispatch();
    CopierIs();
    Sizes();
    hide Copier, Id, Cached, Computed, Dispatched, Span, WholeBlocks;
    assert Distinct([7, 8]);
    assert InMemory(Copier(), Cached(), Prompt(), [7, 8], 0);
    Replaced(Meta([], 0), Meta([7, 8], 1));
    Replaced(Waiting(Prompt(), Some(Matched(0, 0, true))), Running(FirstRun()));
  }

  lemma Preempted()
    ensures GoesAt(3)
  {
    CopierIs();
    hide Copier, Id, Cached, Computed, Prompt;
    Replaced(Running(FirstRun()), Waiting(Prompt(), None));
  }

  /** The engine's own cache has the only full block, so nothing is looked up and nothing recorded. */
  lemma MatchesAgain()
    ensures GoesAt(4)
  {
    Ids();
    CopierIs();
    Sizes();
    hide Copier, Id, Cached, Computed, BlockIds, Span, WholeBlocks;
    assert Slice([Id()], 1, 1) == [];
    assert MatchResult(Copier(), StateAt(4), Prompt(), 1, true).Skipped?;
    Replaced(Waiting(Prompt(), None), Waiting(Prompt(), Some(Matched(1, 0, false))));
  }

  lemma StaleDispatch()
    ensures Dispatched(Copier().Cfg(), Meta([7, 8], 1), 1, [9, 10], true) ==
            (Meta([7, 8, 9, 10], 2), DispatchMeta([], [], [Id()], [7]))
  {
    CopierIs();
    Sizes();
    hide Copier, Id, Span, WholeBlocks;
    assert [7, 8] + [9, 10] == [7, 8, 9, 10];
    assert Slice([Id()], 0, 0) == [] && Slice([9, 10], 0, 0) == [];
    assert Slice([Id()], 0, 1) == [Id()] && Slice([7, 8, 9, 10], 0, 1) == [7];
  }

  lemma HitsAreRight()
    ensures Copier().Size() == 2 && InMemory(Copier(), Cached(), Prompt(), [9, 10], 2)
  {
    var en, mem, blocks := Copier(), Cached(), [9, 10];
    Sizes();
    forall r: nat, p: nat | r < en.ranks && p < 2 ensures Right(en, mem, Prompt(), blocks, r, p) {
      assert IdealCell(en, Prompt(), p) == [Prompt()[p]];
      assert Read(en, mem, blocks, r, p) == Prompt()[p];
    }
  }

  lemma StartsAgain()
    ensures GoesAt(5)
  {
    StaleDispatch();
    HitsAreRight();
    CopierIs();
    Sizes();
    hide Copier, Id, Cached, Computed, Dispatched, Span, WholeBlocks, InMemory;
    assert Distinct([9, 10]);
    Replaced(Meta([7, 8], 1), Meta([7, 8, 9, 10], 2));
    Replaced(Waiting(Prompt(), Some(Matched(1, 0, false))), Running(SecondRun(2)));
  }

  lemma Computes()
    ensures GoesAt(6)
  {
    CopierIs();
    Sizes();
    hide Copier, Id, Cached, Span, WholeBlocks, ReadCells, WriteCell;
    assert AllLoaded(Copier(), SecondRun(2));
    Replaced(Running(SecondRun(2)), Running(SecondRun(3)));
  }

  lemma Dumps()
    ensures GoesAt(7)
  {
    CopierIs();
    assert Computed()(0, 7, 0) == 0 && Computed()(0, 7, 1) == 0;
    hide Copier, Id, Cached, Computed;
    assert ReadBlock(Copier(), Computed(), 0, 7) == [0, 0];
  }

  lemma EachGoes(k: nat)
    requires k < 8
    ensures GoesAt(k) && Copier().Size() > 0
  {
    CopierIs();
    hide GoesAt, Copier;
    match k
    case 0 => Arrives();
    case 1 => Matches();
    case 2 => Starts();
    case 3 => Preempted();
    case 4 => MatchesAgain();
    case 5 => StartsAgain();
    case 6 => Computes();
    case 7 => Dumps();
  }

  ghost function EventsFrom(k: nat): seq<Event>
    requires k <= 8
  {
    seq(8 - k, i requires 0 <= i < 8 - k => EventAt(k + i))
  }

  lemma {:induction false} RunFrom(k: nat)
    requires k <= 8
    ensures Reaches(Copier(), StateAt(k), EventsFrom(k), StateAt(8))
    decreases 8 - k
  {
    hide Enabled, Step, StateAt, EventAt, Copier, CanCompute;
    if k < 8 {
      EachGoes(k);
      RunFrom(k + 1);
      assert EventsFrom(k)[1..] == EventsFrom(k + 1);
    }
  }

  /** The entry should hold the first two tokens, 5 and 6. */
  lemma WrongEntry()
    ensures !StoreSound(Copier(), StateAt(8).store)
  {
    var en, ts := Copier(), Prompt();
    Ids();
    Sizes();
    assert IdealCell(en, ts, 0) == [5];
    hide Span, WholeBlocks, BlockIds, Chain, Ideal, IdealCell;
    assert HasKey(en, ts, 1, 0);
    var data := StateAt(8).store[Id()];
    assert data == [0, 0] && !HoldsShare(en, ts, 0, 1, 0, data[0]);
    assert !IsBlockKv(en, ts, 1, 0, data);
    assert !EntrySound(en, StateAt(8).store, ts, 1, 0);
  }

  lemma CopierIsSound()
    ensures Sound(Copier())
  {
  }

  lemma StartsEmpty()
    ensures Init(Copier(), StateAt(0)) && NoFailedLoad(EventsFrom(0))
  {
    CopierIs();
    hide Copier;
    forall i | 0 <= i < 8 ensures !EventsFrom(0)[i].FailLoad? {
      assert EventsFrom(0)[i] == EventAt(i);
    }
  }

  /** A sound engine and a run without a failed load in which a request starts with an old record: the store ends up
      unsound. */
  lemma StaleRecordBreaksStore()
    ensures Sound(Copier()) && Init(Copier(), StateAt(0)) && NoFailedLoad(EventsFrom(0))
    ensures Reaches(Copier(), StateAt(0), EventsFrom(0), StateAt(8)) && !StoreSound(Copier(), StateAt(8).store)
  {
    hide *;
    CopierIsSound();
    StartsEmpty();
    RunFrom(0);
    WrongEntry();
  }
}
