/** Whole runs of an engine with the prefix cache: requests are matched, scheduled in steps, loaded, computed token by
    token, dumped, preempted and finished in any order, on all tensor-parallel ranks. The memory of the device is
    modelled cell by cell, and computing a token reads the cells that are actually there. */
module PrefixCache {
  import opened Residues
  import opened ChainedHash
  import opened Dispatch

  /** One rank's share of one token's keys and values; a cell holds the shares of all ranks. */
  type Part = int
  type Cell = seq<Part>

  /** `forward` gives a token's cell from the cells of all earlier tokens; `rehash` is the id a rank other than 0
      uses; with `mla` every rank has the same share, rank 0 dumps for all and all load the same id. */
  datatype Engine = Engine(
    hasher: Hasher, rehash: (nat, BlockId) -> BlockId, ranks: nat, mla: bool,
    forward: (seq<Cell>, Token) -> Cell, threshold: nat)
  {
    function Size(): nat { hasher.size }
    function Cfg(): Config { Config(hasher.size, 1, threshold) }
  }

  // ---------- what the cells should be ----------

  /** The cells of the first p tokens when everything is computed from scratch. */
  ghost function Ideal(en: Engine, ts: seq<Token>, p: nat): (cells: seq<Cell>)
    requires p <= |ts|
    ensures |cells| == p
  {
    if p == 0 then [] else Ideal(en, ts, p - 1) + [en.forward(Ideal(en, ts, p - 1), ts[p - 1])]
  }

  ghost function IdealCell(en: Engine, ts: seq<Token>, p: nat): Cell
    requires p < |ts|
  {
    en.forward(Ideal(en, ts, p), ts[p])
  }

  lemma {:induction false} IdealOfPrefix(en: Engine, ts: seq<Token>, ts': seq<Token>, p: nat)
    requires SamePrefix(ts, ts', p)
    ensures Ideal(en, ts, p) == Ideal(en, ts', p)
  {
    if p > 0 {
      assert ts[..p - 1] == ts[..p][..p - 1] && ts'[..p - 1] == ts'[..p][..p - 1];
      IdealOfPrefix(en, ts, ts', p - 1);
      assert ts[p - 1] == ts[..p][p - 1] && ts'[p - 1] == ts'[..p][p - 1];
    }
  }

  lemma IdealCellOfPrefix(en: Engine, ts: seq<Token>, ts': seq<Token>, p: nat)
    requires SamePrefix(ts, ts', p + 1)
    ensures IdealCell(en, ts, p) == IdealCell(en, ts', p)
  {
    assert ts[..p] == ts[..p + 1][..p] && ts'[..p] == ts'[..p + 1][..p];
    IdealOfPrefix(en, ts, ts', p);
    assert ts[p] == ts[..p + 1][p] && ts'[p] == ts'[..p + 1][p];
  }

  /** Rank r's share of block k - 1: what a store entry for the first k blocks has to hold. */
  ghost predicate IsBlockKv(en: Engine, ts: seq<Token>, k: nat, r: nat, data: seq<Part>)
    requires k > 0 && Span(en.Size(), k) <= |ts|
  {
    |data| == en.Size() &&
    forall o :: 0 <= o < en.Size() ==> HoldsShare(en, ts, r, k, o, data[o])
  }

  ghost predicate HoldsShare(en: Engine, ts: seq<Token>, r: nat, k: nat, o: nat, x: Part)
    requires k > 0 && o < en.Size() && Span(en.Size(), k) <= |ts|
  {
    SpanStep(en.Size(), k - 1);
    IsShare(en, ts, r, Span(en.Size(), k - 1) + o, x)
  }

  ghost predicate IsShare(en: Engine, ts: seq<Token>, r: nat, p: nat, x: Part)
    requires p < |ts|
  {
    r < |IdealCell(en, ts, p)| && x == IdealCell(en, ts, p)[r]
  }

  lemma BlockKvOfPrefix(en: Engine, ts: seq<Token>, ts': seq<Token>, k: nat, r: nat, data: seq<Part>)
    requires k > 0 && SamePrefix(ts, ts', Span(en.Size(), k)) && IsBlockKv(en, ts, k, r, data)
    ensures IsBlockKv(en, ts', k, r, data)
  {
    hide Span;
    SpanStep(en.Size(), k - 1);
    var n := Span(en.Size(), k);
    forall o | 0 <= o < en.Size()
      ensures HoldsShare(en, ts', r, k, o, data[o])
    {
      assert HoldsShare(en, ts, r, k, o, data[o]);
      var p := Span(en.Size(), k - 1) + o;
      assert ts[..p + 1] == ts[..n][..p + 1] && ts'[..p + 1] == ts'[..n][..p + 1];
      IdealCellOfPrefix(en, ts, ts', p);
    }
  }

  // ---------- store keys ----------

  function KeyOf(en: Engine, r: nat, id: BlockId): BlockId {
    if r == 0 || en.mla then id else en.rehash(r, id)
  }

  /** The assumptions: no digest collides, the model yields a share per rank, and with mla all shares are equal. */
  ghost predicate Sound(en: Engine) {
    && CollisionFree(en.hasher) && en.ranks > 0
    && (forall cells, t :: |en.forward(cells, t)| == en.ranks)
    && (en.mla ==> forall cells, t :: AllEqual(en.forward(cells, t)))
    && (forall r, id, r', id' :: en.rehash(r, id) == en.rehash(r', id') ==> r == r' && id == id')
    && (forall r, id, p, b :: en.rehash(r, id) != en.hasher.digest(p, b))
  }

  /** The assumptions can be met. */
  lemma SoundEngineExists(size: nat, ranks: nat, mla: bool)
    requires size > 0 && ranks > 0
    ensures exists en: Engine :: Sound(en) && en.Size() == size && en.ranks == ranks && en.mla == mla
  {
    var hasher := Hasher(size, (p: BlockId, b: seq<Token>) => Digest(p, b), Raw([]));
    var en := Engine(hasher, (r: nat, id: BlockId) => Rehashed(r, id), ranks, mla,
                     (cells: seq<Cell>, t: Token) => seq(ranks, _ => t), 0);
    assert Sound(en);
  }

  ghost predicate AllEqual(cell: Cell) {
    forall r :: 0 <= r < |cell| ==> cell[r] == cell[0]
  }

  lemma ForwardShape(en: Engine, cells: seq<Cell>, t: Token)
    requires Sound(en)
    ensures |en.forward(cells, t)| == en.ranks && (en.mla ==> AllEqual(en.forward(cells, t)))
  {
  }

  lemma IdealCellShape(en: Engine, ts: seq<Token>, p: nat)
    requires Sound(en) && p < |ts|
    ensures |IdealCell(en, ts, p)| == en.ranks && (en.mla ==> AllEqual(IdealCell(en, ts, p)))
  {
    ForwardShape(en, Ideal(en, ts, p), ts[p]);
  }

  /** Equal keys of block ids belong to the same token prefix and, without mla, to the same rank. */
  lemma KeyInjective(en: Engine, r: nat, ts: seq<Token>, k: nat, r': nat, ts': seq<Token>, k': nat)
    requires Sound(en) && k > 0 && k' > 0 && Span(en.Size(), k) <= |ts| && Span(en.Size(), k') <= |ts'|
    requires KeyOf(en, r, Chain(en.hasher, ts, k)) == KeyOf(en, r', Chain(en.hasher, ts', k'))
    ensures k == k' && SamePrefix(ts, ts', Span(en.Size(), k)) && (en.mla || r == r')
  {
    hide Span;
    ChainIsDigest(en.hasher, ts, k);
    ChainIsDigest(en.hasher, ts', k');
    assert Chain(en.hasher, ts, k) == Chain(en.hasher, ts', k');
    ChainInjective(en.hasher, ts, k, ts', k');
  }

  lemma ChainIsDigest(h: Hasher, ts: seq<Token>, k: nat)
    requires k > 0 && Span(h.size, k) <= |ts|
    ensures exists p, b :: Chain(h, ts, k) == h.digest(p, b)
  {
    SpanMonotone(h.size, k - 1, k);
    var p, b := Chain(h, ts, k - 1), ts[Span(h.size, k - 1)..Span(h.size, k)];
    assert Chain(h, ts, k) == h.digest(p, b);
  }

  lemma SharesAgree(en: Engine, ts: seq<Token>, k: nat, r: nat, r': nat, data: seq<Part>)
    requires Sound(en) && en.mla && r < en.ranks && r' < en.ranks && k > 0 && Span(en.Size(), k) <= |ts|
    requires IsBlockKv(en, ts, k, r, data)
    ensures IsBlockKv(en, ts, k, r', data)
  {
    hide Span;
    SpanStep(en.Size(), k - 1);
    forall o | 0 <= o < en.Size()
      ensures HoldsShare(en, ts, r', k, o, data[o])
    {
      assert HoldsShare(en, ts, r, k, o, data[o]);
      var p := Span(en.Size(), k - 1) + o;
      IdealCellShape(en, ts, p);
    }
  }

  type Store = map<BlockId, seq<Part>>

  /** Every entry under the key of a token prefix holds that prefix's last block. */
  ghost predicate StoreSound(en: Engine, store: Store) {
    forall ts, k: nat, r: nat :: HasKey(en, ts, k, r) ==> EntrySound(en, store, ts, k, r)
  }

  /** k full blocks of `ts`, on rank r, have a store key. */
  ghost predicate HasKey(en: Engine, ts: seq<Token>, k: nat, r: nat) {
    0 < k && r < en.ranks && Span(en.Size(), k) <= |ts|
  }

  ghost predicate EntrySound(en: Engine, store: Store, ts: seq<Token>, k: nat, r: nat)
    requires k > 0 && Span(en.Size(), k) <= |ts|
  {
    var key := KeyOf(en, r, Chain(en.hasher, ts, k));
    key in store ==> IsBlockKv(en, ts, k, r, store[key])
  }

  /** Storing a right block under its key keeps the whole store right. */
  lemma StoreKeeps(en: Engine, store: Store, ts: seq<Token>, k: nat, r: nat, data: seq<Part>)
    requires Sound(en) && StoreSound(en, store) && k > 0 && r < en.ranks && Span(en.Size(), k) <= |ts|
    requires IsBlockKv(en, ts, k, r, data)
    ensures StoreSound(en, store[KeyOf(en, r, Chain(en.hasher, ts, k)) := data])
  {
    hide Sound, Span, IsBlockKv, KeyOf;
    var key := KeyOf(en, r, Chain(en.hasher, ts, k));
    forall ts', k': nat, r': nat | HasKey(en, ts', k', r')
      ensures EntrySound(en, store[key := data], ts', k', r')
    {
      assert EntrySound(en, store, ts', k', r');
      if KeyOf(en, r', Chain(en.hasher, ts', k')) == key {
        KeyInjective(en, r, ts, k, r', ts', k');
        BlockKvOfPrefix(en, ts, ts', k, r, data);
        if r != r' {
          SharesAgree(en, ts', k', r, r', data);
        }
      }
    }
  }

  /** Exactly the right blocks may be stored: an entry that differs from recomputation makes the store unsound. */
  lemma StoreKeptIffBlockRight(en: Engine, store: Store, ts: seq<Token>, k: nat, r: nat, data: seq<Part>)
    requires Sound(en) && StoreSound(en, store) && HasKey(en, ts, k, r)
    ensures StoreSound(en, store[KeyOf(en, r, Chain(en.hasher, ts, k)) := data]) <==> IsBlockKv(en, ts, k, r, data)
  {
    hide Sound, Span, IsBlockKv, KeyOf, Chain;
    var store' := store[KeyOf(en, r, Chain(en.hasher, ts, k)) := data];
    if StoreSound(en, store') {
      assert EntrySound(en, store', ts, k, r);
    }
    if IsBlockKv(en, ts, k, r, data) {
      StoreKeeps(en, store, ts, k, r, data);
    }
  }
}
