/** Slots of one shard: open addressing with linear probing and tombstones, as facts about slot sequences. */
module ProbeTable {
  import opened Residues

  datatype Slot<Key> = Empty | Occupied(key: Key) | Deleted

  /** The slot met after `e` probes from home position `h`. */
  function Probed<Key>(slots: seq<Slot<Key>>, h: nat, e: nat): Slot<Key>
    requires |slots| > 0
  {
    slots[(h + e) % |slots|]
  }

  /** How many probes from `h` lead to position `i`. */
  function Distance(h: nat, i: nat, cap: nat): nat
    requires i < cap
  {
    var b := h % cap;
    if b <= i then i - b else i + cap - b
  }

  lemma DistanceReaches(h: nat, i: nat, cap: nat)
    requires i < cap
    ensures Distance(h, i, cap) < cap && (h + Distance(h, i, cap)) % cap == i
  {
    var q, b := h / cap, h % cap;
    assert h == cap * q + b;
    var d := Distance(h, i, cap);
    if b <= i {
      QuotientUnique(h + d, cap, q, i);
    } else {
      assert h + d == cap * (q + 1) + i;
      QuotientUnique(h + d, cap, q + 1, i);
    }
  }

  lemma DistanceUnique(h: nat, e: nat, cap: nat)
    requires e < cap
    ensures Distance(h, (h + e) % cap, cap) == e
  {
    var i := (h + e) % cap;
    DistanceReaches(h, i, cap);
    var d := Distance(h, i, cap);
    if d < e {
      ModDistinct(h + d, h + e, cap);
    } else if e < d {
      ModDistinct(h + e, h + d, cap);
    }
  }

  function Keys<Key>(slots: seq<Slot<Key>>): set<Key> {
    set i | 0 <= i < |slots| && slots[i].Occupied? :: slots[i].key
  }

  /** No empty slot among the first `n` probes from `h`. */
  ghost predicate Filled<Key>(slots: seq<Slot<Key>>, h: nat, n: nat)
    requires |slots| > 0
  {
    forall e :: 0 <= e < n ==> !Probed(slots, h, e).Empty?
  }

  /** Every stored key can be reached from its home position without crossing an empty slot. */
  ghost predicate Findable<Key>(slots: seq<Slot<Key>>, home: Key -> nat) {
    forall i :: 0 <= i < |slots| && slots[i].Occupied? ==>
      Filled(slots, home(slots[i].key), Distance(home(slots[i].key), i, |slots|))
  }

  ghost predicate NoDuplicates<Key>(slots: seq<Slot<Key>>) {
    forall i, j :: 0 <= i < j < |slots| && slots[i].Occupied? && slots[j].Occupied? ==> slots[i].key != slots[j].key
  }

  /** The search for `key` has passed `n` slots without meeting it or an empty slot. */
  ghost predicate Passed<Key>(slots: seq<Slot<Key>>, h: nat, n: nat, key: Key)
    requires |slots| > 0
  {
    Filled(slots, h, n) && forall e :: 0 <= e < n ==> Probed(slots, h, e) != Occupied(key)
  }

  /** `after` is the table with the key in the first slot on its path that is not occupied. */
  ghost predicate PlacedFirst<Key>(slots: seq<Slot<Key>>, h: nat, key: Key, after: seq<Slot<Key>>)
    requires |slots| > 0
  {
    exists e :: 0 <= e < |slots| && FirstFree(slots, h, e) && after == slots[(h + e) % |slots| := Occupied(key)]
  }

  ghost predicate FirstFree<Key>(slots: seq<Slot<Key>>, h: nat, e: nat)
    requires |slots| > 0
  {
    !Probed(slots, h, e).Occupied? && AllOccupied(slots, h, e)
  }

  ghost predicate AllOccupied<Key>(slots: seq<Slot<Key>>, h: nat, n: nat)
    requires |slots| > 0
  {
    forall x :: 0 <= x < n ==> Probed(slots, h, x).Occupied?
  }

  /** A search that stops at an empty slot, or has gone all the way round, has proved the key absent. */
  lemma SearchEnds<Key>(slots: seq<Slot<Key>>, home: Key -> nat, n: nat, key: Key)
    requires |slots| > 0 && n <= |slots| && Findable(slots, home)
    requires Passed(slots, home(key), n, key)
    requires n == |slots| || Probed(slots, home(key), n).Empty?
    ensures key !in Keys(slots)
  {
    forall i | 0 <= i < |slots|
      ensures slots[i] != Occupied(key)
    {
      var d := Distance(home(key), i, |slots|);
      DistanceReaches(home(key), i, |slots|);
      assert Probed(slots, home(key), d) == slots[i];
    }
  }

  /** Filling a slot that is reachable from the key's home keeps every key findable. */
  lemma PlaceKeeps<Key>(slots: seq<Slot<Key>>, home: Key -> nat, e: nat, key: Key)
    requires e < |slots| && Findable(slots, home) && NoDuplicates(slots)
    requires key !in Keys(slots) && Filled(slots, home(key), e)
    requires !Probed(slots, home(key), e).Occupied?
    ensures var slots' := slots[(home(key) + e) % |slots| := Occupied(key)];
            Findable(slots', home) && NoDuplicates(slots') && Keys(slots') == Keys(slots) + {key}
  {
    var n, t := |slots|, (home(key) + e) % |slots|;
    var slots' := slots[t := Occupied(key)];
    DistanceUnique(home(key), e, n);
    forall i | 0 <= i < n && slots'[i].Occupied?
      ensures Filled(slots', home(slots'[i].key), Distance(home(slots'[i].key), i, n))
    {
      var h := home(slots'[i].key);
      assert i != t ==> Filled(slots, h, Distance(h, i, n));
      forall x | 0 <= x < Distance(h, i, n)
        ensures !Probed(slots', h, x).Empty?
      {
        assert !Probed(slots, h, x).Empty?;
      }
    }
    KeysAfterPlace(slots, t, key);
  }

  lemma KeysAfterPlace<Key>(slots: seq<Slot<Key>>, t: nat, key: Key)
    requires t < |slots| && !slots[t].Occupied? && NoDuplicates(slots) && key !in Keys(slots)
    ensures var slots' := slots[t := Occupied(key)];
            NoDuplicates(slots') && Keys(slots') == Keys(slots) + {key}
  {
    var slots' := slots[t := Occupied(key)];
    assert slots'[t] == Occupied(key);
    forall k | k in Keys(slots) + {key}
      ensures k in Keys(slots')
    {
      if k != key {
        var i :| 0 <= i < |slots| && slots[i] == Occupied(k);
        assert slots'[i] == Occupied(k);
      }
    }
  }

  /** Turning an occupied slot into a tombstone keeps the remaining keys findable. */
  lemma EraseKeeps<Key>(slots: seq<Slot<Key>>, home: Key -> nat, t: nat)
    requires t < |slots| && slots[t].Occupied? && Findable(slots, home) && NoDuplicates(slots)
    ensures var slots' := slots[t := Deleted];
            Findable(slots', home) && NoDuplicates(slots') && Keys(slots') == Keys(slots) - {slots[t].key}
  {
    var n, slots' := |slots|, slots[t := Deleted];
    forall i | 0 <= i < n && slots'[i].Occupied?
      ensures Filled(slots', home(slots'[i].key), Distance(home(slots'[i].key), i, n))
    {
      var h := home(slots[i].key);
      forall x | 0 <= x < Distance(h, i, n)
        ensures !Probed(slots', h, x).Empty?
      {
        assert !Probed(slots, h, x).Empty?;
      }
    }
    forall k | k in Keys(slots) - {slots[t].key}
      ensures k in Keys(slots')
    {
      var i :| 0 <= i < n && slots[i] == Occupied(k);
      assert slots'[i] == Occupied(k);
    }
  }

  // ---------- slot counts ----------

  function Marks<Key>(slot: Slot<Key>, tombstone: bool): nat {
    if (if tombstone then slot.Deleted? else slot.Occupied?) then 1 else 0
  }

  /** Number of tombstones, or of occupied slots. */
  function Count<Key>(slots: seq<Slot<Key>>, tombstone: bool): nat {
    if slots == [] then 0
    else Count(slots[..|slots| - 1], tombstone) + Marks(slots[|slots| - 1], tombstone)
  }

  lemma {:induction false} CountUpdate<Key>(slots: seq<Slot<Key>>, i: nat, x: Slot<Key>, tombstone: bool)
    requires i < |slots|
    ensures Count(slots[i := x], tombstone) ==
            Count(slots, tombstone) - Marks(slots[i], tombstone) + Marks(x, tombstone)
    decreases |slots|
  {
    var n := |slots| - 1;
    var upd := slots[i := x];
    if i < n {
      CountUpdate(slots[..n], i, x, tombstone);
      assert upd[..n] == slots[..n][i := x];
    } else {
      assert upd[..n] == slots[..n];
    }
  }

  lemma {:induction false} CountBound<Key>(slots: seq<Slot<Key>>)
    ensures Count(slots, false) + Count(slots, true) <= |slots|
    ensures (forall i :: 0 <= i < |slots| ==> !slots[i].Empty?) ==>
              Count(slots, false) + Count(slots, true) == |slots|
    decreases |slots|
  {
    if slots != [] {
      CountBound(slots[..|slots| - 1]);
    }
  }

  lemma {:induction false} CountEmpty<Key>(slots: seq<Slot<Key>>, tombstone: bool)
    requires forall i :: 0 <= i < |slots| ==> slots[i].Empty?
    ensures Count(slots, tombstone) == 0
    decreases |slots|
  {
    if slots != [] {
      CountEmpty(slots[..|slots| - 1], tombstone);
    }
  }

  /** A table that is not full cannot be passed all the way round. */
  lemma RoomStopsSearch<Key>(slots: seq<Slot<Key>>, h: nat)
    requires |slots| > 0 && Count(slots, false) + Count(slots, true) < |slots|
    ensures !Filled(slots, h, |slots|)
  {
    if Filled(slots, h, |slots|) {
      forall i | 0 <= i < |slots|
        ensures !slots[i].Empty?
      {
        DistanceReaches(h, i, |slots|);
        assert !Probed(slots, h, Distance(h, i, |slots|)).Empty?;
      }
      CountBound(slots);
    }
  }

  /** With unique keys the occupied count is the number of keys. */
  lemma {:induction false} CountIsCardinality<Key>(slots: seq<Slot<Key>>)
    requires NoDuplicates(slots)
    ensures |Keys(slots)| == Count(slots, false)
    decreases |slots|
  {
    if slots != [] {
      var n := |slots| - 1;
      var front := slots[..n];
      CountIsCardinality(front);
      KeysSnoc(slots);
      if slots[n].Occupied? {
        assert slots[n].key !in Keys(front);
      }
    }
  }

  lemma KeysSnoc<Key>(slots: seq<Slot<Key>>)
    requires slots != []
    ensures var n := |slots| - 1;
            Keys(slots) == Keys(slots[..n]) + if slots[n].Occupied? then {slots[n].key} else {}
  {
    var n := |slots| - 1;
    forall k | k in Keys(slots)
      ensures k in Keys(slots[..n]) || slots[n] == Occupied(k)
    {
      var i :| 0 <= i < |slots| && slots[i] == Occupied(k);
      assert i < n ==> slots[..n][i] == Occupied(k);
    }
    forall k | k in Keys(slots[..n])
      ensures k in Keys(slots)
    {
      var i :| 0 <= i < n && slots[..n][i] == Occupied(k);
      assert slots[i] == Occupied(k);
    }
    if slots[n].Occupied? {
      assert slots[n].key in Keys(slots);
    }
  }
}

/** The sharded set. Operations on one shard are atomic, as under the shard's lock. */
module HashSet {
  import opened Bits
  import opened Residues
  import opened ProbeTable

  class Shard<Key(==,!new)> {
    const home: Key -> nat
    var keys: seq<Slot<Key>>
    var used: nat
    var tombstones: nat

    ghost predicate Valid()
      reads this
    {
      && used == Count(keys, false) && tombstones == Count(keys, true)
      && Findable(keys, home) && NoDuplicates(keys)
      && (keys == [] || (ProperSize(|keys|) && 4 * (used + tombstones) <= 3 * |keys|))
    }

    /** Table sizes are powers of two and multiples of four, as 8 doubled any number of times is. */
    static ghost predicate ProperSize(n: nat) {
      PowerOfTwo(n) && n % 4 == 0
    }

    static lemma ProperSizeGrows(n: nat)
      ensures ProperSize(8)
      ensures ProperSize(n) ==> ProperSize(2 * n)
    {
      hide And;
      Pow2IsPowerOfTwo(3);
      assert Pow2(3) == 8;
      if ProperSize(n) {
        PowerOfTwoDouble(n);
      }
    }

    static lemma LoadStep(filled: nat, n: nat)
      requires n % 4 == 0 && 4 * filled < 3 * n
      ensures 4 * (filled + 1) <= 3 * n
    {
      var m := n / 4;
      assert n == 4 * m && filled < 3 * m;
    }

    constructor (home: Key -> nat)
      ensures Valid() && this.home == home && keys == []
    {
      this.home := home;
      keys, used, tombstones := [], 0, 0;
    }

    static function Probe(idx: nat, cap: nat): nat
      requires cap > 0
    {
      And(idx + 1, cap - 1)
    }

    /** One probe step moves to the slot at the next distance, and is back at the start only after a full round. */
    static lemma ProbeNext(h: nat, d: nat, cap: nat)
      requires PowerOfTwo(cap) && d < cap
      ensures Probe((h + d) % cap, cap) == (h + d + 1) % cap
      ensures (h + d + 1) % cap == h % cap <==> d + 1 == cap
    {
      hide And;
      AndMask((h + d) % cap + 1, cap);
      ModSucc(h + d, cap);
      if d + 1 == cap {
        ModWraps(h, cap);
      } else {
        ModDistinct(h, h + d + 1, cap);
      }
    }

    /** `while (!IsEmpty(keys[idx])) idx = Probe(idx, cap)`: ends because the table has room. */
    method FindEmpty(h: nat) returns (idx: nat, ghost d: nat)
      requires PowerOfTwo(|keys|) && Count(keys, false) + Count(keys, true) < |keys|
      ensures d < |keys| && idx == (h + d) % |keys| && keys[idx].Empty? && Filled(keys, h, d)
    {
      var cap := |keys|;
      AndMask(h, cap);
      RoomStopsSearch(keys, h);
      idx, d := And(h, cap - 1), 0;
      while !keys[idx].Empty?
        invariant d < cap && idx == (h + d) % cap && Filled(keys, h, d)
        decreases cap - d
      {
        assert keys[idx] == Probed(keys, h, d);
        ProbeNext(h, d, cap);
        idx := Probe(idx, cap);
        d := d + 1;
      }
    }

    /** Store a key known to be absent in the first free slot of its probe path. */
    method PlaceFresh(key: Key)
      requires PowerOfTwo(|keys|) && Findable(keys, home) && NoDuplicates(keys) && key !in Keys(keys)
      requires used == Count(keys, false) && Count(keys, true) == 0 && used < |keys|
      modifies `keys, `used
      ensures |keys| == old(|keys|) && Findable(keys, home) && NoDuplicates(keys)
      ensures Keys(keys) == old(Keys(keys)) + {key}
      ensures used == old(used) + 1 == Count(keys, false) && Count(keys, true) == 0
    {
      var idx, d := FindEmpty(home(key));
      PlaceKeeps(keys, home, d, key);
      CountUpdate(keys, idx, Occupied(key), false);
      CountUpdate(keys, idx, Occupied(key), true);
      keys := keys[idx := Occupied(key)];
      used := used + 1;
    }

    /** The copy loop of the rehash: into an empty, larger table, every occupied slot once. */
    method Refill(oldKeys: seq<Slot<Key>>)
      requires PowerOfTwo(|keys|) && |oldKeys| < |keys| && NoDuplicates(oldKeys)
      requires used == 0 && forall i :: 0 <= i < |keys| ==> keys[i].Empty?
      modifies `keys, `used
      ensures |keys| == old(|keys|) && Findable(keys, home) && NoDuplicates(keys)
      ensures Keys(keys) == Keys(oldKeys)
      ensures used == Count(keys, false) == Count(oldKeys, false) && Count(keys, true) == 0
    {
      CountEmpty(keys, false);
      CountEmpty(keys, true);
      for i := 0 to |oldKeys|
        invariant |keys| == old(|keys|) && Findable(keys, home) && NoDuplicates(keys)
        invariant Keys(keys) == Keys(oldKeys[..i])
        invariant used == Count(keys, false) == Count(oldKeys[..i], false) <= i && Count(keys, true) == 0
      {
        assert oldKeys[..i + 1][..i] == oldKeys[..i];
        KeysSnoc(oldKeys[..i + 1]);
        if oldKeys[i].Occupied? {
          assert oldKeys[i].key !in Keys(oldKeys[..i]);
          PlaceFresh(oldKeys[i].key);
        }
      }
      assert oldKeys[..|oldKeys|] == oldKeys;
    }

    /** Double the table (8 slots at first), dropping tombstones. */
    method Rehash()
      requires Valid()
      modifies this
      ensures Valid() && Keys(keys) == old(Keys(keys)) && used == old(used) && tombstones == 0
      ensures |keys| == if old(|keys|) == 0 then 8 else 2 * old(|keys|)
      ensures 4 * used < 3 * |keys|
    {
      var oldKeys := keys;
      var newCap := if oldKeys == [] then 8 else |oldKeys| * 2;
      CountBound(oldKeys);
      ProperSizeGrows(|oldKeys|);
      keys := seq(newCap, _ => Empty);
      used, tombstones := 0, 0;
      Refill(oldKeys);
    }

    /** The search loop of `Contains` and `Remove`: it ends at the key, at an empty slot or after a full round. */
    method Locate(key: Key) returns (found: bool, idx: nat)
      requires Valid()
      ensures found <==> key in Keys(keys)
      ensures found ==> idx < |keys| && keys[idx] == Occupied(key)
    {
      hide And, PowerOfTwo, Findable, NoDuplicates, Count;
      var cap := |keys|;
      if cap == 0 { return false, 0; }
      var h := home(key);
      AndMask(h, cap);
      idx := And(h, cap - 1);
      var start := idx;
      ghost var d := 0;
      while true
        invariant d < cap && idx == (h + d) % cap && Passed(keys, h, d, key)
        decreases cap - d
      {
        assert keys[idx] == Probed(keys, h, d);
        if keys[idx].Empty? { break; }
        if keys[idx].Occupied? && keys[idx].key == key { return true, idx; }
        ProbeNext(h, d, cap);
        idx := Probe(idx, cap);
        d := d + 1;
        if idx == start { break; }
      }
      SearchEnds(keys, home, d, key);
      return false, idx;
    }

    method Contains(key: Key) returns (found: bool)
      requires Valid()
      ensures found <==> key in Keys(keys)
    {
      var idx;
      found, idx := Locate(key);
    }

    method Remove(key: Key) returns (removed: bool)
      requires Valid()
      modifies this
      ensures Valid() && removed == (key in old(Keys(keys)))
      ensures Keys(keys) == old(Keys(keys)) - {key}
      ensures !removed ==> keys == old(keys)
      ensures removed ==> exists i :: 0 <= i < |old(keys)| && old(keys)[i] == Occupied(key) &&
                                      keys == old(keys)[i := Deleted]
    {
      var idx;
      removed, idx := Locate(key);
      if removed {
        EraseKeeps(keys, home, idx);
        CountUpdate(keys, idx, Deleted, false);
        CountUpdate(keys, idx, Deleted, true);
        keys := keys[idx := Deleted];
        used := used - 1;
        tombstones := tombstones + 1;
      }
    }

    /** The search loop of `Insert`, which also remembers the first tombstone it passes. The load guard leaves an
        empty slot, so the loop always returns: the code after it is dead. */
    method LocateFree(key: Key) returns (present: bool, target: nat, ghost e: nat)
      requires Valid() && keys != [] && 4 * (used + tombstones) < 3 * |keys|
      ensures present <==> key in Keys(keys)
      ensures !present ==> e < |keys| && target == (home(key) + e) % |keys|
      ensures !present ==> Filled(keys, home(key), e) && FirstFree(keys, home(key), e)
    {
      hide And, PowerOfTwo, Findable, NoDuplicates, Count;
      var cap := |keys|;
      var h := home(key);
      AndMask(h, cap);
      RoomStopsSearch(keys, h);
      var idx := And(h, cap - 1);
      var start := idx;
      var firstDeleted := cap;
      ghost var d := 0;
      e := 0;
      while true
        invariant d < cap && idx == (h + d) % cap && Passed(keys, h, d, key)
        invariant if firstDeleted == cap then AllOccupied(keys, h, d)
                  else e < d && firstDeleted == (h + e) % cap && keys[firstDeleted].Deleted? && AllOccupied(keys, h, e)
        decreases cap - d
      {
        assert keys[idx] == Probed(keys, h, d);
        if keys[idx].Occupied? && keys[idx].key == key {
          return true, idx, d;
        }
        if keys[idx].Deleted? && firstDeleted == cap {
          firstDeleted := idx;
          e := d;
        }
        if keys[idx].Empty? {
          SearchEnds(keys, home, d, key);
          if firstDeleted != cap { return false, firstDeleted, e; }
          return false, idx, d;
        }
        ProbeNext(h, d, cap);
        idx := Probe(idx, cap);
        d := d + 1;
        if idx == start { break; }
      }
      assert false;
    }

    method Insert(key: Key) returns (added: bool)
      requires Valid()
      modifies this
      ensures Valid() && added == (key !in old(Keys(keys)))
      ensures Keys(keys) == old(Keys(keys)) + {key}
      ensures var full := 4 * (old(used) + old(tombstones)) >= 3 * |old(keys)|;
              && |keys| == (if !full then |old(keys)| else if old(keys) == [] then 8 else 2 * |old(keys)|)
              && (full ==> tombstones == 0)
              && (!full && !added ==> keys == old(keys))
              && (!full && added ==> PlacedFirst(old(keys), home(key), key, keys))
    {
      // An unallocated table passes this test (0 >= 0), so the source's later test for zero slots is never true.
      if (used + tombstones) * 4 >= |keys| * 3 {
        Rehash();
      }
      var present, target, e := LocateFree(key);
      if !present {
        PlaceAt(key, target, e);
      }
      return !present;
    }

    /** The write of `Insert`: a free slot on the key's path becomes occupied. */
    method PlaceAt(key: Key, target: nat, ghost e: nat)
      requires Valid() && keys != [] && 4 * (used + tombstones) < 3 * |keys|
      requires key !in Keys(keys) && e < |keys| && target == (home(key) + e) % |keys|
      requires Filled(keys, home(key), e) && FirstFree(keys, home(key), e)
      modifies this
      ensures Valid() && Keys(keys) == old(Keys(keys)) + {key}
      ensures |keys| == |old(keys)| && PlacedFirst(old(keys), home(key), key, keys) && tombstones <= old(tombstones)
    {
      hide And, PowerOfTwo, Findable, NoDuplicates, Keys, Filled, Count, AllOccupied;
      LoadStep(used + tombstones, |keys|);
      PlaceKeeps(keys, home, e, key);
      CountUpdate(keys, target, Occupied(key), false);
      CountUpdate(keys, target, Occupied(key), true);
      if keys[target].Deleted? { tombstones := tombstones - 1; }
      keys := keys[target := Occupied(key)];
      used := used + 1;
    }
  }

  class HashSet<Key(==,!new)> {
    const hash: Key -> nat
    const shardBits: nat
    const shards: seq<Shard<Key>>
    var size: nat
    ghost var Contents: set<Key>

    function ShardIndex(key: Key): nat {
      And(hash(key), Pow2(shardBits) - 1)
    }

    lemma ShardIndexInRange(key: Key)
      ensures ShardIndex(key) == hash(key) % Pow2(shardBits) < Pow2(shardBits)
    {
      Pow2IsPowerOfTwo(shardBits);
      AndMask(hash(key), Pow2(shardBits));
    }

    /** Each shard is a valid table that probes from the hash bits above the shard index; the abstract set is the
        union of the shards, every key lying in the shard its hash selects; `size` counts it. */
    ghost predicate Valid()
      reads this, shards
    {
      && |shards| == Pow2(shardBits)
      && (forall i, j :: 0 <= i < j < |shards| ==> shards[i] != shards[j])
      && (forall i :: 0 <= i < |shards| ==> Fits(shards[i], Contents, i))
      && size == |Contents|
    }

    ghost predicate Fits(s: Shard<Key>, members: set<Key>, i: nat)
      reads s
    {
      s.Valid() && s.home == HighBits(hash, shardBits) && Holds(Keys(s.keys), members, i)
    }

    /** Shard `i` stores exactly the members whose hash selects it. */
    ghost predicate Holds(stored: set<Key>, members: set<Key>, i: nat) {
      forall k :: k in stored <==> k in members && hash(k) % Pow2(shardBits) == i
    }

    /** A shard that the key does not select fits the set with or without it. */
    lemma OtherFits(s: Shard<Key>, members: set<Key>, i: nat, key: Key)
      requires Fits(s, members, i) && hash(key) % Pow2(shardBits) != i
      ensures Fits(s, members + {key}, i) && Fits(s, members - {key}, i)
    {
      hide Keys, Pow2, HighBits, Shard<Key>.Valid;
    }

    lemma With(members: set<Key>, key: Key)
      ensures |members + {key}| == |members| + if key in members then 0 else 1
    {
      assert key in members ==> members + {key} == members;
    }

    lemma Without(members: set<Key>, key: Key)
      ensures |members - {key}| == |members| - if key in members then 1 else 0
    {
      assert key !in members ==> members - {key} == members;
    }

    /** `h >> ShardBits`, the part of the hash the probing starts from. */
    static function HighBits(hash: Key -> nat, bits: nat): Key -> nat {
      k => ShiftRight(hash(k), bits)
    }

    /** The probing of a key starts from its hash without the bits that select the shard. */
    static lemma ProbesFrom(hash: Key -> nat, bits: nat, key: Key)
      ensures HighBits(hash, bits)(key) == hash(key) / Pow2(bits)
    {
      ShiftIsDivision(hash(key), bits);
    }

    constructor (hash: Key -> nat, shardBits: nat)
      ensures Valid() && Contents == {} && this.hash == hash && this.shardBits == shardBits
    {
      var ss := MakeShards(HighBits(hash, shardBits), Pow2(shardBits));
      this.hash, this.shardBits, this.shards, size, Contents := hash, shardBits, ss, 0, {};
    }

    static method MakeShards(home: Key -> nat, n: nat) returns (ss: seq<Shard<Key>>)
      ensures |ss| == n
      ensures forall i, j :: 0 <= i < j < |ss| ==> ss[i] != ss[j]
      ensures forall i :: 0 <= i < |ss| ==> ss[i].Valid() && ss[i].keys == [] && ss[i].home == home
    {
      ss := [];
      while |ss| < n
        invariant |ss| <= n
        invariant forall i, j :: 0 <= i < j < |ss| ==> ss[i] != ss[j]
        invariant forall i :: 0 <= i < |ss| ==> ss[i].Valid() && ss[i].keys == [] && ss[i].home == home
      {
        var s := new Shard<Key>(home);
        ss := ss + [s];
      }
    }

    method InsertIn(s: Shard<Key>, ghost members: set<Key>, ghost i: nat, key: Key) returns (added: bool)
      requires Fits(s, members, i) && hash(key) % Pow2(shardBits) == i
      modifies s
      ensures Fits(s, members + {key}, i) && added == (key !in members)
    {
      hide Keys, Pow2, HighBits, Shard<Key>.Valid;
      added := s.Insert(key);
    }

    method RemoveFrom(s: Shard<Key>, ghost members: set<Key>, ghost i: nat, key: Key) returns (removed: bool)
      requires Fits(s, members, i) && hash(key) % Pow2(shardBits) == i
      modifies s
      ensures Fits(s, members - {key}, i) && removed == (key in members)
    {
      hide Keys, Pow2, HighBits, Shard<Key>.Valid;
      removed := s.Remove(key);
    }

    lemma ValidParts()
      ensures Valid() <==> && |shards| == Pow2(shardBits) && size == |Contents|
                           && (forall i, j :: 0 <= i < j < |shards| ==> shards[i] != shards[j])
                           && (forall i :: 0 <= i < |shards| ==> Fits(shards[i], Contents, i))
    {
      hide Fits, Pow2;
    }

    method Insert(key: Key)
      requires Valid()
      modifies this, shards
      ensures Valid() && Contents == old(Contents) + {key}
    {
      hide *;
      ValidParts();
      ShardIndexInRange(key);
      With(Contents, key);
      var idx := ShardIndex(key);
      forall i | 0 <= i < |shards| && i != idx ensures Fits(shards[i], Contents + {key}, i) {
        OtherFits(shards[i], Contents, i, key);
      }
      var added := InsertIn(shards[idx], Contents, idx, key);
      if added { size := size + 1; }
      Contents := Contents + {key};
      ValidParts();
    }

    method Contains(key: Key) returns (found: bool)
      requires Valid()
      ensures found <==> key in Contents
    {
      ShardIndexInRange(key);
      var idx := ShardIndex(key);
      assert Fits(shards[idx], Contents, idx);
      found := shards[idx].Contains(key);
    }

    method Remove(key: Key)
      requires Valid()
      modifies this, shards
      ensures Valid() && Contents == old(Contents) - {key}
    {
      hide *;
      ValidParts();
      ShardIndexInRange(key);
      Without(Contents, key);
      var idx := ShardIndex(key);
      forall i | 0 <= i < |shards| && i != idx ensures Fits(shards[i], Contents - {key}, i) {
        OtherFits(shards[i], Contents, i, key);
      }
      var removed := RemoveFrom(shards[idx], Contents, idx, key);
      if removed { size := size - 1; }
      Contents := Contents - {key};
      ValidParts();
    }
  }
}
