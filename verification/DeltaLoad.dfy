/** Loading only what changed between two retrievals: the physical slots that already hold a wanted block keep it, the
    others are given the rest of the wanted blocks in some order. */
module DeltaLoad {
  import opened Sequences

  type Slot = nat
  type Hash = nat

  ghost predicate Injective(m: map<Slot, Hash>) {
    forall a, b :: a in m && b in m && a != b ==> m[a] != m[b]
  }

  /** The hashes a map of slots holds. */
  function Held(m: map<Slot, Hash>): set<Hash> { m.Values }

  predicate Wanted(before: map<Slot, Hash>, hashes: set<Hash>, k: Slot) {
    k in before && before[k] in hashes
  }

  /** What a delta is: after it, `slots` hold exactly `hashes`, one each; a slot is loaded exactly when it did not
      hold a wanted hash before, and every other slot keeps what it held. */
  ghost predicate DeltaOf(before: map<Slot, Hash>, slots: set<Slot>, hashes: set<Hash>,
                          after: map<Slot, Hash>, diff: map<Slot, Hash>) {
    && after.Keys == slots && Held(after) == hashes && Injective(after)
    && (forall k :: k in diff <==> k in slots && !Wanted(before, hashes, k))
    && (forall k :: k in diff ==> after[k] == diff[k])
    && (forall k :: k in slots && k !in diff ==> after[k] == before[k])
  }

  /** Over the same slots, the hashes loaded are exactly the wanted ones that were not resident. */
  lemma LoadsOnlyMissing(before: map<Slot, Hash>, hashes: set<Hash>, after: map<Slot, Hash>, diff: map<Slot, Hash>)
    requires Injective(before) && DeltaOf(before, before.Keys, hashes, after, diff)
    ensures Held(diff) == hashes - Held(before) && |diff| == |hashes - Held(before)|
  {
    forall h | h in Held(diff) ensures h in hashes - Held(before) {
      var k :| k in diff && diff[k] == h;
      if h in Held(before) {
        var j :| j in before && before[j] == h;
        assert false;
      }
    }
    forall h | h in hashes - Held(before) ensures h in Held(diff) {
      var k :| k in after && after[k] == h;
      assert k in diff;
    }
    InjectiveCount(diff);
  }

  lemma {:induction false} InjectiveCount(m: map<Slot, Hash>)
    requires Injective(m)
    ensures |m.Keys| == |Held(m)|
    decreases |m|
  {
    if m != map[] {
      var k :| k in m;
      var rest := m - {k};
      DropKey(m, k);
      hide *;
      InjectiveCount(rest);
      assert |rest.Keys + {k}| == |rest.Keys| + 1;
      assert |Held(rest) + {m[k]}| == |Held(rest)| + 1;
    }
  }

  lemma DropKey(m: map<Slot, Hash>, k: Slot)
    requires Injective(m) && k in m
    ensures var rest := m - {k};
            && Injective(rest) && k !in rest && m[k] !in Held(rest) && |rest| < |m|
            && m.Keys == rest.Keys + {k} && Held(m) == Held(rest) + {m[k]}
  {
    var rest := m - {k};
    assert rest[k := m[k]] == m;
    AddHeld(rest, k, m[k]);
  }

  lemma AddHeld(m: map<Slot, Hash>, k: Slot, h: Hash)
    requires k !in m
    ensures m[k := h].Keys == m.Keys + {k} && Held(m[k := h]) == Held(m) + {h}
  {
    var m' := m[k := h];
    forall v | v in Held(m) ensures v in Held(m') {
      var j :| j in m && m[j] == v;
      assert m'[j] == v;
    }
    assert m'[k] == h;
  }

  /** A fresh slot and a fresh hash extend an injective map. */
  lemma AddPair(m: map<Slot, Hash>, k: Slot, h: Hash)
    requires Injective(m) && k !in m && h !in Held(m)
    ensures Injective(m[k := h]) && m[k := h].Keys == m.Keys + {k} && Held(m[k := h]) == Held(m) + {h}
  {
    AddHeld(m, k, h);
    assert forall j :: j in m ==> m[j] in Held(m);
    hide Held;
  }

  lemma NotHeld(before: map<Slot, Hash>, kept: map<Slot, Hash>, k: Slot)
    requires Injective(before) && k in before && k !in kept
    requires forall j :: j in kept ==> j in before && kept[j] == before[j]
    ensures before[k] !in Held(kept)
  {
  }

  /** Part of a set has been used and the rest is left. */
  ghost predicate LeftOver(all: set<nat>, used: set<nat>, left: set<nat>) {
    (forall x :: x in left <==> x in all && x !in used) && (forall x :: x in used ==> x in all)
  }

  lemma TakeOut(all: set<nat>, used: set<nat>, left: set<nat>, x: nat)
    requires LeftOver(all, used, left) && x in left
    ensures LeftOver(all, used + {x}, left - {x}) && |left - {x}| == |left| - 1 && x !in used
  {
  }

  /** The slots that keep a wanted hash so far, with the slots and hashes still to be paired. */
  ghost predicate Matching(before: map<Slot, Hash>, seen: set<Slot>, slots: set<Slot>, hashes: set<Hash>,
                           kept: map<Slot, Hash>, restSlots: set<Slot>, restHashes: set<Hash>) {
    && Injective(kept) && |restSlots| == |restHashes|
    && LeftOver(slots, kept.Keys, restSlots) && LeftOver(hashes, Held(kept), restHashes)
    && Matched(before, seen, slots, hashes, kept)
  }

  ghost predicate Matched(before: map<Slot, Hash>, seen: set<Slot>, slots: set<Slot>, hashes: set<Hash>,
                          kept: map<Slot, Hash>) {
    && (forall k :: k in kept <==> k in seen && k in slots && Wanted(before, hashes, k))
    && (forall k :: k in kept ==> kept[k] == before[k])
  }

  lemma MatchStep(before: map<Slot, Hash>, seen: set<Slot>, slots: set<Slot>, hashes: set<Hash>,
                  kept: map<Slot, Hash>, restSlots: set<Slot>, restHashes: set<Hash>, k: Slot)
    requires Injective(before) && k in before && k !in seen && k in slots && before[k] in hashes
    requires Matching(before, seen, slots, hashes, kept, restSlots, restHashes)
    ensures k in restSlots && before[k] in restHashes
    ensures Matching(before, seen + {k}, slots, hashes, kept[k := before[k]], restSlots - {k}, restHashes - {before[k]})
  {
    hide Injective, Held, LeftOver, Matched;
    MatchedPair(before, seen, slots, hashes, kept, restSlots, restHashes, k);
    AddPair(kept, k, before[k]);
    TakeOut(slots, kept.Keys, restSlots, k);
    TakeOut(hashes, Held(kept), restHashes, before[k]);
    MatchedStep(before, seen, slots, hashes, kept, k);
  }

  lemma MatchedStep(before: map<Slot, Hash>, seen: set<Slot>, slots: set<Slot>, hashes: set<Hash>,
                    kept: map<Slot, Hash>, k: Slot)
    requires k in slots && Wanted(before, hashes, k) && Matched(before, seen, slots, hashes, kept)
    ensures Matched(before, seen + {k}, slots, hashes, kept[k := before[k]])
  {
  }

  lemma MatchedPair(before: map<Slot, Hash>, seen: set<Slot>, slots: set<Slot>, hashes: set<Hash>,
                    kept: map<Slot, Hash>, restSlots: set<Slot>, restHashes: set<Hash>, k: Slot)
    requires Injective(before) && k in before && k !in seen && k in slots && before[k] in hashes
    requires Matching(before, seen, slots, hashes, kept, restSlots, restHashes)
    ensures Injective(kept) && k !in kept && before[k] !in Held(kept) && k in restSlots && before[k] in restHashes
  {
    hide Injective, Held;
    NotHeld(before, kept, k);
  }

  lemma MatchStarts(before: map<Slot, Hash>, target: map<Slot, Hash>)
    requires Injective(target)
    ensures Matching(before, {}, target.Keys, Held(target), map[], target.Keys, Held(target))
  {
    InjectiveCount(target);
  }

  lemma MatchSkip(before: map<Slot, Hash>, seen: set<Slot>, slots: set<Slot>, hashes: set<Hash>,
                  kept: map<Slot, Hash>, restSlots: set<Slot>, restHashes: set<Hash>, k: Slot)
    requires !(k in slots && Wanted(before, hashes, k))
    requires Matching(before, seen, slots, hashes, kept, restSlots, restHashes)
    ensures Matching(before, seen + {k}, slots, hashes, kept, restSlots, restHashes)
  {
    hide Injective, Held;
  }

  /** The rest is being paired in some order: some slots and hashes are done, the others are left. */
  ghost predicate Pairing(slots: set<Slot>, hashes: set<Hash>, kept: map<Slot, Hash>,
                          after: map<Slot, Hash>, diff: map<Slot, Hash>, left: set<Slot>, leftHashes: set<Hash>) {
    && Injective(after) && |left| == |leftHashes|
    && LeftOver(slots, after.Keys, left) && LeftOver(hashes, Held(after), leftHashes)
    && Merged(kept, after, diff)
  }

  ghost predicate Merged(kept: map<Slot, Hash>, after: map<Slot, Hash>, diff: map<Slot, Hash>) {
    && (forall k :: k in after <==> k in kept || k in diff)
    && (forall k :: k in diff ==> k !in kept && after[k] == diff[k])
    && (forall k :: k in kept ==> after[k] == kept[k])
  }

  lemma MergedStep(kept: map<Slot, Hash>, after: map<Slot, Hash>, diff: map<Slot, Hash>, k: Slot, h: Hash)
    requires Merged(kept, after, diff) && k !in after
    ensures Merged(kept, after[k := h], diff[k := h])
  {
  }

  lemma PairStep(slots: set<Slot>, hashes: set<Hash>, kept: map<Slot, Hash>, after: map<Slot, Hash>,
                 diff: map<Slot, Hash>, left: set<Slot>, leftHashes: set<Hash>, k: Slot, h: Hash)
    requires Pairing(slots, hashes, kept, after, diff, left, leftHashes) && k in left && h in leftHashes
    ensures Pairing(slots, hashes, kept, after[k := h], diff[k := h], left - {k}, leftHashes - {h})
  {
    hide Injective, Held, LeftOver, Merged;
    TakeOut(slots, after.Keys, left, k);
    TakeOut(hashes, Held(after), leftHashes, h);
    AddPair(after, k, h);
    MergedStep(kept, after, diff, k, h);
  }

  lemma PairingDone(slots: set<Slot>, hashes: set<Hash>, kept: map<Slot, Hash>, after: map<Slot, Hash>,
                    diff: map<Slot, Hash>, left: set<Slot>, leftHashes: set<Hash>)
    requires Pairing(slots, hashes, kept, after, diff, left, leftHashes) && (left == {} || leftHashes == {})
    ensures left == {} && leftHashes == {}
  {
    hide Injective, Held, LeftOver, Merged;
  }

  lemma PairingStarts(before: map<Slot, Hash>, seen: set<Slot>, slots: set<Slot>, hashes: set<Hash>,
                      kept: map<Slot, Hash>, restSlots: set<Slot>, restHashes: set<Hash>)
    requires Matching(before, seen, slots, hashes, kept, restSlots, restHashes)
    ensures Pairing(slots, hashes, kept, kept, map[], restSlots, restHashes)
  {
    hide Injective, Held;
  }

  lemma PairingEnds(before: map<Slot, Hash>, seen: set<Slot>, slots: set<Slot>, hashes: set<Hash>,
                    kept: map<Slot, Hash>, restSlots: set<Slot>, restHashes: set<Hash>,
                    after: map<Slot, Hash>, diff: map<Slot, Hash>)
    requires Matching(before, seen, slots, hashes, kept, restSlots, restHashes)
    requires forall k :: k in slots && k in before ==> k in seen
    requires Pairing(slots, hashes, kept, after, diff, {}, {})
    ensures DeltaOf(before, slots, hashes, after, diff)
  {
    hide Injective, Held;
    assert after.Keys == slots;
    assert Held(after) == hashes;
  }

  /** The difference between the resident map and a target map, taken in any iteration order of the two sets. */
  method DiffTwoMap(map1: map<Slot, Hash>, map2: map<Slot, Hash>)
    returns (updated: map<Slot, Hash>, diff: map<Slot, Hash>)
    requires Injective(map1) && Injective(map2)
    ensures DeltaOf(map1, map2.Keys, Held(map2), updated, diff)
  {
    var slots, hashes := map2.Keys, Held(map2);
    ghost var seen: set<Slot> := {};
    hide Matching, Pairing, Injective, DeltaOf, Held;
    updated := map[];
    var todo := map1.Keys;
    MatchStarts(map1, map2);
    while todo != {}
      invariant forall k :: k in map1 <==> k in todo || k in seen
      invariant forall k :: k in todo ==> k !in seen
      invariant Matching(map1, seen, map2.Keys, Held(map2), updated, slots, hashes)
    {
      var k1 :| k1 in todo;
      if k1 in map2 && map1[k1] in Held(map2) {
        MatchStep(map1, seen, map2.Keys, Held(map2), updated, slots, hashes, k1);
        updated := updated[k1 := map1[k1]];
        slots, hashes := slots - {k1}, hashes - {map1[k1]};
      } else {
        MatchSkip(map1, seen, map2.Keys, Held(map2), updated, slots, hashes, k1);
      }
      todo, seen := todo - {k1}, seen + {k1};
    }
    assert seen == map1.Keys;
    diff := PairRest(map1, map2, updated, slots, hashes);
    updated := updated + diff;
  }

  /** The pairs of what is left of the two sets, in any order. */
  method PairRest(map1: map<Slot, Hash>, map2: map<Slot, Hash>, kept: map<Slot, Hash>, slots: set<Slot>,
                  hashes: set<Hash>)
    returns (diff: map<Slot, Hash>)
    requires Matching(map1, map1.Keys, map2.Keys, Held(map2), kept, slots, hashes)
    ensures DeltaOf(map1, map2.Keys, Held(map2), kept + diff, diff)
  {
    hide Matching, Pairing, Injective, DeltaOf, Held;
    diff := map[];
    var left, leftHashes := slots, hashes;
    PairingStarts(map1, map1.Keys, map2.Keys, Held(map2), kept, slots, hashes);
    assert kept + map[] == kept;
    while left != {} && leftHashes != {}
      invariant Pairing(map2.Keys, Held(map2), kept, kept + diff, diff, left, leftHashes)
      decreases left
    {
      var k2 :| k2 in left;
      var v2 :| v2 in leftHashes;
      PairStep(map2.Keys, Held(map2), kept, kept + diff, diff, left, leftHashes, k2, v2);
      assert kept + diff[k2 := v2] == (kept + diff)[k2 := v2];
      diff := diff[k2 := v2];
      left, leftHashes := left - {k2}, leftHashes - {v2};
    }
    PairingDone(map2.Keys, Held(map2), kept, kept + diff, diff, left, leftHashes);
    PairingEnds(map1, map1.Keys, map2.Keys, Held(map2), kept, slots, hashes, kept + diff, diff);
  }

  // ---- lists paired by position ----

  /** `dict(zip(ids, hashes))` */
  function Zip(ids: seq<Slot>, hashes: seq<Hash>): map<Slot, Hash> {
    if ids == [] || hashes == [] then map[]
    else Zip(ids[1..], hashes[1..])[ids[0] := hashes[0]]
  }

  lemma ElementsTail(s: seq<nat>)
    requires Distinct(s) && s != []
    ensures Elements(s) == Elements(s[1..]) + {s[0]} && s[0] !in Elements(s[1..]) && Distinct(s[1..])
  {
    assert s == [s[0]] + s[1..];
  }

  lemma {:induction false} ZipHolds(ids: seq<Slot>, hashes: seq<Hash>)
    requires Distinct(ids) && Distinct(hashes) && |ids| == |hashes|
    ensures Injective(Zip(ids, hashes)) && Zip(ids, hashes).Keys == Elements(ids)
    ensures Held(Zip(ids, hashes)) == Elements(hashes)
  {
    if ids != [] {
      ElementsTail(ids);
      ElementsTail(hashes);
      hide Distinct, Injective, Held;
      ZipHolds(ids[1..], hashes[1..]);
      AddPair(Zip(ids[1..], hashes[1..]), ids[0], hashes[0]);
    }
  }

  lemma {:induction false} ZipCuts(ids: seq<Slot>, hashes: seq<Hash>, n: nat)
    requires n == if |ids| < |hashes| then |ids| else |hashes|
    ensures Zip(ids, hashes) == Zip(ids[..n], hashes[..n])
    decreases n
  {
    if n > 0 {
      ZipCuts(ids[1..], hashes[1..], n - 1);
      assert ids[..n][1..] == ids[1..][..n - 1] && hashes[..n][1..] == hashes[1..][..n - 1];
    }
  }

  /** `list.remove(x)` */
  function Removed(s: seq<nat>, x: nat): seq<nat> {
    if s == [] then [] else if s[0] == x then s[1..] else [s[0]] + Removed(s[1..], x)
  }

  lemma {:induction false} RemovedElements(s: seq<nat>, x: nat)
    requires Distinct(s) && x in s
    ensures Distinct(Removed(s, x)) && Elements(Removed(s, x)) == Elements(s) - {x}
    ensures |Removed(s, x)| == |s| - 1
  {
    ElementsTail(s);
    if s[0] != x {
      hide Distinct;
      assert x in s[1..] by { assert s == [s[0]] + s[1..]; }
      RemovedElements(s[1..], x);
      var r := Removed(s[1..], x);
      assert s[0] !in Elements(r);
      assert Elements([s[0]] + r) == {s[0]} + Elements(r);
      PrependDistinct(s[0], r);
    }
  }

  lemma PrependDistinct(x: nat, s: seq<nat>)
    requires Distinct(s) && x !in s
    ensures Distinct([x] + s)
  {
  }

  /** The swap area's delta: the slots that hold a wanted hash keep it, the others are zipped with the rest. */
  method SwapDelta(before: map<Slot, Hash>, ids: seq<Slot>, hashes: seq<Hash>)
    returns (after: map<Slot, Hash>, loadIds: seq<Slot>, loadHashes: seq<Hash>)
    requires Injective(before) && Distinct(ids) && Distinct(hashes) && |ids| == |hashes|
    ensures |loadIds| == |loadHashes| && Distinct(loadIds) && Distinct(loadHashes)
    ensures DeltaOf(before, Elements(ids), Elements(hashes), after, Zip(loadIds, loadHashes))
  {
    if before == map[] {
      after, loadIds, loadHashes := Zip(ids, hashes), ids, hashes;
      ZipHolds(ids, hashes);
    } else {
      var kept;
      kept, loadIds, loadHashes := MatchLists(before, ids, hashes);
      hide *;
      after := kept + Zip(loadIds, loadHashes);
      ghost var diff := Zip(loadIds, loadHashes);
      ZipHolds(loadIds, loadHashes);
      ZipPairs(before, ids, hashes, kept, loadIds, loadHashes);
    }
  }

  /** The zipped rest completes the delta. */
  lemma ZipPairs(before: map<Slot, Hash>, ids: seq<Slot>, hashes: seq<Hash>, kept: map<Slot, Hash>,
                 restIds: seq<Slot>, restHashes: seq<Hash>)
    requires Distinct(restIds) && Distinct(restHashes) && |restIds| == |restHashes|
    requires Matching(before, Elements(ids), Elements(ids), Elements(hashes), kept, Elements(restIds),
                      Elements(restHashes))
    ensures DeltaOf(before, Elements(ids), Elements(hashes), kept + Zip(restIds, restHashes), Zip(restIds, restHashes))
  {
    hide Matching, Pairing, Injective, Held, DeltaOf, Distinct;
    PairingStarts(before, Elements(ids), Elements(ids), Elements(hashes), kept, Elements(restIds),
                  Elements(restHashes));
    PairAll(Elements(ids), Elements(hashes), kept, restIds, restHashes);
    PairingEnds(before, Elements(ids), Elements(ids), Elements(hashes), kept, Elements(restIds), Elements(restHashes),
                kept + Zip(restIds, restHashes), Zip(restIds, restHashes));
  }

  lemma {:induction false} PairAll(slots: set<Slot>, hashes: set<Hash>, kept: map<Slot, Hash>,
                                   restIds: seq<Slot>, restHashes: seq<Hash>)
    requires Distinct(restIds) && Distinct(restHashes) && |restIds| == |restHashes|
    requires Pairing(slots, hashes, kept, kept, map[], Elements(restIds), Elements(restHashes))
    ensures Pairing(slots, hashes, kept, kept + Zip(restIds, restHashes), Zip(restIds, restHashes), {}, {})
  {
    PairTail(slots, hashes, kept, Elements(restIds), Elements(restHashes), restIds, restHashes);
    assert Elements(restIds) - Elements(restIds) == {};
    assert Elements(restHashes) - Elements(restHashes) == {};
  }

  lemma {:induction false} PairTail(slots: set<Slot>, hashes: set<Hash>, kept: map<Slot, Hash>, left: set<Slot>,
                                    leftHashes: set<Hash>, restIds: seq<Slot>, restHashes: seq<Hash>)
    requires Distinct(restIds) && Distinct(restHashes) && |restIds| == |restHashes|
    requires Elements(restIds) <= left && Elements(restHashes) <= leftHashes
    requires Pairing(slots, hashes, kept, kept, map[], left, leftHashes)
    ensures Pairing(slots, hashes, kept, kept + Zip(restIds, restHashes), Zip(restIds, restHashes),
                    left - Elements(restIds), leftHashes - Elements(restHashes))
  {
    if restIds == [] {
      hide Pairing, Distinct;
      assert kept + map[] == kept;
      assert left - Elements(restIds) == left && leftHashes - Elements(restHashes) == leftHashes;
    } else {
      hide Pairing, Distinct, Elements;
      ElementsTail(restIds);
      ElementsTail(restHashes);
      var k, h := restIds[0], restHashes[0];
      var zip := Zip(restIds[1..], restHashes[1..]);
      var left', leftHashes' := left - Elements(restIds[1..]), leftHashes - Elements(restHashes[1..]);
      LessOneMore(left, Elements(restIds[1..]), k);
      LessOneMore(leftHashes, Elements(restHashes[1..]), h);
      PairTail(slots, hashes, kept, left, leftHashes, restIds[1..], restHashes[1..]);
      PairStep(slots, hashes, kept, kept + zip, zip, left', leftHashes', k, h);
      MergeUpdate(kept, zip, k, h);
    }
  }

  lemma MergeUpdate(kept: map<Slot, Hash>, diff: map<Slot, Hash>, k: Slot, h: Hash)
    ensures (kept + diff)[k := h] == kept + diff[k := h]
  {
  }

  lemma LessOneMore(left: set<nat>, tail: set<nat>, x: nat)
    requires tail + {x} <= left && x !in tail
    ensures tail <= left && x in left - tail && (left - tail) - {x} == left - (tail + {x})
  {
  }

  /** The slots of the list that hold a wanted hash, with what is left of the two lists. */
  method MatchLists(before: map<Slot, Hash>, ids: seq<Slot>, hashes: seq<Hash>)
    returns (kept: map<Slot, Hash>, restIds: seq<Slot>, restHashes: seq<Hash>)
    requires Injective(before) && Distinct(ids) && Distinct(hashes) && |ids| == |hashes|
    ensures Distinct(restIds) && Distinct(restHashes) && |restIds| == |restHashes|
    ensures Matching(before, Elements(ids), Elements(ids), Elements(hashes), kept, Elements(restIds),
                     Elements(restHashes))
  {
    kept, restIds, restHashes := map[], ids, hashes;
    ListsMatchStart(before, ids, hashes);
    hide *;
    for i := 0 to |ids|
      invariant Distinct(restIds) && Distinct(restHashes) && |restIds| == |restHashes|
      invariant Matching(before, Elements(ids[..i]), Elements(ids), Elements(hashes), kept,
                         Elements(restIds), Elements(restHashes))
    {
      var k := ids[i];
      ghost var seen := Elements(ids[..i]);
      NextElement(ids, i);
      RestMembers(before, seen, ids, hashes, kept, restIds, restHashes, k);
      if k in before && before[k] in restHashes {
        MatchStep(before, seen, Elements(ids), Elements(hashes), kept, Elements(restIds), Elements(restHashes), k);
        RemovedElements(restIds, k);
        RemovedElements(restHashes, before[k]);
        kept, restIds, restHashes := kept[k := before[k]], Removed(restIds, k), Removed(restHashes, before[k]);
      } else {
        MatchSkip(before, seen, Elements(ids), Elements(hashes), kept, Elements(restIds), Elements(restHashes), k);
      }
    }
    assert ids[..|ids|] == ids;
  }

  lemma NextElement(s: seq<nat>, i: nat)
    requires i < |s| && Distinct(s)
    ensures Elements(s[..i + 1]) == Elements(s[..i]) + {s[i]} && s[i] !in Elements(s[..i]) && s[i] in Elements(s)
  {
    TakeNext(s, i);
  }

  lemma ListsMatchStart(before: map<Slot, Hash>, ids: seq<Slot>, hashes: seq<Hash>)
    requires Distinct(ids) && Distinct(hashes) && |ids| == |hashes|
    ensures Matching(before, Elements(ids[..0]), Elements(ids), Elements(hashes), map[], Elements(ids),
                     Elements(hashes))
  {
    DistinctCount(ids);
    DistinctCount(hashes);
    hide Distinct;
  }

  /** A hash is in the shrunken list exactly when it is wanted: no other slot could have taken it. */
  lemma RestMembers(before: map<Slot, Hash>, seen: set<Slot>, ids: seq<Slot>, hashes: seq<Hash>, kept: map<Slot, Hash>,
                    restIds: seq<Slot>, restHashes: seq<Hash>, k: Slot)
    requires Injective(before) && k in Elements(ids) && k !in seen
    requires Matching(before, seen, Elements(ids), Elements(hashes), kept, Elements(restIds), Elements(restHashes))
    ensures Wanted(before, Elements(hashes), k) <==> k in before && before[k] in restHashes
    ensures k in before && before[k] in restHashes ==> k in restIds && before[k] in Elements(hashes)
  {
    hide Injective, Held;
    if Wanted(before, Elements(hashes), k) {
      MatchedPair(before, seen, Elements(ids), Elements(hashes), kept, Elements(restIds), Elements(restHashes), k);
    }
  }

  // ---- the resident blocks over a run ----

  /** The hashes that some slots hold. */
  ghost function ResidentIn(cache: map<Slot, Hash>, slots: set<Slot>): set<Hash> {
    set k | k in slots && k in cache :: cache[k]
  }

  ghost predicate Records(cache: map<Slot, Hash>, known: map<Slot, Hash>) {
    forall k :: k in known ==> k in cache && cache[k] == known[k]
  }

  /** After loading the delta the cache agrees with the new record, outside the loaded slots nothing changed, and the
      slots hold the same set of blocks as after loading the whole target. */
  lemma DeltaRefinesLoadAll(before: map<Slot, Hash>, cache: map<Slot, Hash>, target: map<Slot, Hash>,
                            after: map<Slot, Hash>, diff: map<Slot, Hash>)
    requires Records(cache, before) && DeltaOf(before, target.Keys, Held(target), after, diff)
    ensures Records(cache + diff, after) && Injective(after)
    ensures ResidentIn(cache + diff, target.Keys) == Held(target) == ResidentIn(cache + target, target.Keys)
  {
    assert forall k :: k in after ==> k in cache + diff && (cache + diff)[k] == after[k] by { hide Held, Injective; }
    assert Records(cache + diff, after) && after.Keys == target.Keys && Held(after) == Held(target) && Injective(after);
    hide DeltaOf, Records;
    RecordsResident(cache + diff, after);
    RecordsResident(cache + target, target);
  }

  lemma RecordsResident(cache: map<Slot, Hash>, known: map<Slot, Hash>)
    requires forall k :: k in known ==> k in cache && cache[k] == known[k]
    ensures ResidentIn(cache, known.Keys) == Held(known)
  {
    forall h | h in Held(known) ensures h in ResidentIn(cache, known.Keys) {
      var k :| k in known && known[k] == h;
      assert cache[k] == h;
    }
    forall h | h in ResidentIn(cache, known.Keys) ensures h in Held(known) {
      var k :| k in known.Keys && k in cache && cache[k] == h;
      assert known[k] == h;
    }
  }

  /** The blocks of one request and layer: what each physical slot holds, and what the request recorded of it. */
  class SwapArea {
    var known: map<Slot, Hash>
    var cache: map<Slot, Hash>

    ghost predicate Valid()
      reads this
    {
      Injective(known) && Records(cache, known)
    }

    constructor (cache: map<Slot, Hash>)
      ensures Valid() && this.cache == cache && known == map[]
    {
      this.cache, known := cache, map[];
    }

    /** A retrieval's result is made resident by loading only the difference (dictionary form). Slots and hashes are
        paired as far as both lists go. */
    method LoadRetrieved(ids: seq<Slot>, hashes: seq<Hash>) returns (loaded: map<Slot, Hash>)
      requires Valid() && Distinct(ids) && Distinct(hashes)
      modifies this
      ensures Valid() && cache == old(cache) + loaded
      ensures var n := if |ids| < |hashes| then |ids| else |hashes|;
              && DeltaOf(old(known), Elements(ids[..n]), Elements(hashes[..n]), known, loaded)
              && ResidentIn(cache, Elements(ids[..n])) == Elements(hashes[..n]) ==
                 ResidentIn(old(cache) + Zip(ids, hashes), Elements(ids[..n]))
    {
      ghost var n := if |ids| < |hashes| then |ids| else |hashes|;
      assert Distinct(ids[..n]) && Distinct(hashes[..n]);
      hide Injective, Held, Distinct, DeltaOf, Zip, Records, ResidentIn;
      ZipCuts(ids, hashes, n);
      ZipHolds(ids[..n], hashes[..n]);
      var target := Zip(ids, hashes);
      ghost var before, cacheWas := known, cache;
      var after;
      after, loaded := DiffTwoMap(known, target);
      DeltaRefinesLoadAll(before, cacheWas, target, after, loaded);
      known, cache := after, cache + loaded;
    }

    /** The same with the lists paired in order (swap-area form). */
    method SwapIn(ids: seq<Slot>, hashes: seq<Hash>) returns (loaded: map<Slot, Hash>)
      requires Valid() && Distinct(ids) && Distinct(hashes) && |ids| == |hashes|
      modifies this
      ensures Valid() && cache == old(cache) + loaded
      ensures DeltaOf(old(known), Elements(ids), Elements(hashes), known, loaded)
      ensures ResidentIn(cache, Elements(ids)) == Elements(hashes) ==
              ResidentIn(old(cache) + Zip(ids, hashes), Elements(ids))
    {
      hide Injective, Held, Distinct, DeltaOf, Zip, Records, ResidentIn;
      ZipHolds(ids, hashes);
      var after, loadIds, loadHashes := SwapDelta(known, ids, hashes);
      loaded := Zip(loadIds, loadHashes);
      DeltaRefinesLoadAll(known, cache, Zip(ids, hashes), after, loaded);
      known, cache := after, cache + loaded;
    }
  }
}
