/** The in-place move at the end of a sparse prefill: the selected blocks of a request are copied into the physical
    blocks the request keeps, so that the others can be returned. */
module BlockRelocation {
  import opened Sequences
  import opened Options

  type BlockNo = nat

  /** The entries of s that are not in `other`, in order. */
  function Without(s: seq<nat>, other: seq<nat>): seq<nat> {
    if s == [] then []
    else if s[|s| - 1] in other then Without(s[..|s| - 1], other)
    else Without(s[..|s| - 1], other) + [s[|s| - 1]]
  }

  lemma {:induction false} WithoutMembers(s: seq<nat>, other: seq<nat>)
    ensures forall x :: x in Without(s, other) <==> x in s && x !in other
  {
    if s != [] {
      WithoutMembers(s[..|s| - 1], other);
      assert s == s[..|s| - 1] + [s[|s| - 1]];
    }
  }

  lemma {:induction false} WithoutDistinct(s: seq<nat>, other: seq<nat>)
    requires Distinct(s)
    ensures Distinct(Without(s, other))
  {
    if s != [] {
      WithoutDistinct(s[..|s| - 1], other);
      WithoutMembers(s[..|s| - 1], other);
    }
  }

  lemma WithoutStep(s: seq<nat>, other: seq<nat>, i: nat)
    requires i < |s|
    ensures Without(s[..i + 1], other) == Without(s[..i], other) + (if s[i] in other then [] else [s[i]])
  {
    assert s[..i + 1][..i] == s[..i];
  }

  lemma {:induction false} WithoutPrefix(s: seq<nat>, other: seq<nat>, i: nat, j: nat)
    requires i <= j <= |s|
    ensures |Without(s[..i], other)| <= |Without(s[..j], other)|
    decreases j
  {
    if i < j {
      WithoutPrefix(s, other, i, j - 1);
      WithoutStep(s, other, j - 1);
    }
  }

  /** Two selections of the same size, without repetitions. */
  ghost predicate SameSize(remain: seq<nat>, topk: seq<nat>) {
    Distinct(remain) && Distinct(topk) && |remain| == |topk|
  }

  /** As many kept indices are free as selected ones are missing: the free list is never exhausted or left over. */
  lemma FreeMatchesMissing(remain: seq<nat>, topk: seq<nat>)
    requires SameSize(remain, topk)
    ensures |Without(remain, topk)| == |Without(topk, remain)|
  {
    hide Without, Distinct;
    var t, r := Elements(topk), Elements(remain);
    DistinctCount(topk);
    DistinctCount(remain);
    WithoutDistinct(topk, remain);
    WithoutDistinct(remain, topk);
    DistinctCount(Without(topk, remain));
    DistinctCount(Without(remain, topk));
    WithoutMembers(topk, remain);
    WithoutMembers(remain, topk);
    assert Elements(Without(topk, remain)) == t - r;
    assert Elements(Without(remain, topk)) == r - t;
    assert t == (t - r) + (t * r) && r == (r - t) + (t * r);
    assert |t| == |t - r| + |t * r|;
    assert |r| == |r - t| + |t * r|;
  }

  lemma FreeLeft(remain: seq<nat>, topk: seq<nat>, i: nat)
    requires SameSize(remain, topk) && i < |topk| && topk[i] !in remain
    ensures |Without(topk[..i], remain)| < |Without(remain, topk)|
  {
    hide Without, Distinct;
    FreeMatchesMissing(remain, topk);
    WithoutStep(topk, remain, i);
    WithoutPrefix(topk, remain, i + 1, |topk|);
    assert topk[..|topk|] == topk;
  }

  /** The kept index that selected index topk[i] ends up in: its own when it is kept, else the next free one. */
  ghost function Home(remain: seq<nat>, topk: seq<nat>, i: nat): nat
    requires SameSize(remain, topk) && i < |topk|
  {
    if topk[i] in remain then topk[i]
    else
      FreeLeft(remain, topk, i);
      Without(remain, topk)[|Without(topk[..i], remain)|]
  }

  /** The home is one of the kept indices, and it is a selected index only if that index stays where it is. */
  lemma HomeIsKept(remain: seq<nat>, topk: seq<nat>, i: nat)
    requires SameSize(remain, topk) && i < |topk|
    ensures Home(remain, topk, i) in remain
    ensures topk[i] !in remain ==> Home(remain, topk, i) !in topk
  {
    hide Without;
    WithoutMembers(remain, topk);
    if topk[i] !in remain {
      FreeLeft(remain, topk, i);
      assert Without(remain, topk)[|Without(topk[..i], remain)|] in Without(remain, topk);
    }
  }

  /** No two selected indices share a home. */
  lemma HomesDistinct(remain: seq<nat>, topk: seq<nat>, i: nat, j: nat)
    requires SameSize(remain, topk) && i < |topk| && j < |topk| && i != j
    ensures Home(remain, topk, i) != Home(remain, topk, j)
  {
    hide Without;
    if i > j {
      HomesDistinct(remain, topk, j, i);
    } else {
      HomeIsKept(remain, topk, i);
      HomeIsKept(remain, topk, j);
      if topk[i] !in remain && topk[j] !in remain {
        WithoutStep(topk, remain, i);
        WithoutPrefix(topk, remain, i + 1, j);
        WithoutDistinct(remain, topk);
        FreeLeft(remain, topk, i);
        FreeLeft(remain, topk, j);
      } else if topk[i] in remain {
        assert topk[i] in topk;
      } else {
        assert topk[j] in topk;
      }
    }
  }

  ghost function AllHomes(remain: seq<nat>, topk: seq<nat>): (homes: seq<nat>)
    requires SameSize(remain, topk)
    ensures |homes| == |topk| && Distinct(homes)
    ensures forall i :: 0 <= i < |topk| ==> homes[i] == Home(remain, topk, i)
  {
    HomesAllDistinct(remain, topk);
    seq(|topk|, i requires 0 <= i < |topk| => Home(remain, topk, i))
  }

  lemma HomesAllDistinct(remain: seq<nat>, topk: seq<nat>)
    requires SameSize(remain, topk)
    ensures forall i, j :: 0 <= i < j < |topk| ==> Home(remain, topk, i) != Home(remain, topk, j)
  {
    hide Home;
    forall i, j | 0 <= i < j < |topk| ensures Home(remain, topk, i) != Home(remain, topk, j) {
      HomesDistinct(remain, topk, i, j);
    }
  }

  /** Every kept index is some selected index's home. */
  lemma HomesCover(remain: seq<nat>, topk: seq<nat>, r: nat)
    requires SameSize(remain, topk) && r in remain
    ensures exists i :: 0 <= i < |topk| && Home(remain, topk, i) == r
  {
    hide Home, Distinct;
    var homes := AllHomes(remain, topk);
    forall x | x in homes ensures x in remain {
      var i :| 0 <= i < |homes| && homes[i] == x;
      HomeIsKept(remain, topk, i);
    }
    DistinctCount(homes);
    DistinctCount(remain);
    SubsetOfSameSize(Elements(homes), Elements(remain));
    assert r in Elements(homes);
    var i :| 0 <= i < |homes| && homes[i] == r;
  }

  /** What the caller of the relocation guarantees. */
  ghost predicate Selection(blocks: seq<BlockNo>, remain: seq<nat>, topk: seq<nat>) {
    && Distinct(blocks) && SameSize(remain, topk)
    && (forall i :: 0 <= i < |remain| ==> remain[i] < |blocks|)
    && (forall i :: 0 <= i < |topk| ==> topk[i] < |blocks|)
  }

  /** The physical block of selected index topk[i] after the move. */
  ghost function HomeBlock(blocks: seq<BlockNo>, remain: seq<nat>, topk: seq<nat>, i: nat): BlockNo
    requires Selection(blocks, remain, topk) && i < |topk|
  {
    HomeIsKept(remain, topk, i);
    blocks[Home(remain, topk, i)]
  }

  /** The moves among the first n selected indices: each missing block goes to its home. */
  ghost predicate MovesOf(mv: map<BlockNo, BlockNo>, blocks: seq<BlockNo>, remain: seq<nat>, topk: seq<nat>, n: nat)
    requires Selection(blocks, remain, topk) && n <= |topk|
  {
    && (forall i :: 0 <= i < n && topk[i] !in remain ==>
                      blocks[topk[i]] in mv && mv[blocks[topk[i]]] == HomeBlock(blocks, remain, topk, i))
    && (forall b :: b in mv ==> exists i :: 0 <= i < n && topk[i] !in remain && blocks[topk[i]] == b)
  }

  /** No move reads what a move writes, and no two moves write the same block. */
  ghost predicate Independent(mv: map<BlockNo, BlockNo>) {
    && (forall a, b :: a in mv && b in mv ==> mv[a] != b)
    && (forall a, b :: a in mv && b in mv && a != b ==> mv[a] != mv[b])
  }

  lemma MovesIndependent(mv: map<BlockNo, BlockNo>, blocks: seq<BlockNo>, remain: seq<nat>, topk: seq<nat>)
    requires Selection(blocks, remain, topk) && MovesOf(mv, blocks, remain, topk, |topk|)
    ensures Independent(mv)
  {
    hide Home;
    forall a, b | a in mv && b in mv ensures mv[a] != b && (a != b ==> mv[a] != mv[b]) {
      var i :| 0 <= i < |topk| && topk[i] !in remain && blocks[topk[i]] == a;
      var j :| 0 <= j < |topk| && topk[j] !in remain && blocks[topk[j]] == b;
      PairIndependent(mv, blocks, remain, topk, i, j);
    }
  }

  lemma PairIndependent(mv: map<BlockNo, BlockNo>, blocks: seq<BlockNo>, remain: seq<nat>, topk: seq<nat>,
                        i: nat, j: nat)
    requires Selection(blocks, remain, topk) && MovesOf(mv, blocks, remain, topk, |topk|)
    requires i < |topk| && j < |topk| && topk[i] !in remain && topk[j] !in remain
    ensures blocks[topk[i]] in mv && blocks[topk[j]] in mv && mv[blocks[topk[i]]] != blocks[topk[j]]
    ensures i != j ==> mv[blocks[topk[i]]] != mv[blocks[topk[j]]]
  {
    hide Home;
    HomeIsKept(remain, topk, i);
    HomeIsKept(remain, topk, j);
    if i != j {
      HomesDistinct(remain, topk, i, j);
    }
  }

  /** The first n selected indices are mapped to their homes: those before remainLen by one map, the rest by the
      other. */
  ghost predicate SplitOf(remainMap: map<nat, BlockNo>, prefetchMap: map<nat, BlockNo>,
                          blocks: seq<BlockNo>, remain: seq<nat>, topk: seq<nat>, remainLen: nat, n: nat)
    requires Selection(blocks, remain, topk) && n <= |topk|
  {
    && (forall x :: x in remainMap ==> exists i :: 0 <= i < n && i < remainLen && topk[i] == x)
    && (forall x :: x in prefetchMap ==> exists i :: remainLen <= i < n && topk[i] == x)
    && (forall i :: 0 <= i < n && i < remainLen ==>
                      topk[i] in remainMap && remainMap[topk[i]] == HomeBlock(blocks, remain, topk, i))
    && (forall i :: remainLen <= i < n ==>
                      topk[i] in prefetchMap && prefetchMap[topk[i]] == HomeBlock(blocks, remain, topk, i))
  }

  /** The selected indices that are kept stay in their block; the others leave a gap. */
  ghost predicate HitsPlaced(placed: seq<Option<BlockNo>>, blocks: seq<BlockNo>, remain: seq<nat>, topk: seq<nat>)
    requires Selection(blocks, remain, topk)
  {
    && |placed| == |topk|
    && forall i :: 0 <= i < |topk| ==> placed[i] == if topk[i] in remain then Some(blocks[topk[i]]) else None
  }

  /** First pass: the new block list with gaps, and the hits. */
  method PlaceHits(blocks: seq<BlockNo>, remain: seq<nat>, topk: seq<nat>)
    returns (placed: seq<Option<BlockNo>>, hits: seq<nat>)
    requires Selection(blocks, remain, topk)
    ensures HitsPlaced(placed, blocks, remain, topk)
    ensures forall x :: x in hits <==> x in topk && x in remain
  {
    placed, hits := seq(|topk|, _ => None), [];
    for i := 0 to |topk|
      invariant |placed| == |topk|
      invariant forall k :: 0 <= k < |topk| ==>
                              placed[k] == if k < i && topk[k] in remain then Some(blocks[topk[k]]) else None
      invariant forall x :: x in hits <==> x in topk[..i] && x in remain
    {
      TakeNext(topk, i);
      if topk[i] in remain {
        placed := placed[i := Some(blocks[topk[i]])];
        hits := hits + [topk[i]];
      }
    }
    assert topk[..|topk|] == topk;
  }

  /** Second pass: the kept indices that were not hit are free. */
  method FreeIndices(remain: seq<nat>, topk: seq<nat>, hits: seq<nat>) returns (free: seq<nat>)
    requires Distinct(remain) && forall x :: x in hits <==> x in topk && x in remain
    ensures free == Without(remain, topk)
  {
    free := [];
    for i := 0 to |remain|
      invariant free == Without(remain[..i], topk)
    {
      WithoutStep(remain, topk, i);
      assert remain[i] in remain;
      if remain[i] !in hits {
        free := free + [remain[i]];
      }
    }
    assert remain[..|remain|] == remain;
  }

  /** The blocks of the first n selected indices after the move. */
  ghost predicate Filled(full: seq<BlockNo>, blocks: seq<BlockNo>, remain: seq<nat>, topk: seq<nat>, n: nat)
    requires Selection(blocks, remain, topk) && n <= |topk|
  {
    |full| == n && forall i :: 0 <= i < n ==> full[i] == HomeBlock(blocks, remain, topk, i)
  }

  /** Third pass: every gap takes the next free block, which its own block is to be moved to. */
  method FillGaps(blocks: seq<BlockNo>, remain: seq<nat>, topk: seq<nat>, placed: seq<Option<BlockNo>>, free: seq<nat>)
    returns (full: seq<BlockNo>, mv: map<BlockNo, BlockNo>)
    requires Selection(blocks, remain, topk) && HitsPlaced(placed, blocks, remain, topk)
    requires free == Without(remain, topk)
    ensures Filled(full, blocks, remain, topk, |topk|)
    ensures MovesOf(mv, blocks, remain, topk, |topk|)
  {
    full, mv := [], map[];
    var left := free;
    assert MovesOf(mv, blocks, remain, topk, 0) && Filled(full, blocks, remain, topk, 0);
    ghost var taken: nat := 0;
    assert Without(topk[..0], remain) == [] && |placed| == |topk|;
    hide *;
    for i := 0 to |topk|
      invariant Filled(full, blocks, remain, topk, i) && MovesOf(mv, blocks, remain, topk, i)
      invariant taken == |Without(topk[..i], remain)| && taken <= |free| && left == free[taken..]
    {
      WithoutStep(topk, remain, i);
      GapAt(placed, blocks, remain, topk, i);
      MovesStep(mv, blocks, remain, topk, i);
      FilledStep(full, blocks, remain, topk, i);
      if placed[i] == None {
        var oneFree := left[0];
        left, taken := left[1..], taken + 1;
        full := full + [blocks[oneFree]];
        mv := mv[blocks[topk[i]] := blocks[oneFree]];
      } else {
        full := full + [placed[i].value];
      }
    }
  }

  lemma FilledStep(full: seq<BlockNo>, blocks: seq<BlockNo>, remain: seq<nat>, topk: seq<nat>, i: nat)
    requires Selection(blocks, remain, topk) && i < |topk| && Filled(full, blocks, remain, topk, i)
    ensures Filled(full + [HomeBlock(blocks, remain, topk, i)], blocks, remain, topk, i + 1)
  {
    hide HomeBlock;
  }

  lemma GapAt(placed: seq<Option<BlockNo>>, blocks: seq<BlockNo>, remain: seq<nat>, topk: seq<nat>, i: nat)
    requires Selection(blocks, remain, topk) && i < |topk| && HitsPlaced(placed, blocks, remain, topk)
    ensures topk[i] < |blocks| && |placed| == |topk|
    ensures topk[i] in remain ==> placed[i] == Some(HomeBlock(blocks, remain, topk, i))
    ensures topk[i] !in remain ==>
              var m := |Without(topk[..i], remain)|;
              placed[i] == None && m < |Without(remain, topk)| && Without(remain, topk)[m] < |blocks| &&
              HomeBlock(blocks, remain, topk, i) == blocks[Without(remain, topk)[m]]
  {
    hide HomeBlock, Without, Distinct;
    HomeBlockAt(blocks, remain, topk, i);
  }

  lemma HomeBlockAt(blocks: seq<BlockNo>, remain: seq<nat>, topk: seq<nat>, i: nat)
    requires Selection(blocks, remain, topk) && i < |topk|
    ensures topk[i] in remain ==> HomeBlock(blocks, remain, topk, i) == blocks[topk[i]]
    ensures topk[i] !in remain ==>
              var m := |Without(topk[..i], remain)|;
              m < |Without(remain, topk)| && Without(remain, topk)[m] < |blocks| &&
              HomeBlock(blocks, remain, topk, i) == blocks[Without(remain, topk)[m]]
  {
    hide Without, Distinct;
    HomeIsKept(remain, topk, i);
    if topk[i] !in remain {
      FreeLeft(remain, topk, i);
    }
  }

  lemma MovesStep(mv: map<BlockNo, BlockNo>, blocks: seq<BlockNo>, remain: seq<nat>, topk: seq<nat>, i: nat)
    requires Selection(blocks, remain, topk) && i < |topk| && MovesOf(mv, blocks, remain, topk, i)
    ensures topk[i] in remain ==> MovesOf(mv, blocks, remain, topk, i + 1)
    ensures topk[i] !in remain ==>
              MovesOf(mv[blocks[topk[i]] := HomeBlock(blocks, remain, topk, i)], blocks, remain, topk, i + 1)
  {
    hide Home, HomeBlock;
  }

  /** The copies that bring the selected blocks into the kept ones, and where each selected index is then found. */
  method GetMvMap(blocks: seq<BlockNo>, remain: seq<nat>, topk: seq<nat>, remainLen: nat)
    returns (mv: map<BlockNo, BlockNo>, remainMap: map<nat, BlockNo>, prefetchMap: map<nat, BlockNo>)
    requires Selection(blocks, remain, topk)
    ensures MovesOf(mv, blocks, remain, topk, |topk|) && Independent(mv)
    ensures SplitOf(remainMap, prefetchMap, blocks, remain, topk, remainLen, |topk|)
  {
    hide HomeBlock, Home, Without;
    var placed, hits := PlaceHits(blocks, remain, topk);
    var free := FreeIndices(remain, topk, hits);
    var full;
    full, mv := FillGaps(blocks, remain, topk, placed, free);
    assert |full| == |topk| && forall i :: 0 <= i < |topk| ==> full[i] == HomeBlock(blocks, remain, topk, i);
    MovesIndependent(mv, blocks, remain, topk);
    remainMap, prefetchMap := map[], map[];
    for i := 0 to |full|
      invariant SplitOf(remainMap, prefetchMap, blocks, remain, topk, remainLen, i)
    {
      if i < remainLen {
        remainMap := remainMap[topk[i] := full[i]];
      } else {
        prefetchMap := prefetchMap[topk[i] := full[i]];
      }
    }
  }

  /** One cache after the copies: each destination holds its source's old content, everything else is untouched. */
  ghost predicate Copied<C>(mv: map<BlockNo, BlockNo>, before: seq<C>, after: seq<C>) {
    && |after| == |before|
    && (forall b :: b in mv && b < |before| && mv[b] < |before| ==> after[mv[b]] == before[b])
    && (forall p :: 0 <= p < |before| && p !in mv.Values ==> after[p] == before[p])
  }

  /** The copy loop, over the moves in any order; with multi-head latent attention there is only one cache. */
  method CopyBlocks<C>(mv: map<BlockNo, BlockNo>, keys: array<C>, values: array<C>, useMla: bool)
    requires Independent(mv) && keys != values && keys.Length == values.Length
    requires forall b :: b in mv ==> b < keys.Length && mv[b] < keys.Length
    modifies keys, values
    ensures Copied(mv, old(keys[..]), keys[..])
    ensures if useMla then values[..] == old(values[..]) else Copied(mv, old(values[..]), values[..])
  {
    var todo := mv.Keys;
    ghost var did: map<BlockNo, BlockNo> := map[];
    while todo != {}
      invariant todo <= mv.Keys && did.Keys == mv.Keys - todo && forall b :: b in did ==> did[b] == mv[b]
      invariant Copied(did, old(keys[..]), keys[..])
      invariant if useMla then values[..] == old(values[..]) else Copied(did, old(values[..]), values[..])
    {
      var b :| b in todo;
      CopyBlock(mv, did, b, keys, old(keys[..]));
      if !useMla {
        CopyBlock(mv, did, b, values, old(values[..]));
      }
      did := did[b := mv[b]];
      todo := todo - {b};
    }
    assert did == mv;
  }

  /** One move in one cache. */
  method CopyBlock<C>(mv: map<BlockNo, BlockNo>, ghost did: map<BlockNo, BlockNo>, b: BlockNo, cache: array<C>,
                      ghost before: seq<C>)
    requires Independent(mv) && b in mv && b !in did && b < |before| && mv[b] < |before|
    requires did.Keys <= mv.Keys && forall x :: x in did ==> did[x] == mv[x] && x < |before| && mv[x] < |before|
    requires Copied(did, before, cache[..])
    modifies cache
    ensures Copied(did[b := mv[b]], before, cache[..])
  {
    assert cache.Length == |before|;
    CopyStep(mv, did, b, before, cache[..]);
    hide Copied, Independent;
    cache[mv[b]] := cache[b];
  }

  lemma CopyStep<C>(mv: map<BlockNo, BlockNo>, did: map<BlockNo, BlockNo>, b: BlockNo, before: seq<C>, now: seq<C>)
    requires Independent(mv) && b in mv && b !in did && b < |before| && mv[b] < |before|
    requires did.Keys <= mv.Keys && forall x :: x in did ==> did[x] == mv[x] && x < |before| && mv[x] < |before|
    requires Copied(did, before, now)
    ensures Copied(did[b := mv[b]], before, now[mv[b] := now[b]])
  {
    var did' := did[b := mv[b]];
    assert b !in did.Values;
    assert now[b] == before[b];
    assert did'.Values == did.Values + {mv[b]} by {
      forall v | v in did.Values ensures v in did'.Values {
        var x :| x in did && did[x] == v;
        assert did'[x] == v;
      }
      assert did'[b] == mv[b];
    }
  }

  /** Each selected index is found in its own kept block, which is the one it had if that is kept, and all kept blocks
      are used. */
  ghost predicate Relocated(placed: map<nat, BlockNo>, blocks: seq<BlockNo>, remain: seq<nat>, topk: seq<nat>)
    requires Selection(blocks, remain, topk)
  {
    && placed.Keys == Elements(topk)
    && (forall i :: 0 <= i < |topk| && topk[i] in remain ==> placed[topk[i]] == blocks[topk[i]])
    && (forall x, y :: x in placed && y in placed && x != y ==> placed[x] != placed[y])
    && (forall x :: x in placed ==> Kept(blocks, remain, placed[x]))
    && (forall i :: 0 <= i < |remain| ==> blocks[remain[i]] in placed.Values)
  }

  /** The physical blocks the request keeps. */
  ghost predicate Kept(blocks: seq<BlockNo>, remain: seq<nat>, b: BlockNo) {
    exists i :: 0 <= i < |remain| && remain[i] < |blocks| && blocks[remain[i]] == b
  }

  lemma HomeBlockKept(blocks: seq<BlockNo>, remain: seq<nat>, topk: seq<nat>, i: nat)
    requires Selection(blocks, remain, topk) && i < |topk|
    ensures Kept(blocks, remain, HomeBlock(blocks, remain, topk, i))
  {
    hide Home;
    HomeIsKept(remain, topk, i);
    var r :| 0 <= r < |remain| && remain[r] == Home(remain, topk, i);
  }

  lemma MovesIntoKept(mv: map<BlockNo, BlockNo>, blocks: seq<BlockNo>, remain: seq<nat>, topk: seq<nat>)
    requires Selection(blocks, remain, topk) && MovesOf(mv, blocks, remain, topk, |topk|)
    ensures forall b :: b in mv ==> Kept(blocks, remain, mv[b])
  {
    hide HomeBlock;
    forall b | b in mv ensures Kept(blocks, remain, mv[b]) {
      var i :| 0 <= i < |topk| && topk[i] !in remain && blocks[topk[i]] == b;
      HomeBlockKept(blocks, remain, topk, i);
    }
  }

  /** Every selected index, and nothing else, is mapped to its home. */
  ghost predicate PlacedAtHome(placed: map<nat, BlockNo>, blocks: seq<BlockNo>, remain: seq<nat>, topk: seq<nat>)
    requires Selection(blocks, remain, topk)
  {
    && placed.Keys == Elements(topk)
    && forall i :: 0 <= i < |topk| ==> placed[topk[i]] == HomeBlock(blocks, remain, topk, i)
  }

  lemma SplitPlaces(remainMap: map<nat, BlockNo>, prefetchMap: map<nat, BlockNo>,
                    blocks: seq<BlockNo>, remain: seq<nat>, topk: seq<nat>, remainLen: nat)
    requires Selection(blocks, remain, topk)
    requires SplitOf(remainMap, prefetchMap, blocks, remain, topk, remainLen, |topk|)
    ensures remainMap.Keys !! prefetchMap.Keys && PlacedAtHome(remainMap + prefetchMap, blocks, remain, topk)
    ensures forall i :: 0 <= i < |topk| ==> (topk[i] in remainMap <==> i < remainLen)
  {
    hide HomeBlock;
    assert remainMap.Keys !! prefetchMap.Keys;
    assert (remainMap + prefetchMap).Keys == remainMap.Keys + prefetchMap.Keys;
  }

  /** The placement is a bijection from the selected indices to the kept blocks. */
  lemma PlacementBijective(placed: map<nat, BlockNo>, blocks: seq<BlockNo>, remain: seq<nat>, topk: seq<nat>)
    requires Selection(blocks, remain, topk) && PlacedAtHome(placed, blocks, remain, topk)
    ensures Relocated(placed, blocks, remain, topk)
  {
    hide HomeBlock;
    forall i | 0 <= i < |topk| && topk[i] in remain ensures placed[topk[i]] == blocks[topk[i]] {
      HomeBlockAt(blocks, remain, topk, i);
    }
    forall x, y | x in placed && y in placed && x != y ensures placed[x] != placed[y] {
      var i :| 0 <= i < |topk| && topk[i] == x;
      var j :| 0 <= j < |topk| && topk[j] == y;
      HomeBlocksDistinct(blocks, remain, topk, i, j);
    }
    forall x | x in placed ensures Kept(blocks, remain, placed[x]) {
      var i :| 0 <= i < |topk| && topk[i] == x;
      HomeBlockKept(blocks, remain, topk, i);
    }
    forall r | 0 <= r < |remain| ensures blocks[remain[r]] in placed.Values {
      var i := HomeBlockCovers(blocks, remain, topk, r);
      assert placed[topk[i]] == blocks[remain[r]];
    }
  }

  lemma HomeBlocksDistinct(blocks: seq<BlockNo>, remain: seq<nat>, topk: seq<nat>, i: nat, j: nat)
    requires Selection(blocks, remain, topk) && i < |topk| && j < |topk| && i != j
    ensures HomeBlock(blocks, remain, topk, i) != HomeBlock(blocks, remain, topk, j)
  {
    hide Home;
    HomesDistinct(remain, topk, i, j);
    HomeIsKept(remain, topk, i);
    HomeIsKept(remain, topk, j);
  }

  lemma HomeBlockCovers(blocks: seq<BlockNo>, remain: seq<nat>, topk: seq<nat>, r: nat) returns (i: nat)
    requires Selection(blocks, remain, topk) && r < |remain|
    ensures i < |topk| && HomeBlock(blocks, remain, topk, i) == blocks[remain[r]]
  {
    hide Home;
    HomesCover(remain, topk, remain[r]);
    i :| 0 <= i < |topk| && Home(remain, topk, i) == remain[r];
  }

  /** No move writes the block of a selected index that stays where it is. */
  lemma HitUntouched(mv: map<BlockNo, BlockNo>, blocks: seq<BlockNo>, remain: seq<nat>, topk: seq<nat>, i: nat)
    requires Selection(blocks, remain, topk) && MovesOf(mv, blocks, remain, topk, |topk|)
    requires i < |topk| && topk[i] in remain
    ensures blocks[topk[i]] !in mv.Values
  {
    hide HomeBlock;
    if a :| a in mv && mv[a] == blocks[topk[i]] {
      var j :| 0 <= j < |topk| && topk[j] !in remain && blocks[topk[j]] == a;
      HomeBlocksDistinct(blocks, remain, topk, i, j);
      HomeBlockAt(blocks, remain, topk, i);
      assert false;
    }
  }

  /** After the copies each selected block's original content is in its home. */
  lemma ContentAtHome<C>(mv: map<BlockNo, BlockNo>, blocks: seq<BlockNo>, remain: seq<nat>, topk: seq<nat>,
                         before: seq<C>, after: seq<C>, i: nat)
    requires Selection(blocks, remain, topk) && MovesOf(mv, blocks, remain, topk, |topk|) && Copied(mv, before, after)
    requires i < |topk| && forall k :: 0 <= k < |blocks| ==> blocks[k] < |before|
    ensures HomeBlock(blocks, remain, topk, i) < |after| && blocks[topk[i]] < |before|
    ensures after[HomeBlock(blocks, remain, topk, i)] == before[blocks[topk[i]]]
  {
    hide HomeBlock, Without, Distinct;
    HomeBlockKept(blocks, remain, topk, i);
    HomeBlockAt(blocks, remain, topk, i);
    if topk[i] in remain {
      HitUntouched(mv, blocks, remain, topk, i);
    }
  }

  lemma CopiesKeepContent<C>(mv: map<BlockNo, BlockNo>, placed: map<nat, BlockNo>, blocks: seq<BlockNo>,
                             remain: seq<nat>, topk: seq<nat>, before: seq<C>, after: seq<C>)
    requires Selection(blocks, remain, topk) && MovesOf(mv, blocks, remain, topk, |topk|) && Copied(mv, before, after)
    requires PlacedAtHome(placed, blocks, remain, topk) && forall k :: 0 <= k < |blocks| ==> blocks[k] < |before|
    ensures ContentKept(placed, blocks, topk, before, after)
    ensures forall p :: 0 <= p < |before| && !Kept(blocks, remain, p) ==> after[p] == before[p]
  {
    hide HomeBlock, Distinct;
    forall i | 0 <= i < |topk|
      ensures placed[topk[i]] < |after| && after[placed[topk[i]]] == before[blocks[topk[i]]]
    {
      ContentAtHome(mv, blocks, remain, topk, before, after, i);
    }
    MovesIntoKept(mv, blocks, remain, topk);
  }

  /** The whole step: every selected block's original content is in the block its index is mapped to, the maps together
      are a bijection from the selected indices to the kept blocks, and no block outside the kept ones changes. */
  method InitLastChunk<C>(blocks: seq<BlockNo>, remain: seq<nat>, topk: seq<nat>, remainLen: nat,
                          keys: array<C>, values: array<C>, useMla: bool)
    returns (remainMap: map<nat, BlockNo>, prefetchMap: map<nat, BlockNo>)
    requires Selection(blocks, remain, topk) && keys != values && keys.Length == values.Length
    requires forall k :: 0 <= k < |blocks| ==> blocks[k] < keys.Length
    modifies keys, values
    ensures remainMap.Keys !! prefetchMap.Keys && Relocated(remainMap + prefetchMap, blocks, remain, topk)
    ensures forall i :: 0 <= i < |topk| ==> (topk[i] in remainMap <==> i < remainLen)
    ensures ContentKept(remainMap + prefetchMap, blocks, topk, old(keys[..]), keys[..])
    ensures !useMla ==> ContentKept(remainMap + prefetchMap, blocks, topk, old(values[..]), values[..])
    ensures forall p :: 0 <= p < keys.Length && !Kept(blocks, remain, p) ==>
                          keys[p] == old(keys[p]) && values[p] == old(values[p])
  {
    hide HomeBlock, Home, Without, Distinct, Selection, MovesOf, SplitOf, Relocated, Kept, PlacedAtHome, Copied,
         ContentKept, Independent;
    var mv;
    mv, remainMap, prefetchMap := GetMvMap(blocks, remain, topk, remainLen);
    SplitPlaces(remainMap, prefetchMap, blocks, remain, topk, remainLen);
    PlacementBijective(remainMap + prefetchMap, blocks, remain, topk);
    MovesInRange(mv, blocks, remain, topk, keys.Length);
    CopyBlocks(mv, keys, values, useMla);
    CopiesKeepContent(mv, remainMap + prefetchMap, blocks, remain, topk, old(keys[..]), keys[..]);
    if !useMla {
      CopiesKeepContent(mv, remainMap + prefetchMap, blocks, remain, topk, old(values[..]), values[..]);
    }
  }

  lemma MovesInRange(mv: map<BlockNo, BlockNo>, blocks: seq<BlockNo>, remain: seq<nat>, topk: seq<nat>, size: nat)
    requires Selection(blocks, remain, topk) && MovesOf(mv, blocks, remain, topk, |topk|)
    requires forall k :: 0 <= k < |blocks| ==> blocks[k] < size
    ensures forall b :: b in mv ==> b < size && mv[b] < size
  {
    hide HomeBlock, Distinct;
    MovesIntoKept(mv, blocks, remain, topk);
  }

  ghost predicate ContentKept<C>(placed: map<nat, BlockNo>, blocks: seq<BlockNo>, topk: seq<nat>,
                                 before: seq<C>, after: seq<C>) {
    forall i :: 0 <= i < |topk| ==>
      && topk[i] in placed && topk[i] < |blocks| && placed[topk[i]] < |after| && blocks[topk[i]] < |before|
      && after[placed[topk[i]]] == before[blocks[topk[i]]]
  }
}
