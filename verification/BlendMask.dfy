/** Cache blending: after the cached chunks are compared with the recomputed keys, only some tokens go on through the
    model; the mask says which, and the query lengths and start positions are rebuilt for the compacted batch. */
module BlendMask {
  import opened Residues
  import opened Sequences

  // ---- counting and compaction ----

  function Count(mask: seq<bool>): nat {
    if mask == [] then 0 else Count(mask[..|mask| - 1]) + if mask[|mask| - 1] then 1 else 0
  }

  /** `tensor[mask]` */
  function Select<T>(xs: seq<T>, mask: seq<bool>): seq<T>
    requires |xs| == |mask|
  {
    if xs == [] then []
    else Select(xs[..|xs| - 1], mask[..|xs| - 1]) + if mask[|xs| - 1] then [xs[|xs| - 1]] else []
  }

  lemma {:induction false} SelectLength<T>(xs: seq<T>, mask: seq<bool>)
    requires |xs| == |mask|
    ensures |Select(xs, mask)| == Count(mask)
  {
    if xs != [] {
      SelectLength(xs[..|xs| - 1], mask[..|xs| - 1]);
    }
  }

  lemma CountStep(mask: seq<bool>, p: nat)
    requires p < |mask|
    ensures Count(mask[..p + 1]) == Count(mask[..p]) + if mask[p] then 1 else 0
  {
    assert mask[..p + 1][..p] == mask[..p];
  }

  lemma {:induction false} CountMonotone(mask: seq<bool>, p: nat, q: nat)
    requires p <= q <= |mask|
    ensures Count(mask[..p]) <= Count(mask[..q])
    decreases q
  {
    if p < q {
      CountMonotone(mask, p, q - 1);
      CountStep(mask, q - 1);
    }
  }

  lemma {:induction false} CountSplit(mask: seq<bool>, p: nat, q: nat)
    requires p <= q <= |mask|
    ensures Count(mask[..q]) == Count(mask[..p]) + Count(mask[p..q])
    decreases q
  {
    if p == q {
      assert mask[p..q] == [];
    } else {
      CountSplit(mask, p, q - 1);
      CountStep(mask, q - 1);
      assert mask[p..q][..q - 1 - p] == mask[p..q - 1];
    }
  }

  /** A selected token is found at the position that counts the selected tokens before it. */
  lemma {:induction false} SelectAt<T>(xs: seq<T>, mask: seq<bool>, p: nat)
    requires |xs| == |mask| && p < |mask| && mask[p]
    ensures Count(mask[..p]) < |Select(xs, mask)| && Select(xs, mask)[Count(mask[..p])] == xs[p]
  {
    var n := |xs| - 1;
    SelectLength(xs[..n], mask[..n]);
    if p == n {
      assert mask[..p] == mask[..n];
    } else {
      SelectAt(xs[..n], mask[..n], p);
      assert mask[..n][..p] == mask[..p];
    }
  }

  // ---- the mask of one request ----

  /** The positions of true entries. */
  ghost function Trues(mask: seq<bool>): set<int> {
    set i | 0 <= i < |mask| && mask[i]
  }

  lemma {:induction false} CountIsTrues(mask: seq<bool>)
    ensures Count(mask) == |Trues(mask)|
  {
    if mask == [] {
      assert Trues(mask) == {};
    } else {
      var n := |mask| - 1;
      CountIsTrues(mask[..n]);
      assert Trues(mask) == Trues(mask[..n]) + if mask[n] then {n} else {};
    }
  }

  /** The tokens of the hit blocks, in order: `mask_idx[:n][hit_mask].reshape(-1)`. */
  function Candidates(hits: seq<bool>, size: nat): seq<int> {
    if hits == [] then []
    else
      var n := |hits| - 1;
      Candidates(hits[..n], size) + if hits[n] then BlockTokens(n, size) else []
  }

  function BlockTokens(block: nat, size: nat): seq<int> {
    seq(size, i => Span(size, block) + i)
  }

  /** Token x of the chunk area is in a hit block. */
  predicate InHit(hits: seq<bool>, size: nat, x: int)
    requires size > 0
  {
    0 <= x < Span(size, |hits|) && WholeBlocks(size, x) < |hits| && hits[WholeBlocks(size, x)]
  }

  lemma BlockOf(size: nat, block: nat, x: int)
    requires size > 0 && x >= 0
    ensures Span(size, block) <= x < Span(size, block) + size <==> WholeBlocks(size, x) == block
    ensures x < Span(size, block) <==> WholeBlocks(size, x) < block
  {
    DivSpan(size, x, block);
    DivSpan(size, x, block + 1);
    SpanStep(size, block);
  }

  lemma AppendDistinct(a: seq<int>, b: seq<int>)
    requires Distinct(a) && Distinct(b) && forall x :: x in a ==> x !in b
    ensures Distinct(a + b)
  {
    assert forall i :: 0 <= i < |a| ==> a[i] in a;
    assert forall i :: 0 <= i < |b| ==> b[i] in b;
  }

  lemma {:induction false} CandidatesAreHits(hits: seq<bool>, size: nat)
    requires size > 0
    ensures Distinct(Candidates(hits, size)) && |Candidates(hits, size)| == Span(size, Count(hits))
    ensures forall x :: x in Candidates(hits, size) <==> InHit(hits, size, x)
  {
    if hits == [] {
      SpanStep(size, 0);
    } else {
      var n := |hits| - 1;
      var before, last := hits[..n], BlockTokens(n, size);
      CandidatesAreHits(before, size);
      SpanStep(size, n);
      SpanStep(size, Count(before));
      forall x | x >= 0 { BlockOf(size, n, x); }
      hide Span, WholeBlocks;
      assert forall x :: x in last <==> Span(size, n) <= x < Span(size, n) + size by {
        forall x | Span(size, n) <= x < Span(size, n) + size ensures x in last {
          assert last[x - Span(size, n)] == x;
        }
      }
      AppendDistinct(Candidates(before, size), last);
    }
  }

  /** The chunk area of a request after the update: all of the missed blocks, and the chosen tokens of the hit ones. */
  function ChunkMask(hits: seq<bool>, size: nat, chosen: seq<int>): seq<bool>
    requires size > 0
  {
    seq(Span(size, |hits|), i requires 0 <= i < Span(size, |hits|) => !InHit(hits, size, i) || i in chosen)
  }

  /** The mask of the whole request: its chunk area, then the question, all computed. */
  function RequestMask(hits: seq<bool>, size: nat, chosen: seq<int>, length: nat): seq<bool>
    requires size > 0 && Span(size, |hits|) <= length
  {
    ChunkMask(hits, size, chosen) + seq(length - Span(size, |hits|), _ => true)
  }

  /** The tokens with the largest deviation: distinct positions in the candidate list. */
  ghost predicate Selection(hits: seq<bool>, size: nat, top: seq<nat>) {
    Distinct(top) && forall i :: 0 <= i < |top| ==> top[i] < |Candidates(hits, size)|
  }

  /** Their positions in the chunk area. */
  function Chosen(hits: seq<bool>, size: nat, top: seq<nat>): seq<int>
    requires forall i :: 0 <= i < |top| ==> top[i] < |Candidates(hits, size)|
  {
    seq(|top|, i requires 0 <= i < |top| => Candidates(hits, size)[top[i]])
  }

  function AllTrue(n: nat): seq<bool> { seq(n, _ => true) }

  function AllFalse(n: nat): seq<bool> { seq(n, _ => false) }

  lemma {:induction false} CountAllTrue(n: nat)
    ensures Count(AllTrue(n)) == n
  {
    if n > 0 {
      CountAllTrue(n - 1);
      assert AllTrue(n)[..n - 1] == AllTrue(n - 1);
    }
  }

  lemma ChosenAreCandidates(hits: seq<bool>, size: nat, top: seq<nat>)
    requires size > 0 && Selection(hits, size, top)
    ensures Distinct(Chosen(hits, size, top)) && Elements(Chosen(hits, size, top)) <= Elements(Candidates(hits, size))
  {
    CandidatesAreHits(hits, size);
    hide Candidates;
  }

  lemma ChunkTrues(hits: seq<bool>, size: nat, chosen: seq<int>)
    requires size > 0 && Elements(chosen) <= Elements(Candidates(hits, size))
    ensures Elements(Candidates(hits, size)) <= Trues(AllTrue(Span(size, |hits|)))
    ensures Trues(ChunkMask(hits, size, chosen)) ==
            (Trues(AllTrue(Span(size, |hits|))) - Elements(Candidates(hits, size))) + Elements(chosen)
  {
    var n, cand, mask := Span(size, |hits|), Candidates(hits, size), ChunkMask(hits, size, chosen);
    hide *;
    CandidatesAreHits(hits, size);
    forall x: int
      ensures x in Trues(mask) <==> x in (Trues(AllTrue(n)) - Elements(cand)) + Elements(chosen)
      ensures x in Elements(cand) ==> x in Trues(AllTrue(n))
    {
      ChunkTrueAt(hits, size, chosen, x);
      TrueAt(n, x);
      ElementAt(cand, x);
      ElementAt(chosen, x);
      HitInside(hits, size, x);
    }
  }

  lemma ElementAt(s: seq<int>, x: int)
    ensures x in Elements(s) <==> x in s
  {
  }

  lemma HitInside(hits: seq<bool>, size: nat, x: int)
    requires size > 0
    ensures InHit(hits, size, x) ==> 0 <= x < Span(size, |hits|)
  {
    hide Span, WholeBlocks;
  }

  lemma TrueAt(n: nat, x: int)
    ensures x in Trues(AllTrue(n)) <==> 0 <= x < n
  {
  }

  lemma ChunkTrueAt(hits: seq<bool>, size: nat, chosen: seq<int>, x: int)
    requires size > 0
    ensures x in Trues(ChunkMask(hits, size, chosen)) <==>
            0 <= x < Span(size, |hits|) && (!InHit(hits, size, x) || x in chosen)
  {
    hide Span, InHit;
  }

  /** The chunk area computes the missed blocks and as many tokens as were chosen. */
  lemma ChunkCount(hits: seq<bool>, size: nat, top: seq<nat>)
    requires size > 0 && Selection(hits, size, top)
    ensures Count(ChunkMask(hits, size, Chosen(hits, size, top))) ==
            Span(size, |hits|) - Span(size, Count(hits)) + |top|
  {
    var n, cand, chosen := Span(size, |hits|), Candidates(hits, size), Chosen(hits, size, top);
    assert |chosen| == |top|;
    hide *;
    CandidatesAreHits(hits, size);
    ChosenAreCandidates(hits, size, top);
    ChunkTrues(hits, size, chosen);
    CountIsTrues(ChunkMask(hits, size, chosen));
    DistinctCount(cand);
    DistinctCount(chosen);
    CountAllTrue(n);
    CountIsTrues(AllTrue(n));
    UnionCount(Trues(AllTrue(n)), Elements(cand), Elements(chosen));
  }

  lemma UnionCount(all: set<int>, some: set<int>, few: set<int>)
    requires few <= some <= all
    ensures |(all - some) + few| == |all| - |some| + |few|
  {
    assert (all - some) * few == {};
    assert all == (all - some) + some;
    assert (all - some) * some == {};
  }

  // ---- the batch ----

  /** A new request of the batch: one without chunk metadata is skipped by the blend layer; one with them is listed with
      the hits of its chunk blocks and the tokens that are going to be chosen among the found ones. */
  datatype Request = Skipped | Listed(hits: seq<bool>, top: seq<nat>) {
    predicate NeedBlend() { Listed? && Count(hits) > 0 }
  }

  ghost predicate AnyBlends(batch: seq<Request>, n: nat)
    requires n <= |batch|
  {
    exists k :: 0 <= k < n && batch[k].NeedBlend()
  }

  lemma AnyBlendsStep(batch: seq<Request>, n: nat)
    requires n < |batch|
    ensures AnyBlends(batch, n + 1) <==> AnyBlends(batch, n) || batch[n].NeedBlend()
  {
    hide Count;
  }

  /** The mask a request of a given length ends up with: nothing of a skipped one is computed. */
  function MaskFor(r: Request, size: nat, length: nat): seq<bool>
    requires size > 0 && (r.NeedBlend() ==> Fits(r, size, length))
  {
    if r.NeedBlend() then RequestMask(r.hits, size, Chosen(r.hits, size, r.top), length)
    else if r.Listed? then AllTrue(length)
    else AllFalse(length)
  }

  /** The chunk area lies within the request's query, and the selection within the candidates. */
  predicate Fits(r: Request, size: nat, length: nat)
    requires r.Listed?
  {
    && Span(size, |r.hits|) <= length
    && forall i :: 0 <= i < |r.top| ==> r.top[i] < |Candidates(r.hits, size)|
  }

  /** The tokens whose cached values are kept. */
  function Reused(r: Request, size: nat): int {
    if r.NeedBlend() then Span(size, Count(r.hits)) - |r.top| else 0
  }

  lemma {:induction false} CountAppend(a: seq<bool>, b: seq<bool>)
    ensures Count(a + b) == Count(a) + Count(b)
  {
    CountSplit(a + b, |a|, |a + b|);
    assert (a + b)[..|a|] == a && (a + b)[|a|..|a + b|] == b && (a + b)[..|a + b|] == a + b;
  }

  lemma {:induction false} CountAllFalse(n: nat)
    ensures Count(AllFalse(n)) == 0
  {
    if n > 0 {
      CountAllFalse(n - 1);
      assert AllFalse(n)[..n - 1] == AllFalse(n - 1);
    }
  }

  /** The number of computed tokens of a listed request is its query length less the reused tokens. */
  lemma RequestCount(r: Request, size: nat, length: nat)
    requires size > 0 && (r.NeedBlend() ==> Fits(r, size, length)) && (r.Listed? ==> Distinct(r.top))
    ensures |MaskFor(r, size, length)| == length
    ensures Count(MaskFor(r, size, length)) == if r.Listed? then length - Reused(r, size) else 0
  {
    hide Count, Span, Candidates, Distinct, Chosen;
    if r.NeedBlend() {
      var area := Span(size, |r.hits|);
      ChunkCount(r.hits, size, r.top);
      CountAppend(ChunkMask(r.hits, size, Chosen(r.hits, size, r.top)), AllTrue(length - area));
      CountAllTrue(length - area);
    } else {
      CountAllTrue(length);
      CountAllFalse(length);
    }
  }

  /** The last token of a listed request is computed, unless the request ends with its chunks and the token is a found
      one that was not chosen. */
  lemma LastTokenComputed(r: Request, size: nat, length: nat)
    requires size > 0 && length > 0 && (r.NeedBlend() ==> Fits(r, size, length))
    ensures |MaskFor(r, size, length)| == length
    ensures MaskFor(r, size, length)[length - 1] <==>
            r.Listed? && !(r.NeedBlend() && length == Span(size, |r.hits|) && InHit(r.hits, size, length - 1) &&
                           length - 1 !in Chosen(r.hits, size, r.top))
  {
    hide Count, Span, Candidates, Chosen, InHit;
  }

  // ---- which tokens are computed ----

  /** A found block's tokens stand in the list of candidates after those of the found blocks before it. */
  lemma {:induction false} CandidateAt(hits: seq<bool>, size: nat, b: nat, o: nat)
    requires size > 0 && b < |hits| && hits[b] && o < size
    ensures var p := Span(size, Count(hits[..b])) + o;
            p < |Candidates(hits, size)| && Candidates(hits, size)[p] == Span(size, b) + o
  {
    var n := |hits| - 1;
    CandidatesAreHits(hits[..n], size);
    if b == n {
      CandidatesAreHits(hits, size);
      CountStep(hits, n);
      SpanStep(size, Count(hits[..n]));
      assert hits[..n + 1] == hits;
      assert BlockTokens(n, size)[o] == Span(size, n) + o;
      hide Span, Count;
    } else {
      CandidateAt(hits[..n], size, b, o);
      assert hits[..n][..b] == hits[..b];
      hide Span, Count;
    }
  }

  /** Whether token x of a listed request is computed, given the hits of its blocks and the places of the chosen
      tokens: it is if no block was found, if it is in the question, or if it is in a missed block; in a found block it
      is exactly when the number of tokens of found blocks before it is one of the chosen places. */
  ghost predicate TokenRight(hits: seq<bool>, top: seq<nat>, size: nat, x: nat, computed: bool) {
    && ((forall b :: 0 <= b < |hits| ==> !hits[b]) ==> computed)
    && (Span(size, |hits|) <= x ==> computed)
    && ((exists b :: 0 <= b < |hits| && hits[b]) ==>
          forall b :: 0 <= b < |hits| && Span(size, b) <= x < Span(size, b) + size ==>
                        (computed <==> !hits[b] || Span(size, Count(hits[..b])) + x - Span(size, b) in top))
  }

  lemma CountHits(hits: seq<bool>)
    ensures Count(hits) > 0 <==> exists b :: 0 <= b < |hits| && hits[b]
  {
    CountIsTrues(hits);
    if Count(hits) > 0 {
      var b :| b in Trues(hits);
    } else {
      assert Trues(hits) == {};
      assert forall b :: 0 <= b < |hits| && hits[b] ==> b in Trues(hits);
    }
  }

  lemma ChosenAt(hits: seq<bool>, top: seq<nat>, size: nat, b: nat, o: nat)
    requires size > 0 && Selection(hits, size, top) && b < |hits| && o < size
    ensures InHit(hits, size, Span(size, b) + o) <==> hits[b]
    ensures Span(size, b) + o < Span(size, |hits|)
    ensures hits[b] ==> (Span(size, b) + o in Chosen(hits, size, top) <==> Span(size, Count(hits[..b])) + o in top)
  {
    BlockOf(size, b, Span(size, b) + o);
    SpanMonotone(size, b + 1, |hits|);
    SpanStep(size, b);
    if hits[b] {
      CandidateAt(hits, size, b, o);
      CandidatesAreHits(hits, size);
      var p, cand := Span(size, Count(hits[..b])) + o, Candidates(hits, size);
      hide Candidates, Count, Span, InHit, WholeBlocks;
      assert Span(size, b) + o in Chosen(hits, size, top) <==>
             exists i :: 0 <= i < |top| && cand[top[i]] == cand[p] by {
        if i :| 0 <= i < |top| && cand[top[i]] == cand[p] {
          assert Chosen(hits, size, top)[i] == cand[p];
        }
      }
    }
  }

  lemma MaskTokens(r: Request, size: nat, length: nat, x: nat)
    requires size > 0 && x < length && r.Listed? && Distinct(r.top) && (r.NeedBlend() ==> Fits(r, size, length))
    ensures |MaskFor(r, size, length)| == length
    ensures TokenRight(r.hits, r.top, size, x, MaskFor(r, size, length)[x])
  {
    CountHits(r.hits);
    hide Count, Span, Candidates, Chosen, InHit, Distinct;
    if r.NeedBlend() {
      forall b | 0 <= b < |r.hits| && Span(size, b) <= x < Span(size, b) + size
        ensures MaskFor(r, size, length)[x] <==>
                !r.hits[b] || Span(size, Count(r.hits[..b])) + x - Span(size, b) in r.top
      {
        ChosenAt(r.hits, r.top, size, b, x - Span(size, b));
      }
    }
  }

  /** Positions a to b of the mask replaced. */
  function Splice(mask: seq<bool>, a: nat, b: nat, part: seq<bool>): seq<bool>
    requires a <= b <= |mask| && |part| == b - a
  {
    mask[..a] + part + mask[b..]
  }

  lemma SpliceParts(mask: seq<bool>, a: nat, b: nat, part: seq<bool>, x: nat, y: nat)
    requires a <= b <= |mask| && |part| == b - a && x <= y <= |mask|
    ensures |Splice(mask, a, b, part)| == |mask|
    ensures y <= a || b <= x ==> Splice(mask, a, b, part)[x..y] == mask[x..y]
    ensures Splice(mask, a, b, part)[a..b] == part
  {
  }

  ghost predicate Ascending(starts: seq<nat>) {
    forall i, j :: 0 <= i <= j < |starts| ==> starts[i] <= starts[j]
  }

  /** Each new position is the number of computed tokens before the old one. */
  ghost predicate Compacted(mask: seq<bool>, before: seq<nat>, after: seq<nat>) {
    && |after| == |before|
    && forall r :: 0 <= r < |after| ==> before[r] <= |mask| && after[r] == Count(mask[..before[r]])
  }

  /** `[0] + cumsum(lens)` */
  function PrefixSums(lens: seq<nat>): (sums: seq<nat>)
    ensures |sums| == |lens| + 1
  {
    if lens == [] then [0]
    else
      var before := PrefixSums(lens[..|lens| - 1]);
      before + [before[|before| - 1] + lens[|lens| - 1]]
  }

  ghost predicate IsLargest(m: nat, lens: seq<nat>) {
    m in lens && forall i :: 0 <= i < |lens| ==> lens[i] <= m
  }

  function Largest(lens: seq<nat>): (m: nat)
    requires lens != []
    ensures IsLargest(m, lens)
  {
    if |lens| == 1 then lens[0]
    else
      var m := Largest(lens[..|lens| - 1]);
      if lens[|lens| - 1] > m then lens[|lens| - 1] else m
  }

  lemma {:induction false} SumsStep(lens: seq<nat>, r: nat)
    requires r < |lens|
    ensures PrefixSums(lens)[0] == 0 && PrefixSums(lens)[r + 1] == PrefixSums(lens)[r] + lens[r]
  {
    var n := |lens| - 1;
    if r < n {
      SumsStep(lens[..n], r);
    } else if n > 0 {
      SumsStep(lens[..n], 0);
    }
  }

  // ---- query lengths and computed tokens ----

  ghost predicate Tiles(mask: seq<bool>, starts: seq<nat>, lens: seq<nat>) {
    |starts| == |lens| + 1 && starts[0] == 0 && Ascending(starts) && starts[|lens|] <= |mask|
  }

  ghost function CountIn(mask: seq<bool>, starts: seq<nat>, r: nat): nat
    requires r + 1 < |starts| && starts[r] <= starts[r + 1] <= |mask|
  {
    Count(mask[starts[r]..starts[r + 1]])
  }

  ghost predicate LenCounts(mask: seq<bool>, starts: seq<nat>, lens: seq<nat>, r: nat)
    requires Tiles(mask, starts, lens) && r < |lens|
  {
    CountIn(mask, starts, r) == lens[r]
  }

  ghost predicate CountsUpTo(mask: seq<bool>, starts: seq<nat>, lens: seq<nat>, n: nat)
    requires Tiles(mask, starts, lens) && n <= |lens|
  {
    forall r :: 0 <= r < n ==> LenCounts(mask, starts, lens, r)
  }

  /** No query length is less than the computed tokens of its request. */
  ghost predicate LensCover(mask: seq<bool>, starts: seq<nat>, lens: seq<nat>)
    requires Tiles(mask, starts, lens)
  {
    forall r :: 0 <= r < |lens| ==> CountIn(mask, starts, r) <= lens[r]
  }

  /** A rebuilt start position is the number of computed tokens before its request exactly when the query lengths of all
      requests before it count their computed tokens; else it is larger. */
  lemma {:induction false} StartsCompacted(mask: seq<bool>, starts: seq<nat>, lens: seq<nat>, r: nat)
    requires Tiles(mask, starts, lens) && LensCover(mask, starts, lens) && r <= |lens|
    ensures starts[r] <= |mask| && Count(mask[..starts[r]]) <= PrefixSums(lens)[r]
    ensures Count(mask[..starts[r]]) == PrefixSums(lens)[r] <==> CountsUpTo(mask, starts, lens, r)
    decreases r
  {
    if r == 0 {
      assert mask[..starts[0]] == [];
      if lens != [] {
        SumsStep(lens, 0);
      }
    } else {
      StartsCompacted(mask, starts, lens, r - 1);
      CountSplit(mask, starts[r - 1], starts[r]);
      SumsStep(lens, r - 1);
      hide Count, PrefixSums;
      assert LenCounts(mask, starts, lens, r - 1) <==> CountIn(mask, starts, r - 1) == lens[r - 1];
    }
  }

  /** The rebuilt start positions are the compaction map exactly when every query length counts the computed tokens of
      its request. */
  lemma CompactedIff(mask: seq<bool>, starts: seq<nat>, lens: seq<nat>)
    requires Tiles(mask, starts, lens) && LensCover(mask, starts, lens)
    ensures Compacted(mask, starts, PrefixSums(lens)) <==> CountsUpTo(mask, starts, lens, |lens|)
  {
    hide Count, PrefixSums, LensCover, LenCounts;
    forall r | 0 <= r <= |lens|
      ensures starts[r] <= |mask|
      ensures Count(mask[..starts[r]]) == PrefixSums(lens)[r] <==> CountsUpTo(mask, starts, lens, r)
    {
      StartsCompacted(mask, starts, lens, r);
    }
  }

  // ---- the layout of a batch ----

  /** The layout of a batch: the requests that were scheduled before at the front, then the new ones, none without a
      token to compute. */
  ghost predicate Layout(size: nat, cached: nat, starts: seq<nat>, batch: seq<Request>) {
    && size > 0 && |starts| == cached + |batch| + 1 && starts[0] == 0 && Ascending(starts)
    && (forall r :: 0 <= r < |starts| - 1 ==> starts[r] < starts[r + 1])
    && (forall k :: 0 <= k < |batch| ==> RequestFits(size, cached, starts, batch, k))
  }

  /** What is known of a request: its selection is one of distinct candidates, and a blended prompt goes on after its
      chunks (`BlendDispatch.ProcessReq`). */
  ghost predicate RequestFits(size: nat, cached: nat, starts: seq<nat>, batch: seq<Request>, k: nat)
    requires k < |batch| && |starts| == cached + |batch| + 1 && Ascending(starts)
  {
    var r, length := batch[k], starts[cached + k + 1] - starts[cached + k];
    && (r.Listed? ==> Distinct(r.top))
    && (r.NeedBlend() ==> Fits(r, size, length) && Span(size, |r.hits|) < length)
  }

  lemma {:induction false} StartsAtLeast(starts: seq<nat>, r: nat)
    requires r < |starts| && forall i :: 0 <= i < |starts| - 1 ==> starts[i] < starts[i + 1]
    ensures r <= starts[r]
  {
    if r > 0 {
      StartsAtLeast(starts, r - 1);
    }
  }

  /** The first n new requests have their masks, as many tokens as there are requests at the front are computed, and
      nothing else is yet. */
  ghost predicate MaskUpTo(mask: seq<bool>, size: nat, cached: nat, starts: seq<nat>, batch: seq<Request>, n: nat)
    requires Layout(size, cached, starts, batch) && n <= |batch|
  {
    && |mask| == starts[cached + |batch|]
    && (forall p :: 0 <= p < starts[cached] ==> mask[p] == (p < cached))
    && (forall k :: 0 <= k < n ==> PartOf(mask, cached, starts, k) == RequestPart(size, cached, starts, batch, k))
    && (forall p :: starts[cached + n] <= p < |mask| ==> !mask[p])
  }

  ghost function PartOf(mask: seq<bool>, cached: nat, starts: seq<nat>, k: nat): seq<bool>
    requires cached + k + 1 < |starts| && Ascending(starts) && starts[cached + k + 1] <= |mask|
  {
    mask[starts[cached + k]..starts[cached + k + 1]]
  }

  ghost function RequestPart(size: nat, cached: nat, starts: seq<nat>, batch: seq<Request>, k: nat): seq<bool>
    requires Layout(size, cached, starts, batch) && k < |batch|
  {
    assert RequestFits(size, cached, starts, batch, k);
    MaskFor(batch[k], size, starts[cached + k + 1] - starts[cached + k])
  }

  /** The query lengths of the batch, less the reused tokens of the first n new requests. */
  ghost predicate LensUpTo(lens: seq<int>, size: nat, cached: nat, starts: seq<nat>, batch: seq<Request>, n: nat) {
    && |lens| == cached + |batch| && |starts| == |lens| + 1
    && (forall r :: 0 <= r < |lens| ==>
                      lens[r] == starts[r + 1] - starts[r] -
                                 if cached <= r < cached + n then Reused(batch[r - cached], size) else 0)
  }

  lemma PartLength(size: nat, cached: nat, starts: seq<nat>, batch: seq<Request>, k: nat)
    requires Layout(size, cached, starts, batch) && k < |batch|
    ensures |RequestPart(size, cached, starts, batch, k)| == starts[cached + k + 1] - starts[cached + k]
    ensures Count(RequestPart(size, cached, starts, batch, k)) ==
            if batch[k].Listed? then starts[cached + k + 1] - starts[cached + k] - Reused(batch[k], size) else 0
  {
    assert RequestFits(size, cached, starts, batch, k);
    hide Count, Fits, Reused, MaskFor, Distinct;
    RequestCount(batch[k], size, starts[cached + k + 1] - starts[cached + k]);
  }

  /** Writing a request's part leaves the parts before it alone. */
  lemma MaskStep(mask: seq<bool>, size: nat, cached: nat, starts: seq<nat>, batch: seq<Request>, n: nat)
    requires Layout(size, cached, starts, batch) && n < |batch|
    requires MaskUpTo(mask, size, cached, starts, batch, n)
    ensures |RequestPart(size, cached, starts, batch, n)| == starts[cached + n + 1] - starts[cached + n]
    ensures starts[cached + n + 1] <= |mask|
    ensures MaskUpTo(Splice(mask, starts[cached + n], starts[cached + n + 1],
                            RequestPart(size, cached, starts, batch, n)), size, cached, starts, batch, n + 1)
  {
    PartLength(size, cached, starts, batch, n);
    hide RequestPart, Count;
    var a, b, part := starts[cached + n], starts[cached + n + 1], RequestPart(size, cached, starts, batch, n);
    var mask' := Splice(mask, a, b, part);
    forall p | 0 <= p < starts[cached] ensures mask'[p] == mask[p] {
      assert p < a;
    }
    forall k | 0 <= k < n ensures PartOf(mask', cached, starts, k) == PartOf(mask, cached, starts, k) {
      SpliceParts(mask, a, b, part, starts[cached + k], starts[cached + k + 1]);
    }
    assert PartOf(mask', cached, starts, n) == part;
  }

  ghost predicate AllSkipped(batch: seq<Request>, from: nat, to: nat)
    requires to <= |batch|
  {
    forall k :: from <= k < to ==> batch[k].Skipped?
  }

  /** Passing over requests that are not listed changes nothing: their part stays blank. */
  lemma SkipTo(mask: seq<bool>, lens: seq<nat>, size: nat, cached: nat, starts: seq<nat>, batch: seq<Request>,
               k: nat, k': nat)
    requires Layout(size, cached, starts, batch) && k <= k' <= |batch| && AllSkipped(batch, k, k')
    requires MaskUpTo(mask, size, cached, starts, batch, k) && LensUpTo(lens, size, cached, starts, batch, k)
    ensures MaskUpTo(mask, size, cached, starts, batch, k') && LensUpTo(lens, size, cached, starts, batch, k')
    ensures AnyBlends(batch, k') <==> AnyBlends(batch, k)
  {
    hide Count;
    forall j | k <= j < k' ensures PartOf(mask, cached, starts, j) == RequestPart(size, cached, starts, batch, j) {
      assert batch[j].Skipped?;
    }
    forall j | k <= j < k' ensures Reused(batch[j], size) == 0 && !batch[j].NeedBlend() {
      assert batch[j].Skipped?;
    }
  }

  // ---- which requests are accounted for ----

  /** The query length of request r is going to count its computed tokens: at the front its tokens are among the first
      `cached`, a new one is listed. */
  ghost predicate Accounted(cached: nat, starts: seq<nat>, batch: seq<Request>, r: nat)
    requires |starts| == cached + |batch| + 1 && r < cached + |batch|
  {
    if r < cached then starts[r + 1] <= cached else batch[r - cached].Listed?
  }

  ghost predicate AccountedUpTo(cached: nat, starts: seq<nat>, batch: seq<Request>, n: nat)
    requires |starts| == cached + |batch| + 1 && n <= cached + |batch|
  {
    forall r :: 0 <= r < n ==> Accounted(cached, starts, batch, r)
  }

  /** One token for each request at the front, and chunk metadata for each new one. */
  ghost predicate Supported(cached: nat, starts: seq<nat>, batch: seq<Request>)
    requires |starts| == cached + |batch| + 1
  {
    && (forall r :: 0 <= r < cached ==> starts[r + 1] == starts[r] + 1)
    && forall k :: 0 <= k < |batch| ==> batch[k].Listed?
  }

  lemma {:induction false} OneTokenEach(starts: seq<nat>, cached: nat)
    requires cached < |starts| && starts[0] == 0 && forall r :: 0 <= r < cached ==> starts[r + 1] == starts[r] + 1
    ensures starts[cached] == cached
  {
    if cached > 0 {
      OneTokenEach(starts, cached - 1);
    }
  }

  lemma {:induction false} RoomForOneEach(starts: seq<nat>, cached: nat, r: nat)
    requires r <= cached < |starts| && (forall i :: 0 <= i < cached ==> starts[i] < starts[i + 1])
    ensures starts[r] <= starts[cached] - (cached - r)
    decreases cached - r
  {
    if r < cached {
      RoomForOneEach(starts, cached, r + 1);
    }
  }

  /** All requests are accounted for exactly when the batch is a supported one. */
  lemma AllAccountedIff(size: nat, cached: nat, starts: seq<nat>, batch: seq<Request>)
    requires Layout(size, cached, starts, batch)
    ensures AccountedUpTo(cached, starts, batch, cached + |batch|) <==> Supported(cached, starts, batch)
  {
    if AccountedUpTo(cached, starts, batch, cached + |batch|) {
      forall k | 0 <= k < |batch| ensures batch[k].Listed? {
        assert Accounted(cached, starts, batch, cached + k);
      }
      assert cached > 0 ==> Accounted(cached, starts, batch, cached - 1);
      forall r | 0 <= r < cached ensures starts[r + 1] == starts[r] + 1 {
        StartsAtLeast(starts, r);
        StartsAtLeast(starts, r + 1);
        RoomForOneEach(starts, cached, r);
        RoomForOneEach(starts, cached, r + 1);
      }
    }
    if Supported(cached, starts, batch) {
      OneTokenEach(starts, cached);
    }
  }

  lemma {:induction false} CountFull(mask: seq<bool>)
    ensures Count(mask) <= |mask| && (Count(mask) == |mask| <==> forall i :: 0 <= i < |mask| ==> mask[i])
  {
    if mask != [] {
      CountFull(mask[..|mask| - 1]);
    }
  }

  /** The computed tokens of a request at the front. */
  lemma FrontCounts(mask: seq<bool>, size: nat, cached: nat, starts: seq<nat>, batch: seq<Request>, r: nat)
    requires Layout(size, cached, starts, batch) && MaskUpTo(mask, size, cached, starts, batch, |batch|) && r < cached
    ensures starts[r] < starts[r + 1] <= |mask| && CountIn(mask, starts, r) <= starts[r + 1] - starts[r]
    ensures CountIn(mask, starts, r) == starts[r + 1] - starts[r] <==> starts[r + 1] <= cached
    ensures mask[starts[r + 1] - 1] <==> starts[r + 1] <= cached
  {
    var part := mask[starts[r]..starts[r + 1]];
    CountFull(part);
    hide Count, RequestPart, RequestFits;
    assert part[|part| - 1] == mask[starts[r + 1] - 1];
  }

  /** The computed tokens of a new request. */
  lemma NewCounts(mask: seq<bool>, size: nat, cached: nat, starts: seq<nat>, batch: seq<Request>, k: nat)
    requires Layout(size, cached, starts, batch) && MaskUpTo(mask, size, cached, starts, batch, |batch|)
    requires k < |batch|
    ensures var r := cached + k;
            && starts[r] < starts[r + 1] <= |mask|
            && CountIn(mask, starts, r) ==
               (if batch[k].Listed? then starts[r + 1] - starts[r] - Reused(batch[k], size) else 0)
            && (mask[starts[r + 1] - 1] <==> batch[k].Listed?)
  {
    var r := cached + k;
    var length := starts[r + 1] - starts[r];
    assert RequestFits(size, cached, starts, batch, k);
    PartLength(size, cached, starts, batch, k);
    assert PartOf(mask, cached, starts, k) == RequestPart(size, cached, starts, batch, k);
    LastTokenComputed(batch[k], size, length);
    hide Count, MaskFor, Reused, Chosen, InHit, Span, Candidates;
    assert PartOf(mask, cached, starts, k)[length - 1] == mask[starts[r + 1] - 1];
  }

  /** When the layer is done, the query length of a request counts its computed tokens, and its last token is computed,
      exactly when it is accounted for; else the length is larger. */
  lemma EntryCounts(mask: seq<bool>, lens: seq<nat>, size: nat, cached: nat, starts: seq<nat>, batch: seq<Request>,
                    r: nat)
    requires Layout(size, cached, starts, batch) && MaskUpTo(mask, size, cached, starts, batch, |batch|)
    requires LensUpTo(lens, size, cached, starts, batch, |batch|) && r < |lens|
    ensures Tiles(mask, starts, lens) && CountIn(mask, starts, r) <= lens[r]
    ensures LenCounts(mask, starts, lens, r) <==> Accounted(cached, starts, batch, r)
    ensures |starts| == |lens| + 1 && 0 < starts[r + 1] <= |mask|
    ensures mask[starts[r + 1] - 1] <==> Accounted(cached, starts, batch, r)
  {
    hide Count, Reused, RequestPart, RequestFits;
    if r < cached {
      FrontCounts(mask, size, cached, starts, batch, r);
    } else {
      NewCounts(mask, size, cached, starts, batch, r - cached);
      NothingReused(batch[r - cached], size);
    }
  }

  lemma NothingReused(r: Request, size: nat)
    ensures !r.NeedBlend() ==> Reused(r, size) == 0
  {
    hide Count, Span;
  }

  /** After the layer the query lengths of the first n requests count their computed tokens exactly when those are
      accounted for, and the rebuilt start positions are the compaction map exactly for a supported batch. */
  lemma LayerCompacts(mask: seq<bool>, lens: seq<nat>, size: nat, cached: nat, starts: seq<nat>, batch: seq<Request>)
    requires Layout(size, cached, starts, batch) && MaskUpTo(mask, size, cached, starts, batch, |batch|)
    requires LensUpTo(lens, size, cached, starts, batch, |batch|)
    ensures |lens| == cached + |batch| && Tiles(mask, starts, lens) && LensCover(mask, starts, lens)
    ensures forall n :: 0 <= n <= |lens| ==>
                          (CountsUpTo(mask, starts, lens, n) <==> AccountedUpTo(cached, starts, batch, n))
    ensures Compacted(mask, starts, PrefixSums(lens)) <==> Supported(cached, starts, batch)
  {
    assert Tiles(mask, starts, lens) by { hide Count, Reused, RequestPart, RequestFits; }
    hide Count, LenCounts, Accounted, MaskUpTo, PrefixSums, CountIn, Compacted, Supported;
    forall r | 0 <= r < |lens|
      ensures CountIn(mask, starts, r) <= lens[r]
      ensures LenCounts(mask, starts, lens, r) <==> Accounted(cached, starts, batch, r)
    {
      EntryCounts(mask, lens, size, cached, starts, batch, r);
    }
    CompactedIff(mask, starts, lens);
    AllAccountedIff(size, cached, starts, batch);
  }

  /** Which tokens of the batch are computed: as many as there are requests at the front, none of a skipped request, and
      of a listed one those of `TokenRight`. */
  ghost predicate ComputedRight(mask: seq<bool>, size: nat, cached: nat, starts: seq<nat>, batch: seq<Request>)
    requires Layout(size, cached, starts, batch)
  {
    && |mask| == starts[cached + |batch|]
    && (forall p :: 0 <= p < starts[cached] ==> (mask[p] <==> p < cached))
    && forall k, p :: 0 <= k < |batch| && starts[cached + k] <= p < starts[cached + k + 1] ==>
                        match batch[k]
                        case Skipped => !mask[p]
                        case Listed(hits, top) => TokenRight(hits, top, size, p - starts[cached + k], mask[p])
  }

  lemma LayerComputes(mask: seq<bool>, size: nat, cached: nat, starts: seq<nat>, batch: seq<Request>)
    requires Layout(size, cached, starts, batch) && MaskUpTo(mask, size, cached, starts, batch, |batch|)
    ensures ComputedRight(mask, size, cached, starts, batch)
  {
    hide TokenRight, RequestPart;
    forall k, p | 0 <= k < |batch| && starts[cached + k] <= p < starts[cached + k + 1]
      ensures match batch[k]
              case Skipped => !mask[p]
              case Listed(hits, top) => TokenRight(hits, top, size, p - starts[cached + k], mask[p])
    {
      TokenOfRequest(mask, size, cached, starts, batch, k, p - starts[cached + k]);
    }
  }

  lemma TokenOfRequest(mask: seq<bool>, size: nat, cached: nat, starts: seq<nat>, batch: seq<Request>, k: nat, x: nat)
    requires Layout(size, cached, starts, batch) && MaskUpTo(mask, size, cached, starts, batch, |batch|)
    requires k < |batch| && x < starts[cached + k + 1] - starts[cached + k]
    ensures starts[cached + k] + x < |mask|
    ensures match batch[k]
            case Skipped => !mask[starts[cached + k] + x]
            case Listed(hits, top) => TokenRight(hits, top, size, x, mask[starts[cached + k] + x])
  {
    var length := starts[cached + k + 1] - starts[cached + k];
    assert RequestFits(size, cached, starts, batch, k);
    var part := RequestPart(size, cached, starts, batch, k);
    assert part == MaskFor(batch[k], size, length);
    assert PartOf(mask, cached, starts, k) == part;
    assert batch[k].Skipped? ==> part == AllFalse(length);
    hide MaskFor, TokenRight, RequestPart, Distinct, Fits, Count;
    if batch[k].Listed? {
      MaskTokens(batch[k], size, length, x);
    }
    assert mask[starts[cached + k] + x] == part[x];
  }

  // ---- what the blend layer keeps of the requests ----

  datatype ReqMeta = ReqMeta(reqIdx: nat, hits: seq<bool>, top: seq<nat>)

  /** The entries of the listed ones of the first n new requests. */
  ghost function ListedUpTo(cached: nat, batch: seq<Request>, n: nat): seq<ReqMeta>
    requires n <= |batch|
  {
    if n == 0 then []
    else
      var r := batch[n - 1];
      ListedUpTo(cached, batch, n - 1) + if r.Listed? then [ReqMeta(cached + n - 1, r.hits, r.top)] else []
  }

  lemma {:induction false} ListedGrows(cached: nat, batch: seq<Request>, k: nat, n: nat)
    requires k <= n <= |batch|
    ensures Extends(ListedUpTo(cached, batch, k), ListedUpTo(cached, batch, n))
    decreases n
  {
    if k < n {
      ListedGrows(cached, batch, k, n - 1);
    }
  }

  /** The next entry belongs to the next listed request. */
  lemma {:induction false} NextListed(cached: nat, batch: seq<Request>, k: nat) returns (k': nat)
    requires k <= |batch| && |ListedUpTo(cached, batch, k)| < |ListedUpTo(cached, batch, |batch|)|
    ensures k <= k' < |batch| && batch[k'].Listed? && AllSkipped(batch, k, k')
    ensures ListedUpTo(cached, batch, k') == ListedUpTo(cached, batch, k)
    ensures ListedUpTo(cached, batch, |batch|)[|ListedUpTo(cached, batch, k)|] ==
            ReqMeta(cached + k', batch[k'].hits, batch[k'].top)
    decreases |batch| - k
  {
    if batch[k].Listed? {
      k' := k;
      ListedGrows(cached, batch, k + 1, |batch|);
      var i := |ListedUpTo(cached, batch, k)|;
      assert ListedUpTo(cached, batch, k + 1)[i] == ListedUpTo(cached, batch, |batch|)[..i + 1][i];
    } else {
      k' := NextListed(cached, batch, k + 1);
    }
  }

  lemma {:induction false} NoneListed(cached: nat, batch: seq<Request>, k: nat)
    requires k <= |batch| && |ListedUpTo(cached, batch, k)| == |ListedUpTo(cached, batch, |batch|)|
    ensures AllSkipped(batch, k, |batch|)
    decreases |batch| - k
  {
    if k < |batch| {
      ListedGrows(cached, batch, k + 1, |batch|);
      NoneListed(cached, batch, k + 1);
    }
  }

  /** What the connector hands over for a new request: the hits of each of its chunks. */
  datatype NewRequest = NewRequest(chunkHits: seq<seq<bool>>, top: seq<nat>) {
    function ToRequest(): Request {
      if chunkHits == [] then Skipped else Listed(Joined(chunkHits), top)
    }
  }

  function Joined(parts: seq<seq<bool>>): seq<bool> {
    if parts == [] then [] else Joined(parts[..|parts| - 1]) + parts[|parts| - 1]
  }

  /** Hit i of chunk c stands after the hits of the chunks before. */
  lemma {:induction false} JoinedAt(parts: seq<seq<bool>>, c: nat, i: nat)
    requires c < |parts| && i < |parts[c]|
    ensures |Joined(parts[..c + 1])| == |Joined(parts[..c])| + |parts[c]|
    ensures |Joined(parts[..c + 1])| <= |Joined(parts)|
    ensures Joined(parts)[|Joined(parts[..c])| + i] == parts[c][i]
  {
    var n := |parts| - 1;
    assert parts[..c + 1][..c] == parts[..c];
    if c == n {
      assert parts[..n + 1] == parts;
    } else {
      JoinedAt(parts[..n], c, i);
      assert parts[..n][..c] == parts[..c] && parts[..n][..c + 1] == parts[..c + 1];
    }
  }

  /** `ComputedRight`, for the requests as they come from the connector. */
  ghost predicate NewsComputed(mask: seq<bool>, size: nat, cached: nat, starts: seq<nat>, news: seq<NewRequest>)
    requires |starts| == cached + |news| + 1 && Ascending(starts) && starts[cached + |news|] <= |mask|
  {
    && (forall p :: 0 <= p < starts[cached] ==> (mask[p] <==> p < cached))
    && forall k, p :: 0 <= k < |news| && starts[cached + k] <= p < starts[cached + k + 1] ==>
                        if news[k].chunkHits == [] then !mask[p]
                        else TokenRight(Joined(news[k].chunkHits), news[k].top, size, p - starts[cached + k], mask[p])
  }

  lemma NewsAreComputed(mask: seq<bool>, size: nat, cached: nat, starts: seq<nat>, news: seq<NewRequest>)
    requires Layout(size, cached, starts, BatchOf(news)) && ComputedRight(mask, size, cached, starts, BatchOf(news))
    ensures |mask| == starts[|starts| - 1] && NewsComputed(mask, size, cached, starts, news)
  {
    hide TokenRight, RequestFits, Joined;
    forall k, p | 0 <= k < |news| && starts[cached + k] <= p < starts[cached + k + 1]
      ensures if news[k].chunkHits == [] then !mask[p]
              else TokenRight(Joined(news[k].chunkHits), news[k].top, size, p - starts[cached + k], mask[p])
    {
      assert BatchOf(news)[k] == news[k].ToRequest();
    }
  }

  function BatchOf(news: seq<NewRequest>): seq<Request> {
    seq(|news|, k requires 0 <= k < |news| => news[k].ToRequest())
  }

  lemma {:induction false} ListedOfPrefix(cached: nat, a: seq<Request>, b: seq<Request>, n: nat)
    requires n <= |a| && n <= |b| && a[..n] == b[..n]
    ensures ListedUpTo(cached, a, n) == ListedUpTo(cached, b, n)
  {
    if n > 0 {
      assert a[n - 1] == a[..n][n - 1] == b[..n][n - 1] == b[n - 1];
      assert a[..n - 1] == a[..n][..n - 1] && b[..n - 1] == b[..n][..n - 1];
      ListedOfPrefix(cached, a, b, n - 1);
    }
  }

  /** The batch's state: the listed requests, the mask, the query lengths, and the attention metadata that depends on
      them. */
  class BlendBatch {
    const size: nat
    var cached: nat
    var requests: seq<ReqMeta>
    var computeMask: seq<bool>
    var queryLens: seq<nat>
    var starts: seq<nat>
    var slotMapping: seq<int>
    var maxQueryLen: nat
    var numActualTokens: nat
    var needReIndex: bool

    constructor (size: nat)
      ensures this.size == size
    {
      this.size := size;
    }

    /** `reset_blend_meta`: the query lengths are the differences of the start positions. */
    method ResetBlendMeta(forwardMask: seq<bool>, starts: seq<nat>, slotMapping: seq<int>, cached: nat)
      requires |starts| > 0 && Ascending(starts) && starts[|starts| - 1] <= |forwardMask|
      modifies this
      ensures computeMask == forwardMask[..starts[|starts| - 1]] && this.starts == starts && this.cached == cached
      ensures this.slotMapping == slotMapping && !needReIndex && requests == []
      ensures forall batch :: |batch| + cached + 1 == |starts| ==>
                                LensUpTo(queryLens, size, cached, starts, batch, 0)
    {
      needReIndex, requests := false, [];
      computeMask, this.starts, this.slotMapping := forwardMask[..starts[|starts| - 1]], starts, slotMapping;
      queryLens := seq(|starts| - 1, r requires 0 <= r < |starts| - 1 => starts[r + 1] - starts[r]);
      this.cached := cached;
    }

    /** `add_request`: a request without chunks is left out, of the others the hits of the chunks are joined. */
    method AddRequest(idx: nat, r: NewRequest)
      modifies `requests
      ensures requests == old(requests) + match r.ToRequest()
                                          case Skipped => []
                                          case Listed(hits, top) => [ReqMeta(cached + idx, hits, top)]
    {
      if r.chunkHits != [] {
        var hitMask: seq<bool> := [];
        for i := 0 to |r.chunkHits|
          invariant hitMask == Joined(r.chunkHits[..i]) && requests == old(requests)
        {
          assert r.chunkHits[..i + 1][..i] == r.chunkHits[..i];
          hitMask := hitMask + r.chunkHits[i];
        }
        assert r.chunkHits[..|r.chunkHits|] == r.chunkHits;
        requests := requests + [ReqMeta(cached + idx, hitMask, r.top)];
      }
    }

    /** `build_sparse_meta`: the entries are those of the listed new requests. */
    method BuildSparseMeta(forwardMask: seq<bool>, starts: seq<nat>, slotMapping: seq<int>, cached: nat,
                           news: seq<NewRequest>)
      requires |starts| == cached + |news| + 1 && Ascending(starts) && starts[|starts| - 1] <= |forwardMask|
      modifies this
      ensures computeMask == forwardMask[..starts[|starts| - 1]] && this.starts == starts && this.cached == cached
      ensures this.slotMapping == slotMapping && !needReIndex
      ensures LensUpTo(queryLens, size, cached, starts, BatchOf(news), 0)
      ensures requests == ListedUpTo(cached, BatchOf(news), |news|)
    {
      ResetBlendMeta(forwardMask, starts, slotMapping, cached);
      ghost var batch := BatchOf(news);
      assert LensUpTo(queryLens, size, cached, starts, batch, 0);
      hide LensUpTo;
      for k := 0 to |news|
        invariant requests == ListedUpTo(cached, batch, k)
        invariant computeMask == forwardMask[..starts[|starts| - 1]] && this.starts == starts && this.cached == cached
        invariant this.slotMapping == slotMapping && !needReIndex && LensUpTo(queryLens, size, cached, starts, batch, 0)
      {
        assert batch[k] == news[k].ToRequest();
        AddRequest(k, news[k]);
      }
    }

    /** `update_req_compute_mask`: missed blocks and chosen tokens are set in the chunk area, which is otherwise left as
        it is, and the question is computed. */
    method UpdateReqComputeMask(from: nat, chunkEnd: nat, to: nat, hits: seq<bool>, chosen: seq<int>)
      requires size > 0 && from <= chunkEnd <= to <= |computeMask| && chunkEnd - from == Span(size, |hits|)
      requires forall p :: from <= p < chunkEnd ==> !computeMask[p]
      modifies `computeMask
      ensures computeMask == Splice(old(computeMask), from, to, RequestMask(hits, size, chosen, to - from))
    {
      var n, chunk := Span(size, |hits|), computeMask[from..chunkEnd];
      var chunks := seq(n, i requires 0 <= i < n && n == |chunk| =>
        chunk[i] || !InHit(hits, size, i) || i in chosen);
      assert chunks == ChunkMask(hits, size, chosen);
      computeMask := computeMask[..from] + chunks + computeMask[chunkEnd..];
      computeMask := computeMask[..chunkEnd] + AllTrue(to - chunkEnd) + computeMask[to..];
    }

    /** `_update_attn_metadata`: everything that depends on the positions of the tokens is rebuilt. It is compacted
        exactly when every query length counts the computed tokens of its request. */
    method UpdateAttnMetadata()
      requires |slotMapping| == |computeMask| && Tiles(computeMask, starts, queryLens) && queryLens != []
      requires |starts| == |queryLens| + 1 && starts[|queryLens|] == |computeMask|
      requires LensCover(computeMask, starts, queryLens)
      modifies `starts, `slotMapping, `maxQueryLen, `numActualTokens
      ensures starts == PrefixSums(queryLens) && IsLargest(maxQueryLen, queryLens)
      ensures slotMapping == Select(old(slotMapping), computeMask) && numActualTokens >= |slotMapping|
      ensures Compacted(computeMask, old(starts), starts) <==>
              CountsUpTo(computeMask, old(starts), queryLens, |queryLens|)
      ensures numActualTokens == |slotMapping| <==> CountsUpTo(computeMask, old(starts), queryLens, |queryLens|)
    {
      var sums := PrefixSums(queryLens);
      hide PrefixSums, LensCover, Count, Compacted, CountsUpTo, Tiles, Select;
      CompactedIff(computeMask, starts, queryLens);
      StartsCompacted(computeMask, starts, queryLens, |queryLens|);
      SelectLength(slotMapping, computeMask);
      assert computeMask[..starts[|queryLens|]] == computeMask;
      slotMapping := Select(slotMapping, computeMask);
      starts := sums;
      maxQueryLen := Largest(queryLens);
      numActualTokens := sums[|sums| - 1];
    }

    /** The blend layer: the masks of the listed requests are set, the query lengths reduced, and the metadata rebuilt.
        The new start positions are the compaction map exactly for a supported batch. */
    method AttentionBegin(ghost batch: seq<Request>)
      requires Layout(size, cached, starts, batch) && |computeMask| == starts[|starts| - 1] == |slotMapping|
      requires LensUpTo(queryLens, size, cached, starts, batch, 0) && !needReIndex
      requires requests == ListedUpTo(cached, batch, |batch|)
      modifies `computeMask, `queryLens, `starts, `slotMapping, `maxQueryLen, `numActualTokens, `needReIndex
      ensures MaskUpTo(computeMask, size, cached, old(starts), batch, |batch|)
      ensures ComputedRight(computeMask, size, cached, old(starts), batch)
      ensures LensUpTo(queryLens, size, cached, old(starts), batch, |batch|)
      ensures needReIndex <==> AnyBlends(batch, |batch|)
      ensures !needReIndex ==> starts == old(starts) && slotMapping == old(slotMapping)
      ensures needReIndex ==> starts == PrefixSums(queryLens) && IsLargest(maxQueryLen, queryLens)
      ensures needReIndex ==> slotMapping == Select(old(slotMapping), computeMask)
      ensures Compacted(computeMask, old(starts), starts) <==> Supported(cached, old(starts), batch)
      ensures needReIndex ==> (numActualTokens == |slotMapping| <==> Supported(cached, old(starts), batch))
    {
      hide *;
      var needUpdate := BlendRequests(batch);
      LayerComputes(computeMask, size, cached, starts, batch);
      LayerCompacts(computeMask, queryLens, size, cached, starts, batch);
      AllAccountedIff(size, cached, starts, batch);
      if needUpdate {
        MaskLength(computeMask, queryLens, size, cached, starts, batch);
        needReIndex := true;
        UpdateAttnMetadata();
      } else {
        NoBlendNoChange(queryLens, size, cached, starts, batch);
      }
    }

    /** The loop over the listed requests. */
    method BlendRequests(ghost batch: seq<Request>) returns (needUpdate: bool)
      requires Layout(size, cached, starts, batch) && |computeMask| == starts[|starts| - 1]
      requires LensUpTo(queryLens, size, cached, starts, batch, 0)
      requires requests == ListedUpTo(cached, batch, |batch|)
      modifies `computeMask, `queryLens
      ensures MaskUpTo(computeMask, size, cached, starts, batch, |batch|)
      ensures LensUpTo(queryLens, size, cached, starts, batch, |batch|)
      ensures needUpdate <==> AnyBlends(batch, |batch|)
    {
      assert !AnyBlends(batch, 0) && ListedUpTo(cached, batch, 0) == [];
      hide *;
      ResetComputeMask(batch);
      needUpdate := false;
      ghost var k := 0;
      for i := 0 to |requests|
        invariant k <= |batch| && |ListedUpTo(cached, batch, k)| == i
        invariant MaskUpTo(computeMask, size, cached, starts, batch, k)
        invariant LensUpTo(queryLens, size, cached, starts, batch, k)
        invariant needUpdate <==> AnyBlends(batch, k)
      {
        ghost var next := NextListed(cached, batch, k);
        SkipTo(computeMask, queryLens, size, cached, starts, batch, k, next);
        AnyBlendsStep(batch, next);
        ListedStep(cached, batch, next);
        var did := BlendRequest(requests[i], batch, next);
        needUpdate := needUpdate || did;
        k := next + 1;
      }
      NoneListed(cached, batch, k);
      SkipTo(computeMask, queryLens, size, cached, starts, batch, k, |batch|);
    }

    /** `execute_finished`: the position the logits of request r are taken from is the compacted position of its last
        token, and that is computed, exactly when it and all requests before it are accounted for. */
    method ExecuteFinished(logits: seq<int>, ghost before: seq<nat>, ghost batch: seq<Request>)
      returns (indices: seq<int>)
      requires Layout(size, cached, before, batch) && MaskUpTo(computeMask, size, cached, before, batch, |batch|)
      requires LensUpTo(queryLens, size, cached, before, batch, |batch|)
      requires needReIndex ==> starts == PrefixSums(queryLens)
      ensures !needReIndex ==> indices == logits
      ensures needReIndex ==> |indices| == |before| - 1
      ensures needReIndex ==>
                forall r :: 0 <= r < |indices| ==>
                              (PointsAtLast(computeMask, before, r, indices[r]) <==>
                               AccountedUpTo(cached, before, batch, r + 1))
    {
      if needReIndex {
        var ends := starts[1..];
        indices := seq(|ends|, r requires 0 <= r < |ends| => (ends[r] as int) - 1);
        assert |indices| == |queryLens|;
        hide Layout, MaskUpTo, LensUpTo, PointsAtLast, AccountedUpTo, PrefixSums;
        forall r | 0 <= r < |indices|
          ensures PointsAtLast(computeMask, before, r, indices[r]) <==> AccountedUpTo(cached, before, batch, r + 1)
        {
          EndPointsAtLast(computeMask, queryLens, size, cached, before, batch, r);
        }
      } else {
        indices := logits;
      }
    }

    /** `reset_compute_mask`: as many tokens as there are requests at the front are computed. */
    method ResetComputeMask(ghost batch: seq<Request>)
      requires Layout(size, cached, starts, batch) && |computeMask| == starts[|starts| - 1]
      modifies `computeMask
      ensures MaskUpTo(computeMask, size, cached, starts, batch, 0)
    {
      StartsAtLeast(starts, cached);
      computeMask := AllTrue(cached) + AllFalse(|computeMask| - cached);
    }

    /** One request of the blend layer. */
    method BlendRequest(m: ReqMeta, ghost batch: seq<Request>, ghost k: nat) returns (did: bool)
      requires k < |batch| && Layout(size, cached, starts, batch) && batch[k].Listed?
      requires m == ReqMeta(cached + k, batch[k].hits, batch[k].top)
      requires MaskUpTo(computeMask, size, cached, starts, batch, k)
      requires LensUpTo(queryLens, size, cached, starts, batch, k)
      modifies `computeMask, `queryLens
      ensures MaskUpTo(computeMask, size, cached, starts, batch, k + 1)
      ensures LensUpTo(queryLens, size, cached, starts, batch, k + 1)
      ensures did == batch[k].NeedBlend()
    {
      hide *;
      MaskStep(computeMask, size, cached, starts, batch, k);
      LensStep(queryLens, size, cached, starts, batch, k);
      BlankPart(computeMask, size, cached, starts, batch, k);
      did := BlendRow(Listed(m.hits, m.top), m.reqIdx, starts[m.reqIdx], starts[m.reqIdx + 1]);
    }

    /** The writes for one request: its mask, and its query length less the reused tokens. */
    method BlendRow(r: Request, idx: nat, from: nat, to: nat) returns (did: bool)
      requires size > 0 && from <= to <= |computeMask| && BlankIn(computeMask, from, to)
      requires r.Listed? && (r.NeedBlend() ==> Fits(r, size, to - from))
      requires idx < |queryLens| && 0 <= queryLens[idx] - Reused(r, size)
      modifies `computeMask, `queryLens
      ensures |MaskFor(r, size, to - from)| == to - from
      ensures computeMask == Splice(old(computeMask), from, to, MaskFor(r, size, to - from))
      ensures queryLens == old(queryLens)[idx := old(queryLens)[idx] - Reused(r, size)]
      ensures did == r.NeedBlend()
    {
      hide Count, Candidates, Span, Splice, Chosen;
      did := r.NeedBlend();
      if !did {
        computeMask := Splice(computeMask, from, to, AllTrue(to - from));
      } else {
        var chosen := Chosen(r.hits, size, r.top);
        UpdateReqComputeMask(from, from + Span(size, |r.hits|), to, r.hits, chosen);
        queryLens := queryLens[idx := queryLens[idx] - (Span(size, Count(r.hits)) - |r.top|)];
      }
    }

    /** A whole step: exactly the tokens of `NewsComputed` are computed; when some request blends, the logits of a
        request are taken from its own last token exactly when it and all requests before it are accounted for, so from
        all of them exactly in a supported batch. */
    method BlendPass(forwardMask: seq<bool>, starts: seq<nat>, slotMapping: seq<int>, cached: nat,
                     news: seq<NewRequest>, logits: seq<int>)
      returns (indices: seq<int>)
      requires Layout(size, cached, starts, BatchOf(news))
      requires starts[|starts| - 1] == |slotMapping| <= |forwardMask|
      modifies this
      ensures |computeMask| == starts[|starts| - 1] && NewsComputed(computeMask, size, cached, starts, news)
      ensures needReIndex <==> exists k, c, i :: 0 <= k < |news| && HitAt(news[k], c, i)
      ensures Compacted(computeMask, starts, this.starts) <==> Supported(cached, starts, BatchOf(news))
      ensures !needReIndex ==> indices == logits && this.starts == starts && this.slotMapping == slotMapping
      ensures needReIndex ==> |indices| == cached + |news|
      ensures needReIndex ==>
                forall r :: 0 <= r < |indices| ==>
                              (PointsAtLast(computeMask, starts, r, indices[r]) <==>
                               AccountedUpTo(cached, starts, BatchOf(news), r + 1))
      ensures needReIndex ==> (AllPointAtLast(computeMask, starts, indices) <==>
                               Supported(cached, starts, BatchOf(news)))
    {
      ghost var batch := BatchOf(news);
      assert |batch| == |news| && |starts| == cached + |batch| + 1 && Ascending(starts);
      hide *;
      BuildSparseMeta(forwardMask, starts, slotMapping, cached, news);
      AttentionBegin(batch);
      NewsAreComputed(computeMask, size, cached, starts, news);
      BlendsIff(news);
      indices := ExecuteFinished(logits, starts, batch);
      if needReIndex {
        AllPoint(computeMask, size, cached, starts, batch, indices);
      }
    }
  }

  ghost predicate HitAt(r: NewRequest, c: int, i: int) {
    0 <= c < |r.chunkHits| && 0 <= i < |r.chunkHits[c]| && r.chunkHits[c][i]
  }

  lemma {:induction false} JoinedHits(parts: seq<seq<bool>>, b: nat) returns (c: nat, i: nat)
    requires b < |Joined(parts)|
    ensures c < |parts| && i < |parts[c]| && parts[c][i] == Joined(parts)[b]
  {
    var n := |parts| - 1;
    var before := Joined(parts[..n]);
    if b < |before| {
      c, i := JoinedHits(parts[..n], b);
    } else {
      c, i := n, b - |before|;
    }
  }

  /** Some request blends exactly when some block of some request was found. */
  lemma BlendsIff(news: seq<NewRequest>)
    ensures AnyBlends(BatchOf(news), |news|) <==> exists k, c, i :: 0 <= k < |news| && HitAt(news[k], c, i)
  {
    hide Count, Joined;
    if AnyBlends(BatchOf(news), |news|) {
      var k :| 0 <= k < |news| && BatchOf(news)[k].NeedBlend();
      var hits := Joined(news[k].chunkHits);
      CountHits(hits);
      var b :| 0 <= b < |hits| && hits[b];
      var c, i := JoinedHits(news[k].chunkHits, b);
      assert HitAt(news[k], c, i);
    }
    if k, c, i :| 0 <= k < |news| && HitAt(news[k], c, i) {
      JoinedAt(news[k].chunkHits, c, i);
      CountHits(Joined(news[k].chunkHits));
      assert BatchOf(news)[k].NeedBlend();
    }
  }

  lemma AllPoint(mask: seq<bool>, size: nat, cached: nat, starts: seq<nat>, batch: seq<Request>, indices: seq<int>)
    requires Layout(size, cached, starts, batch) && |starts| == cached + |batch| + 1 && |indices| == cached + |batch|
    requires forall r :: 0 <= r < |indices| ==>
                           (PointsAtLast(mask, starts, r, indices[r]) <==> AccountedUpTo(cached, starts, batch, r + 1))
    ensures AllPointAtLast(mask, starts, indices) <==> Supported(cached, starts, batch)
  {
    AllAccountedIff(size, cached, starts, batch);
    hide Accounted, Supported, Layout, PointsAtLast;
    var n := |indices|;
    if AllPointAtLast(mask, starts, indices) && n > 0 {
      assert PointsAtLast(mask, starts, n - 1, indices[n - 1]);
    }
  }

  /** Position `at` of the compacted batch is the last token of request r, which is computed. */
  ghost predicate PointsAtLast(mask: seq<bool>, starts: seq<nat>, r: nat, at: int)
    requires r + 1 < |starts|
  {
    && 0 < starts[r + 1] <= |mask| && mask[starts[r + 1] - 1]
    && at == Count(mask[..starts[r + 1] - 1])
  }

  ghost predicate AllPointAtLast(mask: seq<bool>, starts: seq<nat>, indices: seq<int>)
    requires |starts| == |indices| + 1
  {
    forall r :: 0 <= r < |indices| ==> PointsAtLast(mask, starts, r, indices[r])
  }

  lemma EndPointsAtLast(mask: seq<bool>, lens: seq<nat>, size: nat, cached: nat, starts: seq<nat>, batch: seq<Request>,
                        r: nat)
    requires Layout(size, cached, starts, batch) && MaskUpTo(mask, size, cached, starts, batch, |batch|)
    requires LensUpTo(lens, size, cached, starts, batch, |batch|) && r < |lens|
    ensures |starts| == cached + |batch| + 1 && |lens| == cached + |batch| && |PrefixSums(lens)| == |lens| + 1
    ensures PointsAtLast(mask, starts, r, (PrefixSums(lens)[r + 1] as int) - 1) <==>
            AccountedUpTo(cached, starts, batch, r + 1)
  {
    hide *;
    LayerCompacts(mask, lens, size, cached, starts, batch);
    EntryCounts(mask, lens, size, cached, starts, batch, r);
    StartsCompacted(mask, starts, lens, r + 1);
    PointsWhen(mask, starts, r, PrefixSums(lens)[r + 1]);
    AccountedLast(cached, starts, batch, r);
  }

  lemma PointsWhen(mask: seq<bool>, starts: seq<nat>, r: nat, end: nat)
    requires r + 1 < |starts| && 0 < starts[r + 1] <= |mask|
    ensures PointsAtLast(mask, starts, r, (end as int) - 1) <==>
            mask[starts[r + 1] - 1] && end == Count(mask[..starts[r + 1]])
  {
    var p := starts[r + 1] - 1;
    CountStep(mask, p);
    assert mask[..p + 1] == mask[..starts[r + 1]];
    hide Count;
  }

  lemma AccountedLast(cached: nat, starts: seq<nat>, batch: seq<Request>, r: nat)
    requires |starts| == cached + |batch| + 1 && r < cached + |batch|
    ensures AccountedUpTo(cached, starts, batch, r + 1) ==> Accounted(cached, starts, batch, r)
  {
  }

  /** Whatever is compacted with the mask, the position holds what belongs to the last token of the request. */
  lemma SelectedAtLast<T>(xs: seq<T>, mask: seq<bool>, starts: seq<nat>, r: nat, at: int)
    requires |xs| == |mask| && r + 1 < |starts| && PointsAtLast(mask, starts, r, at)
    ensures 0 <= at < |Select(xs, mask)| && Select(xs, mask)[at] == xs[starts[r + 1] - 1]
  {
    SelectAt(xs, mask, starts[r + 1] - 1);
  }

  /** Nothing is computed yet between two positions. */
  ghost predicate BlankIn(mask: seq<bool>, from: nat, to: nat)
    requires to <= |mask|
  {
    forall p :: from <= p < to ==> !mask[p]
  }

  /** The part of a request that is about to be written: its place, its new contents, and that it is blank so far. */
  lemma BlankPart(mask: seq<bool>, size: nat, cached: nat, starts: seq<nat>, batch: seq<Request>, k: nat)
    requires Layout(size, cached, starts, batch) && k < |batch|
    requires MaskUpTo(mask, size, cached, starts, batch, k)
    ensures |starts| == cached + |batch| + 1
    ensures var r, from, to := batch[k], starts[cached + k], starts[cached + k + 1];
            && size > 0 && from <= to <= |mask| && BlankIn(mask, from, to)
            && (r.NeedBlend() ==> Fits(r, size, to - from))
            && RequestPart(size, cached, starts, batch, k) == MaskFor(r, size, to - from)
  {
    assert RequestFits(size, cached, starts, batch, k);
    hide Count, Candidates, Span, RequestMask, Chosen, PartOf;
  }

  lemma LensStep(lens: seq<nat>, size: nat, cached: nat, starts: seq<nat>, batch: seq<Request>, k: nat)
    requires Layout(size, cached, starts, batch) && k < |batch| && batch[k].Listed?
    requires LensUpTo(lens, size, cached, starts, batch, k)
    ensures cached + k < |lens| && 0 <= lens[cached + k] - Reused(batch[k], size)
    ensures LensUpTo(lens[cached + k := lens[cached + k] - Reused(batch[k], size)],
                     size, cached, starts, batch, k + 1)
  {
    PartLength(size, cached, starts, batch, k);
    hide RequestPart, RequestFits, Count, Layout, Reused;
  }

  lemma ListedStep(cached: nat, batch: seq<Request>, k: nat)
    requires k < |batch| && batch[k].Listed?
    ensures |ListedUpTo(cached, batch, k + 1)| == |ListedUpTo(cached, batch, k)| + 1
  {
  }

  lemma MaskLength(mask: seq<bool>, lens: seq<nat>, size: nat, cached: nat, starts: seq<nat>, batch: seq<Request>)
    requires Layout(size, cached, starts, batch) && MaskUpTo(mask, size, cached, starts, batch, |batch|)
    requires LensUpTo(lens, size, cached, starts, batch, |batch|)
    ensures |starts| == |lens| + 1 && starts[|lens|] == |mask| == starts[|starts| - 1]
    ensures AnyBlends(batch, |batch|) ==> lens != []
  {
  }

  /** When no request blends, the start positions already sum up the query lengths. */
  lemma NoBlendNoChange(lens: seq<nat>, size: nat, cached: nat, starts: seq<nat>, batch: seq<Request>)
    requires Layout(size, cached, starts, batch) && LensUpTo(lens, size, cached, starts, batch, |batch|)
    requires !AnyBlends(batch, |batch|)
    ensures PrefixSums(lens) == starts
  {
    forall r | 0 <= r < |lens| ensures lens[r] == starts[r + 1] - starts[r] {
      if cached <= r {
        NothingReused(batch[r - cached], size);
      }
    }
    hide LensUpTo, Count, PrefixSums;
    forall r | 0 <= r < |starts| ensures starts[r] == PrefixSums(lens)[r] {
      SumsOfDifferences(starts, lens, r);
    }
  }

  lemma {:induction false} SumsOfDifferences(starts: seq<nat>, lens: seq<nat>, r: nat)
    requires |starts| == |lens| + 1 && starts[0] == 0 && r <= |lens|
    requires forall i :: 0 <= i < |lens| ==> starts[i + 1] == starts[i] + lens[i]
    ensures PrefixSums(lens)[r] == starts[r]
    decreases |lens|
  {
    if lens != [] {
      var n := |lens| - 1;
      SumsOfDifferences(starts[..n + 1], lens[..n], if r <= n then r else n);
    }
  }

  // ---- a batch that goes wrong ----

  /** In one-token blocks, a request without chunk metadata and one that blends. */
  function MixedRequests(): seq<NewRequest> { [NewRequest([], []), NewRequest([[true]], [])] }

  lemma MixedRequestsAre()
    ensures BatchOf(MixedRequests()) == [Skipped, Listed([true], [])]
  {
    assert Joined([[true]]) == [true] by { assert [[true]][..0] == []; }
  }

  lemma MixedLayout()
    ensures Layout(1, 0, [0, 1, 3], BatchOf(MixedRequests())) && AnyBlends(BatchOf(MixedRequests()), 2)
    ensures !Accounted(0, [0, 1, 3], BatchOf(MixedRequests()), 0)
  {
    MixedRequestsAre();
    assert Count([true]) == 1 && Span(1, 1) == 1;
    var batch, starts := BatchOf(MixedRequests()), [0, 1, 3];
    hide Count, Span, Candidates, Joined, BatchOf, MixedRequests;
    assert batch[1].NeedBlend() && Fits(batch[1], 1, 2);
    assert Ascending(starts);
    assert RequestFits(1, 0, starts, batch, 0) && RequestFits(1, 0, starts, batch, 1);
  }

  /** Both have their logits taken from a position that is not their last token's. */
  method MixedBatchGoesWrong(b: BlendBatch) returns (indices: seq<int>)
    requires b.size == 1
    modifies b
    ensures b.needReIndex && |indices| == 2 && !Compacted(b.computeMask, [0, 1, 3], b.starts)
    ensures forall r :: 0 <= r < 2 ==> !PointsAtLast(b.computeMask, [0, 1, 3], r, indices[r])
  {
    MixedLayout();
    assert HitAt(MixedRequests()[1], 0, 0);
    assert !Supported(0, [0, 1, 3], BatchOf(MixedRequests()));
    assert forall n :: 0 < n <= 2 ==> !AccountedUpTo(0, [0, 1, 3], BatchOf(MixedRequests()), n);
    hide *;
    indices := b.BlendPass([false, false, false], [0, 1, 3], [0, 1, 2], 0, MixedRequests(), []);
  }
}
