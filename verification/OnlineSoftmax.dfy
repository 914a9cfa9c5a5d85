/** The attention kernels for one query row and one output column: an online softmax over tiles of keys, either in
    one pass or split into segments that are merged afterwards. Scores and values are reals, the exponential is any
    positive function that turns sums into products, and minus infinity is an explicit score. */
module OnlineSoftmax {
  import opened Residues

  datatype Score = NegInf | Fin(v: real)
  datatype Item = Item(score: Score, value: real)

  /** The running maximum, the running weight sum and the running weighted sum of values. */
  datatype Accumulator = Accumulator(M: Score, L: real, acc: real)

  function Plus(a: real, b: real): real { a + b }

  ghost predicate IsExp(e: real -> real) {
    && (forall a :: e(a) > 0.0)
    && (forall a, b {:trigger Plus(a, b)} :: e(Plus(a, b)) == e(a) * e(b))
  }

  lemma ExpPositive(e: real -> real, a: real)
    requires IsExp(e)
    ensures e(a) > 0.0
  {
  }

  lemma ExpSum(e: real -> real, a: real, b: real)
    requires IsExp(e)
    ensures e(a + b) == e(a) * e(b)
  {
    assert Plus(a, b) == a + b;
  }

  // ---------- weights ----------

  /** exp(s - m), which is 0 for a masked score. */
  function Weight(e: real -> real, s: Score, m: real): real {
    if s.NegInf? then 0.0 else e(s.v - m)
  }

  function WeightSum(e: real -> real, items: seq<Item>, m: real): real {
    if items == [] then 0.0
    else WeightSum(e, items[..|items| - 1], m) + Weight(e, items[|items| - 1].score, m)
  }

  function WeightedValue(e: real -> real, item: Item, m: real): real {
    Weight(e, item.score, m) * item.value
  }

  function WeightedSum(e: real -> real, items: seq<Item>, m: real): real {
    if items == [] then 0.0
    else WeightedSum(e, items[..|items| - 1], m) + WeightedValue(e, items[|items| - 1], m)
  }

  /** The plain softmax average of the values, written without any running maximum. */
  function Softmax(e: real -> real, items: seq<Item>): real {
    if WeightSum(e, items, 0.0) == 0.0 then 0.0 else WeightedSum(e, items, 0.0) / WeightSum(e, items, 0.0)
  }

  lemma SoftmaxQuotient(e: real -> real, items: seq<Item>)
    requires WeightSum(e, items, 0.0) != 0.0
    ensures Softmax(e, items) == WeightedSum(e, items, 0.0) / WeightSum(e, items, 0.0)
  {
  }

  ghost predicate Unmasked(items: seq<Item>) {
    exists i :: 0 <= i < |items| && items[i].score.Fin?
  }

  /** x * k, kept as a function so that proofs about sums stay linear. */
  function Scale(x: real, k: real): real { x * k }

  lemma ScaleSum(x: real, y: real, k: real)
    ensures Scale(x + y, k) == Scale(x, k) + Scale(y, k)
  {
  }

  lemma WeightRescales(e: real -> real, item: Item, m: real, m': real)
    requires IsExp(e)
    ensures Weight(e, item.score, m') == Scale(Weight(e, item.score, m), e(m - m'))
    ensures WeightedValue(e, item, m') == Scale(WeightedValue(e, item, m), e(m - m'))
  {
    var s := item.score;
    if s.Fin? {
      ExpSum(e, s.v - m, m - m');
      assert (s.v - m) + (m - m') == s.v - m';
      Commute(e(s.v - m), e(m - m'), item.value);
    }
  }

  lemma Commute(w: real, k: real, v: real)
    ensures (w * k) * v == (w * v) * k
  {
  }

  /** Moving the reference point multiplies both sums by the same factor. */
  lemma {:induction false} SumsRescale(e: real -> real, items: seq<Item>, m: real, m': real)
    requires IsExp(e)
    ensures WeightSum(e, items, m') == Scale(WeightSum(e, items, m), e(m - m'))
    ensures WeightedSum(e, items, m') == Scale(WeightedSum(e, items, m), e(m - m'))
    decreases |items|
  {
    if items != [] {
      hide IsExp, Weight, WeightedValue, Scale;
      var front, last := items[..|items| - 1], items[|items| - 1];
      SumsRescale(e, front, m, m');
      WeightRescales(e, last, m, m');
      ScaleSum(WeightSum(e, front, m), Weight(e, last.score, m), e(m - m'));
      ScaleSum(WeightedSum(e, front, m), WeightedValue(e, last, m), e(m - m'));
    }
  }

  lemma {:induction false} SumsConcat(e: real -> real, a: seq<Item>, b: seq<Item>, m: real)
    ensures WeightSum(e, a + b, m) == WeightSum(e, a, m) + WeightSum(e, b, m)
    ensures WeightedSum(e, a + b, m) == WeightedSum(e, a, m) + WeightedSum(e, b, m)
    decreases |b|
  {
    if b == [] {
      assert a + b == a;
    } else {
      var n := |b| - 1;
      SumsConcat(e, a, b[..n], m);
      assert (a + b)[..|a + b| - 1] == a + b[..n];
    }
  }

  /** The weight sum is never negative, and positive exactly when some score is unmasked. */
  lemma {:induction false} WeightSumSign(e: real -> real, items: seq<Item>, m: real)
    requires IsExp(e)
    ensures WeightSum(e, items, m) >= 0.0
    ensures WeightSum(e, items, m) > 0.0 <==> Unmasked(items)
    decreases |items|
  {
    if items != [] {
      var n := |items| - 1;
      var front := items[..n];
      WeightSumSign(e, front, m);
      if Unmasked(front) {
        var i :| 0 <= i < |front| && front[i].score.Fin?;
        assert items[i].score.Fin?;
      } else if items[n].score.NegInf? {
        assert forall i :: 0 <= i < |items| ==> (i < n ==> items[i] == front[i]);
      }
    }
  }

  /** A quotient of sums taken at any reference point is the plain softmax. */
  lemma NormalisedIsSoftmax(e: real -> real, items: seq<Item>, m: real)
    requires IsExp(e) && Unmasked(items)
    ensures WeightSum(e, items, m) > 0.0
    ensures WeightedSum(e, items, m) / WeightSum(e, items, m) == Softmax(e, items)
  {
    hide *;
    WeightSumSign(e, items, m);
    WeightSumSign(e, items, 0.0);
    SumsRescale(e, items, 0.0, m);
    CancelFactor(WeightedSum(e, items, 0.0), WeightSum(e, items, 0.0), e(0.0 - m),
                 WeightedSum(e, items, m), WeightSum(e, items, m));
    SoftmaxQuotient(e, items);
  }

  lemma CancelFactor(a: real, b: real, k: real, a': real, b': real)
    requires b != 0.0 && b' != 0.0 && a' == Scale(a, k) && b' == Scale(b, k)
    ensures a' / b' == a / b
  {
    var q := a / b;
    assert a == q * b;
    MulAssociates(q, b, k);
    assert a' == q * b';
  }

  lemma MulAssociates(q: real, b: real, k: real)
    ensures (q * b) * k == q * (b * k)
  {
  }

  // ---------- one tile ----------

  function MaxScore(a: Score, b: Score): Score {
    if a.NegInf? then b else if b.NegInf? then a else if a.v >= b.v then a else b
  }

  function TileMax(tile: seq<Item>): Score {
    if tile == [] then NegInf else MaxScore(TileMax(tile[..|tile| - 1]), tile[|tile| - 1].score)
  }

  const Start := Accumulator(NegInf, 1.0, 0.0)

  /** One iteration of the tile loop. A row that is still fully masked takes 0 as its reference. */
  function TileStep(e: real -> real, st: Accumulator, tile: seq<Item>): Accumulator {
    var top := MaxScore(st.M, TileMax(tile));
    var m := if top.NegInf? then 0.0 else top.v;
    var alpha := Weight(e, st.M, m);
    Accumulator(Fin(m), Scale(st.L, alpha) + WeightSum(e, tile, m), Scale(st.acc, alpha) + WeightedSum(e, tile, m))
  }

  predicate AtMost(s: Score, m: real) {
    s.NegInf? || s.v <= m
  }

  /** The accumulator stands for the processed items relative to its own maximum, and no exponent is positive.
      Before the first tile it is the initial value, whose L = 1 must never count. */
  ghost predicate Represents(e: real -> real, done: seq<Item>, st: Accumulator) {
    if st.M.NegInf? then done == [] && st == Start
    else
      && st.L == WeightSum(e, done, st.M.v)
      && st.acc == WeightedSum(e, done, st.M.v)
      && forall i :: 0 <= i < |done| ==> AtMost(done[i].score, st.M.v)
  }

  lemma {:induction false} TileMaxBounds(tile: seq<Item>, m: real)
    requires AtMost(TileMax(tile), m)
    ensures forall i :: 0 <= i < |tile| ==> AtMost(tile[i].score, m)
    decreases |tile|
  {
    if tile != [] {
      TileMaxBounds(tile[..|tile| - 1], m);
    }
  }

  /** What the accumulator carries over to a new reference point is the sums of the processed items; the initial
      L = 1 carries over as 0. */
  lemma Carried(e: real -> real, done: seq<Item>, st: Accumulator, m: real)
    requires IsExp(e) && Represents(e, done, st)
    ensures Scale(st.L, Weight(e, st.M, m)) == WeightSum(e, done, m)
    ensures Scale(st.acc, Weight(e, st.M, m)) == WeightedSum(e, done, m)
  {
    if st.M.Fin? {
      hide IsExp, WeightSum, WeightedSum;
      SumsRescale(e, done, st.M.v, m);
    }
  }

  lemma TileStepRepresents(e: real -> real, done: seq<Item>, st: Accumulator, tile: seq<Item>)
    requires IsExp(e) && Represents(e, done, st)
    ensures TileStep(e, st, tile).M.Fin?
    ensures Represents(e, done + tile, TileStep(e, st, tile))
  {
    hide IsExp, WeightSum, WeightedSum, TileMax, Scale, Weight;
    var st' := TileStep(e, st, tile);
    var m := st'.M.v;
    SumsConcat(e, done, tile, m);
    TileMaxBounds(tile, m);
    Carried(e, done, st, m);
    forall i | 0 <= i < |done + tile|
      ensures AtMost((done + tile)[i].score, m)
    {
      if i < |done| {
        assert AtMost(done[i].score, st.M.v);
      } else {
        assert AtMost(tile[i - |done|].score, m);
      }
    }
  }

  // ---------- the tile loop ----------

  lemma Glue<X>(row: seq<X>, a: nat, b: nat, c: nat)
    requires a <= b <= c <= |row|
    ensures row[a..b] + row[b..c] == row[a..c]
  {
  }

  /** Tiles lo..hi of a row that is cut into tiles of `size` keys. */
  method RunTiles(e: real -> real, row: seq<Item>, size: nat, lo: nat, hi: nat) returns (st: Accumulator)
    requires IsExp(e) && lo <= hi && size * hi <= |row|
    requires size * lo <= size * hi
    ensures Represents(e, row[size * lo..size * hi], st)
    ensures lo < hi ==> st.M.Fin?
  {
    hide *;
    st := Start;
    StartRepresents(e);
    assert row[size * lo..size * lo] == [];
    for j := lo to hi
      invariant size * lo <= size * j <= size * hi
      invariant Represents(e, row[size * lo..size * j], st)
      invariant lo < j ==> st.M.Fin?
    {
      MulMonotone(size, j + 1, hi);
      MulStep(size, j + 1, j);
      var tile := row[size * j..size * (j + 1)];
      TileStepRepresents(e, row[size * lo..size * j], st, tile);
      Glue(row, size * lo, size * j, size * (j + 1));
      st := TileStep(e, st, tile);
    }
  }

  lemma StartRepresents(e: real -> real)
    ensures Represents(e, [], Start)
  {
  }

  /** The one-pass kernel: the epilogue divides by L. */
  method Attend(e: real -> real, row: seq<Item>, size: nat, blocks: nat) returns (out: real)
    requires IsExp(e) && blocks > 0 && |row| == size * blocks && Unmasked(row)
    ensures out == Softmax(e, row)
  {
    var st := RunTiles(e, row, size, 0, blocks);
    assert row[size * 0..size * blocks] == row;
    NormalisedIsSoftmax(e, row, st.M.v);
    out := st.acc / st.L;
  }

  // ---------- merging segments ----------

  function SegmentMax(segs: seq<Accumulator>): Score {
    if segs == [] then NegInf else MaxScore(SegmentMax(segs[..|segs| - 1]), segs[|segs| - 1].M)
  }

  /** Sum of the segments' L, each rescaled to the overall maximum. */
  function MergedWeight(e: real -> real, segs: seq<Accumulator>, m: real): real {
    if segs == [] then 0.0
    else MergedWeight(e, segs[..|segs| - 1], m) + Scale(segs[|segs| - 1].L, Weight(e, segs[|segs| - 1].M, m))
  }

  function MergedValue(e: real -> real, segs: seq<Accumulator>, m: real): real {
    if segs == [] then 0.0
    else MergedValue(e, segs[..|segs| - 1], m) + Scale(segs[|segs| - 1].acc, Weight(e, segs[|segs| - 1].M, m))
  }

  /** What the masked load puts in place of a segment that was not computed. */
  const Absent := Accumulator(NegInf, 0.0, 0.0)

  /** The first `active` results, the others masked. */
  function Masked(segs: seq<Accumulator>, active: nat): (r: seq<Accumulator>)
    ensures |r| == |segs| && forall i :: 0 <= i < |r| ==> r[i] == if i < active then segs[i] else Absent
  {
    seq(|segs|, i requires 0 <= i < |segs| => if i < active then segs[i] else Absent)
  }

  /** `reduce_segments` for one row and column, once an overall maximum exists. */
  function Reduce(e: real -> real, segs: seq<Accumulator>): real
    requires SegmentMax(segs).Fin?
  {
    var m := SegmentMax(segs).v;
    if MergedWeight(e, segs, m) == 0.0 then 0.0 else MergedValue(e, segs, m) / MergedWeight(e, segs, m)
  }

  function Concat(parts: seq<seq<Item>>): seq<Item> {
    if parts == [] then [] else Concat(parts[..|parts| - 1]) + parts[|parts| - 1]
  }

  ghost predicate Computed(e: real -> real, parts: seq<seq<Item>>, segs: seq<Accumulator>) {
    |segs| >= |parts|
    && (forall i :: 0 <= i < |parts| ==> segs[i].M.Fin? && Represents(e, parts[i], segs[i]))
    && (forall i :: |parts| <= i < |segs| ==> segs[i] == Absent)
  }

  lemma AbsentAddsNothing(e: real -> real, m: real)
    ensures Scale(Absent.L, Weight(e, Absent.M, m)) == Scale(Absent.acc, Weight(e, Absent.M, m)) == 0.0
  {
  }

  lemma {:induction false} MergedSums(e: real -> real, parts: seq<seq<Item>>, segs: seq<Accumulator>, m: real)
    requires IsExp(e) && Computed(e, parts, segs)
    ensures MergedWeight(e, segs, m) == WeightSum(e, Concat(parts), m)
    ensures MergedValue(e, segs, m) == WeightedSum(e, Concat(parts), m)
    decreases |segs|
  {
    if segs != [] {
      hide IsExp, WeightSum, WeightedSum, Scale, Weight, Represents;
      var n := |segs| - 1;
      if |segs| > |parts| {
        assert Computed(e, parts, segs[..n]);
        MergedSums(e, parts, segs[..n], m);
        AbsentAddsNothing(e, m);
      } else {
        assert Computed(e, parts[..n], segs[..n]);
        MergedSums(e, parts[..n], segs[..n], m);
        SumsConcat(e, Concat(parts[..n]), parts[n], m);
        Carried(e, parts[n], segs[n], m);
      }
    }
  }

  lemma {:induction false} SegmentMaxFinite(segs: seq<Accumulator>, i: nat)
    requires i < |segs| && segs[i].M.Fin?
    ensures SegmentMax(segs).Fin?
    decreases |segs|
  {
    if i < |segs| - 1 {
      SegmentMaxFinite(segs[..|segs| - 1], i);
    }
  }

  /** Merging segment results gives the softmax of all the keys, and 0 for a row with every key masked. */
  lemma ReduceIsSoftmax(e: real -> real, parts: seq<seq<Item>>, segs: seq<Accumulator>)
    requires IsExp(e) && Computed(e, parts, segs) && parts != []
    ensures SegmentMax(segs).Fin?
    ensures Reduce(e, segs) == Softmax(e, Concat(parts))
  {
    assert segs[0].M.Fin?;
    SegmentMaxFinite(segs, 0);
    var m, items := SegmentMax(segs).v, Concat(parts);
    MergedSums(e, parts, segs, m);
    WeightSumSign(e, items, m);
    WeightSumSign(e, items, 0.0);
    if Unmasked(items) {
      NormalisedIsSoftmax(e, items, m);
    }
  }

  // ---------- the segmented kernel ----------

  /** Tiles of segment i: from i * per, `per` of them or as many as there are. */
  function SegmentEnd(i: nat, per: nat, blocks: nat): nat {
    var end := per * (i + 1);
    if end < blocks then end else blocks
  }

  /** A segment passes the early return exactly when it has a tile, and the segments that pass it are the first
      `ceil(seqLen / (per * size))`, never more than there are programs. */
  lemma ActiveSegments(seqLen: nat, size: nat, segments: nat, i: nat)
    requires seqLen > 0 && size > 0 && segments > 0
    ensures segments * size > 0
    ensures var per := CeilDiv(seqLen, segments * size);
            && per > 0 && per * size > 0
            && (size * (per * i) < seqLen <==> i < CeilDiv(seqLen, per * size))
            && (size * (per * i) < seqLen <==> per * i < CeilDiv(seqLen, size))
            && 0 < CeilDiv(seqLen, per * size) <= segments
  {
    MulStep(size, segments, 0);
    MulCommutes(size, segments);
    var per := CeilDiv(seqLen, segments * size);
    CeilDivCovers(seqLen, segments * size, 0);
    CeilDivCovers(seqLen, segments * size, per);
    MulStep(size, per, 0);
    MulCommutes(size, per);
    var span := per * size;
    CeilDivCovers(seqLen, span, i);
    CeilDivCovers(seqLen, span, 0);
    CeilDivCovers(seqLen, span, segments);
    CeilDivCovers(seqLen, size, per * i);
    assert span * i == size * (per * i) by { Rearrange(per, size, i); }
    assert (segments * size) * per == span * segments by {
      Rearrange(segments, size, per);
      Rearrange(per, size, segments);
    }
  }

  lemma MulCommutes(a: int, b: int)
    ensures a * b == b * a
  {
  }

  lemma Rearrange(a: int, b: int, c: int)
    ensures (a * b) * c == b * (a * c) && a * c == c * a
  {
  }

  /** The keys of the first n segments, in order. */
  ghost function Parts(row: seq<Item>, size: nat, per: nat, blocks: nat, n: nat): seq<seq<Item>>
    requires size * blocks == |row|
    requires forall i :: 0 <= i < n ==> per * i <= blocks
  {
    if n == 0 then []
    else
      Bounds(size, per, blocks, n - 1);
      Parts(row, size, per, blocks, n - 1)
        + [row[size * (per * (n - 1))..size * SegmentEnd(n - 1, per, blocks)]]
  }

  lemma Bounds(size: nat, per: nat, blocks: nat, i: nat)
    requires per * i <= blocks
    ensures size * (per * i) <= size * SegmentEnd(i, per, blocks) <= size * blocks
    ensures 0 <= size * (per * i)
  {
    MulStep(per, i + 1, i);
    MulMonotone(size, per * i, SegmentEnd(i, per, blocks));
    MulMonotone(size, SegmentEnd(i, per, blocks), blocks);
    MulMonotone(size, 0, per * i);
  }

  /** Consecutive segments are adjacent, so the first n hold exactly the keys before the last one's end. */
  lemma {:induction false} PartsConcat(row: seq<Item>, size: nat, per: nat, blocks: nat, n: nat)
    requires size * blocks == |row| && n > 0
    requires forall i :: 0 <= i < n ==> per * i <= blocks
    ensures |Parts(row, size, per, blocks, n)| == n
    ensures 0 <= size * SegmentEnd(n - 1, per, blocks) <= |row|
    ensures Concat(Parts(row, size, per, blocks, n)) == row[..size * SegmentEnd(n - 1, per, blocks)]
  {
    Bounds(size, per, blocks, n - 1);
    var a, b := size * (per * (n - 1)), size * SegmentEnd(n - 1, per, blocks);
    var parts := Parts(row, size, per, blocks, n);
    var front := Parts(row, size, per, blocks, n - 1);
    assert parts == front + [row[a..b]];
    assert parts[..|parts| - 1] == front;
    if n == 1 {
      assert a == 0;
      assert Concat(front) == [];
    } else {
      PartsConcat(row, size, per, blocks, n - 1);
      Glue(row, 0, a, b);
    }
  }

  /** `act_num_segments` */
  function ActiveCount(seqLen: nat, size: nat, segments: nat): nat
    requires seqLen > 0 && size > 0 && segments > 0
  {
    ActiveSegments(seqLen, size, segments, 0);
    CeilDiv(seqLen, CeilDiv(seqLen, segments * size) * size)
  }

  ghost predicate PartsHeld(e: real -> real, parts: seq<seq<Item>>, segs: seq<Accumulator>) {
    |parts| <= |segs| && forall k :: 0 <= k < |parts| ==> segs[k].M.Fin? && Represents(e, parts[k], segs[k])
  }

  /** The results of the active segments are those of consecutive parts that make up the row. */
  ghost predicate SegmentsHold(e: real -> real, row: seq<Item>, size: nat, seqLen: nat, segs: seq<Accumulator>) {
    && seqLen > 0 && size > 0 && segs != []
    && exists parts ::
         |parts| == ActiveCount(seqLen, size, |segs|) && Concat(parts) == row && PartsHeld(e, parts, segs)
  }

  /** The segmented kernel. Segments that return early leave whatever their output held before. */
  method RunSegments(e: real -> real, row: seq<Item>, size: nat, seqLen: nat, before: seq<Accumulator>)
    returns (segs: seq<Accumulator>)
    requires IsExp(e) && seqLen > 0 && size > 0 && |before| > 0 && |row| == size * CeilDiv(seqLen, size)
    ensures |segs| == |before| && SegmentsHold(e, row, size, seqLen, segs)
  {
    var segments := |before|;
    ActiveSegments(seqLen, size, segments, 0);
    var per, blocks := CeilDiv(seqLen, segments * size), CeilDiv(seqLen, size);
    ghost var active := ActiveCount(seqLen, size, segments);
    assert active == CeilDiv(seqLen, per * size);
    hide *;
    SegmentsCover(row, size, seqLen, segments, per, active);
    ghost var parts := Parts(row, size, per, blocks, active);
    segs := before;
    for i := 0 to segments
      invariant |segs| == segments
      invariant forall k :: 0 <= k < i && k < active ==> segs[k].M.Fin? && Represents(e, parts[k], segs[k])
    {
      ActiveSegments(seqLen, size, segments, i);
      if size * (per * i) < seqLen {
        PartAt(row, size, per, blocks, active, i);
        var st := RunSegment(e, row, size, per, blocks, i);
        segs := segs[i := st];
      }
    }
    HoldsParts(e, row, size, seqLen, segs, parts);
  }

  lemma HoldsParts(e: real -> real, row: seq<Item>, size: nat, seqLen: nat, segs: seq<Accumulator>,
                   parts: seq<seq<Item>>)
    requires seqLen > 0 && size > 0 && segs != [] && |parts| == ActiveCount(seqLen, size, |segs|) <= |segs|
    requires Concat(parts) == row
    requires forall k :: 0 <= k < |parts| ==> segs[k].M.Fin? && Represents(e, parts[k], segs[k])
    ensures SegmentsHold(e, row, size, seqLen, segs)
  {
    hide Represents, Concat, ActiveCount;
    assert PartsHeld(e, parts, segs);
  }

  /** `reduce_segments`: merging the segments that are not masked out gives the softmax of the row. */
  method ReduceSegments(e: real -> real, ghost row: seq<Item>, size: nat, seqLen: nat, segs: seq<Accumulator>)
    returns (out: real)
    requires IsExp(e) && SegmentsHold(e, row, size, seqLen, segs)
    ensures out == Softmax(e, row)
  {
    ActiveSegments(seqLen, size, |segs|, 0);
    var active := ActiveCount(seqLen, size, |segs|);
    assert active > 0;
    hide IsExp, Represents, Concat, ActiveCount, Reduce, Masked, Softmax;
    ghost var parts :| |parts| == active && Concat(parts) == row && PartsHeld(e, parts, segs);
    MaskedComputed(e, parts, segs);
    ReduceIsSoftmax(e, parts, Masked(segs, active));
    out := Reduce(e, Masked(segs, active));
  }

  /** The segmented kernel and its reduction. */
  method AttendSegmented(e: real -> real, row: seq<Item>, size: nat, seqLen: nat, before: seq<Accumulator>)
    returns (out: real)
    requires IsExp(e) && seqLen > 0 && size > 0 && |before| > 0 && |row| == size * CeilDiv(seqLen, size)
    ensures out == Softmax(e, row)
  {
    hide *;
    var segs := RunSegments(e, row, size, seqLen, before);
    out := ReduceSegments(e, row, size, seqLen, segs);
  }

  /** One program of the segmented kernel that did not return early: it has at least one tile. */
  method RunSegment(e: real -> real, row: seq<Item>, size: nat, per: nat, blocks: nat, i: nat)
    returns (st: Accumulator)
    requires IsExp(e) && per > 0 && per * i < blocks && |row| == size * blocks
    requires 0 <= size * (per * i) <= size * SegmentEnd(i, per, blocks) <= |row|
    ensures st.M.Fin? && Represents(e, row[size * (per * i)..size * SegmentEnd(i, per, blocks)], st)
  {
    hide IsExp, Represents;
    MulStep(per, i + 1, i);
    st := RunTiles(e, row, size, per * i, SegmentEnd(i, per, blocks));
  }

  /** The tiles of the segments that do not return early partition the row. */
  lemma SegmentsCover(row: seq<Item>, size: nat, seqLen: nat, segments: nat, per: nat, active: nat)
    requires seqLen > 0 && size > 0 && segments > 0 && segments * size > 0 && per * size > 0
    requires per == CeilDiv(seqLen, segments * size) && active == CeilDiv(seqLen, per * size)
    requires |row| == size * CeilDiv(seqLen, size)
    ensures forall i :: 0 <= i < active ==> per * i < CeilDiv(seqLen, size)
    ensures |Parts(row, size, per, CeilDiv(seqLen, size), active)| == active
    ensures Concat(Parts(row, size, per, CeilDiv(seqLen, size), active)) == row
  {
    hide CeilDiv, Concat, Parts;
    var blocks := CeilDiv(seqLen, size);
    forall i | 0 <= i < active
      ensures per * i < blocks
    {
      ActiveSegments(seqLen, size, segments, i);
    }
    ActiveSegments(seqLen, size, segments, active);
    PartsConcat(row, size, per, blocks, active);
    assert SegmentEnd(active - 1, per, blocks) == blocks;
    assert row[..|row|] == row;
  }

  lemma MaskedComputed(e: real -> real, parts: seq<seq<Item>>, segs: seq<Accumulator>)
    requires |parts| <= |segs|
    requires forall k :: 0 <= k < |parts| ==> segs[k].M.Fin? && Represents(e, parts[k], segs[k])
    ensures Computed(e, parts, Masked(segs, |parts|))
  {
    hide Represents;
  }

  lemma {:induction false} PartAt(row: seq<Item>, size: nat, per: nat, blocks: nat, n: nat, i: nat)
    requires size * blocks == |row| && i < n && forall k :: 0 <= k < n ==> per * k <= blocks
    ensures i < |Parts(row, size, per, blocks, n)| == n
    ensures 0 <= size * (per * i) <= size * SegmentEnd(i, per, blocks) <= |row|
    ensures Parts(row, size, per, blocks, n)[i] == row[size * (per * i)..size * SegmentEnd(i, per, blocks)]
    decreases n
  {
    PartsConcat(row, size, per, blocks, n);
    Bounds(size, per, blocks, i);
    if i < n - 1 {
      PartAt(row, size, per, blocks, n - 1, i);
    }
  }

  // ---------- scores of one query ----------

  /** A query at position `pos` of the new tokens behind `context` earlier ones. `near` and `far` are the scaled
      products inside and outside the rerope window; `sliding` <= 0 turns the sliding window off. */
  datatype Query = Query(context: nat, pos: nat, window: int, sliding: int,
                         near: nat -> real, far: nat -> real, value: nat -> real)

  predicate Visible(q: Query, key: nat) {
    key < q.context + q.pos + 1 && (q.sliding > 0 ==> q.context + q.pos - key < q.sliding)
  }

  function ScoreAt(q: Query, key: nat): Score {
    var apart := q.context + q.pos + 1 - key;
    var distance := if apart < 0 then -apart else apart;
    if Visible(q, key) then Fin(if distance < q.window then q.near(key) else q.far(key)) else NegInf
  }

  function Row(q: Query, n: nat): (r: seq<Item>)
    ensures |r| == n && forall key :: 0 <= key < n ==> r[key] == Item(ScoreAt(q, key), q.value(key))
  {
    seq(n, key requires 0 <= key < n => Item(ScoreAt(q, key), q.value(key)))
  }

  lemma QuerySeesItself(q: Query, n: nat)
    requires q.context + q.pos < n
    ensures Unmasked(Row(q, n))
  {
    assert Row(q, n)[q.context + q.pos].score.Fin?;
  }

  lemma MaskedLastIgnored(e: real -> real, row: seq<Item>, m: real)
    requires row != [] && row[|row| - 1].score == NegInf
    ensures WeightSum(e, row, m) == WeightSum(e, row[..|row| - 1], m)
    ensures WeightedSum(e, row, m) == WeightedSum(e, row[..|row| - 1], m)
  {
  }

  /** Keys after the query, including the padding of the last block, do not change the result. */
  lemma {:induction false} LaterKeysIgnored(e: real -> real, q: Query, n: nat, m: real)
    requires q.context + q.pos + 1 <= n
    ensures WeightSum(e, Row(q, n), m) == WeightSum(e, Row(q, q.context + q.pos + 1), m)
    ensures WeightedSum(e, Row(q, n), m) == WeightedSum(e, Row(q, q.context + q.pos + 1), m)
    decreases n
  {
    hide *;
    if n > q.context + q.pos + 1 {
      LaterKeyMasked(q, n);
      MaskedLastIgnored(e, Row(q, n), m);
      LaterKeysIgnored(e, q, n - 1, m);
    }
  }

  lemma LaterKeyMasked(q: Query, n: nat)
    requires q.context + q.pos + 1 < n
    ensures |Row(q, n)| == n && Row(q, n)[..n - 1] == Row(q, n - 1) && Row(q, n)[n - 1].score == NegInf
  {
  }

  lemma BlocksCover(seqLen: nat, size: nat)
    requires size > 0
    ensures seqLen <= size * CeilDiv(seqLen, size) && (seqLen > 0 ==> CeilDiv(seqLen, size) > 0)
  {
    CeilDivCovers(seqLen, size, CeilDiv(seqLen, size));
    CeilDivCovers(seqLen, size, 0);
  }

  // ---------- what a query should see ----------

  function SumOver(f: nat -> real, from: nat, end: nat): real
    decreases end
  {
    if end <= from then 0.0 else SumOver(f, from, end - 1) + f(end - 1)
  }

  function Exps(e: real -> real, score: nat -> real): nat -> real { (k: nat) => e(score(k)) }

  function Weighted(e: real -> real, score: nat -> real, value: nat -> real): nat -> real {
    (k: nat) => e(score(k)) * value(k)
  }

  /** The average of the values of the keys from..end, weighted with the exponentials of their scores, which sum up to
      more than 0 if there are any keys. */
  function Average(e: real -> real, score: nat -> real, value: nat -> real, from: nat, end: nat): real
  {
    var weights := SumOver(Exps(e, score), from, end);
    if weights == 0.0 then 0.0 else SumOver(Weighted(e, score, value), from, end) / weights
  }

  lemma {:induction false} SumPositive(e: real -> real, score: nat -> real, from: nat, end: nat)
    requires IsExp(e) && from < end
    ensures SumOver(Exps(e, score), from, end) > 0.0
    decreases end
  {
    ExpPositive(e, score(end - 1));
    if end - 1 > from {
      SumPositive(e, score, from, end - 1);
    } else {
      assert SumOver(Exps(e, score), from, end - 1) == 0.0;
    }
  }

  /** With any keys the weights sum up to more than 0. */
  lemma AverageIsQuotient(e: real -> real, score: nat -> real, value: nat -> real, from: nat, end: nat)
    requires IsExp(e) && from < end
    ensures SumOver(Exps(e, score), from, end) > 0.0
    ensures Average(e, score, value, from, end) ==
            SumOver(Weighted(e, score, value), from, end) / SumOver(Exps(e, score), from, end)
  {
    SumPositive(e, score, from, end);
  }

  function Clamp(x: int, lo: nat, hi: nat): (r: nat)
    requires lo <= hi
    ensures lo <= r <= hi
  {
    if x < lo then lo else if x > hi then hi else x
  }

  /** The first key inside the sliding window. */
  function FirstVisible(q: Query): (first: nat)
    ensures first < q.context + q.pos + 1
  {
    var n := q.context + q.pos + 1;
    if q.sliding > 0 then Clamp(n - q.sliding, 0, n) else 0
  }

  /** The first key inside the rerope window; the query itself is at distance 1. */
  function FirstNear(q: Query): nat {
    var n := q.context + q.pos + 1;
    Clamp(n - q.window + 1, FirstVisible(q), n)
  }

  function Chosen(q: Query, mid: nat): nat -> real { (k: nat) => if k < mid then q.far(k) else q.near(k) }

  /** The attention of a query: the average over its visible keys, the last `window - 1` of them scored with one product
      and those before with the other. */
  function Rerope(e: real -> real, q: Query): real {
    Average(e, Chosen(q, FirstNear(q)), q.value, FirstVisible(q), q.context + q.pos + 1)
  }

  lemma {:induction false} SumsAlike(f: nat -> real, g: nat -> real, from: nat, end: nat)
    requires forall k :: from <= k < end ==> f(k) == g(k)
    ensures SumOver(f, from, end) == SumOver(g, from, end)
    decreases end
  {
    if end > from {
      SumsAlike(f, g, from, end - 1);
    }
  }

  lemma AveragesAlike(e: real -> real, score: nat -> real, value: nat -> real, score': nat -> real,
                      value': nat -> real, from: nat, end: nat)
    requires forall k :: from <= k < end ==> score'(k) == score(k) && value'(k) == value(k)
    ensures Average(e, score', value', from, end) == Average(e, score, value, from, end)
  {
    SumsAlike(Exps(e, score), Exps(e, score'), from, end);
    SumsAlike(Weighted(e, score, value), Weighted(e, score', value'), from, end);
    hide SumOver;
  }

  /** Only the product that the distance selects counts, and only for the keys inside the sliding window. */
  lemma OnlySelectedScores(e: real -> real, q: Query, q': Query)
    requires q'.context == q.context && q'.pos == q.pos && q'.window == q.window && q'.sliding == q.sliding
    requires forall k: nat :: k <= q.context + q.pos && (q.sliding > 0 ==> q.context + q.pos + 1 - k <= q.sliding) ==>
                                SelectedAlike(q, q', k)
    ensures Rerope(e, q') == Rerope(e, q)
  {
    hide Average;
    var mid := FirstNear(q);
    assert FirstNear(q') == mid && FirstVisible(q') == FirstVisible(q);
    forall k | FirstVisible(q) <= k < q.context + q.pos + 1
      ensures q'.value(k) == q.value(k) && (if k < mid then q'.far(k) == q.far(k) else q'.near(k) == q.near(k))
    {
      assert SelectedAlike(q, q', k);
    }
    AveragesAlike(e, Chosen(q, mid), q.value,
                  Chosen(q', mid), q'.value, FirstVisible(q), q.context + q.pos + 1);
  }

  /** Key k has the same value and the same score for its distance. */
  ghost predicate SelectedAlike(q: Query, q': Query, k: nat) {
    && q'.value(k) == q.value(k)
    && (if q.context + q.pos + 1 - k < q.window then q'.near(k) == q.near(k) else q'.far(k) == q.far(k))
  }

  /** With every key inside the rerope window all scores are of the one product, with none inside of the other. */
  lemma PureWindows(e: real -> real, q: Query)
    ensures var n := q.context + q.pos + 1;
            && (n < q.window ==> Rerope(e, q) == Average(e, q.near, q.value, FirstVisible(q), n))
            && (q.window <= 1 ==> Rerope(e, q) == Average(e, q.far, q.value, FirstVisible(q), n))
  {
    hide Average;
    var n, mid := q.context + q.pos + 1, FirstNear(q);
    var chosen := Chosen(q, mid);
    if n < q.window {
      AveragesAlike(e, q.near, q.value, chosen, q.value, FirstVisible(q), n);
    } else if q.window <= 1 {
      AveragesAlike(e, q.far, q.value, chosen, q.value, FirstVisible(q), n);
    }
  }

  // ---------- the rows compute it ----------

  function ItemsOf(score: nat -> real, value: nat -> real, from: nat, end: nat): (items: seq<Item>)
    requires from <= end
    ensures |items| == end - from
    ensures forall i :: 0 <= i < |items| ==> items[i] == Item(Fin(score(from + i)), value(from + i))
  {
    seq(end - from, i requires 0 <= i < end - from => Item(Fin(score(from + i)), value(from + i)))
  }

  lemma {:induction false} ItemSums(e: real -> real, score: nat -> real, value: nat -> real, from: nat, end: nat)
    requires from <= end
    ensures WeightSum(e, ItemsOf(score, value, from, end), 0.0) == SumOver(Exps(e, score), from, end)
    ensures WeightedSum(e, ItemsOf(score, value, from, end), 0.0) == SumOver(Weighted(e, score, value), from, end)
    decreases end
  {
    hide *;
    NoItems(e, score, value, from);
    if end > from {
      var last := Item(Fin(score(end - 1)), value(end - 1));
      ItemsGrow(score, value, from, end);
      ItemSums(e, score, value, from, end - 1);
      LastSums(e, ItemsOf(score, value, from, end - 1), last);
      LastWeight(e, last, score(end - 1), value(end - 1));
      LastTerms(e, score, value, from, end);
    }
  }

  lemma NoItems(e: real -> real, score: nat -> real, value: nat -> real, from: nat)
    ensures WeightSum(e, ItemsOf(score, value, from, from), 0.0) == SumOver(Exps(e, score), from, from) == 0.0
    ensures WeightedSum(e, ItemsOf(score, value, from, from), 0.0) == 0.0
    ensures SumOver(Weighted(e, score, value), from, from) == 0.0
  {
  }

  lemma ItemsGrow(score: nat -> real, value: nat -> real, from: nat, end: nat)
    requires from < end
    ensures ItemsOf(score, value, from, end) ==
            ItemsOf(score, value, from, end - 1) + [Item(Fin(score(end - 1)), value(end - 1))]
  {
  }

  lemma LastSums(e: real -> real, items: seq<Item>, last: Item)
    ensures WeightSum(e, items + [last], 0.0) == WeightSum(e, items, 0.0) + Weight(e, last.score, 0.0)
    ensures WeightedSum(e, items + [last], 0.0) == WeightedSum(e, items, 0.0) + WeightedValue(e, last, 0.0)
  {
    assert (items + [last])[..|items|] == items;
    hide Weight, WeightedValue;
  }

  lemma LastTerms(e: real -> real, score: nat -> real, value: nat -> real, from: nat, end: nat)
    requires from < end
    ensures SumOver(Exps(e, score), from, end) == SumOver(Exps(e, score), from, end - 1) + e(score(end - 1))
    ensures SumOver(Weighted(e, score, value), from, end) ==
            SumOver(Weighted(e, score, value), from, end - 1) + e(score(end - 1)) * value(end - 1)
  {
  }

  lemma LastWeight(e: real -> real, item: Item, score: real, value: real)
    requires item == Item(Fin(score), value)
    ensures Weight(e, item.score, 0.0) == e(score) && WeightedValue(e, item, 0.0) == e(score) * value
  {
    assert score - 0.0 == score;
  }

  lemma AverageIsSoftmax(e: real -> real, score: nat -> real, value: nat -> real, from: nat, end: nat)
    requires from <= end
    ensures Softmax(e, ItemsOf(score, value, from, end)) == Average(e, score, value, from, end)
  {
    ItemSums(e, score, value, from, end);
    hide SumOver, WeightSum, WeightedSum, ItemsOf;
  }

  /** Masked items at the front carry no weight. */
  lemma MaskedFrontIgnored(e: real -> real, masked: seq<Item>, items: seq<Item>)
    requires forall i :: 0 <= i < |masked| ==> masked[i].score == NegInf
    ensures Softmax(e, masked + items) == Softmax(e, items)
  {
    MaskedSums(e, masked, 0.0);
    SumsConcat(e, masked, items, 0.0);
    hide WeightSum, WeightedSum;
  }

  lemma {:induction false} MaskedSums(e: real -> real, masked: seq<Item>, m: real)
    requires forall i :: 0 <= i < |masked| ==> masked[i].score == NegInf
    ensures WeightSum(e, masked, m) == 0.0 && WeightedSum(e, masked, m) == 0.0
  {
    if masked != [] {
      MaskedSums(e, masked[..|masked| - 1], m);
    }
  }

  /** The row that the kernels' masks and window choice describe is masked in front of the visible keys. */
  lemma RowSplits(q: Query)
    ensures var n, lo := q.context + q.pos + 1, FirstVisible(q);
            && (forall i :: 0 <= i < lo ==> Row(q, n)[..lo][i].score == NegInf)
            && Row(q, n) == Row(q, n)[..lo] + ItemsOf(Chosen(q, FirstNear(q)), q.value, lo, n)
  {
    hide *;
    var n, lo := q.context + q.pos + 1, FirstVisible(q);
    var items := ItemsOf(Chosen(q, FirstNear(q)), q.value, lo, n);
    forall i | 0 <= i < n ensures Row(q, n)[i] == (if i < lo then Item(NegInf, q.value(i)) else items[i - lo]) {
      ScoreOfKey(q, i);
    }
    assert Row(q, n)[lo..] == items;
  }

  lemma ScoreOfKey(q: Query, k: nat)
    requires k < q.context + q.pos + 1
    ensures ScoreAt(q, k) == if k < FirstVisible(q) then NegInf else Fin(Chosen(q, FirstNear(q))(k))
  {
  }

  lemma ReropeIs(e: real -> real, q: Query)
    ensures Rerope(e, q) ==
            Average(e, Chosen(q, FirstNear(q)), q.value, FirstVisible(q), q.context + q.pos + 1)
  {
    hide Average;
  }

  lemma RowIsRerope(e: real -> real, q: Query)
    ensures Softmax(e, Row(q, q.context + q.pos + 1)) == Rerope(e, q)
  {
    hide *;
    var n, lo := q.context + q.pos + 1, FirstVisible(q);
    RowSplits(q);
    MaskedFrontIgnored(e, Row(q, n)[..lo], ItemsOf(Chosen(q, FirstNear(q)), q.value, lo, n));
    AverageIsSoftmax(e, Chosen(q, FirstNear(q)), q.value, lo, n);
    ReropeIs(e, q);
  }

  // ---------- one query through the kernels ----------

  /** The keys a query is compared with: those of all blocks of its sequence. */
  function PaddedRow(q: Query, size: nat, seqLen: nat): seq<Item>
    requires size > 0
  {
    Row(q, size * CeilDiv(seqLen, size))
  }

  lemma PaddedRowIsSoftmax(e: real -> real, q: Query, size: nat, seqLen: nat)
    requires size > 0 && q.context + q.pos < seqLen
    ensures |PaddedRow(q, size, seqLen)| == size * CeilDiv(seqLen, size) && CeilDiv(seqLen, size) > 0
    ensures Unmasked(PaddedRow(q, size, seqLen))
    ensures Softmax(e, PaddedRow(q, size, seqLen)) == Rerope(e, q)
  {
    BlocksCover(seqLen, size);
    QuerySeesItself(q, size * CeilDiv(seqLen, size));
    LaterKeysIgnored(e, q, size * CeilDiv(seqLen, size), 0.0);
    RowIsRerope(e, q);
    hide Rerope, Row, WeightSum, WeightedSum;
  }

  /** For every valid query of a sequence, both kernels compute its rerope attention, over exactly the keys up to the
      query's own position that its sliding window shows. */
  method AttendQuery(e: real -> real, q: Query, size: nat, seqLen: nat, before: seq<Accumulator>)
    returns (onePass: real, segmented: real)
    requires IsExp(e) && size > 0 && q.context + q.pos < seqLen && |before| > 0
    ensures onePass == segmented == Rerope(e, q)
  {
    hide *;
    onePass := AttendOnePass(e, q, size, seqLen);
    var segs := AttendInSegments(e, q, size, seqLen, before);
    segmented := ReduceQuery(e, q, size, seqLen, segs);
  }

  method AttendOnePass(e: real -> real, q: Query, size: nat, seqLen: nat) returns (out: real)
    requires IsExp(e) && size > 0 && q.context + q.pos < seqLen
    ensures out == Rerope(e, q)
  {
    hide IsExp, Softmax, Rerope, Row, Unmasked, CeilDiv;
    PaddedRowIsSoftmax(e, q, size, seqLen);
    out := Attend(e, PaddedRow(q, size, seqLen), size, CeilDiv(seqLen, size));
  }

  method AttendInSegments(e: real -> real, q: Query, size: nat, seqLen: nat, before: seq<Accumulator>)
    returns (segs: seq<Accumulator>)
    requires IsExp(e) && size > 0 && q.context + q.pos < seqLen && |before| > 0
    ensures |segs| == |before| && SegmentsHold(e, PaddedRow(q, size, seqLen), size, seqLen, segs)
  {
    hide IsExp, Softmax, Rerope, Row, Unmasked, CeilDiv, SegmentsHold;
    PaddedRowIsSoftmax(e, q, size, seqLen);
    segs := RunSegments(e, PaddedRow(q, size, seqLen), size, seqLen, before);
  }

  method ReduceQuery(e: real -> real, ghost q: Query, size: nat, seqLen: nat, segs: seq<Accumulator>)
    returns (out: real)
    requires IsExp(e) && size > 0 && q.context + q.pos < seqLen
    requires SegmentsHold(e, PaddedRow(q, size, seqLen), size, seqLen, segs)
    ensures out == Rerope(e, q)
  {
    hide IsExp, Softmax, Rerope, Row, Unmasked, CeilDiv, SegmentsHold;
    PaddedRowIsSoftmax(e, q, size, seqLen);
    out := ReduceSegments(e, PaddedRow(q, size, seqLen), size, seqLen, segs);
  }
}
