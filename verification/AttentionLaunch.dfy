/** A whole call of the attention: the grid of programs, each with its rows, writes every output element once, and what
    it writes is the attention of that element's query; or it writes the segments of every element, and a second grid
    over tokens and heads reduces them. */
module AttentionLaunch {
  import opened Residues
  import opened OnlineSoftmax
  import opened QueryGrid

  /** A batch of sequences: cumulative query lengths, sequence lengths, heads, and what the query at a position of a
      sequence, of a query head, sees of the keys of a key head (for one column of the values). */
  datatype Batch = Batch(cu: seq<nat>, seqLens: seq<nat>, perKv: nat, kvHeads: nat, blockSize: nat,
                         query: (nat, nat, nat, nat) -> Query)
  {
    function Total(): nat
      requires cu != []
    {
      cu[|cu| - 1]
    }
  }

  ghost predicate BatchOk(b: Batch) {
    && Cumulative(b.cu) && |b.cu| == |b.seqLens| + 1 && Divides(b.perKv) && b.blockSize > 0
    && forall s: nat, t: nat, h: nat :: Element(b, s, t, h) ==> QueryOk(b, s, t, h)
  }

  /** Output element (t, h), token t being one of sequence s. */
  ghost predicate Element(b: Batch, s: nat, t: nat, h: nat)
    requires Cumulative(b.cu) && |b.cu| == |b.seqLens| + 1
  {
    s < |b.seqLens| && b.cu[s] <= t < b.cu[s + 1] && h < Mixed(b.perKv, b.kvHeads, 0)
  }

  /** The query of an element stands behind the tokens computed before. */
  ghost predicate QueryOk(b: Batch, s: nat, t: nat, h: nat)
    requires Cumulative(b.cu) && |b.cu| == |b.seqLens| + 1 && Element(b, s, t, h)
  {
    var pos, q := t - b.cu[s], QueryOf(b, s, t, h);
    && q.pos == pos && pos < b.seqLens[s]
    && q.context + (b.cu[s + 1] - b.cu[s]) == b.seqLens[s]
  }

  /** The element's query over the keys of the key head that its query head belongs to. */
  function QueryOf(b: Batch, s: nat, t: nat, h: nat): Query
    requires b.perKv > 0 && s < |b.cu| && b.cu[s] <= t
  {
    b.query(s, t - b.cu[s], h, Quotient(h, b.perKv))
  }

  /** What the element should hold: the attention of its query. */
  ghost function Attention(e: real -> real, b: Batch, s: nat, t: nat, h: nat): real
    requires BatchOk(b) && Element(b, s, t, h)
  {
    Rerope(e, QueryOf(b, s, t, h))
  }

  // ---- where an element is computed ----

  /** A row of a program. */
  datatype Place = Place(g: nat, kv: nat, m: nat)

  function Quotient(n: nat, d: nat): nat
    requires d > 0
  {
    n / d
  }

  function Remainder(n: nat, d: nat): nat
    requires d > 0
  {
    n % d
  }

  ghost function PlaceOf(b: Batch, s: nat, t: nat, h: nat): Place
    requires BatchOk(b) && Element(b, s, t, h)
  {
    var blockQ, off := BlockQ(b.perKv), t - b.cu[s];
    Place(FirstBlock(b.cu, s, blockQ) + Quotient(off, blockQ), Quotient(h, b.perKv),
          Mixed(b.perKv, Remainder(off, blockQ), Remainder(h, b.perKv)))
  }

  lemma PlaceHandles(b: Batch, s: nat, t: nat, h: nat)
    requires BatchOk(b) && Element(b, s, t, h)
    ensures var p := PlaceOf(b, s, t, h);
            && Handles(b.cu, |b.seqLens|, b.perKv, p.g, p.kv, p.m, s, t, h)
            && p.g < Launched(b.Total(), |b.seqLens|, BlockQ(b.perKv)) && p.kv < b.kvHeads && p.m < BLOCK_M
  {
    hide Launched, Mixed, FirstBlock, BlockQ, Cumulative, Handles;
    var g, kv, m := Covered(b.cu, |b.seqLens|, b.perKv, b.kvHeads, s, t, h);
  }

  /** A program's row handles at most one element, and that element's place is the row. */
  lemma HandledAtPlace(b: Batch, s: nat, t: nat, h: nat, g: nat, kv: nat, m: nat)
    requires BatchOk(b) && Element(b, s, t, h) && Handles(b.cu, |b.seqLens|, b.perKv, g, kv, m, s, t, h)
    ensures PlaceOf(b, s, t, h) == Place(g, kv, m)
  {
    var p := PlaceOf(b, s, t, h);
    PlaceHandles(b, s, t, h);
    hide Handles, PlaceOf;
    HandledOnce(b.cu, |b.seqLens|, b.perKv, t, h, p.g, p.kv, p.m, s, g, kv, m, s);
  }

  /** The rows in the order of the loops. */
  ghost predicate Before(p: Place, g: nat, kv: nat, m: nat) {
    p.g < g || (p.g == g && (p.kv < kv || (p.kv == kv && p.m < m)))
  }

  /** What a row writes: its attention, or the results of its segments. */
  datatype Value = Final(x: real) | Segments(segs: seq<Accumulator>)

  type Output = map<(nat, nat), Value>

  /** The value belongs to the element: it is its attention, or its segments reduce to that. */
  ghost predicate ValueOk(e: real -> real, b: Batch, s: nat, t: nat, h: nat, segmented: bool, v: Value)
    requires BatchOk(b) && Element(b, s, t, h)
  {
    match v
    case Final(x) => !segmented && x == Attention(e, b, s, t, h)
    case Segments(segs) =>
      && segmented
      && SegmentsHold(e, PaddedRow(QueryOf(b, s, t, h), b.blockSize, b.seqLens[s]), b.blockSize, b.seqLens[s],
                      segs)
  }

  /** The elements placed before row (g, kv, m), and no others, are written, each with its own value. */
  ghost predicate Written(e: real -> real, b: Batch, segmented: bool, out: Output, g: nat, kv: nat, m: nat)
    requires BatchOk(b)
  {
    && (forall s: nat, t: nat, h: nat :: Element(b, s, t, h) ==>
                                           ElementWritten(e, b, segmented, out, g, kv, m, s, t, h))
    && (forall x :: x in out ==> exists s :: Element(b, s, x.0, x.1))
  }

  ghost predicate ElementWritten(e: real -> real, b: Batch, segmented: bool, out: Output, g: nat, kv: nat, m: nat,
                                 s: nat, t: nat, h: nat)
    requires BatchOk(b) && Element(b, s, t, h)
  {
    && ((t, h) in out <==> Before(PlaceOf(b, s, t, h), g, kv, m))
    && ((t, h) in out ==> ValueOk(e, b, s, t, h, segmented, out[(t, h)]))
  }

  /** Nothing is placed at a row that fails one of the kernel's tests. */
  lemma EmptyRow(e: real -> real, b: Batch, segmented: bool, out: Output, g: nat, kv: nat, m: nat)
    requires BatchOk(b) && Written(e, b, segmented, out, g, kv, m)
    requires forall s: nat, t: nat, h: nat :: Element(b, s, t, h) ==> PlaceOf(b, s, t, h) != Place(g, kv, m)
    ensures Written(e, b, segmented, out, g, kv, m + 1)
  {
    hide PlaceOf, ValueOk;
    forall s: nat, t: nat, h: nat | Element(b, s, t, h)
      ensures ElementWritten(e, b, segmented, out, g, kv, m + 1, s, t, h)
    {
      assert ElementWritten(e, b, segmented, out, g, kv, m, s, t, h);
    }
  }

  /** The element of a row is written. */
  lemma FilledRow(e: real -> real, b: Batch, segmented: bool, out: Output, g: nat, kv: nat, m: nat, s: nat, t: nat,
                  h: nat, x: Value)
    requires BatchOk(b) && Written(e, b, segmented, out, g, kv, m) && Element(b, s, t, h)
    requires PlaceOf(b, s, t, h) == Place(g, kv, m) && ValueOk(e, b, s, t, h, segmented, x)
    requires forall s': nat, t': nat, h': nat :: Element(b, s', t', h') && PlaceOf(b, s', t', h') == Place(g, kv, m) ==>
                                    s' == s && t' == t && h' == h
    ensures (t, h) !in out && Written(e, b, segmented, out[(t, h) := x], g, kv, m + 1)
  {
    SearchReady(b);
    hide ValueOk, PlaceOf, BatchOk, Element, Cumulative;
    assert ElementWritten(e, b, segmented, out, g, kv, m, s, t, h);
    var out' := out[(t, h) := x];
    hide ElementWritten;
    forall s': nat, t': nat, h': nat | Element(b, s', t', h')
      ensures ElementWritten(e, b, segmented, out', g, kv, m + 1, s', t', h')
    {
      ElementFilled(e, b, segmented, out, g, kv, m, s, t, h, x, s', t', h');
    }
    forall k | k in out' ensures exists s' :: Element(b, s', k.0, k.1) {
      assert k in out || Element(b, s, k.0, k.1);
    }
  }

  lemma ElementFilled(e: real -> real, b: Batch, segmented: bool, out: Output, g: nat, kv: nat, m: nat, s: nat, t: nat,
                      h: nat, x: Value, s': nat, t': nat, h': nat)
    requires BatchOk(b) && Element(b, s, t, h) && Element(b, s', t', h') && ValueOk(e, b, s, t, h, segmented, x)
    requires PlaceOf(b, s, t, h) == Place(g, kv, m)
    requires PlaceOf(b, s', t', h') == Place(g, kv, m) ==> s' == s && t' == t && h' == h
    requires ElementWritten(e, b, segmented, out, g, kv, m, s', t', h')
    ensures ElementWritten(e, b, segmented, out[(t, h) := x], g, kv, m + 1, s', t', h')
  {
    OneSequence(b, s, s', t, h, t', h');
    hide ValueOk, PlaceOf, BatchOk, Element;
  }

  /** After the last row comes the next program, after the last head program the next q-block. */
  lemma NextProgram(e: real -> real, b: Batch, segmented: bool, out: Output, g: nat, kv: nat)
    requires BatchOk(b)
    ensures Written(e, b, segmented, out, g, kv, BLOCK_M) ==> Written(e, b, segmented, out, g, kv + 1, 0)
    ensures Written(e, b, segmented, out, g, b.kvHeads, 0) ==> Written(e, b, segmented, out, g + 1, 0, 0)
  {
    forall s: nat, t: nat, h: nat | Element(b, s, t, h)
      ensures ElementWritten(e, b, segmented, out, g, kv, BLOCK_M, s, t, h) ==>
                ElementWritten(e, b, segmented, out, g, kv + 1, 0, s, t, h)
      ensures ElementWritten(e, b, segmented, out, g, b.kvHeads, 0, s, t, h) ==>
                ElementWritten(e, b, segmented, out, g + 1, 0, 0, s, t, h)
    {
      PlaceHandles(b, s, t, h);
      hide PlaceOf, ValueOk, Handles;
    }
    hide PlaceOf, ValueOk, ElementWritten;
  }

  // ---- the kernel's tests on a row ----

  /** The element that row m of program (g, kv) computes for the owning sequence, if its tests pass. */
  predicate RowValid(b: Batch, g: nat, m: nat, s: nat)
    requires 0 < b.perKv <= BLOCK_M && s + 1 < |b.cu| && FirstBlock(b.cu, s, BlockQ(b.perKv)) <= g
  {
    var local := g - FirstBlock(b.cu, s, BlockQ(b.perKv));
    && b.cu[s] + Mixed(BlockQ(b.perKv), local, 0) < b.cu[s + 1]
    && b.cu[s] + Mixed(BlockQ(b.perKv), local, RowToken(b.perKv, m)) < b.cu[s + 1]
  }

  function TokenAt(b: Batch, g: nat, m: nat, s: nat): nat
    requires 0 < b.perKv <= BLOCK_M && s + 1 < |b.cu| && FirstBlock(b.cu, s, BlockQ(b.perKv)) <= g
  {
    b.cu[s] + Mixed(BlockQ(b.perKv), g - FirstBlock(b.cu, s, BlockQ(b.perKv)), RowToken(b.perKv, m))
  }

  /** The element placed at a row is the one its tests let through. */
  lemma RowDecides(b: Batch, g: nat, kv: nat, m: nat, s: nat, s': nat, t: nat, h: nat)
    requires BatchOk(b) && Owns(b.cu, |b.seqLens|, g, s, BlockQ(b.perKv))
    requires Element(b, s', t, h) && PlaceOf(b, s', t, h) == Place(g, kv, m)
    ensures RowValid(b, g, m, s) && s' == s && t == TokenAt(b, g, m, s) && h == Mixed(b.perKv, kv, RowHead(b.perKv, m))
  {
    PlaceHandles(b, s', t, h);
    hide PlaceOf, Mixed, FirstBlock, BlockQ, RowToken, RowHead, Element, Launched;
    OwnerUnique(b.cu, |b.seqLens|, g, s, s', BlockQ(b.perKv));
  }

  lemma RowPlaces(b: Batch, g: nat, kv: nat, m: nat, s: nat)
    requires BatchOk(b) && Owns(b.cu, |b.seqLens|, g, s, BlockQ(b.perKv)) && m < BLOCK_M && kv < b.kvHeads
    requires RowValid(b, g, m, s)
    ensures var t, h := TokenAt(b, g, m, s), Mixed(b.perKv, kv, RowHead(b.perKv, m));
            Element(b, s, t, h) && PlaceOf(b, s, t, h) == Place(g, kv, m)
  {
    var t, h := TokenAt(b, g, m, s), Mixed(b.perKv, kv, RowHead(b.perKv, m));
    RowJoin(b.perKv, m);
    HeadsBelow(b.perKv, kv, RowHead(b.perKv, m), b.kvHeads);
    hide PlaceOf, Mixed, FirstBlock, BlockQ, RowToken, RowHead, Cumulative;
    HandledAtPlace(b, s, t, h, g, kv, m);
  }

  lemma HeadsBelow(perKv: nat, kv: nat, r: nat, kvHeads: nat)
    requires r < perKv && kv < kvHeads
    ensures Mixed(perKv, kv, r) < Mixed(perKv, kvHeads, 0)
  {
    MulStep(perKv, kvHeads, kv);
  }

  /** One program: the search for its sequence, the early return, and its rows. */
  method Program(e: real -> real, b: Batch, segmented: bool, before: seq<Accumulator>, g: nat, kv: nat, out: Output)
    returns (out': Output, ghost writes: nat)
    requires IsExp(e) && BatchOk(b) && |b.seqLens| > 0 && |before| > 0 && kv < b.kvHeads
    requires Written(e, b, segmented, out, g, kv, 0)
    ensures Written(e, b, segmented, out', g, kv + 1, 0) && |out'| == |out| + writes
  {
    hide Written, PlaceOf, ValueOk, Handles, Mixed, FirstBlock, Cumulative, IsExp;
    var s := FindSeqIdx(b.cu, g, |b.seqLens|, BlockQ(b.perKv), true);
    out', writes := out, 0;
    for m := 0 to BLOCK_M
      invariant Written(e, b, segmented, out', g, kv, m) && |out'| == |out| + writes
    {
      var wrote;
      out', wrote := RunRow(e, b, segmented, before, g, kv, m, s, out');
      writes := writes + if wrote then 1 else 0;
    }
    NextProgram(e, b, segmented, out', g, kv);
  }

  /** What the kernel computes for a row; the programs of its segments are taken together. */
  method RowValue(e: real -> real, b: Batch, segmented: bool, before: seq<Accumulator>, kv: nat, s: nat, t: nat,
                  h: nat) returns (v: Value)
    requires IsExp(e) && BatchOk(b) && |before| > 0 && Element(b, s, t, h) && kv == Quotient(h, b.perKv)
    ensures ValueOk(e, b, s, t, h, segmented, v)
  {
    assert QueryOk(b, s, t, h);
    hide IsExp, Cumulative, Divides, Softmax, Row, SegmentsHold, PaddedRow;
    var q := b.query(s, t - b.cu[s], h, kv);
    if segmented {
      var segs := AttendInSegments(e, q, b.blockSize, b.seqLens[s], before);
      v := Segments(segs);
    } else {
      var x := AttendOnePass(e, q, b.blockSize, b.seqLens[s]);
      v := Final(x);
    }
  }

  method RunRow(e: real -> real, b: Batch, segmented: bool, before: seq<Accumulator>, g: nat, kv: nat, m: nat, s: nat,
                out: Output) returns (out': Output, wrote: bool)
    requires IsExp(e) && BatchOk(b) && |before| > 0 && kv < b.kvHeads && m < BLOCK_M
    requires Owns(b.cu, |b.seqLens|, g, s, BlockQ(b.perKv)) && Written(e, b, segmented, out, g, kv, m)
    ensures Written(e, b, segmented, out', g, kv, m + 1) && |out'| == |out| + if wrote then 1 else 0
  {
    forall s': nat, t': nat, h': nat | Element(b, s', t', h') && PlaceOf(b, s', t', h') == Place(g, kv, m)
      ensures RowValid(b, g, m, s) && s' == s && t' == TokenAt(b, g, m, s) &&
              h' == Mixed(b.perKv, kv, RowHead(b.perKv, m))
    {
      RowDecides(b, g, kv, m, s, s', t', h');
    }
    hide Written, PlaceOf, Mixed, FirstBlock, BlockQ, RowToken, RowHead, Cumulative, IsExp, Softmax, Row;
    if !RowValid(b, g, m, s) {
      EmptyRow(e, b, segmented, out, g, kv, m);
      return out, false;
    }
    RowPlaces(b, g, kv, m, s);
    var t, h := TokenAt(b, g, m, s), Mixed(b.perKv, kv, RowHead(b.perKv, m));
    var x := RowValue(e, b, segmented, before, kv, s, t, h);
    FilledRow(e, b, segmented, out, g, kv, m, s, t, h, x);
    out', wrote := out[(t, h) := x], true;
  }

  lemma NoneWritten(e: real -> real, b: Batch, segmented: bool)
    requires BatchOk(b)
    ensures Written(e, b, segmented, map[], 0, 0, 0)
  {
    hide PlaceOf, ValueOk;
  }

  /** The first launch: every element is written exactly once, as many writes as elements. */
  method Grid(e: real -> real, b: Batch, segmented: bool, before: seq<Accumulator>)
    returns (out: Output, ghost writes: nat)
    requires IsExp(e) && BatchOk(b) && |b.seqLens| > 0 && |before| > 0
    ensures GridDone(e, b, segmented, out) && writes == |out|
  {
    var programs := Launched(b.Total(), |b.seqLens|, BlockQ(b.perKv));
    out, writes := map[], 0;
    NoneWritten(e, b, segmented);
    SearchReady(b);
    hide *;
    for g := 0 to programs
      invariant Written(e, b, segmented, out, g, 0, 0) && writes == |out|
    {
      for kv := 0 to b.kvHeads
        invariant Written(e, b, segmented, out, g, kv, 0) && writes == |out|
      {
        ghost var more;
        out, more := Program(e, b, segmented, before, g, kv, out);
        writes := writes + more;
      }
      NextProgram(e, b, segmented, out, g, b.kvHeads);
    }
    LaunchDone(e, b, segmented, out, programs);
  }

  /** Every element has its own value, and nothing else is written. */
  ghost predicate GridDone(e: real -> real, b: Batch, segmented: bool, out: Output)
    requires BatchOk(b)
  {
    && (forall s: nat, t: nat, h: nat :: Element(b, s, t, h) ==>
                                           (t, h) in out && ValueOk(e, b, s, t, h, segmented, out[(t, h)]))
    && (forall x :: x in out ==> exists s :: Element(b, s, x.0, x.1))
  }

  lemma LaunchDone(e: real -> real, b: Batch, segmented: bool, out: Output, programs: nat)
    requires BatchOk(b) && programs == Launched(b.Total(), |b.seqLens|, BlockQ(b.perKv)) &&
             Written(e, b, segmented, out, programs, 0, 0)
    ensures GridDone(e, b, segmented, out)
  {
    forall s: nat, t: nat, h: nat | Element(b, s, t, h)
      ensures (t, h) in out && ValueOk(e, b, s, t, h, segmented, out[(t, h)])
    {
      PlaceHandles(b, s, t, h);
      assert ElementWritten(e, b, segmented, out, programs, 0, 0, s, t, h);
      hide ValueOk, PlaceOf, Handles;
    }
  }

  // ---- the second launch ----

  type Reduced = map<(nat, nat), real>

  /** The elements of the tokens before t, and of token t the heads before h, are reduced, and no others. */
  ghost predicate ReducedUpTo(e: real -> real, b: Batch, out: Reduced, t: nat, h: nat)
    requires BatchOk(b)
  {
    && (forall s: nat, t': nat, h': nat :: Element(b, s, t', h') ==> ElementReduced(e, b, out, t, h, s, t', h'))
    && (forall x :: x in out ==> exists s :: Element(b, s, x.0, x.1))
  }

  ghost predicate ElementReduced(e: real -> real, b: Batch, out: Reduced, t: nat, h: nat, s: nat, t': nat, h': nat)
    requires BatchOk(b) && Element(b, s, t', h')
  {
    && ((t', h') in out <==> t' < t || (t' == t && h' < h))
    && ((t', h') in out ==> out[(t', h')] == Attention(e, b, s, t', h'))
  }

  lemma NoneReduced(e: real -> real, b: Batch)
    requires BatchOk(b)
    ensures ReducedUpTo(e, b, map[], 0, 0)
  {
  }

  lemma ReduceStep(e: real -> real, b: Batch, out: Reduced, s: nat, t: nat, h: nat, x: real)
    requires BatchOk(b) && ReducedUpTo(e, b, out, t, h) && Element(b, s, t, h) && x == Attention(e, b, s, t, h)
    ensures (t, h) !in out && ReducedUpTo(e, b, out[(t, h) := x], t, h + 1)
  {
    SearchReady(b);
    hide Attention, BatchOk, Element, Cumulative;
    assert ElementReduced(e, b, out, t, h, s, t, h);
    var out' := out[(t, h) := x];
    hide ElementReduced;
    forall s': nat, t': nat, h': nat | Element(b, s', t', h')
      ensures ElementReduced(e, b, out', t, h + 1, s', t', h')
    {
      ElementStep(e, b, out, s, t, h, x, s', t', h');
    }
    forall k | k in out' ensures exists s' :: Element(b, s', k.0, k.1) {
      assert k in out || Element(b, s, k.0, k.1);
    }
  }

  lemma ElementStep(e: real -> real, b: Batch, out: Reduced, s: nat, t: nat, h: nat, x: real, s': nat, t': nat, h': nat)
    requires BatchOk(b) && Element(b, s, t, h) && x == Attention(e, b, s, t, h) && Element(b, s', t', h')
    requires ElementReduced(e, b, out, t, h, s', t', h')
    ensures ElementReduced(e, b, out[(t, h) := x], t, h + 1, s', t', h')
  {
    OneSequence(b, s, s', t, h, t', h');
    hide Attention, BatchOk, Element;
  }

  lemma OneSequence(b: Batch, s: nat, s': nat, t: nat, h: nat, t': nat, h': nat)
    requires BatchOk(b) && Element(b, s, t, h) && Element(b, s', t', h')
    ensures t' == t ==> s' == s
  {
    if t' == t {
      SequenceOfToken(b.cu, s, s', t);
    }
  }

  lemma NextToken(e: real -> real, b: Batch, out: Reduced, t: nat)
    requires BatchOk(b) && ReducedUpTo(e, b, out, t, Mixed(b.perKv, b.kvHeads, 0))
    ensures ReducedUpTo(e, b, out, t + 1, 0)
  {
    hide Attention, Mixed;
    forall s': nat, t': nat, h': nat | Element(b, s', t', h') ensures ElementReduced(e, b, out, t + 1, 0, s', t', h') {
      assert ElementReduced(e, b, out, t, Mixed(b.perKv, b.kvHeads, 0), s', t', h');
    }
  }

  /** Every element holds the attention of its query, and nothing else is written. */
  ghost predicate Attended(e: real -> real, b: Batch, out: Reduced)
    requires BatchOk(b)
  {
    && (forall s: nat, t: nat, h: nat :: Element(b, s, t, h) ==>
                                           (t, h) in out && out[(t, h)] == Attention(e, b, s, t, h))
    && (forall x :: x in out ==> exists s :: Element(b, s, x.0, x.1))
  }

  lemma AllReduced(e: real -> real, b: Batch, out: Reduced)
    requires BatchOk(b) && ReducedUpTo(e, b, out, b.Total(), 0)
    ensures Attended(e, b, out)
  {
    hide Attention;
    forall s: nat, t: nat, h: nat | Element(b, s, t, h)
      ensures (t, h) in out && out[(t, h)] == Attention(e, b, s, t, h)
    {
      assert ElementReduced(e, b, out, b.Total(), 0, s, t, h);
    }
  }

  /** One program of `reduce_segments`: the token's sequence is searched by token, and its segments are merged. */
  method ReduceElement(e: real -> real, b: Batch, grid: Output, t: nat, h: nat) returns (x: real, ghost s: nat)
    requires IsExp(e) && BatchOk(b) && |b.seqLens| > 0 && GridDone(e, b, true, grid)
    requires t < b.Total() && h < Mixed(b.perKv, b.kvHeads, 0)
    ensures Element(b, s, t, h) && x == Attention(e, b, s, t, h)
  {
    hide *;
    SearchReady(b);
    var idx := FindSeqIdx(b.cu, t, |b.seqLens|, BlockQ(b.perKv), false);
    s := idx;
    GridValue(e, b, grid, s, t, h);
    x := ReduceQuery(e, QueryOf(b, s, t, h), b.blockSize, b.seqLens[idx], grid[(t, h)].segs);
  }

  lemma SearchReady(b: Batch)
    requires BatchOk(b)
    ensures Cumulative(b.cu) && |b.cu| == |b.seqLens| + 1 && 0 < b.perKv <= BLOCK_M && BlockQ(b.perKv) > 0
    ensures b.Total() == b.cu[|b.seqLens|]
  {
  }

  /** The segments of an element of the first grid. */
  lemma GridValue(e: real -> real, b: Batch, grid: Output, s: nat, t: nat, h: nat)
    requires BatchOk(b) && GridDone(e, b, true, grid)
    requires s < |b.seqLens| && b.cu[s] <= t < b.cu[s + 1] && h < Mixed(b.perKv, b.kvHeads, 0)
    ensures Element(b, s, t, h) && QueryOk(b, s, t, h) && (t, h) in grid && grid[(t, h)].Segments?
    ensures SegmentsHold(e, PaddedRow(QueryOf(b, s, t, h), b.blockSize, b.seqLens[s]), b.blockSize,
                         b.seqLens[s], grid[(t, h)].segs)
    ensures var q := QueryOf(b, s, t, h);
            && b.blockSize > 0 && q.context + q.pos < b.seqLens[s]
            && Attention(e, b, s, t, h) == Rerope(e, q)
  {
    hide Cumulative, Softmax, Row, SegmentsHold, PaddedRow, Mixed;
    assert Element(b, s, t, h);
    assert ValueOk(e, b, s, t, h, true, grid[(t, h)]);
  }

  method ReduceGrid(e: real -> real, b: Batch, grid: Output) returns (out: Reduced, ghost writes: nat)
    requires IsExp(e) && BatchOk(b) && |b.seqLens| > 0 && GridDone(e, b, true, grid)
    ensures Attended(e, b, out) && writes == |out|
  {
    out, writes := map[], 0;
    NoneReduced(e, b);
    hide IsExp, ReducedUpTo, Attention, GridDone, Mixed, BatchOk, Element, Attended;
    for t := 0 to b.Total()
      invariant ReducedUpTo(e, b, out, t, 0) && writes == |out|
    {
      for h := 0 to Mixed(b.perKv, b.kvHeads, 0)
        invariant ReducedUpTo(e, b, out, t, h) && writes == |out|
      {
        var x;
        ghost var s;
        x, s := ReduceElement(e, b, grid, t, h);
        ReduceStep(e, b, out, s, t, h, x);
        out, writes := out[(t, h) := x], writes + 1;
      }
      NextToken(e, b, out, t);
    }
    AllReduced(e, b, out);
  }

  /** A whole call, with either kernel: every output element is written exactly once, as many writes as elements, and
      holds the attention of its query. */
  method Launch(e: real -> real, b: Batch, segmented: bool, before: seq<Accumulator>)
    returns (out: Reduced, ghost writes: nat)
    requires IsExp(e) && BatchOk(b) && |b.seqLens| > 0 && |before| > 0
    ensures forall s: nat, t: nat, h: nat :: Element(b, s, t, h) ==>
                                               (t, h) in out && out[(t, h)] == Attention(e, b, s, t, h)
    ensures writes == |out| && forall x :: x in out ==> exists s :: Element(b, s, x.0, x.1)
  {
    hide IsExp, BatchOk, GridDone, Attention, Element;
    var grid;
    grid, writes := Grid(e, b, segmented, before);
    if segmented {
      out, writes := ReduceGrid(e, b, grid);
    } else {
      OnePassValues(e, b, grid);
      out := map k | k in grid :: grid[k].x;
      assert out.Keys == grid.Keys && |out| == |out.Keys| && |grid| == |grid.Keys|;
      OnePassAttended(e, b, grid, out);
    }
  }

  lemma OnePassValues(e: real -> real, b: Batch, grid: Output)
    requires BatchOk(b) && GridDone(e, b, false, grid)
    ensures forall k :: k in grid ==> grid[k].Final?
  {
    forall k | k in grid ensures grid[k].Final? {
      var s :| Element(b, s, k.0, k.1);
      assert ValueOk(e, b, s, k.0, k.1, false, grid[(k.0, k.1)]);
    }
  }

  lemma OnePassAttended(e: real -> real, b: Batch, grid: Output, out: Reduced)
    requires BatchOk(b) && GridDone(e, b, false, grid) && out.Keys == grid.Keys
    requires forall k :: k in grid ==> grid[k].Final? && out[k] == grid[k].x
    ensures Attended(e, b, out)
  {
    hide Attention;
    forall s: nat, t: nat, h: nat | Element(b, s, t, h)
      ensures (t, h) in out && out[(t, h)] == Attention(e, b, s, t, h)
    {
      assert (t, h) in grid && ValueOk(e, b, s, t, h, false, grid[(t, h)]);
    }
  }
}
