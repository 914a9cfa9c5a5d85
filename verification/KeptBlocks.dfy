/** Which blocks of a long prompt stay resident: the scheduler trims the request's block list at the first decode, and
    the worker, on its own, chose the positions it moves the selected blocks into. */
module KeptBlocks {
  import opened Residues
  import opened Sequences

  type BlockNo = nat

  const MinTopkLen := 32
  const MaxTopkLen := 48
  const DefaultBlockSize := 128
  const SegPrefillThreshold := 8400

  datatype GsaConfig = GsaConfig(minTopk: nat, maxTopk: nat, prefetch: nat, initWindow: nat)

  /** The configuration for a block size; the lengths are those for blocks of 128 tokens, rescaled. */
  function SetConfig(size: nat): GsaConfig
    requires size > 0
  {
    GsaConfig(CeilDiv(MinTopkLen * DefaultBlockSize, size), CeilDiv(MaxTopkLen * DefaultBlockSize, size),
              CeilDiv(DefaultBlockSize, size), CeilDiv(DefaultBlockSize, size))
  }

  /** How many of n blocks attention uses: three tenths of them, between the two limits. */
  function TopkLen(c: GsaConfig, n: nat): nat {
    var k := CeilDiv(3 * n, 10);
    if k < c.minTopk then Min(c.minTopk, n)
    else if k > c.maxTopk then c.maxTopk
    else k
  }

  lemma TopkWithinBlocks(c: GsaConfig, n: nat)
    ensures TopkLen(c, n) <= n
  {
  }

  function PrefetchLen(c: GsaConfig, n: nat): nat {
    TopkWithinBlocks(c, n);
    Min(c.prefetch, n - TopkLen(c, n))
  }

  /** The resident blocks of a prompt of n blocks. */
  function Resident(c: GsaConfig, n: nat): (k: nat)
    ensures k <= n
  {
    TopkWithinBlocks(c, n);
    TopkLen(c, n) + PrefetchLen(c, n)
  }

  /** k is the least number of blocks that hold the tokens. */
  predicate Holds(size: nat, k: nat, tokens: nat) {
    tokens <= size * k && size * k < tokens + size
  }

  /** The resident blocks of a prompt of n blocks: three tenths of them, rounded up, but not fewer than hold 4096 tokens
      nor more than hold 6144, and as many more as hold 128 tokens; of a shorter prompt all. */
  lemma ResidentIs(size: nat, n: nat)
    requires size > 0
    ensures var c, k := SetConfig(size), TopkLen(SetConfig(size), n);
            && Holds(size, c.minTopk, 4096) && Holds(size, c.maxTopk, 6144)
            && Holds(size, c.prefetch, 128) && Holds(size, c.initWindow, 128)
            && (3 * n <= 10 * c.minTopk ==> k == Min(c.minTopk, n))
            && (10 * c.minTopk < 3 * n <= 10 * c.maxTopk ==> Holds(10, k, 3 * n))
            && (10 * c.maxTopk < 3 * n ==> k == c.maxTopk)
            && Resident(c, n) == Min(n, k + c.prefetch)
  {
    var c := SetConfig(size);
    HoldsLeast(size, 4096);
    HoldsLeast(size, 6144);
    HoldsLeast(size, 128);
    HoldsLeast(10, 3 * n);
    CeilDivCovers(3 * n, 10, c.minTopk);
    CeilDivCovers(3 * n, 10, c.maxTopk);
    CeilDivMonotone(4096, 6144, size);
    hide CeilDiv, Holds;
  }

  lemma HoldsLeast(size: nat, tokens: nat)
    requires size > 0
    ensures Holds(size, CeilDiv(tokens, size), tokens)
  {
    var k := CeilDiv(tokens, size);
    CeilDivCovers(tokens, size, k);
    if k > 0 {
      CeilDivCovers(tokens, size, k - 1);
      assert size * k == size * (k - 1) + size;
    }
  }

  // ---- the worker's positions ----

  function Range(lo: nat, hi: nat): seq<nat>
    requires lo <= hi
  {
    seq(hi - lo, i requires 0 <= i < hi - lo => lo + i)
  }

  /** `s[start:]` for a start that may be negative or past the end. */
  function SliceFrom<T>(s: seq<T>, start: int): seq<T> {
    if start > |s| then []
    else if start >= 0 then s[start..]
    else if |s| + start >= 0 then s[|s| + start..]
    else s
  }

  /** The positions the worker keeps out of n, k of them, the first w being the initial window. */
  function RemainIdx(n: nat, k: nat, w: nat): seq<nat> {
    Range(0, n)[..Min(w, n)] + SliceFrom(Range(0, n), w - k)
  }

  // ---- the scheduler's positions ----

  predicate Keeps(original: nat, need: int, w: nat, i: nat) {
    i >= original - need + w || i < w
  }

  /** The positions below i that the scheduler keeps. */
  function KeptBelow(original: nat, need: int, w: nat, i: nat): seq<nat> {
    if i == 0 then []
    else KeptBelow(original, need, w, i - 1) + if Keeps(original, need, w, i - 1) then [i - 1] else []
  }

  function KeptPositions(original: nat, need: int, w: nat): seq<nat> {
    KeptBelow(original, need, w, original)
  }

  /** The kept positions are the initial window and a final run. */
  lemma {:induction false} KeptForm(original: nat, need: int, w: nat, i: nat)
    requires w <= original - need + w
    ensures KeptBelow(original, need, w, i) ==
            Range(0, Min(w, i)) + Range(Min(original - need + w, i), i)
  {
    var from := original - need + w;
    if i > 0 {
      KeptForm(original, need, w, i - 1);
      hide KeptBelow;
      RangeGrows(0, i - 1);
      if i - 1 >= from {
        RangeGrows(from, i - 1);
      }
      KeptBelowStep(original, need, w, i);
    }
  }

  lemma RangeGrows(lo: nat, hi: nat)
    requires lo <= hi
    ensures Range(lo, hi + 1) == Range(lo, hi) + [hi]
  {
  }

  lemma KeptBelowStep(original: nat, need: int, w: nat, i: nat)
    requires i > 0
    ensures KeptBelow(original, need, w, i) ==
            KeptBelow(original, need, w, i - 1) + if Keeps(original, need, w, i - 1) then [i - 1] else []
  {
  }

  lemma {:induction false} KeepsAll(original: nat, need: int, w: nat, i: nat)
    requires original <= need || i <= w
    ensures KeptBelow(original, need, w, i) == Range(0, i)
  {
    if i > 0 {
      KeepsAll(original, need, w, i - 1);
      assert Range(0, i) == Range(0, i - 1) + [i - 1];
    }
  }

  /** For any window and any count k of blocks to keep, scheduler and worker agree exactly when the window is smaller
      than k, or so large that it holds all blocks and the worker's second slice is empty. */
  lemma PositionsAgree(n: nat, k: nat, w: nat)
    requires k <= n
    ensures KeptPositions(n, k, w) == RemainIdx(n, k, w) <==> w < k || n + k <= w
  {
    hide KeptBelow;
    KeptForm(n, k, w, n);
    var worker := RemainIdx(n, k, w);
    assert Range(0, n)[..Min(w, n)] == Range(0, Min(w, n));
    if w < k {
      assert SliceFrom(Range(0, n), w - k) == Range(n + w - k, n);
    } else {
      assert |KeptPositions(n, k, w)| == Min(w, n);
      assert |SliceFrom(Range(0, n), w - k)| == if w - k > n then 0 else n - (w - k);
      if n + k <= w {
        assert SliceFrom(Range(0, n), w - k) == [];
      }
    }
  }

  /** When they agree on a small window, the positions are distinct, in range and k in number, as the worker asserts. */
  lemma RemainIdxSelects(n: nat, k: nat, w: nat)
    requires w < k <= n
    ensures |RemainIdx(n, k, w)| == k && Distinct(RemainIdx(n, k, w))
    ensures forall i :: 0 <= i < k ==> RemainIdx(n, k, w)[i] < n
    ensures forall p: nat :: p in RemainIdx(n, k, w) <==> p < w || n - k + w <= p < n
  {
    assert RemainIdx(n, k, w) == Range(0, w) + Range(n + w - k, n);
    hide RemainIdx;
    RangeHas(0, w);
    RangeHas(n + w - k, n);
    RangesDistinct(0, w, n + w - k, n);
    hide Distinct, Range;
  }

  lemma RangeHas(lo: nat, hi: nat)
    requires lo <= hi
    ensures |Range(lo, hi)| == hi - lo && forall p :: p in Range(lo, hi) <==> lo <= p < hi
    ensures forall i :: 0 <= i < hi - lo ==> Range(lo, hi)[i] < hi
  {
    forall p: nat | lo <= p < hi ensures p in Range(lo, hi) {
      assert Range(lo, hi)[p - lo] == p;
    }
  }

  lemma RangesDistinct(a: nat, b: nat, c: nat, d: nat)
    requires a <= b <= c <= d
    ensures Distinct(Range(a, b) + Range(c, d))
  {
  }

  // ---- how many blocks the scheduler asks for ----

  /** The slots of a request that has produced output, or nothing when it is not sparse. */
  datatype Slots = Invalid | Sparsed(tokens: int)

  function EstimateSlots(enabled: bool, size: nat, prompt: nat, outputs: nat): Slots
    requires size > 0
  {
    if !enabled || outputs == 0 || prompt < size || prompt <= SegPrefillThreshold then Invalid
    else
      var promptBlocks := CeilDiv(prompt, size);
      var sparseBlocks := CeilDiv(prompt + outputs, size) - promptBlocks + Resident(SetConfig(size), promptBlocks);
      var flaw := (prompt + outputs) % size;
      Sparsed(sparseBlocks * size - (if flaw != 0 then size - flaw else 0))
  }

  /** The blocks that are not resident once the request decodes. */
  function Dropped(size: nat, prompt: nat): nat
    requires size > 0
  {
    CeilDiv(prompt, size) - Resident(SetConfig(size), CeilDiv(prompt, size))
  }

  lemma CeilDivValue(x: nat, size: nat)
    requires size > 0
    ensures CeilDiv(x, size) == x / size + if x % size == 0 then 0 else 1
  {
    var q, r := x / size, x % size;
    assert x == size * q + r;
    if r == 0 {
      QuotientUnique(x + size - 1, size, q, size - 1);
    } else {
      assert x + size - 1 == size * (q + 1) + (r - 1);
      QuotientUnique(x + size - 1, size, q + 1, r - 1);
    }
  }

  lemma RoundUp(x: nat, size: nat)
    requires size > 0
    ensures CeilDiv(x, size) * size - (if x % size != 0 then size - x % size else 0) == x
  {
    CeilDivValue(x, size);
    hide CeilDiv;
    var q := x / size;
    assert x == q * size + x % size;
    assert (q + 1) * size == q * size + size;
  }

  /** There is an estimate exactly for a decoding request that the feature applies to, and it is the token count less
      the dropped blocks, whole. */
  lemma SlotsAreResidentTokens(enabled: bool, size: nat, prompt: nat, outputs: nat)
    requires size > 0
    ensures EstimateSlots(enabled, size, prompt, outputs) ==
            if enabled && outputs > 0 && LongPrompt(size, prompt)
            then Sparsed(prompt + outputs - Dropped(size, prompt) * size) else Invalid
  {
    hide CeilDiv, Resident;
    var tokens := prompt + outputs;
    RoundUp(tokens, size);
    var all, drop := CeilDiv(tokens, size), Dropped(size, prompt);
    assert (all - drop) * size == all * size - drop * size;
  }

  lemma CeilDivLess(x: nat, drop: nat, size: nat)
    requires size > 0 && drop <= CeilDiv(x, size) && drop * size <= x
    ensures CeilDiv(x - drop * size, size) == CeilDiv(x, size) - drop
  {
    var n := x + size - 1;
    assert n == size * (n / size) + n % size;
    assert n - drop * size == size * (n / size - drop) + n % size;
    QuotientUnique(n - drop * size, size, n / size - drop, n % size);
  }

  lemma CeilDivStep(x: nat, size: nat)
    requires size > 0
    ensures CeilDiv(x + 1, size) == CeilDiv(x, size) + if x % size == 0 then 1 else 0
  {
    var q, r := x / size, x % size;
    assert x == size * q + r;
    if r == 0 {
      QuotientUnique(x + size - 1, size, q, size - 1);
      assert x + 1 + size - 1 == size * (q + 1) + 0;
      QuotientUnique(x + size, size, q + 1, 0);
    } else {
      assert x + size - 1 == size * (q + 1) + (r - 1);
      QuotientUnique(x + size - 1, size, q + 1, r - 1);
      assert x + size == size * (q + 1) + r;
      QuotientUnique(x + size, size, q + 1, r);
    }
  }

  /** The requests the feature applies to. */
  predicate LongPrompt(size: nat, prompt: nat) {
    size > 0 && prompt >= size && prompt > SegPrefillThreshold
  }

  /** The blocks the scheduler wants to hold before it allocates for this step. */
  function BlocksNeeded(size: nat, prompt: nat, tokens: nat, slots: nat): int
    requires size > 0
  {
    if prompt + 1 == tokens && tokens % size == 1 then CeilDiv(slots, size) - 1 else CeilDiv(slots, size)
  }

  lemma ResidentPositive(size: nat, n: nat)
    requires size > 0 && n > 0
    ensures 0 < Resident(SetConfig(size), n)
  {
    CeilDivCovers(MaxTopkLen * DefaultBlockSize, size, 0);
    CeilDivCovers(3 * n, 10, 0);
    hide CeilDiv;
  }

  lemma CeilDivMonotone(x: nat, y: nat, size: nat)
    requires size > 0 && x <= y
    ensures CeilDiv(x, size) <= CeilDiv(y, size)
  {
    CeilDivCovers(y, size, CeilDiv(y, size));
    CeilDivCovers(x, size, CeilDiv(y, size));
  }

  lemma DroppedTokens(size: nat, prompt: nat)
    requires LongPrompt(size, prompt)
    ensures Dropped(size, prompt) < CeilDiv(prompt, size) && Dropped(size, prompt) * size < prompt
  {
    var n, d := CeilDiv(prompt, size), Dropped(size, prompt);
    CeilDivCovers(prompt, size, 0);
    ResidentPositive(size, n);
    CeilDivCovers(prompt, size, d);
  }

  /** The slots take exactly the request's blocks less the dropped ones. */
  lemma SparseBlocks(size: nat, prompt: nat, outputs: nat)
    requires LongPrompt(size, prompt) && outputs > 0
    ensures EstimateSlots(true, size, prompt, outputs).Sparsed? && EstimateSlots(true, size, prompt, outputs).tokens > 0
    ensures Dropped(size, prompt) < CeilDiv(prompt + outputs, size)
    ensures CeilDiv(EstimateSlots(true, size, prompt, outputs).tokens, size) ==
            CeilDiv(prompt + outputs, size) - Dropped(size, prompt)
  {
    hide CeilDiv, Dropped, EstimateSlots;
    SlotsAreResidentTokens(true, size, prompt, outputs);
    DroppedTokens(size, prompt);
    CeilDivMonotone(prompt, prompt + outputs, size);
    CeilDivLess(prompt + outputs, Dropped(size, prompt), size);
  }

  /** The slots of a decoding long request. */
  function SlotsFor(size: nat, prompt: nat, outputs: nat): nat
    requires LongPrompt(size, prompt) && outputs > 0
  {
    SparseBlocks(size, prompt, outputs);
    EstimateSlots(true, size, prompt, outputs).tokens
  }

  /** At the first decode the scheduler keeps the resident blocks; with one-token blocks it keeps one more. */
  lemma FirstDecodeNeed(size: nat, prompt: nat)
    requires LongPrompt(size, prompt)
    ensures BlocksNeeded(size, prompt, prompt + 1, SlotsFor(size, prompt, 1)) ==
            Resident(SetConfig(size), CeilDiv(prompt, size)) + if size == 1 then 1 else 0
  {
    hide CeilDiv, EstimateSlots, Resident;
    SparseBlocks(size, prompt, 1);
    CeilDivStep(prompt, size);
    if size > 1 {
      var q, r := prompt / size, prompt % size;
      assert prompt == size * q + r;
      if r == 0 {
        QuotientUnique(prompt + 1, size, q, 1);
      } else if r + 1 < size {
        QuotientUnique(prompt + 1, size, q, r + 1);
      } else {
        assert prompt + 1 == size * (q + 1) + 0;
        QuotientUnique(prompt + 1, size, q + 1, 0);
      }
    }
  }

  /** With up to 3968 tokens to a block, the smallest selection is larger than the initial window. */
  lemma SmallBlocks(size: nat, prompt: nat)
    requires LongPrompt(size, prompt) && size <= 3968
    ensures SetConfig(size).initWindow < Resident(SetConfig(size), CeilDiv(prompt, size))
  {
    var c, n := SetConfig(size), CeilDiv(prompt, size);
    var w := c.initWindow;
    CeilDivCovers(128, size, 0);
    CeilDivCovers(128, size, w - 1);
    assert size * w == size * (w - 1) + size;
    CeilDivCovers(4096, size, w);
    CeilDivMonotone(4096, prompt, size);
    CeilDivMonotone(4096, 6144, size);
    hide CeilDiv;
  }

  lemma LargeBlocks(size: nat, prompt: nat)
    requires LongPrompt(size, prompt) && size > 3968
    ensures SetConfig(size).initWindow < Resident(SetConfig(size), CeilDiv(prompt, size)) <==> prompt > size
  {
    var c, n := SetConfig(size), CeilDiv(prompt, size);
    CeilDivCovers(128, size, 0);
    CeilDivCovers(128, size, 1);
    CeilDivCovers(prompt, size, 1);
    CeilDivCovers(prompt, size, 0);
    ResidentPositive(size, n);
    hide CeilDiv;
    TopkWithinBlocks(c, n);
  }

  lemma WindowFits(size: nat, prompt: nat)
    requires LongPrompt(size, prompt)
    ensures SetConfig(size).initWindow < Resident(SetConfig(size), CeilDiv(prompt, size)) <==> prompt > size
    ensures SetConfig(size).initWindow <= CeilDiv(prompt, size)
  {
    if size <= 3968 {
      SmallBlocks(size, prompt);
    } else {
      LargeBlocks(size, prompt);
    }
    CeilDivMonotone(128, prompt, size);
  }

  /** The positions `allocate_slots` keeps at the first decode. */
  function SchedulerKeeps(size: nat, prompt: nat): seq<nat>
    requires LongPrompt(size, prompt)
  {
    KeptPositions(CeilDiv(prompt, size), BlocksNeeded(size, prompt, prompt + 1, SlotsFor(size, prompt, 1)),
                  SetConfig(size).initWindow)
  }

  /** The positions `kvcache_init_last_chunk` keeps at the end of the prompt. */
  function WorkerKeeps(size: nat, prompt: nat): seq<nat>
    requires LongPrompt(size, prompt)
  {
    var c, n := SetConfig(size), CeilDiv(prompt, size);
    RemainIdx(n, Resident(c, n), c.initWindow)
  }

  /** Scheduler and worker agree on the kept positions of a long prompt exactly when a block holds more than one token
      and the prompt is longer than one block; this includes the decode token that opens a new block. */
  lemma KeptBlocksAgree(size: nat, prompt: nat)
    requires LongPrompt(size, prompt)
    ensures SchedulerKeeps(size, prompt) == WorkerKeeps(size, prompt) <==> size > 1 && prompt > size
  {
    hide CeilDiv, SlotsFor, Resident, BlocksNeeded, RemainIdx, KeptPositions;
    var c, n := SetConfig(size), CeilDiv(prompt, size);
    FirstDecodeNeed(size, prompt);
    WindowFits(size, prompt);
    ResidentPositive(size, n) by { CeilDivCovers(prompt, size, 0); }
    PositionsAgree(n, Resident(c, n), c.initWindow);
    if size == 1 {
      OneTokenBlocks(prompt);
    }
  }

  /** Then the worker's positions are distinct, in range, and as many as it selects: the initial window and the last
      blocks. */
  lemma WorkerKeepsSelects(size: nat, prompt: nat)
    requires LongPrompt(size, prompt) && prompt > size
    ensures |WorkerKeeps(size, prompt)| == Resident(SetConfig(size), CeilDiv(prompt, size))
    ensures Distinct(WorkerKeeps(size, prompt))
    ensures forall i :: 0 <= i < |WorkerKeeps(size, prompt)| ==> WorkerKeeps(size, prompt)[i] < CeilDiv(prompt, size)
    ensures var n, w := CeilDiv(prompt, size), SetConfig(size).initWindow;
            forall p: nat :: p in WorkerKeeps(size, prompt) <==> p < w || n - Resident(SetConfig(size), n) + w <= p < n
  {
    hide CeilDiv, Resident, RemainIdx, Distinct;
    var c, n := SetConfig(size), CeilDiv(prompt, size);
    WindowFits(size, prompt);
    RemainIdxSelects(n, Resident(c, n), c.initWindow);
  }

  /** With one-token blocks the scheduler keeps a position more than the worker uses. */
  lemma OneTokenBlocks(prompt: nat)
    requires prompt > SegPrefillThreshold
    ensures var k := Resident(SetConfig(1), prompt);
            CeilDiv(prompt, 1) == prompt && |KeptPositions(prompt, k + 1, 128)| == |RemainIdx(prompt, k, 128)| + 1
    ensures SetConfig(1).initWindow == 128
  {
    assert SetConfig(1) == GsaConfig(4096, 6144, 128, 128);
    var k := Resident(SetConfig(1), prompt);
    assert 128 < k < prompt by { SmallBlocks(1, prompt); }
    hide KeptBelow, Resident, CeilDiv;
    KeptForm(prompt, k + 1, 128, prompt);
    RemainIdxSelects(prompt, k, 128);
  }

  // ---- the block list over a run ----

  /** The blocks at some positions of a list. */
  function Pick(blocks: seq<BlockNo>, positions: seq<nat>): seq<BlockNo>
    requires forall i :: 0 <= i < |positions| ==> positions[i] < |blocks|
  {
    seq(|positions|, i requires 0 <= i < |positions| => blocks[positions[i]])
  }

  ghost predicate IsPick(picked: seq<BlockNo>, blocks: seq<BlockNo>, positions: seq<nat>) {
    && |picked| == |positions|
    && forall i :: 0 <= i < |positions| ==> positions[i] < |blocks| && picked[i] == blocks[positions[i]]
  }

  lemma {:induction false} KeptInRange(original: nat, need: int, w: nat, i: nat)
    ensures |KeptBelow(original, need, w, i)| <= i
    ensures forall j :: 0 <= j < |KeptBelow(original, need, w, i)| ==> KeptBelow(original, need, w, i)[j] < i
  {
    if i > 0 {
      KeptInRange(original, need, w, i - 1);
    }
  }

  /** The blocks the scheduler keeps. */
  function KeptOf(blocks: seq<BlockNo>, need: int, w: nat): seq<BlockNo> {
    KeptInRange(|blocks|, need, w, |blocks|);
    Pick(blocks, KeptPositions(|blocks|, need, w))
  }

  lemma PickStep(kept: seq<BlockNo>, blocks: seq<BlockNo>, need: int, w: nat, i: nat)
    requires i < |blocks| && IsPick(kept, blocks, KeptBelow(|blocks|, need, w, i))
    ensures Keeps(|blocks|, need, w, i) ==> IsPick(kept + [blocks[i]], blocks, KeptBelow(|blocks|, need, w, i + 1))
    ensures !Keeps(|blocks|, need, w, i) ==> IsPick(kept, blocks, KeptBelow(|blocks|, need, w, i + 1))
  {
    var below := KeptBelow(|blocks|, need, w, i);
    assert KeptBelow(|blocks|, need, w, i + 1) == below + if Keeps(|blocks|, need, w, i) then [i] else [];
    hide KeptBelow, Keeps;
  }

  lemma PickDone(kept: seq<BlockNo>, blocks: seq<BlockNo>, need: int, w: nat)
    requires IsPick(kept, blocks, KeptBelow(|blocks|, need, w, |blocks|))
    ensures kept == KeptOf(blocks, need, w)
  {
    KeptInRange(|blocks|, need, w, |blocks|);
    hide KeptBelow;
  }

  /** A block is returned exactly when the list is longer than both what is needed and the initial window. */
  lemma KeepsAllIff(original: nat, need: int, w: nat)
    ensures |KeptPositions(original, need, w)| == original <==> original <= need || original <= w
    ensures original <= need || original <= w ==> KeptPositions(original, need, w) == Range(0, original)
  {
    if original <= need || original <= w {
      KeepsAll(original, need, w, original);
    } else {
      KeptForm(original, need, w, original);
    }
  }

  /** The blocks at the worker's positions. */
  function WorkerBlocks(size: nat, prompt: nat, blocks: seq<BlockNo>): seq<BlockNo>
    requires LongPrompt(size, prompt) && prompt > size && |blocks| == CeilDiv(prompt, size)
  {
    WorkerKeepsSelects(size, prompt);
    Pick(blocks, WorkerKeeps(size, prompt))
  }

  lemma ExtendsTrans(a: seq<BlockNo>, b: seq<BlockNo>)
    requires Extends(a, b)
    ensures forall c :: Extends(b, c) ==> Extends(a, c)
  {
  }

  lemma KeptOfAll(blocks: seq<BlockNo>, need: int, w: nat)
    requires |blocks| <= need
    ensures KeptOf(blocks, need, w) == blocks
  {
    KeepsAllIff(|blocks|, need, w);
  }

  /** The blocks that the slots of a decode step take. */
  function SparseCount(size: nat, prompt: nat, outputs: nat): nat
    requires LongPrompt(size, prompt) && outputs > 0
  {
    CeilDiv(SlotsFor(size, prompt, outputs), size)
  }

  lemma FirstKept(size: nat, prompt: nat, blocks: seq<BlockNo>)
    requires LongPrompt(size, prompt) && size > 1 && prompt > size && |blocks| == CeilDiv(prompt, size)
    ensures KeptOf(blocks, BlocksNeeded(size, prompt, prompt + 1, SlotsFor(size, prompt, 1)),
                   SetConfig(size).initWindow) == WorkerBlocks(size, prompt, blocks)
    ensures |WorkerBlocks(size, prompt, blocks)| <= SparseCount(size, prompt, 1)
  {
    hide CeilDiv, KeptPositions, SlotsFor, SetConfig;
    KeptBlocksAgree(size, prompt);
    FirstDecodeNeed(size, prompt);
    WorkerKeepsSelects(size, prompt);
  }

  /** After the first decode nothing less than the blocks of the step is needed, and that never shrinks. */
  lemma LaterNeed(size: nat, prompt: nat, before: nat, outputs: nat)
    requires LongPrompt(size, prompt) && 0 < before < outputs
    ensures BlocksNeeded(size, prompt, prompt + outputs, SlotsFor(size, prompt, outputs)) ==
            SparseCount(size, prompt, outputs)
    ensures SparseCount(size, prompt, before) <= SparseCount(size, prompt, outputs)
  {
    hide CeilDiv, EstimateSlots, Dropped;
    SparseBlocks(size, prompt, before);
    SparseBlocks(size, prompt, outputs);
    CeilDivMonotone(prompt + before, prompt + outputs, size);
  }

  /** The blocks wanted, and the ones kept, at a decode step. */
  function NeedAt(size: nat, prompt: nat, outputs: nat): int
    requires LongPrompt(size, prompt) && outputs > 0
  {
    BlocksNeeded(size, prompt, prompt + outputs, SlotsFor(size, prompt, outputs))
  }

  function KeptAt(size: nat, prompt: nat, outputs: nat, blocks: seq<BlockNo>): seq<BlockNo>
    requires LongPrompt(size, prompt) && outputs > 0
  {
    KeptOf(blocks, NeedAt(size, prompt, outputs), SetConfig(size).initWindow)
  }

  lemma NeedWithin(size: nat, prompt: nat, outputs: nat)
    requires LongPrompt(size, prompt) && outputs > 0
    ensures NeedAt(size, prompt, outputs) <= SparseCount(size, prompt, outputs)
  {
    hide CeilDiv, SlotsFor;
  }

  /** A list within what is needed is kept as it is, so a second call at the same step returns nothing. */
  lemma KeptAgain(size: nat, prompt: nat, outputs: nat, blocks: seq<BlockNo>)
    requires LongPrompt(size, prompt) && outputs > 0
    requires |KeptAt(size, prompt, outputs, blocks)| <= NeedAt(size, prompt, outputs)
    ensures var kept := KeptAt(size, prompt, outputs, blocks); KeptAt(size, prompt, outputs, kept) == kept
  {
    hide KeptOf, NeedAt, SetConfig;
    KeptOfAll(KeptAt(size, prompt, outputs, blocks), NeedAt(size, prompt, outputs), SetConfig(size).initWindow);
  }

  /** What the first decode keeps is what it needs, also when its token opens a block. */
  lemma FirstKeptFits(size: nat, prompt: nat, blocks: seq<BlockNo>)
    requires LongPrompt(size, prompt) && size > 1 && prompt > size && |blocks| == CeilDiv(prompt, size)
    ensures KeptAt(size, prompt, 1, blocks) == WorkerBlocks(size, prompt, blocks)
    ensures |WorkerBlocks(size, prompt, blocks)| == NeedAt(size, prompt, 1)
  {
    FirstKept(size, prompt, blocks);
    hide CeilDiv, KeptOf, SlotsFor, SetConfig, BlocksNeeded, Resident, WorkerKeeps;
    FirstDecodeNeed(size, prompt);
    WorkerKeepsSelects(size, prompt);
  }

  /** A later step keeps every block of a list that an earlier one left. */
  lemma LaterKeepsAll(size: nat, prompt: nat, before: nat, outputs: nat, blocks: seq<BlockNo>)
    requires LongPrompt(size, prompt) && 0 < before < outputs && |blocks| <= SparseCount(size, prompt, before)
    ensures KeptAt(size, prompt, outputs, blocks) == blocks && |blocks| <= NeedAt(size, prompt, outputs)
  {
    hide BlocksNeeded, SetConfig, SlotsFor, KeptOf, SparseCount, CeilDiv;
    LaterNeed(size, prompt, before, outputs);
    KeptOfAll(blocks, NeedAt(size, prompt, outputs), SetConfig(size).initWindow);
  }

  function Joined(parts: seq<seq<BlockNo>>): seq<BlockNo> {
    if parts == [] then [] else Joined(parts[..|parts| - 1]) + parts[|parts| - 1]
  }

  /** The blocks of a request and of the pool are those of before and the ones of the first k preempted requests. */
  ghost predicate Owned(held: seq<BlockNo>, free: seq<BlockNo>, before: multiset<BlockNo>, preempted: seq<seq<BlockNo>>,
                        k: nat)
    requires k <= |preempted|
  {
    multiset(held) + multiset(free) == before + multiset(Joined(preempted[..k]))
  }

  lemma NoneGiven(held: seq<BlockNo>, free: seq<BlockNo>, preempted: seq<seq<BlockNo>>)
    ensures Owned(held, free, multiset(held) + multiset(free), preempted, 0)
  {
    assert Joined(preempted[..0]) == [];
  }

  lemma MoreGiven(held: seq<BlockNo>, free: seq<BlockNo>, before: multiset<BlockNo>, preempted: seq<seq<BlockNo>>,
                  k: nat)
    requires k < |preempted| && Owned(held, free, before, preempted, k)
    ensures Owned(held, free + preempted[k], before, preempted, k + 1)
  {
    assert preempted[..k + 1][..k] == preempted[..k];
    assert Joined(preempted[..k + 1]) == Joined(preempted[..k]) + preempted[k];
    hide Joined;
    var joined, more := Joined(preempted[..k]), preempted[k];
    assert multiset(free + more) == multiset(free) + multiset(more);
    assert multiset(joined + more) == multiset(joined) + multiset(more);
    AddToBoth(multiset(held), multiset(free), before, multiset(joined), multiset(more));
  }

  lemma AddToBoth(a: multiset<BlockNo>, b: multiset<BlockNo>, c: multiset<BlockNo>, d: multiset<BlockNo>,
                  more: multiset<BlockNo>)
    requires a + b == c + d
    ensures a + (b + more) == c + (d + more)
  {
    assert a + (b + more) == (a + b) + more;
    assert c + (d + more) == (c + d) + more;
  }

  lemma SameOwned(held: seq<BlockNo>, free: seq<BlockNo>, held': seq<BlockNo>, free': seq<BlockNo>,
                  before: multiset<BlockNo>, preempted: seq<seq<BlockNo>>, k: nat)
    requires k <= |preempted| && Owned(held, free, before, preempted, k)
    requires multiset(held') + multiset(free') == multiset(held) + multiset(free)
    ensures Owned(held', free', before, preempted, k)
  {
    hide Joined;
  }

  /** Of a list of calls, only the first returned blocks. */
  ghost predicate OnlyFirst(log: seq<seq<BlockNo>>) {
    forall i :: 1 <= i < |log| ==> log[i] == []
  }

  lemma OneMore(log: seq<seq<BlockNo>>, returned: seq<BlockNo>)
    requires OnlyFirst(log) && (log != [] ==> returned == [])
    ensures OnlyFirst(log + [returned])
  {
  }

  lemma MoreSilent(log: seq<seq<BlockNo>>, more: seq<seq<BlockNo>>)
    requires log != [] && OnlyFirst(log) && more != [] && OnlyFirst(more) && more[0] == []
    ensures OnlyFirst(log + more)
  {
  }

  /** A decode step: how many tokens have been sampled, and the blocks of the requests that can be preempted for it, in
      that order. */
  datatype DecodeStep = DecodeStep(outputs: nat, preempted: seq<seq<BlockNo>>)

  /** The scheduler's side of a request: the blocks it holds and the pool's free blocks. */
  class BlockList {
    const size: nat
    const prompt: nat
    var held: seq<BlockNo>
    var free: seq<BlockNo>

    constructor (size: nat, prompt: nat, held: seq<BlockNo>, free: seq<BlockNo>)
      ensures this.size == size && this.prompt == prompt && this.held == held && this.free == free
    {
      this.size, this.prompt, this.held, this.free := size, prompt, held, free;
    }

    /** Trims the list to the kept positions, returns the others to the pool and takes new blocks for the slots. */
    method AllocateSlots(tokens: nat, slots: nat) returns (ok: bool, returned: seq<BlockNo>)
      requires size > 0
      modifies `held, `free
      ensures var kept := KeptOf(old(held), BlocksNeeded(size, prompt, tokens, slots), SetConfig(size).initWindow);
              && Extends(kept, held)
              && |held| == (if ok && CeilDiv(slots, size) > |kept| then CeilDiv(slots, size) else |kept|)
              && |returned| == old(|held|) - |kept|
              && (ok <==> CeilDiv(slots, size) - |kept| <= old(|free|) + |returned|)
      ensures multiset(held) + multiset(free) == old(multiset(held) + multiset(free))
    {
      var need := BlocksNeeded(size, prompt, tokens, slots);
      var w := SetConfig(size).initWindow;
      hide BlocksNeeded, SetConfig, CeilDiv;
      var kept;
      kept, returned := Trim(held, need, w);
      held, free := kept, free + returned;
      assert multiset(held) + multiset(free) == old(multiset(held) + multiset(free));
      assert returned == [] ==> |held| == old(|held|);
      hide KeptOf;
      ok := CeilDiv(slots, size) - |held| <= |free|;
      if ok && CeilDiv(slots, size) > |held| {
        var more := CeilDiv(slots, size) - |held|;
        assert free == free[..more] + free[more..];
        assert multiset(free) == multiset(free[..more]) + multiset(free[more..]);
        held, free := held + free[..more], free[more..];
      }
    }

    static method Trim(blocks: seq<BlockNo>, need: int, w: nat) returns (kept: seq<BlockNo>, returned: seq<BlockNo>)
      ensures kept == KeptOf(blocks, need, w)
      ensures multiset(kept) + multiset(returned) == multiset(blocks) && |kept| + |returned| == |blocks|
    {
      kept, returned := [], [];
      assert blocks[..|blocks|] == blocks && blocks[..0] == [];
      assert IsPick([], blocks, KeptBelow(|blocks|, need, w, 0));
      hide KeptBelow, IsPick;
      for i := 0 to |blocks|
        invariant IsPick(kept, blocks, KeptBelow(|blocks|, need, w, i)) && |kept| + |returned| == i
        invariant multiset(kept) + multiset(returned) == multiset(blocks[..i])
      {
        assert blocks[..i + 1] == blocks[..i] + [blocks[i]];
        PickStep(kept, blocks, need, w, i);
        if i >= |blocks| - need + w || i < w {
          kept := kept + [blocks[i]];
        } else {
          returned := returned + [blocks[i]];
        }
      }
      PickDone(kept, blocks, need, w);
    }

    /** One call of a decode step. */
    method Attempt(outputs: nat) returns (ok: bool, returned: seq<BlockNo>)
      requires LongPrompt(size, prompt) && outputs > 0
      requires |KeptAt(size, prompt, outputs, held)| <= NeedAt(size, prompt, outputs)
      modifies `held, `free
      ensures |returned| == old(|held| - |KeptAt(size, prompt, outputs, held)|)
      ensures Extends(old(KeptAt(size, prompt, outputs, held)), held) && |held| <= SparseCount(size, prompt, outputs)
      ensures !ok ==> held == old(KeptAt(size, prompt, outputs, held))
      ensures multiset(held) + multiset(free) == old(multiset(held) + multiset(free))
    {
      NeedWithin(size, prompt, outputs);
      hide KeptOf, BlocksNeeded, SlotsFor, SetConfig, CeilDiv, LongPrompt;
      ok, returned := AllocateSlots(prompt + outputs, SlotsFor(size, prompt, outputs));
    }

    /** The scheduler's loop for one step: after a refusal another request is preempted, its blocks go back to the pool,
        and the same call is made again, until it is served or no other request is left. Only the first call can return
        blocks. */
    method AllocateStep(outputs: nat, preempted: seq<seq<BlockNo>>)
      returns (served: bool, log: seq<seq<BlockNo>>, used: nat)
      requires LongPrompt(size, prompt) && outputs > 0
      requires |KeptAt(size, prompt, outputs, held)| <= NeedAt(size, prompt, outputs)
      modifies `held, `free
      ensures log != [] && OnlyFirst(log) && |log[0]| == old(|held| - |KeptAt(size, prompt, outputs, held)|)
      ensures Extends(old(KeptAt(size, prompt, outputs, held)), held) && |held| <= SparseCount(size, prompt, outputs)
      ensures used <= |preempted| && (!served ==> used == |preempted|)
      ensures Owned(held, free, old(multiset(held) + multiset(free)), preempted, used)
    {
      ghost var kept, first, before := KeptAt(size, prompt, outputs, held), held, multiset(held) + multiset(free);
      KeptAgain(size, prompt, outputs, held);
      NoneGiven(held, free, preempted);
      log, used := [], 0;
      hide *;
      while true
        invariant |log| == used <= |preempted| && OnlyFirst(log)
        invariant held == if log == [] then first else kept
        invariant log != [] ==> |log[0]| == |first| - |kept|
        invariant Owned(held, free, before, preempted, used)
        decreases |preempted| - used
      {
        ghost var heldWas, freeWas := held, free;
        var returned;
        served, returned := Attempt(outputs);
        SameOwned(heldWas, freeWas, held, free, before, preempted, used);
        OneMore(log, returned);
        log := log + [returned];
        if served || used == |preempted| {
          break;
        }
        MoreGiven(held, free, before, preempted, used);
        free := free + preempted[used];
        used := used + 1;
      }
    }

    /** Decode steps of a long request, each tried until it is served or the request itself has to give way: the first
        call keeps exactly the blocks at the worker's positions, and no later call returns a block. */
    method DecodeSteps(steps: seq<DecodeStep>) returns (served: nat, log: seq<seq<BlockNo>>, ghost given: seq<BlockNo>)
      requires LongPrompt(size, prompt) && size > 1 && prompt > size && |held| == CeilDiv(prompt, size)
      requires steps != [] && steps[0].outputs == 1
      requires forall i, j :: 0 <= i < j < |steps| ==> steps[i].outputs < steps[j].outputs
      modifies `held, `free
      ensures served <= |steps| && log != [] && OnlyFirst(log)
      ensures |log[0]| == old(|held|) - |WorkerBlocks(size, prompt, old(held))|
      ensures Extends(WorkerBlocks(size, prompt, old(held)), held)
      ensures multiset(held) + multiset(free) == old(multiset(held) + multiset(free)) + multiset(given)
    {
      FirstKept(size, prompt, held);
      FirstKeptFits(size, prompt, held);
      hide BlocksNeeded, SetConfig, CeilDiv, SlotsFor, KeptOf, WorkerBlocks, LongPrompt, Extends, KeptAt, NeedAt,
           SparseCount, Joined;
      var ok, used;
      ok, log, used := AllocateStep(1, steps[0].preempted);
      given, served := Joined(steps[0].preempted[..used]), 0;
      if !ok {
        return;
      }
      served := 1;
      while served < |steps|
        invariant 1 <= served <= |steps| && log != [] && OnlyFirst(log)
        invariant |log[0]| == |old(held)| - |WorkerBlocks(size, prompt, old(held))|
        invariant 0 < steps[served - 1].outputs && |held| <= SparseCount(size, prompt, steps[served - 1].outputs)
        invariant Extends(WorkerBlocks(size, prompt, old(held)), held)
        invariant multiset(held) + multiset(free) == old(multiset(held) + multiset(free)) + multiset(given)
      {
        var step := steps[served];
        assert steps[served - 1].outputs < step.outputs;
        LaterKeepsAll(size, prompt, steps[served - 1].outputs, step.outputs, held);
        ExtendsTrans(WorkerBlocks(size, prompt, old(held)), held);
        var more;
        ok, more, used := AllocateStep(step.outputs, step.preempted);
        MoreSilent(log, more);
        log := log + more;
        given := given + Joined(step.preempted[..used]);
        if !ok {
          return;
        }
        served := served + 1;
      }
    }
  }
}
