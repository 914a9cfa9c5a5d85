/** The chained block hash of the MindIE integration: the C++ extension works on 64-bit words, the Python code it
    replaces on unbounded integers. */
module MindieHash {
  import opened Residues
  import opened Bits

  const Golden: nat := 0x9e37_79b9_7f4a_7c15

  /** The number of 64-bit words. */
  function Words(): nat { Pow2(64) }

  predicate IsWord(w: nat) { w < Words() }

  function XorBit(a: nat, b: nat): (r: nat)
    ensures r < 2
  {
    if a == b then 0 else 1
  }

  /** n ^ m */
  function Xor(n: nat, m: nat): nat
    decreases n + m
  {
    if n == 0 && m == 0 then 0 else XorBit(n % 2, m % 2) + 2 * Xor(n / 2, m / 2)
  }

  /** What both versions add up before the exclusive or, without wrapping. */
  function Mixed(seed: nat, value: nat): nat {
    value + Golden + Shl6(seed) + seed / 4
  }

  function Shl6(n: nat): nat { 64 * n }

  /** The sum is the value, the golden ratio, and the seed shifted left by six and right by two. */
  lemma MixedShifts(seed: nat, value: nat)
    ensures Mixed(seed, value) == value + Golden + seed * Pow2(6) + ShiftRight(seed, 2)
  {
    ShiftIsDivision(seed, 2);
    assert Pow2(2) == 4 && Pow2(6) == 64;
  }

  function Wrap(n: nat): nat { n % Words() }

  /** `hash_combine` of the plugin: unbounded until the last step. */
  function PyCombine(seed: nat, value: nat): nat {
    var raw := Xor(seed, Mixed(seed, value));
    Wrap(if raw == 0 then 1 else raw)
  }

  /** `HashCombine` of the extension: every operation wraps. */
  function CppCombine(seed: nat, value: nat): nat {
    var sum := Wrap(Wrap(Wrap(value + Golden) + Wrap(Shl6(seed))) + seed / 4);
    var raw := Xor(seed, sum);
    if raw == 0 then 1 else raw
  }

  // ---- the two agree ----

  /** The low k bits. */
  function Low(n: nat, k: nat): nat { n % Pow2(k) }

  lemma LowStep(n: nat, k: nat)
    ensures Low(n, k + 1) == n % 2 + 2 * Low(n / 2, k)
    ensures Low(n, k + 1) / 2 == Low(n / 2, k) && Low(n, k + 1) % 2 == n % 2
  {
    ModDouble(n, Pow2(k));
    assert Pow2(k + 1) == 2 * Pow2(k);
    hide Low, Pow2;
    HalfOf(n % 2, Low(n / 2, k));
  }

  lemma {:induction false} XorMod(n: nat, m: nat, k: nat)
    ensures Low(Xor(n, m), k) == Xor(Low(n, k), Low(m, k))
    decreases k
  {
    if k == 0 {
      assert n % 1 == 0 && m % 1 == 0;
    } else {
      hide *;
      XorMod(n / 2, m / 2, k - 1);
      LowStep(n, k - 1);
      LowStep(m, k - 1);
      LowStep(Xor(n, m), k - 1);
      XorHalves(n, m);
      XorHalves(Low(n, k), Low(m, k));
    }
  }

  lemma HalfOf(bit: nat, rest: nat)
    requires bit < 2
    ensures (bit + 2 * rest) / 2 == rest && (bit + 2 * rest) % 2 == bit
  {
  }

  lemma XorHalves(n: nat, m: nat)
    ensures Xor(n, m) / 2 == Xor(n / 2, m / 2) && Xor(n, m) % 2 == XorBit(n % 2, m % 2)
  {
    assert Xor(n, m) == XorBit(n % 2, m % 2) + 2 * Xor(n / 2, m / 2);
    hide Xor, XorBit;
    HalfOf(XorBit(n % 2, m % 2), Xor(n / 2, m / 2));
  }

  lemma {:induction false} XorZero(n: nat, m: nat)
    ensures Xor(n, m) == 0 <==> n == m
    decreases n + m
  {
    if n != 0 || m != 0 {
      XorZero(n / 2, m / 2);
    }
  }

  lemma WrapSum(a: nat, b: nat)
    ensures Wrap(Wrap(a) + Wrap(b)) == Wrap(a + b) == Wrap(Wrap(a) + b)
  {
    hide Wrap;
    WrapShift(a, b);
    WrapShift(b, Wrap(a));
  }

  /** A summand may be reduced first. */
  lemma WrapShift(a: nat, b: nat)
    ensures Wrap(Wrap(a) + b) == Wrap(a + b)
  {
    var w, k := Words(), WholeBlocks(Words(), a);
    WrapSplits(a);
    hide Wrap, Span, WholeBlocks, Words;
    WrapMultiple(Wrap(a) + b, k);
  }

  lemma WrapSplits(a: nat)
    ensures a == Span(Words(), WholeBlocks(Words(), a)) + Wrap(a)
  {
    hide Pow2;
  }

  lemma WrapMultiple(n: nat, k: nat)
    ensures Wrap(n + Span(Words(), k)) == Wrap(n)
  {
    var w := Words();
    assert w > 0;
    hide Pow2, Words;
    QuotientUnique(n + w * k, w, n / w + k, n % w);
  }

  /** Before the zero test the C++ value is the Python value modulo 2^64. */
  lemma RawAgree(seed: nat, value: nat)
    requires IsWord(seed)
    ensures Wrap(Xor(seed, Mixed(seed, value))) == Xor(seed, Wrap(Mixed(seed, value)))
    ensures CppCombine(seed, value) == var raw := Wrap(Xor(seed, Mixed(seed, value))); if raw == 0 then 1 else raw
  {
    hide Xor, Wrap, Shl6;
    WrapSum(value + Golden, Shl6(seed));
    WrapSum(value + Golden + Shl6(seed), seed / 4);
    WrapXor(seed, Mixed(seed, value));
    WrapWord(seed);
  }

  lemma WrapXor(a: nat, b: nat)
    ensures Wrap(Xor(a, b)) == Xor(Wrap(a), Wrap(b))
  {
    XorMod(a, b, 64);
    hide Xor, Pow2;
  }

  lemma WrapWord(w: nat)
    requires IsWord(w)
    ensures Wrap(w) == w
  {
    hide Pow2;
    QuotientUnique(w, Words(), 0, w);
  }

  /** The sum wraps around to the seed itself. */
  predicate Degenerate(seed: nat, value: nat) {
    Mixed(seed, value) != seed && Wrap(Mixed(seed, value)) == seed
  }

  /** On 64-bit inputs the two agree except exactly in the degenerate case, where Python returns the reserved 0 and C++
      returns 1. */
  lemma CombineAgree(seed: nat, value: nat)
    requires IsWord(seed) && IsWord(value)
    ensures CppCombine(seed, value) == PyCombine(seed, value) <==> !Degenerate(seed, value)
    ensures Degenerate(seed, value) ==> PyCombine(seed, value) == 0 && CppCombine(seed, value) == 1
  {
    var raw := Xor(seed, Mixed(seed, value));
    RawAgree(seed, value);
    XorZero(seed, Mixed(seed, value));
    XorZero(seed, Wrap(Mixed(seed, value)));
    assert Wrap(1) == 1 && Wrap(0) == 0 by {
      QuotientUnique(1, Words(), 0, 1);
      QuotientUnique(0, Words(), 0, 0);
    }
    hide Xor, Wrap, Mixed;
  }

  /** The degenerate case exists: a first value of 2^64 - golden ratio. */
  lemma DegenerateWitness()
    ensures Golden < Words() && IsWord(Words() - Golden) && Degenerate(0, Words() - Golden)
    ensures PyCombine(0, Words() - Golden) == 0 && CppCombine(0, Words() - Golden) == 1
  {
    WordsValue();
    assert Mixed(0, Words() - Golden) == Words();
    QuotientUnique(Words(), Words(), 1, 0);
    CombineAgree(0, Words() - Golden);
  }

  lemma WordsValue()
    ensures Words() == 0x1_0000_0000_0000_0000
  {
    assert Pow2(4) == 16;
    hide Pow2;
    Squared(4, 16);
    Squared(8, 256);
    Squared(16, 65536);
    Squared(32, 0x1_0000_0000);
  }

  lemma Squared(k: nat, v: nat)
    requires Pow2(k) == v
    ensures Pow2(k + k) == v * v
  {
    Pow2Sum(k, k);
  }

  lemma {:induction false} Pow2Sum(a: nat, b: nat)
    ensures Pow2(a + b) == Pow2(a) * Pow2(b)
  {
    if a > 0 {
      Pow2Sum(a - 1, b);
      assert Pow2(a) * Pow2(b) == 2 * (Pow2(a - 1) * Pow2(b));
    }
  }

  /** A combined value is a word and never the reserved 0. */
  lemma CombineNeverZero(seed: nat, value: nat)
    requires IsWord(seed)
    ensures CppCombine(seed, value) != 0 && IsWord(CppCombine(seed, value))
  {
    RawAgree(seed, value);
    assert IsWord(1) by { WordsValue(); }
    hide Xor, Mixed;
  }

  /** Two words are combined into the same value only if they are the same, or if one of them is degenerate and the
      other gives the 1 that stands for it. */
  lemma CombineInjective(seed: nat, v: nat, w: nat)
    requires IsWord(seed) && IsWord(v) && IsWord(w)
    ensures CppCombine(seed, v) == CppCombine(seed, w) <==>
            v == w || (CppCombine(seed, v) == CppCombine(seed, w) == 1 && (Degenerate(seed, v) || Degenerate(seed, w)))
  {
    RawAgree(seed, v);
    RawAgree(seed, w);
    WrapInjective(seed, v, w);
    MixedLarger(seed, v);
    MixedLarger(seed, w);
    hide Mixed, Wrap, Xor;
    var a, b := Wrap(Mixed(seed, v)), Wrap(Mixed(seed, w));
    XorZero(seed, a);
    XorZero(seed, b);
    if Xor(seed, a) == Xor(seed, b) {
      XorInjective(seed, a, b);
    }
  }

  lemma {:induction false} XorInjective(n: nat, a: nat, b: nat)
    requires Xor(n, a) == Xor(n, b)
    ensures a == b
    decreases n + a + b
  {
    if n + a + b > 0 {
      XorHalves(n, a);
      XorHalves(n, b);
      hide Xor;
      XorInjective(n / 2, a / 2, b / 2);
    }
  }

  lemma MixedLarger(seed: nat, value: nat)
    ensures Mixed(seed, value) > seed
  {
  }

  lemma WrapInjective(seed: nat, v: nat, w: nat)
    requires IsWord(v) && IsWord(w)
    ensures Wrap(Mixed(seed, v)) == Wrap(Mixed(seed, w)) <==> v == w
  {
    var rest := Golden + Shl6(seed) + seed / 4;
    assert Mixed(seed, v) == rest + v && Mixed(seed, w) == rest + w;
    hide Mixed, Pow2;
    if v < w {
      ModDistinct(rest + v, rest + w, Words());
    } else if w < v {
      ModDistinct(rest + w, rest + v, Words());
    }
  }

  // ---- hashing blocks and prefixes ----

  /** The seed after a prefix of the tokens. */
  function FoldCpp(seed: nat, tokens: seq<nat>): nat {
    if tokens == [] then seed else CppCombine(FoldCpp(seed, tokens[..|tokens| - 1]), tokens[|tokens| - 1])
  }

  function FoldPy(seed: nat, tokens: seq<nat>): nat {
    if tokens == [] then seed else PyCombine(FoldPy(seed, tokens[..|tokens| - 1]), tokens[|tokens| - 1])
  }

  /** The values that hashing a block combines: the id of the block before it, its tokens and the extra hash. */
  function Absorbed(prefix: nat, tokens: seq<nat>): seq<nat> {
    (if prefix != 0 then [prefix] else []) + tokens + [0]
  }

  ghost predicate AreWords(values: seq<nat>) {
    forall i :: 0 <= i < |values| ==> IsWord(values[i])
  }

  lemma {:induction false} FoldIsWord(seed: nat, values: seq<nat>)
    requires IsWord(seed)
    ensures IsWord(FoldCpp(seed, values)) && (values != [] ==> FoldCpp(seed, values) != 0)
  {
    if values != [] {
      FoldIsWord(seed, values[..|values| - 1]);
      CombineNeverZero(FoldCpp(seed, values[..|values| - 1]), values[|values| - 1]);
    }
  }

  /** No step of the chain is degenerate. */
  ghost predicate Regular(seed: nat, values: seq<nat>) {
    forall i :: 0 <= i < |values| ==> !Degenerate(FoldCpp(seed, values[..i]), values[i])
  }

  /** Whole chains agree as long as no step is degenerate. */
  lemma {:induction false} FoldsAgree(seed: nat, values: seq<nat>)
    requires IsWord(seed) && AreWords(values) && Regular(seed, values)
    ensures FoldCpp(seed, values) == FoldPy(seed, values)
  {
    if values != [] {
      var front := values[..|values| - 1];
      assert forall i :: 0 <= i < |front| ==> front[..i] == values[..i];
      assert Regular(seed, front);
      FoldsAgree(seed, front);
      FoldIsWord(seed, front);
      CombineAgree(FoldCpp(seed, front), values[|values| - 1]);
    }
  }

  /** `hash` is the block hash of the tokens: the id of the block before is combined first, unless there is none, then
      the tokens in order, and the extra hash 0 last. */
  predicate IsBlockHash(hash: nat, prefix: nat, tokens: seq<nat>) {
    hash == CppCombine(FoldCpp(if prefix == 0 then 0 else CppCombine(0, prefix), tokens), 0)
  }

  /** Values combined after others. */
  lemma {:induction false} FoldAppend(seed: nat, a: seq<nat>, b: seq<nat>)
    ensures FoldCpp(seed, a + b) == FoldCpp(FoldCpp(seed, a), b)
    decreases |b|
  {
    hide CppCombine;
    if b == [] {
      assert a + b == a;
    } else {
      var front := b[..|b| - 1];
      assert (a + b)[..|a + b| - 1] == a + front;
      FoldAppend(seed, a, front);
    }
  }

  lemma AbsorbedHash(prefix: nat, tokens: seq<nat>)
    ensures IsBlockHash(FoldCpp(0, Absorbed(prefix, tokens)), prefix, tokens)
  {
    var start := if prefix != 0 then [prefix] else [];
    FoldAppend(0, start + tokens, [0]);
    FoldAppend(0, start, tokens);
    assert [0][..0] == [] && [prefix][..0] == [];
    hide CppCombine;
  }

  /** `HashBlock` */
  method HashBlock(prefix: nat, tokens: seq<nat>) returns (seed: nat)
    requires IsWord(prefix)
    ensures IsBlockHash(seed, prefix, tokens)
    ensures seed == FoldCpp(0, Absorbed(prefix, tokens)) && seed != 0 && IsWord(seed)
  {
    hide CppCombine;
    var all := Absorbed(prefix, tokens);
    var n := |all| - |tokens| - 1;
    seed := 0;
    if prefix != 0 {
      seed := CppCombine(seed, prefix);
      assert all[..1] == [prefix] && [prefix][..0] == [];
    }
    for i := 0 to |tokens|
      invariant seed == FoldCpp(0, all[..n + i])
    {
      assert all[..n + i + 1][..n + i] == all[..n + i];
      seed := CppCombine(seed, tokens[i]);
    }
    assert all[..|all| - 1] == all[..n + |tokens|];
    seed := CppCombine(seed, 0);
    assert IsWord(0) by { WordsValue(); }
    FoldIsWord(0, all);
    AbsorbedHash(prefix, tokens);
  }

  /** `hash_block` of the plugin, on a block whose chain is regular, gives the same hash. */
  method PyHashBlock(prefix: nat, tokens: seq<nat>) returns (seed: nat)
    requires IsWord(prefix) && AreWords(tokens)
    ensures seed == FoldPy(0, Absorbed(prefix, tokens))
    ensures Regular(0, Absorbed(prefix, tokens)) ==> seed == FoldCpp(0, Absorbed(prefix, tokens))
  {
    hide PyCombine, Degenerate;
    var all := Absorbed(prefix, tokens);
    var n := |all| - |tokens| - 1;
    seed := 0;
    if prefix != 0 {
      seed := PyCombine(seed, prefix);
      assert all[..1] == [prefix] && [prefix][..0] == [];
    }
    for i := 0 to |tokens|
      invariant seed == FoldPy(0, all[..n + i])
    {
      assert all[..n + i + 1][..n + i] == all[..n + i];
      seed := PyCombine(seed, tokens[i]);
    }
    assert all[..|all| - 1] == all[..n + |tokens|];
    seed := PyCombine(seed, 0);
    assert IsWord(0) by { WordsValue(); }
    assert AreWords(all);
    if Regular(0, all) {
      FoldsAgree(0, all);
    }
  }

  /** The tokens of block b. */
  function BlockTokens(tokens: seq<nat>, size: nat, b: nat): seq<nat> {
    if Span(size, b) <= Span(size, b + 1) <= |tokens| then tokens[Span(size, b)..Span(size, b + 1)] else []
  }

  /** The hash before block b when the one before block `from` is the given prefix. */
  function ChainAt(prefix: nat, tokens: seq<nat>, size: nat, from: nat, b: nat): nat
    decreases b
  {
    if b <= from then prefix
    else FoldCpp(0, Absorbed(ChainAt(prefix, tokens, size, from, b - 1), BlockTokens(tokens, size, b - 1)))
  }

  datatype Hashed = Error | Hashes(values: seq<nat>)

  /** The element types the extension takes tokens in. */
  datatype TokenType = Unsigned64 | Signed32 | Signed64 {
    function Bits(): nat { if this == Signed32 then 32 else 64 }

    ghost predicate Holds(v: int) {
      match this
      case Unsigned64 => 0 <= v < Pow2(64)
      case Signed32 => 0 - (Pow2(31) as int) <= v < Pow2(31)
      case Signed64 => 0 - (Pow2(63) as int) <= v < Pow2(63)
    }
  }

  /** `ToU64Mask` and `PyintToU64Mask`: the low bits as an unsigned number; a 32-bit token is extended with zeros. */
  function ToWord(v: int, bits: nat): nat { v % Pow2(bits) }

  function ToWords(tokens: seq<int>, kind: TokenType): seq<nat> {
    seq(|tokens|, i requires 0 <= i < |tokens| => ToWord(tokens[i], kind.Bits()))
  }

  lemma PowersDouble()
    ensures Pow2(32) == 2 * Pow2(31) && Pow2(64) == 2 * Pow2(63)
  {
  }

  /** Token ids that are not negative are hashed as they are, whatever type they come in; a negative one as its two's
      complement in the bits of its type. */
  lemma TokensUnchanged(tokens: seq<int>, kind: TokenType)
    requires forall i :: 0 <= i < |tokens| ==> kind.Holds(tokens[i])
    ensures |ToWords(tokens, kind)| == |tokens|
    ensures forall i :: 0 <= i < |tokens| ==>
                          ToWords(tokens, kind)[i] == tokens[i] + if tokens[i] < 0 then Pow2(kind.Bits()) else 0
  {
    PowersDouble();
    hide Pow2;
    forall i | 0 <= i < |tokens|
      ensures ToWord(tokens[i], kind.Bits()) == tokens[i] + if tokens[i] < 0 then Pow2(kind.Bits()) else 0
    {
      var w := Pow2(kind.Bits());
      if tokens[i] < 0 {
        QuotientUnique(tokens[i], w, -1, tokens[i] + w);
      } else {
        QuotientUnique(tokens[i], w, 0, tokens[i]);
      }
    }
  }

  /** `HashPrefix`: the hashes of blocks `from` to `to`, or an error for arguments out of range. */
  method HashPrefix(prefix: int, tokens: seq<int>, kind: TokenType, size: nat, from: nat, to: nat) returns (r: Hashed)
    ensures r.Error? <==> size == 0 || to < from || Span(size, to) > |tokens|
    ensures r.Hashes? ==> |r.values| == to - from &&
                          HashesFrom(r.values, ToWord(prefix, 64), ToWords(tokens, kind), size, from)
    ensures r.Hashes? ==> Chained(r.values, ToWord(prefix, 64), ToWords(tokens, kind), size, from)
  {
    if size == 0 || to < from || Span(size, to) > |tokens| {
      return Error;
    }
    var values := HashBlocks(ToWord(prefix, 64), ToWords(tokens, kind), size, from, to);
    ChainedHashes(values, ToWord(prefix, 64), ToWords(tokens, kind), size, from, to);
    r := Hashes(values);
  }

  /** Each hash is the block hash of its own block's tokens after the hash before it, the first after the prefix. */
  ghost predicate Chained(values: seq<nat>, prefix: nat, tokens: seq<nat>, size: nat, from: nat) {
    forall k :: 0 <= k < |values| ==> ChainedAt(values, prefix, tokens, size, from, k)
  }

  ghost predicate ChainedAt(values: seq<nat>, prefix: nat, tokens: seq<nat>, size: nat, from: nat, k: nat)
    requires k < |values|
  {
    var start, end := Span(size, from + k), Span(size, from + k + 1);
    start <= end <= |tokens| && IsBlockHash(values[k], if k == 0 then prefix else values[k - 1], tokens[start..end])
  }

  lemma ChainedHashes(values: seq<nat>, prefix: nat, tokens: seq<nat>, size: nat, from: nat, to: nat)
    requires HashesFrom(values, prefix, tokens, size, from) && to == from + |values| && Span(size, to) <= |tokens|
    ensures Chained(values, prefix, tokens, size, from)
  {
    hide ChainedAt, Span, HashAt;
    forall k: nat | k < |values| ensures ChainedAt(values, prefix, tokens, size, from, k) {
      SpanMonotone(size, from + k, from + k + 1);
      SpanMonotone(size, from + k + 1, to);
      assert k > 0 ==> HashAt(values, prefix, tokens, size, from, k - 1);
      BlockChained(values, prefix, tokens, size, from, k);
    }
  }

  lemma BlockChained(values: seq<nat>, prefix: nat, tokens: seq<nat>, size: nat, from: nat, k: nat)
    requires k < |values| && Span(size, from + k) <= Span(size, from + k + 1) <= |tokens|
    requires HashAt(values, prefix, tokens, size, from, k)
    requires k > 0 ==> HashAt(values, prefix, tokens, size, from, k - 1)
    ensures ChainedAt(values, prefix, tokens, size, from, k)
  {
    var before := ChainAt(prefix, tokens, size, from, from + k);
    ChainStep(prefix, tokens, size, from, from + k);
    assert before == if k == 0 then prefix else values[k - 1];
    AbsorbedHash(before, BlockTokens(tokens, size, from + k));
    hide FoldCpp, Absorbed, Span, IsBlockHash, ChainAt;
  }

  /** The loop over the blocks. */
  method HashBlocks(prefix: nat, tokens: seq<nat>, size: nat, from: nat, to: nat) returns (out: seq<nat>)
    requires IsWord(prefix) && from <= to && Span(size, to) <= |tokens|
    ensures |out| == to - from && HashesFrom(out, prefix, tokens, size, from)
  {
    hide *;
    out := [];
    var hash := prefix;
    HashesStart(prefix, tokens, size, from);
    for b := from to to
      invariant |out| == b - from && IsWord(hash)
      invariant hash == ChainAt(prefix, tokens, size, from, b) && HashesFrom(out, prefix, tokens, size, from)
    {
      var block := BlockAt(tokens, size, b, to);
      ChainStep(prefix, tokens, size, from, b);
      hash := HashBlock(hash, block);
      MoreHashes(out, prefix, tokens, size, from, hash);
      out := out + [hash];
    }
  }

  method BlockAt(tokens: seq<nat>, size: nat, b: nat, to: nat) returns (block: seq<nat>)
    requires b < to && Span(size, to) <= |tokens|
    ensures block == BlockTokens(tokens, size, b)
  {
    SpanMonotone(size, b, b + 1);
    SpanMonotone(size, b + 1, to);
    hide Span;
    block := tokens[Span(size, b)..Span(size, b + 1)];
  }

  lemma HashesStart(prefix: nat, tokens: seq<nat>, size: nat, from: nat)
    ensures ChainAt(prefix, tokens, size, from, from) == prefix && HashesFrom([], prefix, tokens, size, from)
  {
    hide FoldCpp, Absorbed, BlockTokens;
  }

  lemma ChainStep(prefix: nat, tokens: seq<nat>, size: nat, from: nat, b: nat)
    requires from <= b
    ensures ChainAt(prefix, tokens, size, from, b + 1) ==
            FoldCpp(0, Absorbed(ChainAt(prefix, tokens, size, from, b), BlockTokens(tokens, size, b)))
  {
    hide FoldCpp, Absorbed, BlockTokens;
  }

  /** The hashes of consecutive blocks, none of them 0. */
  ghost predicate HashesFrom(values: seq<nat>, prefix: nat, tokens: seq<nat>, size: nat, from: nat) {
    forall k :: 0 <= k < |values| ==>
                  HashAt(values, prefix, tokens, size, from, k) && values[k] != 0 && IsWord(values[k])
  }

  lemma MoreHashes(values: seq<nat>, prefix: nat, tokens: seq<nat>, size: nat, from: nat, hash: nat)
    requires HashesFrom(values, prefix, tokens, size, from)
    requires hash == ChainAt(prefix, tokens, size, from, from + |values| + 1) && hash != 0 && IsWord(hash)
    ensures HashesFrom(values + [hash], prefix, tokens, size, from)
  {
    hide ChainAt, IsWord;
    forall k | 0 <= k < |values| + 1
      ensures HashAt(values + [hash], prefix, tokens, size, from, k) && (values + [hash])[k] != 0
      ensures IsWord((values + [hash])[k])
    {
      assert k < |values| ==> HashAt(values, prefix, tokens, size, from, k);
    }
  }

  ghost predicate HashAt(values: seq<nat>, prefix: nat, tokens: seq<nat>, size: nat, from: nat, k: nat)
    requires k < |values|
  {
    values[k] == ChainAt(prefix, tokens, size, from, from + k + 1)
  }

  /** Hashing from a resumed prefix gives the tail of hashing from the start. */
  lemma {:induction false} ResumedChain(prefix: nat, tokens: seq<nat>, size: nat, from: nat, mid: nat, b: nat)
    requires from <= mid <= b
    ensures ChainAt(ChainAt(prefix, tokens, size, from, mid), tokens, size, mid, b) ==
            ChainAt(prefix, tokens, size, from, b)
    decreases b
  {
    hide FoldCpp, Absorbed, BlockTokens;
    if b > mid {
      ResumedChain(prefix, tokens, size, from, mid, b - 1);
    }
  }

  // ---- which rank stores which block ----

  /** The rank a block belongs to. */
  function Owner(b: nat, ranks: nat): nat
    requires ranks > 0
  {
    b % ranks
  }

  /** The first block at or after `computed` that belongs to a rank, with the floor remainder of the source language. */
  function FirstOwned(computed: nat, rank: nat, ranks: nat): nat
    requires rank < ranks
  {
    computed + (rank - computed % ranks) % ranks
  }

  lemma FirstOwnedFacts(computed: nat, rank: nat, ranks: nat)
    requires rank < ranks
    ensures computed <= FirstOwned(computed, rank, ranks) < computed + ranks
    ensures Owner(FirstOwned(computed, rank, ranks), ranks) == rank
  {
    var q, c := computed / ranks, computed % ranks;
    assert computed == ranks * q + c;
    if rank >= c {
      QuotientUnique(rank - c, ranks, 0, rank - c);
      QuotientUnique(computed + (rank - c), ranks, q, rank);
    } else {
      QuotientUnique(rank - c, ranks, -1, rank - c + ranks);
      assert computed + (rank - c + ranks) == ranks * (q + 1) + rank;
      QuotientUnique(computed + (rank - c + ranks), ranks, q + 1, rank);
    }
  }

  /** The blocks a rank transfers out of [computed, end): exactly those whose number is the rank modulo the number of
      ranks, so every block is transferred by one rank. */
  method OwnedBlocks(computed: nat, end: nat, rank: nat, ranks: nat) returns (owned: seq<nat>)
    requires rank < ranks
    ensures forall b :: b in owned <==> computed <= b < end && Owner(b, ranks) == rank
    ensures forall i, j :: 0 <= i < j < |owned| ==> owned[i] < owned[j]
  {
    owned := [];
    var b := FirstOwned(computed, rank, ranks);
    FirstOwnedFacts(computed, rank, ranks);
    hide *;
    NoneBefore(computed, b, ranks);
    while b < end
      invariant Owner(b, ranks) == rank && computed <= b
      invariant forall x :: x in owned <==> computed <= x < b && x < end && Owner(x, ranks) == rank
      invariant forall i, j :: 0 <= i < j < |owned| ==> owned[i] < owned[j]
    {
      NoneBetween(b, ranks);
      assert forall i :: 0 <= i < |owned| ==> owned[i] in owned;
      owned := owned + [b];
      b := b + ranks;
    }
  }

  /** Between two blocks of a rank there is no other. */
  lemma NoneBetween(b: nat, ranks: nat)
    requires ranks > 0
    ensures Owner(b + ranks, ranks) == Owner(b, ranks)
    ensures forall x :: b < x < b + ranks ==> Owner(x, ranks) != Owner(b, ranks)
  {
    ModWraps(b, ranks);
    forall x | b < x < b + ranks ensures Owner(x, ranks) != Owner(b, ranks) {
      ModDistinct(b, x, ranks);
    }
  }

  lemma NoneBefore(computed: nat, first: nat, ranks: nat)
    requires ranks > 0 && computed <= first < computed + ranks
    ensures forall x :: computed <= x < first ==> Owner(x, ranks) != Owner(first, ranks)
  {
    forall x | computed <= x < first ensures Owner(x, ranks) != Owner(first, ranks) {
      ModDistinct(x, first, ranks);
    }
  }
}
