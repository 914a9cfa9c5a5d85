/** Orders, heaps and the top-N relation, independent of how the heap is stored. */
module HeapOrder {

  /** `less` is a strict weak order: asymmetric, and "not greater" is transitive. */
  ghost predicate StrictWeakOrder<T(!new)>(less: (T, T) -> bool) {
    && (forall a, b :: less(a, b) ==> !less(b, a))
    && (forall b :: TransitiveAt(less, b))
  }

  ghost predicate TransitiveAt<T(!new)>(less: (T, T) -> bool, b: T) {
    forall a, c :: !less(b, a) && !less(c, b) ==> !less(c, a)
  }

  lemma NotGreater<T(!new)>(less: (T, T) -> bool, a: T, b: T, c: T)
    requires StrictWeakOrder(less) && !less(b, a) && !less(c, b)
    ensures !less(c, a)
  {
    assert TransitiveAt(less, b);
  }

  function Parent(i: nat): nat
    requires i > 0
  {
    (i - 1) / 2
  }

  /** Position i is not below its parent. */
  ghost predicate Ordered<T>(e: seq<T>, less: (T, T) -> bool, i: nat)
    requires 0 < i < |e|
  {
    !less(e[i], e[Parent(i)])
  }

  ghost predicate IsHeap<T>(e: seq<T>, less: (T, T) -> bool) {
    forall i :: 0 < i < |e| ==> Ordered(e, less, i)
  }

  ghost predicate IsMinimum<T>(m: T, live: multiset<T>, less: (T, T) -> bool) {
    m in live && forall x :: x in live ==> !less(x, m)
  }

  ghost predicate Sorted<T>(s: seq<T>, less: (T, T) -> bool) {
    forall i, j :: 0 <= i < j < |s| ==> !less(s[j], s[i])
  }

  lemma LessTransitive<T(!new)>(less: (T, T) -> bool, a: T, b: T, c: T)
    requires StrictWeakOrder(less) && less(a, b) && less(b, c)
    ensures less(a, c)
  {
    if !less(a, c) {
      NotGreater(less, b, c, a);
    }
  }

  lemma {:induction false} RootBelow<T(!new)>(e: seq<T>, less: (T, T) -> bool, i: nat)
    requires StrictWeakOrder(less) && IsHeap(e, less) && i < |e|
    ensures !less(e[i], e[0])
  {
    if i > 0 {
      RootBelow(e, less, Parent(i));
      assert Ordered(e, less, i);
      NotGreater(less, e[0], e[Parent(i)], e[i]);
    }
  }

  lemma RootIsMinimum<T(!new)>(e: seq<T>, less: (T, T) -> bool)
    requires StrictWeakOrder(less) && IsHeap(e, less) && |e| > 0
    ensures IsMinimum(e[0], multiset(e), less)
  {
    assert e[0] in e;
    forall x | x in multiset(e)
      ensures !less(x, e[0])
    {
      assert x in e;
      var i :| 0 <= i < |e| && e[i] == x;
      RootBelow(e, less, i);
    }
  }

  function Swapped<X>(s: seq<X>, i: nat, j: nat): seq<X>
    requires i < |s| && j < |s|
  {
    s[i := s[j]][j := s[i]]
  }

  lemma SwapPermutes<X>(s: seq<X>, i: nat, j: nat)
    requires i < |s| && j < |s|
    ensures multiset(Swapped(s, i, j)) == multiset(s)
  {
  }

  // ---------- sifting, on the sequence of values in heap position ----------

  /** Position j, a child of `pos`, is not below the parent of `pos`. */
  ghost predicate Skips<T>(e: seq<T>, less: (T, T) -> bool, pos: nat, j: nat)
    requires 0 < pos < |e| && 0 < j < |e|
  {
    Parent(j) == pos ==> !less(e[j], e[Parent(pos)])
  }

  /** The heap order holds except possibly between `pos` and its parent, where a new value is rising. */
  ghost predicate Rising<T>(e: seq<T>, less: (T, T) -> bool, pos: nat) {
    && (forall j :: 0 < j < |e| && j != pos ==> Ordered(e, less, j))
    && (0 < pos < |e| ==> forall j :: 0 < j < |e| ==> Skips(e, less, pos, j))
  }

  /** The heap order holds except possibly between `pos` and its children, where a value is sinking. */
  ghost predicate Sinking<T>(e: seq<T>, less: (T, T) -> bool, pos: nat) {
    && (forall j :: 0 < j < |e| ==> Parent(j) == pos || Ordered(e, less, j))
    && (0 < pos < |e| ==> forall j :: 0 < j < |e| ==> Skips(e, less, pos, j))
  }

  lemma RisingAppend<T>(e: seq<T>, less: (T, T) -> bool, value: T)
    requires IsHeap(e, less)
    ensures Rising(e + [value], less, |e|)
  {
    var e' := e + [value];
    forall j | 0 < j < |e'| && j != |e|
      ensures Ordered(e', less, j)
    {
      assert Ordered(e, less, j);
    }
  }

  /** Replacing the root of a heap, or shortening it, leaves only the root out of place. */
  lemma SinkingRoot<T>(e: seq<T>, e': seq<T>, less: (T, T) -> bool)
    requires IsHeap(e, less) && |e'| <= |e| && forall i :: 0 < i < |e'| ==> e'[i] == e[i]
    ensures Sinking(e', less, 0)
  {
    forall j | 0 < j < |e'| && Parent(j) != 0
      ensures Ordered(e', less, j)
    {
      assert Ordered(e, less, j);
    }
  }

  lemma RiseStep<T(!new)>(e: seq<T>, less: (T, T) -> bool, pos: nat)
    requires StrictWeakOrder(less) && 0 < pos < |e| && Rising(e, less, pos)
    requires less(e[pos], e[Parent(pos)])
    ensures Rising(Swapped(e, pos, Parent(pos)), less, Parent(pos))
  {
    var p := Parent(pos);
    var e' := Swapped(e, pos, p);
    forall j | 0 < j < |e'| && j != p
      ensures Ordered(e', less, j)
    {
      if j != pos {
        assert Ordered(e, less, j) && Skips(e, less, pos, j);
        if Parent(j) == p {
          NotGreater(less, e[pos], e[p], e[j]);
        }
      }
    }
    if p > 0 {
      assert Ordered(e, less, p);
      forall j | 0 < j < |e'|
        ensures Skips(e', less, p, j)
      {
        if Parent(j) == p && j != pos {
          assert Ordered(e, less, j);
          NotGreater(less, e[Parent(p)], e[p], e[j]);
        }
      }
    }
  }

  lemma SinkStep<T(!new)>(e: seq<T>, less: (T, T) -> bool, pos: nat, best: nat)
    requires StrictWeakOrder(less) && pos < best < |e| && Parent(best) == pos && Sinking(e, less, pos)
    requires less(e[best], e[pos])
    requires forall j :: 0 < j < |e| && Parent(j) == pos ==> !less(e[j], e[best])
    ensures Sinking(Swapped(e, pos, best), less, best)
  {
    var e' := Swapped(e, pos, best);
    forall j | 0 < j < |e'| && Parent(j) != best
      ensures Ordered(e', less, j)
    {
      if j == pos {
        assert Skips(e, less, pos, best);
      } else if Parent(j) != pos {
        assert Ordered(e, less, j);
      }
    }
    forall j | 0 < j < |e'|
      ensures Skips(e', less, best, j)
    {
      if Parent(j) == best {
        assert Ordered(e, less, j);
      }
    }
  }

  /** The child to swap with when the value at `pos` sinks, or `pos` itself when it is in place. */
  function BestChild<T>(e: seq<T>, less: (T, T) -> bool, pos: nat): nat
    requires pos < |e|
  {
    var l, r := 2 * pos + 1, 2 * pos + 2;
    var b := if l < |e| && less(e[l], e[pos]) then l else pos;
    if r < |e| && less(e[r], e[b]) then r else b
  }

  lemma BestChildDecides<T(!new)>(e: seq<T>, less: (T, T) -> bool, pos: nat)
    requires StrictWeakOrder(less) && pos < |e| && Sinking(e, less, pos)
    ensures var best := BestChild(e, less, pos);
            if best == pos then IsHeap(e, less)
            else pos < best < |e| && Sinking(Swapped(e, pos, best), less, best)
  {
    var l, r := 2 * pos + 1, 2 * pos + 2;
    var best := BestChild(e, less, pos);
    if best == r && less(e[l], e[pos]) {
      LessTransitive(less, e[r], e[l], e[pos]);
    } else if best == r {
      NotGreater(less, e[r], e[pos], e[l]);
    }
    assert forall j :: 0 < j < |e| && Parent(j) == pos ==> j == l || j == r;
    if best != pos {
      SinkStep(e, less, pos, best);
    } else {
      forall j | 0 < j < |e|
        ensures Ordered(e, less, j)
      {
        if Parent(j) == pos {
          assert !less(e[j], e[pos]);
        }
      }
    }
  }

  /** Nothing in `live` is below anything already read out. */
  ghost predicate Below<T>(out: seq<T>, live: multiset<T>, less: (T, T) -> bool) {
    forall x, y :: x in out && y in live ==> !less(y, x)
  }

  lemma DrainStep<T>(out: seq<T>, live: multiset<T>, top: T, less: (T, T) -> bool)
    requires Sorted(out, less) && Below(out, live, less) && IsMinimum(top, live, less)
    ensures Sorted(out + [top], less) && Below(out + [top], live - multiset{top}, less)
  {
    forall x, y | x in out + [top] && y in live - multiset{top}
      ensures !less(y, x)
    {
      assert y in live;
    }
  }

  // ---------- keeping the N greatest ----------

  ghost function Replaced<T>(live: multiset<T>, m: T, value: T, less: (T, T) -> bool): multiset<T> {
    if less(m, value) then live - multiset{m} + multiset{value} else live
  }

  /** What one push does to the live values of a heap of capacity `cap`. */
  ghost predicate PushStep<T(!new)>(cap: nat, live: multiset<T>, value: T, live': multiset<T>, less: (T, T) -> bool) {
    if cap == 0 then live' == live
    else if |live| < cap then live' == live + multiset{value}
    else exists m :: IsMinimum(m, live, less) && live' == Replaced(live, m, value, less)
  }

  /** `live` is a choice of the `cap` greatest of `pushed`: nothing left out is above anything kept. */
  ghost predicate IsTopN<T>(pushed: multiset<T>, live: multiset<T>, cap: nat, less: (T, T) -> bool) {
    && live <= pushed
    && |live| == (if |pushed| < cap then |pushed| else cap)
    && forall x, y :: x in pushed - live && y in live ==> !less(y, x)
  }

  /** A live value replaced by two copies of a new one. */
  ghost function Overwritten<T>(live: multiset<T>, lost: T, value: T): multiset<T> {
    live - multiset{lost} + multiset{value, value}
  }

  /** Replacing a member by two copies of a value is a gain of one copy only if the member was that value. */
  lemma OverwriteGains<T>(live: multiset<T>, lost: T, value: T)
    requires lost in live
    ensures Overwritten(live, lost, value) == live + multiset{value} <==> lost == value
  {
    var after := Overwritten(live, lost, value);
    if lost != value {
      assert after[lost] == live[lost] - 1;
      assert (live + multiset{value})[lost] == live[lost];
    } else {
      assert after == live + multiset{value};
    }
  }

  lemma SubMultisetOfSameSize<T>(a: multiset<T>, b: multiset<T>)
    requires a <= b && |a| == |b|
    ensures a == b
  {
    assert b == a + (b - a);
    assert |b| == |a| + |b - a|;
  }

  lemma PushKeepsTopN<T(!new)>(pushed: multiset<T>, live: multiset<T>, value: T, live': multiset<T>, cap: nat,
                         less: (T, T) -> bool)
    requires StrictWeakOrder(less) && IsTopN(pushed, live, cap, less) && PushStep(cap, live, value, live', less)
    ensures IsTopN(pushed + multiset{value}, live', cap, less)
  {
    if cap > 0 && |live| < cap {
      SubMultisetOfSameSize(live, pushed);
      assert pushed + multiset{value} - live' == multiset{};
    } else if cap > 0 {
      var m :| IsMinimum(m, live, less) && live' == Replaced(live, m, value, less);
      if less(m, value) {
        ReplaceKeepsTopN(pushed, live, value, m, cap, less);
      } else {
        RejectKeepsTopN(pushed, live, value, m, cap, less);
      }
    }
  }

  lemma ReplaceKeepsTopN<T(!new)>(pushed: multiset<T>, live: multiset<T>, value: T, m: T, cap: nat,
                            less: (T, T) -> bool)
    requires StrictWeakOrder(less) && IsTopN(pushed, live, cap, less) && |live| == cap
    requires IsMinimum(m, live, less) && less(m, value)
    ensures IsTopN(pushed + multiset{value}, live - multiset{m} + multiset{value}, cap, less)
  {
    var pushed', live' := pushed + multiset{value}, live - multiset{m} + multiset{value};
    assert pushed' - live' == (pushed - live) + multiset{m};
    forall x, y | x in pushed' - live' && y in live'
      ensures !less(y, x)
    {
      assert !less(m, x);
      NotGreater(less, x, m, if y == value then value else y);
    }
  }

  lemma RejectKeepsTopN<T(!new)>(pushed: multiset<T>, live: multiset<T>, value: T, m: T, cap: nat,
                           less: (T, T) -> bool)
    requires StrictWeakOrder(less) && IsTopN(pushed, live, cap, less) && |live| == cap
    requires IsMinimum(m, live, less) && !less(m, value)
    ensures IsTopN(pushed + multiset{value}, live, cap, less)
  {
    assert pushed + multiset{value} - live == (pushed - live) + multiset{value};
    forall x, y | x in pushed + multiset{value} - live && y in live
      ensures !less(y, x)
    {
      if x == value {
        NotGreater(less, x, m, y);
      }
    }
  }

  /** Before anything is pushed. */
  lemma NothingIsTopN<T>(cap: nat, less: (T, T) -> bool)
    ensures IsTopN(multiset{}, multiset{}, cap, less)
  {
  }
}

module TopNHeap {
  import opened HeapOrder

  class TopNHeap<T(!new,==)> {
    const less: (T, T) -> bool
    const capacity: nat
    var val: seq<T>
    var idx: seq<nat>
    var size: nat

    /** Memory safety: the first n heap positions refer to value slots. */
    ghost predicate Shape(n: nat)
      reads this
    {
      n <= |idx| == capacity && |val| <= capacity && forall i :: 0 <= i < n ==> idx[i] < |val|
    }

    /** The values in heap position order. */
    ghost function Values(n: nat): seq<T>
      requires Shape(n)
      reads this
    {
      Pick(val, idx, n)
    }

    static ghost function Pick(val: seq<T>, idx: seq<nat>, n: nat): (e: seq<T>)
      requires n <= |idx| && forall i :: 0 <= i < n ==> idx[i] < |val|
      ensures |e| == n && forall i :: 0 <= i < n ==> e[i] == val[idx[i]]
    {
      seq(n, i requires 0 <= i < n => val[idx[i]])
    }

    /** A slot in use holds a live value. */
    lemma SlotIsLive(x: nat)
      requires Shape(size) && x in Slots(size)
      ensures x < |val| && val[x] in Live()
    {
      var k :| 0 <= k < size && idx[k] == x;
      assert Values(size)[k] == val[x];
    }

    ghost function Live(): multiset<T>
      requires Shape(size)
      reads this
    {
      multiset(Values(size))
    }

    /** No two heap positions share a value slot. */
    ghost predicate Injective(n: nat)
      requires n <= |idx|
      reads this
    {
      Distinct(idx, n)
    }

    static ghost predicate Distinct(idx: seq<nat>, n: nat)
      requires n <= |idx|
    {
      forall i, j :: 0 <= i < j < n ==> idx[i] != idx[j]
    }

    ghost function Slots(n: nat): set<nat>
      requires n <= |idx|
      reads this
    {
      SlotSet(idx, n)
    }

    static ghost function SlotSet(idx: seq<nat>, n: nat): set<nat>
      requires n <= |idx|
    {
      set i | 0 <= i < n :: idx[i]
    }

    ghost predicate Valid()
      reads this
    {
      StrictWeakOrder(less) && Shape(size) && size <= |val| && Injective(size) && IsHeap(Values(size), less)
    }

    /** The push phase: since the heap was last empty or cleared nothing has been popped, so the live values fill
        the first `size` slots. */
    ghost predicate PushPhase()
      reads this
    {
      Valid() && forall x :: x in Slots(size) ==> x < size
    }

    /** The slot the next push writes, `val[size]`, holds no live value. */
    ghost predicate NextSlotFree()
      requires size <= |idx|
      reads this
    {
      size !in Slots(size)
    }

    constructor (capacity: nat, less: (T, T) -> bool)
      requires StrictWeakOrder(less)
      ensures PushPhase() && size == 0 && this.capacity == capacity && this.less == less && val == []
    {
      this.capacity, this.less := capacity, less;
      val, idx, size := [], seq(capacity, _ => 0), 0;
    }

    method Clear()
      requires StrictWeakOrder(less) && Shape(size)
      modifies `size
      ensures PushPhase() && size == 0
    {
      size := 0;
    }

    method Top() returns (top: T)
      requires Valid() && size > 0
      ensures top == Values(size)[0] && IsMinimum(top, Live(), less)
    {
      top := val[idx[0]];
      RootIsMinimum(Values(size), less);
    }

    method Pop()
      requires Valid() && size > 0
      modifies `idx, `size
      ensures Valid() && size == old(size) - 1
      ensures Live() == old(Live()) - multiset{old(Values(size)[0])}
      ensures Slots(size) == old(Slots(size)) - {old(idx[0])}
    {
      hide Pick, SlotSet, Distinct, IsHeap, Sinking, StrictWeakOrder;
      PickPop(val, idx, size, less);
      SlotsPop(idx, size);
      size := size - 1;
      idx := idx[0 := idx[size]];
      if size > 0 {
        SiftDown(0);
      }
    }

    method Push(value: T)
      requires Valid()
      modifies `val, `idx, `size
      ensures Shape(size) && size == old(if size < capacity then size + 1 else size)
      // The push contract: it holds whenever the written slot is free, in particular in the push phase.
      ensures old(size == capacity || NextSlotFree()) ==>
                Valid() && PushStep(capacity, old(Live()), value, Live(), less)
      ensures old(PushPhase()) ==> PushPhase()
      // A full heap takes the value in the place of its least one if that is smaller, and is else left alone.
      ensures old(size == capacity > 0 && less(Values(size)[0], value)) ==>
                Live() == old(Live()) - multiset{old(Values(size)[0])} + multiset{value}
      ensures old(size == capacity > 0 && !less(Values(size)[0], value)) ==> val == old(val) && idx == old(idx)
      // Otherwise a live value is overwritten, and its heap position now shows the new value a second time.
      ensures old(size < capacity && !NextSlotFree()) ==>
                Live() == Overwritten(old(Live()), old(val[size]), value)
      // So a push into a heap that is not full adds the value and loses none exactly under this condition.
      ensures old(size < capacity) ==>
                (Live() == old(Live()) + multiset{value} <==> old(NextSlotFree() || val[size] == value))
      ensures |val| == old(if size < capacity && size == |val| then |val| + 1 else |val|)
      ensures old(size < capacity) ==> val[old(size)] == value
      ensures old(size < capacity) ==> forall i :: 0 <= i < old(|val|) && i != old(size) ==> val[i] == old(val[i])
    {
      hide Pick, SlotSet, Distinct, IsHeap, Sinking, Overwritten, StrictWeakOrder;
      if capacity == 0 { return; }
      if size < capacity {
        ghost var live := Live();
        ghost var free := NextSlotFree();
        Append(value);
        if !free {
          OverwriteGains(live, old(val[size]), value);
        }
        assert |live| == old(size);
        return;
      }
      Challenge(value);
    }

    /** Any pushes into an empty heap: the live values are the N greatest of everything pushed, ties included. */
    method PushAll(values: seq<T>)
      requires PushPhase() && size == 0
      modifies `val, `idx, `size
      ensures PushPhase() && IsTopN(multiset(values), Live(), capacity, less)
    {
      hide *;
      EmptyHasTopN();
      Ends(values);
      for i := 0 to |values|
        invariant HasTopN(multiset(values[..i]))
      {
        NextValue(values, i);
        PushNext(values[i], multiset(values[..i]));
      }
      LiveIsTopN(multiset(values));
    }

    /** A push phase whose live values are the N greatest of `all`. */
    ghost predicate HasTopN(all: multiset<T>)
      reads this
    {
      PushPhase() && IsTopN(all, Live(), capacity, less)
    }

    lemma EmptyHasTopN()
      requires PushPhase() && size == 0
      ensures HasTopN(multiset{})
    {
      NothingIsTopN(capacity, less);
      assert Live() == multiset{};
    }

    lemma LiveIsTopN(all: multiset<T>)
      requires HasTopN(all)
      ensures PushPhase() && IsTopN(all, Live(), capacity, less)
    {
    }

    method PushNext(value: T, ghost all: multiset<T>)
      requires HasTopN(all)
      modifies `val, `idx, `size
      ensures HasTopN(all + multiset{value})
    {
      hide Pick, SlotSet, Distinct, IsHeap, IsTopN, PushStep, StrictWeakOrder, Overwritten, PushPhase, Values, Slots,
           NextSlotFree, Shape, Injective;
      SlotsBelow();
      ghost var live := Live();
      Push(value);
      PushKeepsTopN(all, live, value, Live(), capacity, less);
    }

    static lemma Ends(values: seq<T>)
      ensures multiset(values[..0]) == multiset{} && values[..|values|] == values
    {
    }

    static lemma NextValue(values: seq<T>, i: nat)
      requires i < |values|
      ensures multiset(values[..i + 1]) == multiset(values[..i]) + multiset{values[i]}
    {
      assert values[..i + 1] == values[..i] + [values[i]];
    }

    /** In the push phase the next slot is free. */
    lemma SlotsBelow()
      requires PushPhase()
      ensures Valid() && (size == capacity || (size <= |idx| && NextSlotFree()))
    {
    }

    /** A push into a full heap: the value replaces the least live value if that is smaller. */
    method Challenge(value: T)
      requires Valid() && size == capacity > 0
      modifies `val, `idx
      ensures Valid() && |val| == old(|val|) && Slots(size) == old(Slots(size))
      ensures PushStep(capacity, old(Live()), value, Live(), less)
      ensures !old(less(Values(size)[0], value)) ==> val == old(val) && idx == old(idx)
      ensures old(less(Values(size)[0], value)) ==>
                Live() == old(Live()) - multiset{old(Values(size)[0])} + multiset{value}
    {
      hide Pick, SlotSet, Distinct, IsHeap, Sinking, StrictWeakOrder;
      ghost var live, m := Live(), Values(size)[0];
      RootIsMinimum(Values(size), less);
      if less(val[idx[0]], value) {
        PickReplaceRoot(val, idx, size, value, less);
        val := val[idx[0] := value];
        SiftDown(0);
      }
      assert IsMinimum(m, live, less) && Live() == Replaced(live, m, value, less);
    }

    /** The picked values after overwriting the root's slot in place. */
    static lemma PickReplaceRoot(val: seq<T>, idx: seq<nat>, n: nat, value: T, less: (T, T) -> bool)
      requires 0 < n <= |idx| && (forall i :: 0 <= i < n ==> idx[i] < |val|) && Distinct(idx, n)
      requires IsHeap(Pick(val, idx, n), less)
      ensures var e, e' := Pick(val, idx, n), Pick(val[idx[0] := value], idx, n);
              multiset(e') == multiset(e) - multiset{e[0]} + multiset{value} && Sinking(e', less, 0)
    {
      var e, e' := Pick(val, idx, n), Pick(val[idx[0] := value], idx, n);
      assert e' == e[0 := value];
      SinkingRoot(e, e', less);
    }

    /** Overwrite slot n of the value vector, or append to it. */
    static function Put(val: seq<T>, n: nat, value: T): (val': seq<T>)
      requires n <= |val|
      ensures n < |val'| && |val| <= |val'|
    {
      if n < |val| then val[n := value] else val + [value]
    }

    /** The picked values after writing slot n and pointing position n at it, when no position used slot n. */
    static lemma PickAppendFree(val: seq<T>, idx: seq<nat>, n: nat, value: T, less: (T, T) -> bool)
      requires n < |idx| && n <= |val| && forall i :: 0 <= i < n ==> idx[i] < |val|
      requires n !in SlotSet(idx, n) && IsHeap(Pick(val, idx, n), less)
      ensures var e, e' := Pick(val, idx, n), Pick(Put(val, n, value), idx[n := n], n + 1);
              multiset(e') == multiset(e) + multiset{value} && Rising(e', less, n)
    {
      var e, e' := Pick(val, idx, n), Pick(Put(val, n, value), idx[n := n], n + 1);
      assert e' == e + [value];
      RisingAppend(e, less, value);
    }

    /** The same when position j used slot n: its value is overwritten. */
    static lemma PickAppendTaken(val: seq<T>, idx: seq<nat>, n: nat, value: T)
      requires n < |idx| && n <= |val| && forall i :: 0 <= i < n ==> idx[i] < |val|
      requires Distinct(idx, n)
      requires n in SlotSet(idx, n)
      ensures var e, e' := Pick(val, idx, n), Pick(Put(val, n, value), idx[n := n], n + 1);
              n < |val| && val[n] in multiset(e) &&
              multiset(e') == Overwritten(multiset(e), val[n], value)
    {
      var e, e' := Pick(val, idx, n), Pick(Put(val, n, value), idx[n := n], n + 1);
      var j :| 0 <= j < n && idx[j] == n;
      assert e' == e[j := value] + [value] && e[j] == val[n];
      hide Pick, SlotSet, Distinct;
      OverwriteOne(e, j, value);
    }

    static lemma OverwriteOne(e: seq<T>, j: nat, value: T)
      requires j < |e|
      ensures e[j] in multiset(e)
      ensures multiset(e[j := value] + [value]) == Overwritten(multiset(e), e[j], value)
    {
      assert multiset(e[j := value]) == multiset(e) - multiset{e[j]} + multiset{value};
      assert e[j] in e;
    }

    static lemma SlotsAppend(idx: seq<nat>, n: nat)
      requires n < |idx|
      ensures SlotSet(idx[n := n], n + 1) == SlotSet(idx, n) + {n}
      ensures n !in SlotSet(idx, n) && Distinct(idx, n) ==> Distinct(idx[n := n], n + 1)
    {
      var idx' := idx[n := n];
      forall x | x in SlotSet(idx, n) + {n}
        ensures x in SlotSet(idx', n + 1)
      {
        var k :| 0 <= k <= n && (if k < n then idx[k] == x else x == n);
        assert idx'[k] == x;
      }
    }

    /** The picked values after moving the last position to the front. */
    static lemma PickPop(val: seq<T>, idx: seq<nat>, n: nat, less: (T, T) -> bool)
      requires 0 < n <= |idx| && forall i :: 0 <= i < n ==> idx[i] < |val|
      requires IsHeap(Pick(val, idx, n), less)
      ensures var e, e' := Pick(val, idx, n), Pick(val, idx[0 := idx[n - 1]], n - 1);
              && multiset(e') == multiset(e) - multiset{e[0]}
              && (if n == 1 then IsHeap(e', less) else Sinking(e', less, 0))
    {
      var m := n - 1;
      var e, e' := Pick(val, idx, n), Pick(val, idx[0 := idx[m]], m);
      assert e == e[..m] + [e[m]];
      if m > 0 {
        assert e' == e[..m][0 := e[m]];
        assert multiset(e[..m][0 := e[m]]) == multiset(e[..m]) - multiset{e[0]} + multiset{e[m]};
      }
      SinkingRoot(e, e', less);
    }

    static lemma SlotsPop(idx: seq<nat>, n: nat)
      requires 0 < n <= |idx| && Distinct(idx, n)
      ensures SlotSet(idx[0 := idx[n - 1]], n - 1) == SlotSet(idx, n) - {idx[0]}
      ensures Distinct(idx[0 := idx[n - 1]], n - 1)
    {
      var m := n - 1;
      var idx' := idx[0 := idx[m]];
      forall x | x in SlotSet(idx, n) - {idx[0]}
        ensures x in SlotSet(idx', m)
      {
        var k :| 0 <= k < n && idx[k] == x;
        assert x == idx'[if k == m then 0 else k];
      }
    }

    /** Write the value into slot `size` and point heap position `size` at it. */
    method Store(value: T)
      requires Valid() && size < capacity
      modifies `val, `idx
      ensures Shape(size + 1) && Slots(size + 1) == old(Slots(size)) + {size}
      ensures old(NextSlotFree()) ==> Injective(size + 1) && Rising(Values(size + 1), less, size)
      ensures old(NextSlotFree()) ==> multiset(Values(size + 1)) == old(Live()) + multiset{value}
      ensures !old(NextSlotFree()) ==>
                multiset(Values(size + 1)) == Overwritten(old(Live()), old(val[size]), value)
      ensures !old(NextSlotFree()) ==> old(size < |val| && val[size] in Live())
      ensures |val| == old(if size == |val| then |val| + 1 else |val|) && val[size] == value
      ensures forall i :: 0 <= i < old(|val|) && i != size ==> val[i] == old(val[i])
    {
      hide Pick, SlotSet, Distinct, IsHeap, Rising, Overwritten, StrictWeakOrder;
      ghost var live, lost := Live(), if size < |val| then val[size] else value;
      ghost var e' := Pick(Put(val, size, value), idx[size := size], size + 1);
      ghost var free := NextSlotFree();
      if free {
        PickAppendFree(val, idx, size, value, less);
      } else {
        PickAppendTaken(val, idx, size, value);
        assert multiset(e') == Overwritten(live, lost, value);
      }
      SlotsAppend(idx, size);
      val := Put(val, size, value);
      idx := idx[size := size];
      assert Values(size + 1) == e';
      assert !free ==> multiset(Values(size + 1)) == Overwritten(live, lost, value);
    }

    /** The branch of a push into a heap that is not full. */
    method Append(value: T)
      requires Valid() && size < capacity
      modifies `val, `idx, `size
      ensures Shape(size) && size == old(size) + 1 && old(NextSlotFree() || (size < |val| && val[size] in Live()))
      ensures old(NextSlotFree()) ==> Valid() && Live() == old(Live()) + multiset{value}
      ensures Slots(size) == old(Slots(size)) + {old(size)}
      ensures !old(NextSlotFree()) ==>
                Live() == Overwritten(old(Live()), old(val[size]), value)
      ensures |val| == old(if size == |val| then |val| + 1 else |val|) && val[old(size)] == value
      ensures forall i :: 0 <= i < old(|val|) && i != old(size) ==> val[i] == old(val[i])
    {
      hide Pick, SlotSet, Distinct, IsHeap, Rising, Overwritten, StrictWeakOrder;
      Store(value);
      SiftUp(size);
      size := size + 1;
    }

    /** Let the value at position i rise; the order is restored if only that value was out of place. */
    method SiftUp(i: nat)
      requires StrictWeakOrder(less) && i < capacity && Shape(i + 1)
      modifies `idx
      ensures Shape(i + 1) && multiset(Values(i + 1)) == old(multiset(Values(i + 1)))
      ensures old(Injective(i + 1)) ==> Injective(i + 1)
      ensures Slots(i + 1) == old(Slots(i + 1))
      ensures old(Rising(Values(i + 1), less, i)) ==> IsHeap(Values(i + 1), less)
    {
      hide Pick, SlotSet, Distinct, StrictWeakOrder, Swapped;
      var pos: nat := i;
      ghost var rising := Rising(Values(i + 1), less, i);
      while pos > 0
        invariant pos <= i && Shape(i + 1)
        invariant multiset(Values(i + 1)) == old(multiset(Values(i + 1)))
        invariant old(Injective(i + 1)) ==> Injective(i + 1)
        invariant Slots(i + 1) == old(Slots(i + 1))
        invariant rising ==> Rising(Values(i + 1), less, pos)
      {
        var p := Parent(pos);
        if !less(val[idx[pos]], val[idx[p]]) { break; }
        if rising {
          RiseStep(Values(i + 1), less, pos);
        }
        SwapPositions(pos, p, i + 1);
        pos := p;
      }
    }

    /** Let the value at position i sink below smaller children. */
    method SiftDown(i: nat)
      requires StrictWeakOrder(less) && i < size && Shape(size) && Sinking(Values(size), less, i)
      modifies `idx
      ensures Shape(size) && Live() == old(Live()) && IsHeap(Values(size), less)
      ensures old(Injective(size)) ==> Injective(size)
      ensures Slots(size) == old(Slots(size))
    {
      hide Pick, SlotSet, Distinct, IsHeap, Sinking, StrictWeakOrder, Swapped;
      var pos: nat := i;
      while true
        invariant pos < size && Shape(size) && Live() == old(Live())
        invariant old(Injective(size)) ==> Injective(size)
        invariant Slots(size) == old(Slots(size))
        invariant Sinking(Values(size), less, pos)
        decreases size - pos
      {
        var l, r := 2 * pos + 1, 2 * pos + 2;
        var best := pos;
        if l < size && less(val[idx[l]], val[idx[best]]) { best := l; }
        if r < size && less(val[idx[r]], val[idx[best]]) { best := r; }
        assert best == BestChild(Values(size), less, pos);
        BestChildDecides(Values(size), less, pos);
        if best == pos { break; }
        SwapPositions(pos, best, size);
        pos := best;
      }
    }

    method SwapPositions(i: nat, j: nat, ghost n: nat)
      requires Shape(n) && i < n && j < n && i != j
      modifies `idx
      ensures Shape(n) && Values(n) == Swapped(old(Values(n)), i, j)
      ensures multiset(Values(n)) == old(multiset(Values(n)))
      ensures old(Injective(n)) ==> Injective(n)
      ensures Slots(n) == old(Slots(n))
    {
      hide Pick, SlotSet, Distinct;
      SwapPermutes(Values(n), i, j);
      PickSwap(val, idx, n, i, j);
      idx := Swapped(idx, i, j);
    }

    static lemma PickSwap(val: seq<T>, idx: seq<nat>, n: nat, i: nat, j: nat)
      requires n <= |idx| && (forall i :: 0 <= i < n ==> idx[i] < |val|) && i < n && j < n
      ensures forall k :: 0 <= k < n ==> Swapped(idx, i, j)[k] < |val|
      ensures Pick(val, Swapped(idx, i, j), n) == Swapped(Pick(val, idx, n), i, j)
      ensures SlotSet(Swapped(idx, i, j), n) == SlotSet(idx, n)
      ensures Distinct(idx, n) ==> Distinct(Swapped(idx, i, j), n)
    {
      var idx' := Swapped(idx, i, j);
      assert Pick(val, idx', n) == Swapped(Pick(val, idx, n), i, j);
      forall x | x in SlotSet(idx, n)
        ensures x in SlotSet(idx', n)
      {
        var k :| 0 <= k < n && idx[k] == x;
        assert x == idx'[if k == i then j else if k == j then i else k];
      }
    }

    /** Reading the heap out with Top and Pop gives the live values in comparator order. */
    method Drain() returns (out: seq<T>)
      requires Valid()
      modifies `idx, `size
      ensures size == 0 && multiset(out) == old(Live()) && Sorted(out, less)
    {
      out := [];
      while size > 0
        invariant Valid() && multiset(out) + Live() == old(Live())
        invariant Sorted(out, less) && Below(out, Live(), less)
        decreases size
      {
        var top := Top();
        DrainStep(out, Live(), top, less);
        Pop();
        out := out + [top];
      }
    }
  }

  /** A use of the heap: whatever it held, clearing it and pushing any values leaves the N greatest of them, and reading
      it out gives those in comparator order. */
  method SelectTopN<T(!new,==)>(h: TopNHeap<T>, values: seq<T>) returns (out: seq<T>)
    requires StrictWeakOrder(h.less) && h.Shape(h.size)
    modifies h
    ensures h.size == 0 && IsTopN(multiset(values), multiset(out), h.capacity, h.less) && Sorted(out, h.less)
  {
    h.Clear();
    h.PushAll(values);
    out := h.Drain();
  }

  method FilledHeap() returns (h: TopNHeap<int>)
    ensures fresh(h) && h.Valid() && h.capacity == 3 && h.size == 3 && h.val == [1, 2, 3]
    ensures h.Slots(3) == {0, 1, 2} && h.less == ((a, b) => a < b)
  {
    h := new TopNHeap<int>(3, (a, b) => a < b);
    assert h.Slots(0) == {};
    hide TopNHeap<int>.Pick, TopNHeap<int>.SlotSet, TopNHeap<int>.Distinct, TopNHeap<int>.Shape;
    hide HeapOrder.IsHeap, HeapOrder.StrictWeakOrder, HeapOrder.Overwritten;
    h.Append(1);
    assert h.Slots(1) == {0} && h.val == [1];
    h.Append(2);
    assert h.Slots(2) == {0, 1} && h.val == [1, 2];
    h.Append(3);
  }

  /** Popping the filled heap once takes the 1 away and leaves the 3 in slot 2. */
  method PoppedHeap() returns (h: TopNHeap<int>)
    ensures fresh(h) && h.Valid() && h.capacity == 3 && h.size == 2 && h.val == [1, 2, 3]
    ensures 3 in h.Live() && |h.Live()| == 2 && !h.NextSlotFree()
  {
    h := FilledHeap();
    h.SlotIsLive(0);
    var top := h.Top();
    assert h.idx[0] in h.Slots(3) && h.idx[0] == 0;
    hide TopNHeap<int>.Pick, TopNHeap<int>.SlotSet, TopNHeap<int>.Distinct;
    hide HeapOrder.IsHeap, HeapOrder.StrictWeakOrder;
    h.Pop();
    assert 2 in h.Slots(2);
    h.SlotIsLive(2);
  }

  /** A push between two pops can lose a value. With capacity 3, push 1, 2, 3, pop once and push 10: although there
      was room, the live values are not those before the last push with 10 added (3 is overwritten). */
  method InterleavedPushLosesValue() returns (h: TopNHeap<int>, ghost before: multiset<int>)
    ensures h.Shape(h.size) && 3 in before && |before| == 2 && h.size == 3 && h.Live() != before + multiset{10}
  {
    h := PoppedHeap();
    before := h.Live();
    assert h.val[2] == 3;
    hide *;
    h.Push(10);
  }
}
