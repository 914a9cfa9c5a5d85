/** The single-producer single-consumer ring queue as a transition system.
    Every atomic load, atomic store and buffer access is one step, and a run is an arbitrary interleaving of
    producer and consumer steps. The histories `pushed` and `popped` record, in order, the values whose head
    store has happened and the values handed to the consumer. */
module SpscRingQueue {
  import Bits
  import opened Residues

  /** Where the producer stands inside `Push` (retry) or `TryPush` (no retry). */
  datatype Producer<T> =
    | Ready
    | LoadHead(value: T, retry: bool)
    | LoadTail(value: T, retry: bool, currentHead: nat, nextHead: nat)
    | Write(value: T, currentHead: nat, nextHead: nat)
    | Publish(value: T, nextHead: nat)

  /** Where the consumer stands inside `TryPop`. `seen` is the number of values published when head was loaded. */
  datatype Consumer =
    | Waiting
    | SampleHead
    | SampleTail(currentHead: nat, seen: nat)
    | Read(currentTail: nat)
    | Release(currentTail: nat)

  datatype State<T> = State(
    capacity: nat, pow2: bool, head: nat, tail: nat, buffer: seq<T>,
    producer: Producer<T>, consumer: Consumer,
    pushed: seq<T>, popped: seq<T>)

  /** `movedFrom` is whatever the move out of a slot leaves behind in it. */
  datatype Event<T> = CallPush(value: T, retry: bool) | ProducerStep | CallPop | ConsumerStep(movedFrom: T)

  function Mod<T>(s: State<T>, n: nat): nat
    requires s.capacity > 0
  {
    if s.pow2 then Bits.And(n, s.capacity - 1) else n % s.capacity
  }

  /** `Setup`: pow2 is the outcome of the code's own bit test. */
  ghost predicate Init<T>(s: State<T>) {
    && s.capacity > 0 && |s.buffer| == s.capacity
    && s.pow2 == (Bits.And(s.capacity, s.capacity - 1) == 0)
    && s.head == s.tail == 0
    && s.producer.Ready? && s.consumer.Waiting?
    && s.pushed == s.popped == []
  }

  predicate Enabled<T>(s: State<T>, e: Event<T>) {
    match e
    case CallPush(_, _) => s.producer.Ready?
    case ProducerStep => !s.producer.Ready?
    case CallPop => s.consumer.Waiting?
    case ConsumerStep(_) => !s.consumer.Waiting?
  }

  /** A step is well defined where every index it dereferences is inside the buffer. */
  predicate Safe<T>(s: State<T>) {
    && s.capacity > 0
    && (s.producer.Write? ==> s.producer.currentHead < |s.buffer|)
    && (s.consumer.Read? ==> s.consumer.currentTail < |s.buffer|)
  }

  function Step<T>(s: State<T>, e: Event<T>): State<T>
    requires Enabled(s, e) && Safe(s)
  {
    match e
    case CallPush(v, retry) => s.(producer := LoadHead(v, retry))
    case ProducerStep => StepProducer(s)
    case CallPop => s.(consumer := SampleHead)
    case ConsumerStep(m) => StepConsumer(s, m)
  }

  function StepProducer<T>(s: State<T>): State<T>
    requires !s.producer.Ready? && Safe(s)
  {
    match s.producer
    case LoadHead(v, retry) => s.(producer := LoadTail(v, retry, s.head, Mod(s, s.head + 1)))
    case LoadTail(v, retry, cur, next) =>
      if next != s.tail then s.(producer := Write(v, cur, next))
      else if retry then s.(producer := LoadHead(v, retry))
      else s.(producer := Ready)
    case Write(v, cur, next) => s.(buffer := s.buffer[cur := v], producer := Publish(v, next))
    case Publish(v, next) => s.(head := next, pushed := s.pushed + [v], producer := Ready)
  }

  function StepConsumer<T>(s: State<T>, movedFrom: T): State<T>
    requires !s.consumer.Waiting? && Safe(s)
  {
    match s.consumer
    case SampleHead => s.(consumer := SampleTail(s.head, |s.pushed|))
    case SampleTail(h, _) => if s.tail == h then s.(consumer := Waiting) else s.(consumer := Read(s.tail))
    case Read(t) =>
      s.(popped := s.popped + [s.buffer[t]], buffer := s.buffer[t := movedFrom], consumer := Release(t))
    case Release(t) => s.(tail := Mod(s, t + 1), consumer := Waiting)
  }

  /** Number of slots handed back to the producer: pops whose tail store has happened. */
  function Released<T>(s: State<T>): int {
    |s.popped| - if s.consumer.Release? then 1 else 0
  }

  /** Values published whose slot the producer may not reuse yet. */
  function Held<T>(s: State<T>): int {
    |s.pushed| - Released(s)
  }

  /** The buffer slot of the n-th value. */
  function Slot(n: nat, capacity: nat): (slot: nat)
    requires capacity > 0
    ensures slot < capacity
  {
    n % capacity
  }

  lemma SlotsDiffer(a: nat, b: nat, capacity: nat)
    requires capacity > 0 && a < b < a + capacity
    ensures Slot(a, capacity) != Slot(b, capacity)
  {
    ModDistinct(a, b, capacity);
  }

  lemma SlotWraps(a: nat, capacity: nat)
    requires capacity > 0
    ensures Slot(a + capacity, capacity) == Slot(a, capacity)
  {
    ModWraps(a, capacity);
  }

  ghost predicate Inv<T>(s: State<T>) {
    && s.capacity > 0 && |s.buffer| == s.capacity
    && s.pow2 == (Bits.And(s.capacity, s.capacity - 1) == 0)
    && 0 <= Released(s) && s.popped <= s.pushed && Held(s) <= s.capacity - 1
    && s.head == Slot(|s.pushed|, s.capacity)
    && s.tail == Slot(Released(s), s.capacity)
    && (forall k :: |s.popped| <= k < |s.pushed| ==> s.buffer[Slot(k, s.capacity)] == s.pushed[k])
    && ProducerInv(s) && ConsumerInv(s)
  }

  ghost predicate ProducerInv<T>(s: State<T>)
    requires s.capacity > 0 && |s.buffer| == s.capacity
  {
    match s.producer
    case Ready => true
    case LoadHead(_, _) => true
    case LoadTail(_, _, cur, next) => cur == s.head && next == Slot(|s.pushed| + 1, s.capacity)
    case Write(_, cur, next) =>
      cur == Slot(|s.pushed|, s.capacity) && next == Slot(|s.pushed| + 1, s.capacity) && Held(s) < s.capacity - 1
    case Publish(v, next) =>
      next == Slot(|s.pushed| + 1, s.capacity) && Held(s) < s.capacity - 1
      && s.buffer[Slot(|s.pushed|, s.capacity)] == v
  }

  ghost predicate ConsumerInv<T>(s: State<T>)
    requires s.capacity > 0
  {
    match s.consumer
    case Waiting => true
    case SampleHead => true
    case SampleTail(h, seen) => |s.popped| <= seen <= |s.pushed| && h == Slot(seen, s.capacity)
    case Read(t) => t == s.tail && |s.popped| < |s.pushed|
    case Release(t) => t == s.tail && |s.popped| > 0
  }

  /** Masked or not, `Mod` is the remainder, and stepping a wrapped position wraps the stepped position. */
  lemma ModNext<T>(s: State<T>, n: nat)
    requires s.capacity > 0 && s.pow2 == (Bits.And(s.capacity, s.capacity - 1) == 0)
    ensures Mod(s, n) == Slot(n, s.capacity) == n % s.capacity
    ensures Mod(s, Slot(n, s.capacity) + 1) == Slot(n + 1, s.capacity)
  {
    if s.pow2 {
      Bits.AndMask(n, s.capacity);
      Bits.AndMask(n % s.capacity + 1, s.capacity);
    }
    ModSucc(n, s.capacity);
  }

  lemma NextSlot<T>(s: State<T>, n: nat)
    requires s.capacity > 0 && s.pow2 == (Bits.And(s.capacity, s.capacity - 1) == 0)
    ensures Mod(s, Slot(n, s.capacity) + 1) == Slot(n + 1, s.capacity)
  {
    hide Bits.And, Mod, Slot;
    ModNext(s, n);
  }

  // ---------- every step keeps the invariant ----------

  lemma LoadHeadKeeps<T>(s: State<T>)
    requires Inv(s) && s.producer.LoadHead?
    ensures Safe(s) && Inv(StepProducer(s))
  {
    hide Bits.And, Slot, Mod;
    NextSlot(s, |s.pushed|);
  }

  lemma LoadTailKeeps<T>(s: State<T>)
    requires Inv(s) && s.producer.LoadTail?
    ensures Safe(s) && Inv(StepProducer(s))
  {
    hide Bits.And, Slot, Mod;
    if Held(s) == s.capacity - 1 {
      assert |s.pushed| + 1 == Released(s) + s.capacity;
      SlotWraps(Released(s), s.capacity);
    }
  }

  lemma WriteKeeps<T>(s: State<T>)
    requires Inv(s) && s.producer.Write?
    ensures Safe(s) && Inv(StepProducer(s))
  {
    hide Bits.And, Slot, Mod;
    var c, n, s' := s.capacity, |s.pushed|, StepProducer(s);
    forall k | |s.popped| <= k < n
      ensures s'.buffer[Slot(k, c)] == s.pushed[k]
    {
      SlotsDiffer(k, n, c);
    }
  }

  lemma PublishKeeps<T>(s: State<T>)
    requires Inv(s) && s.producer.Publish?
    ensures Safe(s) && Inv(StepProducer(s))
  {
    hide Bits.And, Slot, Mod;
  }

  lemma ProducerKeeps<T>(s: State<T>)
    requires Inv(s) && !s.producer.Ready?
    ensures Safe(s) && Inv(StepProducer(s))
  {
    hide Inv, StepProducer, Safe;
    match s.producer
    case LoadHead(_, _) => LoadHeadKeeps(s);
    case LoadTail(_, _, _, _) => LoadTailKeeps(s);
    case Write(_, _, _) => WriteKeeps(s);
    case Publish(_, _) => PublishKeeps(s);
  }

  lemma ReadKeeps<T>(s: State<T>, movedFrom: T)
    requires Inv(s) && s.consumer.Read?
    ensures Safe(s) && Inv(StepConsumer(s, movedFrom))
  {
    hide Bits.And, Slot;
    var c, p := s.capacity, |s.popped|;
    var s' := StepConsumer(s, movedFrom);
    assert s'.popped <= s'.pushed && Released(s') == p;
    forall k | p + 1 <= k < |s.pushed|
      ensures s'.buffer[Slot(k, c)] == s.pushed[k]
    {
      SlotsDiffer(p, k, c);
    }
    if s.producer.Publish? {
      SlotsDiffer(p, |s.pushed|, c);
    }
  }

  lemma ReleaseKeeps<T>(s: State<T>, movedFrom: T)
    requires Inv(s) && s.consumer.Release?
    ensures Safe(s) && Inv(StepConsumer(s, movedFrom))
  {
    hide Bits.And, Mod, Slot;
    NextSlot(s, |s.popped| - 1);
    var s' := StepConsumer(s, movedFrom);
    assert Released(s') == |s.popped| && s'.tail == Slot(|s.popped|, s.capacity);
  }

  lemma ConsumerKeeps<T>(s: State<T>, movedFrom: T)
    requires Inv(s) && !s.consumer.Waiting?
    ensures Safe(s) && Inv(StepConsumer(s, movedFrom))
  {
    hide Bits.And, Slot;
    match s.consumer
    case SampleHead =>
    case SampleTail(h, seen) =>
    case Read(t) => ReadKeeps(s, movedFrom);
    case Release(t) => ReleaseKeeps(s, movedFrom);
  }

  lemma StepKeeps<T>(s: State<T>, e: Event<T>)
    requires Inv(s) && Enabled(s, e)
    ensures Safe(s) && Inv(Step(s, e))
  {
    hide Bits.And, Mod, Slot;
    match e
    case CallPush(_, _) =>
    case ProducerStep => ProducerKeeps(s);
    case CallPop =>
    case ConsumerStep(m) => ConsumerKeeps(s, m);
  }

  // ---------- whole runs ----------

  /** s' is reached from s by performing the events in order, each where it is enabled. */
  ghost predicate Reaches<T>(s: State<T>, events: seq<Event<T>>, s': State<T>)
    decreases |events|
  {
    if events == [] then s' == s
    else Enabled(s, events[0]) && Safe(s) && Reaches(Step(s, events[0]), events[1..], s')
  }

  lemma {:induction false} RunKeeps<T>(s: State<T>, events: seq<Event<T>>, s': State<T>)
    requires Inv(s) && Reaches(s, events, s')
    ensures Inv(s')
    decreases |events|
  {
    if events != [] {
      StepKeeps(s, events[0]);
      RunKeeps(Step(s, events[0]), events[1..], s');
    }
  }

  lemma InitHolds<T>(s: State<T>)
    requires Init(s)
    ensures Inv(s)
  {
    SlotOfZero(s.capacity);
    hide Bits.And, Slot;
  }

  lemma SlotOfZero(capacity: nat)
    requires capacity > 0
    ensures Slot(0, capacity) == 0
  {
  }

  /** Safety of the queue in every state of every interleaving: first in first out without loss or duplication,
      bounded occupancy, no slot written while it is read, and no access outside the buffer. */
  lemma QueueIsSafe<T>(s0: State<T>, events: seq<Event<T>>, s: State<T>)
    requires Init(s0) && Reaches(s0, events, s)
    ensures s.popped <= s.pushed
    ensures 0 <= |s.pushed| - |s.popped| <= Held(s) <= s0.capacity - 1
    ensures s.producer.Write? && s.consumer.Read? ==> s.producer.currentHead != s.consumer.currentTail
    ensures forall e :: Enabled(s, e) ==> Safe(s) && Inv(Step(s, e))
  {
    hide Bits.And, Mod, Slot, Reaches;
    InitHolds(s0);
    RunKeeps(s0, events, s);
    CapacityFixed(s0, events, s);
    if s.producer.Write? && s.consumer.Read? {
      SlotsDiffer(|s.popped|, |s.pushed|, s.capacity);
    }
    forall e | Enabled(s, e)
      ensures Safe(s) && Inv(Step(s, e))
    {
      StepKeeps(s, e);
    }
  }

  lemma {:induction false} CapacityFixed<T>(s: State<T>, events: seq<Event<T>>, s': State<T>)
    requires Reaches(s, events, s')
    ensures s'.capacity == s.capacity
    decreases |events|
  {
    if events != [] {
      CapacityFixed(Step(s, events[0]), events[1..], s');
    }
  }

  lemma FullAtTail<T>(s: State<T>)
    requires Inv(s) && s.producer.LoadTail?
    ensures s.producer.nextHead == s.tail <==> Held(s) == s.capacity - 1
  {
    hide Bits.And, Mod, Slot;
    var c := s.capacity;
    if Held(s) == c - 1 {
      assert |s.pushed| + 1 == Released(s) + c;
      SlotWraps(Released(s), c);
    } else {
      SlotsDiffer(Released(s), |s.pushed| + 1, c);
    }
  }

  /** A push is refused exactly when all capacity-1 places are taken at the moment tail is loaded. */
  lemma PushRefusedIffFull<T>(s0: State<T>, events: seq<Event<T>>, s: State<T>)
    requires Init(s0) && Reaches(s0, events, s) && s.producer.LoadTail?
    ensures Safe(s)
    ensures !StepProducer(s).producer.Write? <==> Held(s) == s.capacity - 1
  {
    hide Bits.And, Mod, Slot, Reaches;
    RunKeeps(s0, events, s) by { InitHolds(s0); }
    FullAtTail(s);
  }

  /** A pop is refused exactly when nothing was queued at the moment head was loaded. */
  lemma PopRefusedIffEmpty<T>(s0: State<T>, events: seq<Event<T>>, s: State<T>, movedFrom: T)
    requires Init(s0) && Reaches(s0, events, s) && s.consumer.SampleTail?
    ensures Safe(s)
    ensures StepConsumer(s, movedFrom).consumer.Waiting? <==> s.consumer.seen == |s.popped|
  {
    hide Bits.And, Mod, Slot, Reaches;
    RunKeeps(s0, events, s) by { InitHolds(s0); }
    if s.consumer.seen != |s.popped| {
      SlotsDiffer(|s.popped|, s.consumer.seen, s.capacity);
    }
  }

  // ---------- what was pushed ----------

  /** A push has returned without publishing anything. */
  predicate Refused<T(==)>(s: State<T>, s': State<T>) {
    !s.producer.Ready? && s'.producer.Ready? && s'.pushed == s.pushed
  }

  /** The record of the calls of `Push` and `TryPush` after one more event: a refused call is taken out again. */
  function Recorded<T(==)>(calls: seq<Event<T>>, s: State<T>, e: Event<T>, s': State<T>): seq<Event<T>> {
    if e.CallPush? then calls + [e]
    else if Refused(s, s') && calls != [] then calls[..|calls| - 1]
    else calls
  }

  /** The calls recorded over a run. */
  ghost function Calls<T>(s: State<T>, events: seq<Event<T>>, calls: seq<Event<T>>): seq<Event<T>>
    decreases |events|
  {
    if events == [] || !Enabled(s, events[0]) || !Safe(s) then calls
    else
      var s' := Step(s, events[0]);
      Calls(s', events[1..], Recorded(calls, s, events[0], s'))
  }

  /** The arguments of the calls. */
  function Arguments<T>(calls: seq<Event<T>>): seq<T> {
    if calls == [] then []
    else
      var last := calls[|calls| - 1];
      Arguments(calls[..|calls| - 1]) + if last.CallPush? then [last.value] else []
  }

  /** The calls of `Push`, which tries until it succeeds. */
  function Insisting<T>(calls: seq<Event<T>>): seq<Event<T>> {
    if calls == [] then []
    else
      var last := calls[|calls| - 1];
      Insisting(calls[..|calls| - 1]) + if last.CallPush? && last.retry then [last] else []
  }

  /** The value that a call under way is going to publish. */
  function UnderWay<T>(s: State<T>): seq<T> {
    if s.producer.Ready? then [] else [s.producer.value]
  }

  /** What was published, and the call under way, are the recorded calls. */
  ghost predicate Accounted<T>(s: State<T>, calls: seq<Event<T>>) {
    && s.pushed + UnderWay(s) == Arguments(calls)
    && (!s.producer.Ready? ==> calls != [] && calls[|calls| - 1].CallPush? &&
                               calls[|calls| - 1].value == s.producer.value)
    && (s.producer.LoadHead? ==> calls[|calls| - 1].retry == s.producer.retry)
    && (s.producer.LoadTail? ==> calls[|calls| - 1].retry == s.producer.retry)
  }

  lemma AddCall<T>(calls: seq<Event<T>>, e: Event<T>)
    ensures Arguments(calls + [e]) == Arguments(calls) + if e.CallPush? then [e.value] else []
    ensures Insisting(calls + [e]) == Insisting(calls) + if e.CallPush? && e.retry then [e] else []
  {
    assert (calls + [e])[..|calls|] == calls;
  }

  lemma LastCall<T>(calls: seq<Event<T>>)
    requires calls != [] && calls[|calls| - 1].CallPush?
    ensures var n := |calls| - 1;
            && Arguments(calls) == Arguments(calls[..n]) + [calls[n].value]
            && (!calls[n].retry ==> Insisting(calls[..n]) == Insisting(calls))
  {
  }

  /** A step refuses the call under way exactly when it is a `TryPush` that finds the queue full; else the call goes on
      with its own argument or publishes it. */
  lemma StepAccounts<T>(s: State<T>, calls: seq<Event<T>>, e: Event<T>)
    requires Inv(s) && Accounted(s, calls) && Enabled(s, e)
    ensures Safe(s)
    ensures Refused(s, Step(s, e)) <==> e.ProducerStep? && s.producer.LoadTail? && Held(s) == s.capacity - 1 &&
                                        !calls[|calls| - 1].retry
    ensures Accounted(Step(s, e), Recorded(calls, s, e, Step(s, e)))
    ensures Insisting(Recorded(calls, s, e, Step(s, e))) ==
            Insisting(calls) + if e.CallPush? && e.retry then [e] else []
  {
    StepKeeps(s, e);
    assert e.ProducerStep? ==> !s.producer.Ready? && Step(s, e) == StepProducer(s);
    hide *;
    if e.ProducerStep? {
      ProducerAccounts(s, calls);
    } else if e.CallPush? {
      AddCall(calls, e);
      CallAccounts(s, calls, e);
    } else {
      ConsumerAccounts(s, calls, e);
    }
  }

  lemma ConsumerAccounts<T>(s: State<T>, calls: seq<Event<T>>, e: Event<T>)
    requires Enabled(s, e) && Safe(s) && Accounted(s, calls) && (e.CallPop? || e.ConsumerStep?)
    ensures !Refused(s, Step(s, e)) && Recorded(calls, s, e, Step(s, e)) == calls
    ensures Accounted(Step(s, e), calls)
  {
    hide Mod, Arguments;
  }

  lemma CallAccounts<T>(s: State<T>, calls: seq<Event<T>>, e: Event<T>)
    requires Enabled(s, e) && Safe(s) && Accounted(s, calls) && e.CallPush?
    requires Arguments(calls + [e]) == Arguments(calls) + [e.value]
    ensures !Refused(s, Step(s, e)) && Recorded(calls, s, e, Step(s, e)) == calls + [e]
    ensures Accounted(Step(s, e), calls + [e])
  {
    hide Arguments;
  }

  lemma ProducerAccounts<T>(s: State<T>, calls: seq<Event<T>>)
    requires Inv(s) && Accounted(s, calls) && !s.producer.Ready? && Safe(s)
    ensures calls != []
    ensures Refused(s, StepProducer(s)) <==>
            s.producer.LoadTail? && Held(s) == s.capacity - 1 && !calls[|calls| - 1].retry
    ensures Accounted(StepProducer(s), Recorded(calls, s, ProducerStep, StepProducer(s)))
    ensures Insisting(Recorded(calls, s, ProducerStep, StepProducer(s))) == Insisting(calls)
  {
    if s.producer.LoadTail? {
      FullAtTail(s);
      hide Inv, Held;
      TailAccounts(s, calls);
    } else if s.producer.Publish? {
      hide Inv, Held;
      PublishAccounts(s, calls);
    } else {
      hide Inv, Mod, Arguments, Insisting;
    }
  }

  lemma TailAccounts<T>(s: State<T>, calls: seq<Event<T>>)
    requires Accounted(s, calls) && s.producer.LoadTail? && Safe(s)
    ensures var s' := StepProducer(s);
            && calls != [] && (Refused(s, s') <==> s.producer.nextHead == s.tail && !calls[|calls| - 1].retry)
            && Accounted(s', Recorded(calls, s, ProducerStep, s'))
            && Insisting(Recorded(calls, s, ProducerStep, s')) == Insisting(calls)
  {
    hide Arguments, Insisting;
    LastCall(calls);
    var front := Arguments(calls[..|calls| - 1]);
    assert s.pushed == (s.pushed + UnderWay(s))[..|s.pushed|] && (front + UnderWay(s))[..|front|] == front;
  }

  lemma PublishAccounts<T>(s: State<T>, calls: seq<Event<T>>)
    requires Accounted(s, calls) && s.producer.Publish? && Safe(s)
    ensures !Refused(s, StepProducer(s)) && Accounted(StepProducer(s), calls)
  {
    hide Arguments;
    assert |StepProducer(s).pushed| == |s.pushed| + 1;
  }

  lemma {:induction false} RunAccounts<T>(s: State<T>, calls: seq<Event<T>>, events: seq<Event<T>>, s': State<T>)
    requires Inv(s) && Accounted(s, calls) && Reaches(s, events, s')
    ensures Accounted(s', Calls(s, events, calls))
    ensures Insisting(Calls(s, events, calls)) == Insisting(calls) + Insisting(events)
    decreases |events|
  {
    hide *;
    if events == [] {
      NoEvents(s, calls, s');
    } else {
      var e := events[0];
      FirstOfRun(s, calls, events, s');
      StepKeeps(s, e);
      StepAccounts(s, calls, e);
      FirstCall(events);
      RunAccounts(Step(s, e), Recorded(calls, s, e, Step(s, e)), events[1..], s');
      var one := if e.CallPush? && e.retry then [e] else [];
      assert Insisting(calls) + (one + Insisting(events[1..])) == Insisting(calls) + one + Insisting(events[1..]);
    }
  }

  lemma NoEvents<T>(s: State<T>, calls: seq<Event<T>>, s': State<T>)
    requires Reaches(s, [], s')
    ensures s' == s && Calls(s, [], calls) == calls && Insisting(calls) + Insisting([]) == Insisting(calls)
  {
  }

  lemma FirstOfRun<T>(s: State<T>, calls: seq<Event<T>>, events: seq<Event<T>>, s': State<T>)
    requires events != [] && Reaches(s, events, s')
    ensures var e := events[0];
            && Enabled(s, e) && Safe(s) && Reaches(Step(s, e), events[1..], s')
            && Calls(s, events, calls) == Calls(Step(s, e), events[1..], Recorded(calls, s, e, Step(s, e)))
  {
    hide Step, Recorded;
  }

  lemma {:induction false} FirstCall<T>(events: seq<Event<T>>)
    requires events != []
    ensures Insisting(events) ==
            (if events[0].CallPush? && events[0].retry then [events[0]] else []) + Insisting(events[1..])
  {
    var n := |events| - 1;
    if n > 0 {
      FirstCall(events[..n]);
      assert events[1..][..n - 1] == events[..n][1..];
    }
  }

  /** In every state of every interleaving the published values, followed by the one of a push under way, are the
      arguments of the calls made so far, in order, less the refused ones; the popped values are a prefix of them. No
      call of `Push` is ever refused, and a `TryPush` exactly when it finds the queue full. */
  lemma PushedAreArguments<T>(s0: State<T>, events: seq<Event<T>>, s: State<T>)
    requires Init(s0) && Reaches(s0, events, s)
    ensures var calls := Calls(s0, events, []);
            && s.pushed + UnderWay(s) == Arguments(calls) && s.popped <= Arguments(calls)
            && Insisting(calls) == Insisting(events)
            && forall e :: Enabled(s, e) ==>
                             && Safe(s)
                             && (Refused(s, Step(s, e)) <==> e.ProducerStep? && s.producer.LoadTail? &&
                                                             Held(s) == s.capacity - 1 && calls != [] &&
                                                             calls[|calls| - 1].CallPush? && !calls[|calls| - 1].retry)
  {
    var calls := Calls(s0, events, []);
    InitHolds(s0);
    hide Reaches, Inv, Calls, Bits.And, Step;
    RunKeeps(s0, events, s);
    RunAccounts(s0, [], events, s);
    QueueIsSafe(s0, events, s);
    forall e | Enabled(s, e)
      ensures Safe(s)
      ensures Refused(s, Step(s, e)) <==> e.ProducerStep? && s.producer.LoadTail? && Held(s) == s.capacity - 1 &&
                                          calls != [] && calls[|calls| - 1].CallPush? && !calls[|calls| - 1].retry
    {
      StepAccounts(s, calls, e);
    }
    hide *;
    PrefixOfLonger(s.popped, s.pushed, UnderWay(s));
  }

  lemma PrefixOfLonger<T>(a: seq<T>, b: seq<T>, c: seq<T>)
    requires a <= b
    ensures a <= b + c
  {
  }
}
