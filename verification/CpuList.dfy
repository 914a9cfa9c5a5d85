/** Core lists: printing a set of cores as a cpulist, reading it back, dividing it between the worker and the store
    threads, and the fallback that divides the allowed cores between the ranks. */
module CpuList {
  import opened Residues
  import opened Options
  import opened Sequences

  /** The cores from lo to hi. */
  datatype Segment = Segment(lo: nat, hi: nat)

  ghost predicate Ascending(cores: seq<nat>) {
    forall i, j :: 0 <= i < j < |cores| ==> cores[i] < cores[j]
  }

  function Cores(s: Segment): seq<nat> {
    if s.lo <= s.hi then seq(s.hi - s.lo + 1, i requires 0 <= i => s.lo + i) else []
  }

  /** All cores of a list of segments, in order. */
  function Expand(segs: seq<Segment>): seq<nat> {
    if segs == [] then [] else Expand(segs[..|segs| - 1]) + Cores(segs[|segs| - 1])
  }

  ghost predicate NonEmpty(segs: seq<Segment>) {
    forall i :: 0 <= i < |segs| ==> segs[i].lo <= segs[i].hi
  }

  /** No two neighbouring segments could be one. */
  ghost predicate Separated(segs: seq<Segment>) {
    forall i :: 0 <= i < |segs| - 1 ==> segs[i].hi + 1 < segs[i + 1].lo
  }

  // ---- text ----

  function Digit(d: nat): char
    requires d < 10
  {
    (48 + d) as char
  }

  predicate IsDigit(c: char) { '0' <= c <= '9' }

  function ShowNat(n: nat): string {
    if n < 10 then [Digit(n)] else ShowNat(n / 10) + [Digit(n % 10)]
  }

  predicate AllDigits(s: string) {
    forall i :: 0 <= i < |s| ==> IsDigit(s[i])
  }

  function ValueOf(s: string): nat
    requires AllDigits(s)
  {
    if s == [] then 0 else 10 * ValueOf(s[..|s| - 1]) + (s[|s| - 1] as int - 48)
  }

  function StripLeft(s: string): string {
    if s != [] && s[0] == ' ' then StripLeft(s[1..]) else s
  }

  function StripRight(s: string): string {
    if s != [] && s[|s| - 1] == ' ' then StripRight(s[..|s| - 1]) else s
  }

  function Strip(s: string): string { StripRight(StripLeft(s)) }

  /** `int(s)` for unsigned decimal text. */
  function ParseNat(s: string): Option<nat> {
    var t := Strip(s);
    if t != [] && AllDigits(t) then Some(ValueOf(t)) else None
  }

  lemma {:induction false} ShowNatReads(n: nat)
    ensures ShowNat(n) != [] && AllDigits(ShowNat(n)) && ValueOf(ShowNat(n)) == n
  {
    if n >= 10 {
      ShowNatReads(n / 10);
      var s := ShowNat(n / 10) + [Digit(n % 10)];
      assert s[..|s| - 1] == ShowNat(n / 10);
    } else {
      assert [Digit(n)][..0] == [];
    }
  }

  lemma DigitsStripped(s: string)
    requires AllDigits(s)
    ensures Strip(s) == s
  {
  }

  lemma ParseShow(n: nat)
    ensures ParseNat(ShowNat(n)) == Some(n)
  {
    ShowNatReads(n);
    DigitsStripped(ShowNat(n));
    hide ShowNat, Strip, ValueOf;
  }

  function ShowSegment(s: Segment): string {
    if s.lo != s.hi then ShowNat(s.lo) + "-" + ShowNat(s.hi) else ShowNat(s.lo)
  }

  function IndexOf(s: string, c: char): (i: nat)
    requires c in s
    ensures i < |s| && s[i] == c && c !in s[..i]
  {
    if s[0] == c then 0
    else
      assert s == [s[0]] + s[1..];
      var i := IndexOf(s[1..], c);
      assert s[..i + 1] == [s[0]] + s[1..][..i];
      i + 1
  }

  lemma IndexOfUnique(s: string, c: char, k: nat)
    requires k < |s| && s[k] == c && c !in s[..k]
    ensures IndexOf(s, c) == k
  {
    hide IndexOf;
    NotIn(s, c, k);
    NotIn(s, c, IndexOf(s, c));
  }

  lemma NotIn(s: string, c: char, n: nat)
    requires n <= |s| && c !in s[..n]
    ensures forall j :: 0 <= j < n ==> s[j] != c
  {
    forall j | 0 <= j < n ensures s[j] != c {
      assert s[..n][j] in s[..n];
    }
  }

  /** The segment that one comma-separated part stands for. */
  function ParsePart(p: string): Option<Segment> {
    if '-' in p then
      var i := IndexOf(p, '-');
      var a, b := ParseNat(p[..i]), ParseNat(p[i + 1..]);
      if a.None? || b.None? then None
      else if a.value > b.value then Some(Segment(b.value, a.value))
      else Some(Segment(a.value, b.value))
    else
      var a := ParseNat(p);
      if a.None? then None else Some(Segment(a.value, a.value))
  }

  lemma ParseShowSegment(s: Segment)
    requires s.lo <= s.hi
    ensures ParsePart(ShowSegment(s)) == Some(s)
    ensures ShowSegment(s) != [] && ',' !in ShowSegment(s) && Strip(ShowSegment(s)) == ShowSegment(s)
  {
    var a, b := ShowNat(s.lo), ShowNat(s.hi);
    ShowNatReads(s.lo);
    ShowNatReads(s.hi);
    ParseShow(s.lo);
    ParseShow(s.hi);
    hide ShowNat, ParseNat, ValueOf, IndexOf;
    if s.lo != s.hi {
      ParseRange(a, b);
      hide AllDigits, Strip;
    } else {
      DigitsStripped(a);
      NotADigit(a);
      hide AllDigits, Strip;
    }
  }

  /** A range may be written from either end. */
  lemma ParseEitherWay(a: nat, b: nat)
    ensures ParsePart(ShowNat(a) + "-" + ShowNat(b)) == Some(if a <= b then Segment(a, b) else Segment(b, a))
  {
    ShowNatReads(a);
    ShowNatReads(b);
    ParseShow(a);
    ParseShow(b);
    ParseRange(ShowNat(a), ShowNat(b));
    hide ShowNat, ParseNat, ValueOf, IndexOf, AllDigits, Strip;
  }

  lemma NotADigit(a: string)
    requires AllDigits(a)
    ensures '-' !in a && ',' !in a
  {
  }

  /** A range is cut at its dash. */
  lemma ParseRange(a: string, b: string)
    requires AllDigits(a) && AllDigits(b) && a != [] && b != []
    ensures var p := a + "-" + b;
            '-' in p && ',' !in p && Strip(p) == p && p[..IndexOf(p, '-')] == a && p[IndexOf(p, '-') + 1..] == b
  {
    var p := a + "-" + b;
    NotADigit(a);
    NotADigit(b);
    assert p[|a|] == '-';
    assert p[..|a|] == a;
    assert p[0] == a[0] && p[|p| - 1] == b[|b| - 1];
    assert Strip(p) == p;
    hide Strip, IndexOf, AllDigits;
    IndexOfUnique(p, '-', |a|);
  }

  // ---- lists of parts ----

  function Join(parts: seq<string>): string {
    if parts == [] then [] else if |parts| == 1 then parts[0] else parts[0] + "," + Join(parts[1..])
  }

  function Split(s: string): seq<string>
    decreases |s|
  {
    if ',' in s then
      var i := IndexOf(s, ',');
      [s[..i]] + Split(s[i + 1..])
    else [s]
  }

  /** Splitting at the commas undoes joining parts that have none. */
  lemma {:induction false} SplitJoin(parts: seq<string>)
    requires parts != [] && forall i :: 0 <= i < |parts| ==> ',' !in parts[i]
    ensures Split(Join(parts)) == parts
  {
    if |parts| > 1 {
      var first, rest := parts[0], Join(parts[1..]);
      var s := first + "," + rest;
      assert s[|first|] == ',';
      assert s[..|first|] == first;
      IndexOfUnique(s, ',', |first|);
      var i := IndexOf(s, ',');
      assert s[..i] == first && s[i + 1..] == rest;
      SplitJoin(parts[1..]);
    }
  }

  function ShowAll(segs: seq<Segment>): seq<string> {
    seq(|segs|, i requires 0 <= i < |segs| => ShowSegment(segs[i]))
  }

  /** The segments of a list of parts; blank parts are skipped, and one bad part fails the whole. */
  function ParseAll(parts: seq<string>): Option<seq<Segment>> {
    if parts == [] then Some([])
    else
      var before := ParseAll(parts[..|parts| - 1]);
      var part := Strip(parts[|parts| - 1]);
      if before.None? then None
      else if part == [] then before
      else
        var seg := ParsePart(part);
        if seg.None? then None else Some(before.value + [seg.value])
  }

  lemma {:induction false} ParseShowAll(segs: seq<Segment>)
    requires NonEmpty(segs)
    ensures ParseAll(ShowAll(segs)) == Some(segs)
  {
    if segs != [] {
      var n := |segs| - 1;
      var front, last := segs[..n], segs[n];
      ParseShowSegment(last);
      ShowAllStep(front, last);
      assert segs == front + [last] && NonEmpty(front);
      hide ParsePart, Strip, ShowSegment, ShowAll, ParseAll;
      ParseShowAll(front);
      ParseStep(ShowAll(front), ShowSegment(last));
    }
  }

  lemma ShowAllStep(segs: seq<Segment>, s: Segment)
    ensures ShowAll(segs + [s]) == ShowAll(segs) + [ShowSegment(s)]
  {
    hide ShowSegment;
  }

  /** One more part is skipped when blank, else parsed. */
  lemma ParseStep(parts: seq<string>, p: string)
    ensures var before, part := ParseAll(parts), Strip(p);
            ParseAll(parts + [p]) ==
            if before.None? then None
            else if part == [] then before
            else if ParsePart(part).None? then None
            else Some(before.value + [ParsePart(part).value])
  {
    assert (parts + [p])[..|parts|] == parts;
    hide ParsePart, Strip;
  }

  /** Reading a printed cpulist gives back its segments. */
  lemma TextRoundTrip(segs: seq<Segment>)
    requires NonEmpty(segs) && segs != []
    ensures ParseAll(Split(Join(ShowAll(segs)))) == Some(segs)
  {
    forall i | 0 <= i < |segs| ensures ',' !in ShowAll(segs)[i] { ParseShowSegment(segs[i]); }
    hide ParseAll, Split, Join, ShowSegment;
    SplitJoin(ShowAll(segs));
    ParseShowAll(segs);
  }

  // ---- printing ----

  /** The segments printed so far, with the open run s..e, hold exactly the cores read so far. */
  ghost predicate Printed(segs: seq<Segment>, s: nat, e: nat, cores: seq<nat>) {
    && s <= e && NonEmpty(segs) && Separated(segs + [Segment(s, e)])
    && Expand(segs) + Cores(Segment(s, e)) == cores
  }

  lemma ExtendRun(segs: seq<Segment>, s: nat, e: nat, cores: seq<nat>)
    requires Printed(segs, s, e, cores)
    ensures Printed(segs, s, e + 1, cores + [e + 1])
  {
    assert Cores(Segment(s, e + 1)) == Cores(Segment(s, e)) + [e + 1];
    assert forall i :: 0 <= i < |segs| ==>
                         (segs + [Segment(s, e + 1)])[i] == (segs + [Segment(s, e)])[i];
    hide Expand, Cores;
    var was, now := segs + [Segment(s, e)], segs + [Segment(s, e + 1)];
    forall i | 0 <= i < |now| - 1 ensures now[i].hi + 1 < now[i + 1].lo {
      assert was[i].hi + 1 < was[i + 1].lo;
    }
  }

  lemma CloseRun(segs: seq<Segment>, s: nat, e: nat, cores: seq<nat>, c: nat)
    requires Printed(segs, s, e, cores) && e + 1 < c
    ensures Printed(segs + [Segment(s, e)], c, c, cores + [c])
  {
    var closed := segs + [Segment(s, e)];
    assert Cores(Segment(c, c)) == [c] && NonEmpty(closed);
    hide Expand, Cores, Separated, NonEmpty;
    ExpandAppend(segs, Segment(s, e));
    SeparatedAppend(closed, Segment(c, c));
  }

  lemma ExpandAppend(segs: seq<Segment>, s: Segment)
    ensures Expand(segs + [s]) == Expand(segs) + Cores(s)
  {
    assert (segs + [s])[..|segs|] == segs;
    hide Cores;
  }

  lemma SeparatedAppend(segs: seq<Segment>, x: Segment)
    requires Separated(segs) && segs != [] && segs[|segs| - 1].hi + 1 < x.lo
    ensures Separated(segs + [x])
  {
    var more := segs + [x];
    forall i | 0 <= i < |more| - 1 ensures more[i].hi + 1 < more[i + 1].lo {
      assert i < |segs| - 1 ==> segs[i].hi + 1 < segs[i + 1].lo;
    }
  }

  /** An ascending list with one more core. */
  function Inserted(sorted: seq<nat>, c: nat): seq<nat> {
    if sorted == [] then [c]
    else
      var last, front := sorted[|sorted| - 1], sorted[..|sorted| - 1];
      if c > last then sorted + [c] else if c == last then sorted else Inserted(front, c) + [last]
  }

  lemma {:induction false} InsertedSorted(sorted: seq<nat>, c: nat)
    requires Ascending(sorted)
    ensures Ascending(Inserted(sorted, c)) && forall x :: x in Inserted(sorted, c) <==> x in sorted || x == c
  {
    if sorted != [] {
      var last, front := sorted[|sorted| - 1], sorted[..|sorted| - 1];
      assert sorted == front + [last] && Ascending(front);
      LastIsLargest(front, last);
      if c > last {
        AppendAscends(sorted, c);
      } else if c < last {
        hide Ascending;
        InsertedSorted(front, c);
        AppendAscends(Inserted(front, c), last);
      }
    }
  }

  lemma LastIsLargest(front: seq<nat>, last: nat)
    requires Ascending(front + [last])
    ensures forall x :: x in front ==> x < last
  {
    var s := front + [last];
    forall x | x in front ensures x < last {
      var i :| 0 <= i < |front| && front[i] == x;
      assert s[i] < s[|front|];
    }
  }

  lemma AppendAscends(s: seq<nat>, x: nat)
    requires Ascending(s) && forall y :: y in s ==> y < x
    ensures Ascending(s + [x])
  {
    assert forall i :: 0 <= i < |s| ==> s[i] in s;
  }

  /** `sorted(set(cores))` */
  function SortedSet(cores: seq<nat>): seq<nat> {
    if cores == [] then [] else Inserted(SortedSet(cores[..|cores| - 1]), cores[|cores| - 1])
  }

  lemma {:induction false} SortedSetSorted(cores: seq<nat>)
    ensures Ascending(SortedSet(cores)) && forall x :: x in SortedSet(cores) <==> x in cores
  {
    if cores != [] {
      var front, last := cores[..|cores| - 1], cores[|cores| - 1];
      assert cores == front + [last];
      SortedSetSorted(front);
      InsertedSorted(SortedSet(front), last);
      hide Inserted, Ascending;
    }
  }

  /** `_to_cpulist_str`: the text of maximal runs, which reads back as the sorted cores, each once. */
  method ToCpuList(cores: seq<nat>) returns (text: Option<string>)
    ensures text.None? <==> cores == []
    ensures text.Some? ==> var parsed := ParseAll(Split(text.value));
                           && parsed.Some? && NonEmpty(parsed.value) && Separated(parsed.value)
                           && Expand(parsed.value) == SortedSet(cores)
                           && Ascending(Expand(parsed.value)) && Elements(Expand(parsed.value)) == Elements(cores)
  {
    if cores == [] {
      return None;
    }
    var sorted := SortedSet(cores);
    SortedSetSorted(cores);
    assert cores[0] in sorted && Elements(sorted) == Elements(cores);
    var segs, s, e := PrintedSegments(sorted);
    hide SortedSet, Ascending;
    var all := segs + [Segment(s, e)];
    assert all[..|segs|] == segs;
    assert Expand(all) == sorted;
    TextRoundTrip(all);
    text := Some(Join(ShowAll(all)));
  }

  /** The loop that collects the runs. */
  method PrintedSegments(cores: seq<nat>) returns (segs: seq<Segment>, s: nat, e: nat)
    requires Ascending(cores) && cores != []
    ensures Printed(segs, s, e, cores)
  {
    segs, s, e := [], cores[0], cores[0];
    assert Printed(segs, s, e, cores[..1]);
    hide Printed;
    for i := 1 to |cores|
      invariant Printed(segs, s, e, cores[..i]) && e == cores[i - 1]
    {
      var c := cores[i];
      assert cores[..i + 1] == cores[..i] + [c];
      if c == e + 1 {
        ExtendRun(segs, s, e, cores[..i]);
        e := c;
      } else {
        CloseRun(segs, s, e, cores[..i], c);
        segs := segs + [Segment(s, e)];
        s, e := c, c;
      }
    }
    assert cores[..|cores|] == cores;
  }

  // ---- worker and store cores ----

  /** How many cores of a segment the worker gets. */
  function WorkerShare(n: nat): nat { if n / 2 > 1 then n / 2 else 1 }

  function WorkerPart(s: Segment): seq<nat> {
    var cores := Cores(s);
    if WorkerShare(|cores|) <= |cores| then cores[..WorkerShare(|cores|)] else cores
  }

  function StorePart(s: Segment): seq<nat> {
    var cores := Cores(s);
    if WorkerShare(|cores|) <= |cores| then cores[WorkerShare(|cores|)..] else []
  }

  function Workers(segs: seq<Segment>): seq<nat> {
    if segs == [] then [] else Workers(segs[..|segs| - 1]) + WorkerPart(segs[|segs| - 1])
  }

  function Stores(segs: seq<Segment>): seq<nat> {
    if segs == [] then [] else Stores(segs[..|segs| - 1]) + StorePart(segs[|segs| - 1])
  }

  lemma PartsOf(s: Segment)
    requires s.lo <= s.hi
    ensures WorkerPart(s) + StorePart(s) == Cores(s) && WorkerPart(s) != [] && WorkerPart(s)[0] == s.lo
    ensures |StorePart(s)| <= |WorkerPart(s)| + 1
  {
  }

  /** Worker and store cores partition the cores. */
  lemma {:induction false} SharesPartition(segs: seq<Segment>)
    requires NonEmpty(segs)
    ensures multiset(Workers(segs)) + multiset(Stores(segs)) == multiset(Expand(segs))
  {
    if segs != [] {
      var front, last := segs[..|segs| - 1], segs[|segs| - 1];
      SharesPartition(front);
      PartsOf(last);
      MergeParts(Workers(front), WorkerPart(last), Stores(front), StorePart(last));
      AppendParts(Expand(front), Cores(last));
      hide WorkerPart, StorePart, Cores, NonEmpty;
    }
  }

  /** Core c of the cores lo..hi goes to the worker: it is the first one, or within the first half. */
  predicate ToWorker(lo: nat, hi: nat, c: int) {
    lo <= c <= hi && (c == lo || 2 * (c - lo + 1) <= hi - lo + 1)
  }

  lemma PartHas(s: Segment, c: nat)
    requires s.lo <= s.hi
    ensures c in WorkerPart(s) <==> ToWorker(s.lo, s.hi, c)
    ensures c in StorePart(s) <==> s.lo <= c <= s.hi && !ToWorker(s.lo, s.hi, c)
  {
    var n, share := s.hi - s.lo + 1, WorkerShare(s.hi - s.lo + 1);
    var cores := Cores(s);
    assert |cores| == n && 1 <= share <= n;
    assert c - s.lo < share <==> c <= s.lo || 2 * (c - s.lo + 1) <= n;
    if s.lo <= c <= s.hi {
      assert cores[c - s.lo] == c;
      assert c - s.lo < share ==> cores[..share][c - s.lo] == c;
      assert c - s.lo >= share ==> cores[share..][c - s.lo - share] == c;
    }
  }

  ghost predicate SomeWorker(segs: seq<Segment>, c: nat) {
    exists i :: 0 <= i < |segs| && ToWorker(segs[i].lo, segs[i].hi, c)
  }

  ghost predicate SomeStore(segs: seq<Segment>, c: nat) {
    exists i :: 0 <= i < |segs| && segs[i].lo <= c <= segs[i].hi && !ToWorker(segs[i].lo, segs[i].hi, c)
  }

  lemma SomeStep(front: seq<Segment>, s: Segment, c: nat)
    ensures SomeWorker(front + [s], c) <==> SomeWorker(front, c) || ToWorker(s.lo, s.hi, c)
    ensures SomeStore(front + [s], c) <==> SomeStore(front, c) || (s.lo <= c <= s.hi && !ToWorker(s.lo, s.hi, c))
  {
    var segs := front + [s];
    assert segs[|front|] == s && forall i :: 0 <= i < |front| ==> segs[i] == front[i];
    hide ToWorker;
  }

  /** The worker has of each segment its first core and otherwise those of its first half, the store the others. */
  lemma {:induction false} SharesHave(segs: seq<Segment>, c: nat)
    requires NonEmpty(segs)
    ensures c in Workers(segs) <==> SomeWorker(segs, c)
    ensures c in Stores(segs) <==> SomeStore(segs, c)
  {
    if segs != [] {
      var front, last := segs[..|segs| - 1], segs[|segs| - 1];
      assert segs == front + [last] && NonEmpty(front);
      PartHas(last, c);
      SharesStep(front, last);
      hide *;
      SharesHave(front, c);
      SomeStep(front, last, c);
    }
  }

  lemma AppendParts(a: seq<nat>, b: seq<nat>)
    ensures multiset(a + b) == multiset(a) + multiset(b)
  {
  }

  lemma MergeParts(w: seq<nat>, w': seq<nat>, s: seq<nat>, s': seq<nat>)
    ensures multiset(w + w') + multiset(s + s') == (multiset(w) + multiset(s)) + multiset(w' + s')
  {
  }

  /** The worker has the first core of every segment. */
  lemma {:induction false} WorkerInEverySegment(segs: seq<Segment>, i: nat)
    requires NonEmpty(segs) && i < |segs|
    ensures segs[i].lo in Workers(segs)
  {
    var n := |segs| - 1;
    var front, last := segs[..n], segs[n];
    PartsOf(last);
    assert last.lo in WorkerPart(last);
    assert NonEmpty(front);
    hide WorkerPart, NonEmpty;
    if i < n {
      WorkerInEverySegment(front, i);
      assert front[i] == segs[i];
    }
  }

  /** What the worker and the store get from the segments read; nothing when the text cannot be read, and the allowed
      cores when there are none in it. */
  ghost predicate Divided(segs: Option<seq<Segment>>, allowed: seq<nat>, worker: seq<nat>, store: seq<nat>) {
    if segs.None? then worker == [] && store == []
    else if Workers(segs.value) != [] then worker == Workers(segs.value) && store == Stores(segs.value)
    else if allowed != [] then worker == [allowed[0]] && store == allowed[1..]
    else worker == [] && store == Stores(segs.value)
  }

  /** `split_cores`: reads a cpulist and divides every segment. */
  method SplitCores(affinity: string, allowed: seq<nat>) returns (worker: seq<nat>, store: seq<nat>)
    ensures Divided(if affinity == [] then None else ParseAll(Split(affinity)), allowed, worker, store)
  {
    hide ParsePart, Strip, Split, ParseAll, Workers, Stores;
    worker, store := [], [];
    if affinity == [] {
      return;
    }
    var read;
    ghost var segs;
    read, worker, store, segs := ReadShares(Split(affinity));
    if !read {
      return [], [];
    }
    if worker == [] {
      if allowed != [] {
        worker, store := [allowed[0]], allowed[1..];
      }
    }
  }

  /** Printing the cores and dividing what was printed: every core goes to the worker or to the store, once, and of
      every run of consecutive cores the worker has the first core and otherwise those of the first half. */
  method SplitPrinted(cores: seq<nat>, allowed: seq<nat>) returns (worker: seq<nat>, store: seq<nat>)
    requires cores != []
    ensures Ascending(SortedSet(cores)) && Elements(SortedSet(cores)) == Elements(cores)
    ensures multiset(worker) + multiset(store) == multiset(SortedSet(cores))
    ensures forall lo: nat, hi: nat, c: nat :: IsRun(cores, lo, hi) && lo <= c <= hi ==>
                                  (c in worker <==> ToWorker(lo, hi, c)) && (c in store <==> !ToWorker(lo, hi, c))
  {
    hide *;
    var text := ToCpuList(cores);
    worker, store := SplitCores(text.value, allowed);
    ghost var segs := ParseAll(Split(text.value)).value;
    PrintedHasCores(text.value, segs, cores);
    SharesPartition(segs);
    DividedShares(segs, allowed, worker, store);
    RunsShared(segs, cores);
  }

  /** The cores lo..hi are among the cores, and neither the one before nor the one after. */
  ghost predicate IsRun(cores: seq<nat>, lo: nat, hi: nat) {
    && lo <= hi && (forall c: nat :: lo <= c <= hi ==> c in cores)
    && (lo == 0 || lo - 1 !in cores) && hi + 1 !in cores
  }

  lemma RunsShared(segs: seq<Segment>, cores: seq<nat>)
    requires NonEmpty(segs) && Separated(segs) && Elements(Expand(segs)) == Elements(cores)
    ensures forall lo: nat, hi: nat, c: nat :: IsRun(cores, lo, hi) && lo <= c <= hi ==>
                                  && (c in Workers(segs) <==> ToWorker(lo, hi, c))
                                  && (c in Stores(segs) <==> !ToWorker(lo, hi, c))
  {
    forall x ensures x in cores <==> x in Expand(segs) {
      assert x in Elements(cores) <==> x in Elements(Expand(segs));
    }
    hide *;
    forall lo: nat, hi: nat, c: nat | IsRun(cores, lo, hi) && lo <= c <= hi
      ensures c in Workers(segs) <==> ToWorker(lo, hi, c)
      ensures c in Stores(segs) <==> !ToWorker(lo, hi, c)
    {
      RunIsSegment(segs, cores, lo, hi, c);
      SharesHave(segs, c);
    }
  }

  /** A core of a run lies in one segment, and that is the run. */
  lemma RunIsSegment(segs: seq<Segment>, cores: seq<nat>, lo: nat, hi: nat, c: nat)
    requires NonEmpty(segs) && Separated(segs) && (forall x: nat :: x in cores <==> x in Expand(segs))
    requires IsRun(cores, lo, hi) && lo <= c <= hi
    ensures exists i :: 0 <= i < |segs| && segs[i] == Segment(lo, hi)
    ensures forall j :: 0 <= j < |segs| && segs[j].lo <= c <= segs[j].hi ==> segs[j] == Segment(lo, hi)
  {
    hide Expand, NonEmpty, Separated;
    var i := SegmentOf(segs, lo);
    SegmentEnds(segs, i);
    InSegments(segs, i);
    assert segs[i].lo == lo;
    assert segs[i].hi == hi;
    forall j | 0 <= j < |segs| && segs[j].lo <= c <= segs[j].hi ensures segs[j] == Segment(lo, hi) {
      SegmentsApart(segs, i, j);
    }
  }

  lemma InSegments(segs: seq<Segment>, i: nat)
    requires i < |segs|
    ensures forall c: nat :: segs[i].lo <= c <= segs[i].hi ==> c in Expand(segs)
  {
    forall c: nat | segs[i].lo <= c <= segs[i].hi ensures c in Expand(segs) {
      InSegment(segs, i, c);
    }
  }

  /** The core after a segment is in no segment. */
  lemma SegmentEnds(segs: seq<Segment>, i: nat)
    requires NonEmpty(segs) && Separated(segs) && i < |segs|
    ensures segs[i].hi + 1 !in Expand(segs)
  {
    hide Expand;
    if segs[i].hi + 1 in Expand(segs) {
      var j := SegmentOf(segs, segs[i].hi + 1);
      SegmentsApart(segs, i, j);
    }
  }

  lemma SegmentsApart(segs: seq<Segment>, i: nat, j: nat)
    requires NonEmpty(segs) && Separated(segs) && i < |segs| && j < |segs|
    ensures i < j ==> segs[i].hi + 1 < segs[j].lo
    ensures j < i ==> segs[j].hi + 1 < segs[i].lo
  {
    if i < j {
      SegmentBefore(segs, i, j);
    } else if j < i {
      SegmentBefore(segs, j, i);
    }
  }

  lemma {:induction false} SegmentBefore(segs: seq<Segment>, i: nat, j: nat)
    requires NonEmpty(segs) && Separated(segs) && i < j < |segs|
    ensures segs[i].hi + 1 < segs[j].lo
    decreases j
  {
    if i + 1 < j {
      SegmentBefore(segs, i, j - 1);
    }
    assert segs[j - 1].hi + 1 < segs[j - 1 + 1].lo;
  }

  lemma PrintedHasCores(text: string, segs: seq<Segment>, cores: seq<nat>)
    requires ParseAll(Split(text)) == Some(segs) && NonEmpty(segs) && cores != []
    requires Elements(Expand(segs)) == Elements(cores)
    ensures text != [] && segs != [] && Workers(segs) != []
  {
    assert cores[0] in Elements(cores);
    assert segs != [];
    WorkerInEverySegment(segs, 0);
    BlankHasNone();
  }

  lemma BlankHasNone()
    ensures ParseAll(Split("")) == Some([])
  {
    var parts := Split("");
    assert parts == [""] && parts[..0] == [] && Strip("") == "";
  }

  lemma DividedShares(segs: seq<Segment>, allowed: seq<nat>, worker: seq<nat>, store: seq<nat>)
    requires Divided(Some(segs), allowed, worker, store) && Workers(segs) != []
    ensures worker == Workers(segs) && store == Stores(segs)
  {
    hide Workers, Stores;
  }

  lemma {:induction false} SegmentOf(segs: seq<Segment>, c: nat) returns (i: nat)
    requires c in Expand(segs)
    ensures i < |segs| && segs[i].lo <= c <= segs[i].hi
  {
    var n := |segs| - 1;
    if c in Cores(segs[n]) {
      i := n;
    } else {
      i := SegmentOf(segs[..n], c);
    }
  }

  lemma {:induction false} InSegment(segs: seq<Segment>, i: nat, c: nat)
    requires i < |segs| && segs[i].lo <= c <= segs[i].hi
    ensures c in Expand(segs)
  {
    var n := |segs| - 1;
    if i == n {
      assert Cores(segs[n])[c - segs[n].lo] == c;
    } else {
      InSegment(segs[..n], i, c);
    }
  }

  /** The parts read so far, and the cores they gave. */
  ghost predicate SharesRead(parts: seq<string>, segs: seq<Segment>, worker: seq<nat>, store: seq<nat>) {
    ParseAll(parts) == Some(segs) && worker == Workers(segs) && store == Stores(segs)
  }

  /** The loop over the parts, which stops at the first one that cannot be read. */
  method ReadShares(parts: seq<string>)
    returns (read: bool, worker: seq<nat>, store: seq<nat>, ghost segs: seq<Segment>)
    ensures if read then SharesRead(parts, segs, worker, store) else ParseAll(parts).None?
  {
    read, worker, store, segs := true, [], [], [];
    assert SharesRead([], segs, worker, store);
    assert parts[..0] == [] && parts[..|parts|] == parts;
    hide *;
    for i := 0 to |parts|
      invariant read && SharesRead(parts[..i], segs, worker, store)
    {
      assert parts[..i + 1] == parts[..i] + [parts[i]];
      SharesReadStep(parts[..i], parts[i], segs, worker, store);
      var part := Strip(parts[i]);
      if part != [] {
        var parsed := ParsePart(part);
        if parsed.None? {
          FailsForGood(parts, i + 1);
          read := false;
          return;
        }
        worker, store := worker + WorkerPart(parsed.value), store + StorePart(parsed.value);
        segs := segs + [parsed.value];
      }
    }
  }

  lemma SharesReadStep(parts: seq<string>, p: string, segs: seq<Segment>, worker: seq<nat>, store: seq<nat>)
    requires SharesRead(parts, segs, worker, store)
    ensures Strip(p) == [] ==> SharesRead(parts + [p], segs, worker, store)
    ensures Strip(p) != [] && ParsePart(Strip(p)).None? ==> ParseAll(parts + [p]).None?
    ensures Strip(p) != [] && ParsePart(Strip(p)).Some? ==>
              var s := ParsePart(Strip(p)).value;
              SharesRead(parts + [p], segs + [s], worker + WorkerPart(s), store + StorePart(s))
  {
    hide ParsePart, Strip, WorkerPart, StorePart, ParseAll, Workers, Stores;
    ParseStep(parts, p);
    if Strip(p) != [] && ParsePart(Strip(p)).Some? {
      SharesStep(segs, ParsePart(Strip(p)).value);
    }
  }

  lemma SharesStep(segs: seq<Segment>, s: Segment)
    ensures Workers(segs + [s]) == Workers(segs) + WorkerPart(s) && Stores(segs + [s]) == Stores(segs) + StorePart(s)
  {
    assert (segs + [s])[..|segs|] == segs;
    hide WorkerPart, StorePart;
  }

  lemma {:induction false} FailsForGood(parts: seq<string>, i: nat)
    requires i <= |parts| && ParseAll(parts[..i]).None?
    ensures ParseAll(parts).None?
    decreases |parts|
  {
    if i == |parts| {
      assert parts[..i] == parts;
    } else {
      assert parts[..|parts| - 1][..i] == parts[..i];
      FailsForGood(parts[..|parts| - 1], i);
    }
  }

  // ---- the fallback slices ----

  /** Where the slice of a rank starts; with rank = ranks, where the last one ends. */
  function SliceStart(total: nat, ranks: nat, rank: nat): nat
    requires ranks > 0
  {
    var base, extra := total / ranks, total % ranks;
    Span(rank, base) + if rank < extra then rank else extra
  }

  function SliceLength(total: nat, ranks: nat, rank: nat): nat
    requires ranks > 0
  {
    total / ranks + if rank < total % ranks then 1 else 0
  }

  /** The slices of consecutive ranks adjoin, the first starts at 0, the last ends at the number of cores, and no two
      differ by more than one core, the earlier ones being the longer. */
  lemma SlicesPartition(total: nat, ranks: nat, rank: nat, other: nat)
    requires rank < ranks && other < ranks
    ensures SliceStart(total, ranks, 0) == 0 && SliceStart(total, ranks, ranks) == total
    ensures SliceStart(total, ranks, rank) + SliceLength(total, ranks, rank) == SliceStart(total, ranks, rank + 1)
    ensures SliceLength(total, ranks, rank) <= SliceLength(total, ranks, other) + 1
    ensures rank <= other ==> SliceLength(total, ranks, other) <= SliceLength(total, ranks, rank)
  {
    var base, extra := total / ranks, total % ranks;
    assert total == ranks * base + extra;
    assert (rank + 1) * base == rank * base + base;
  }

  lemma {:induction false} SliceStartsAscend(total: nat, ranks: nat, a: nat, b: nat)
    requires ranks > 0 && a <= b <= ranks
    ensures SliceStart(total, ranks, a) <= SliceStart(total, ranks, b)
    decreases b
  {
    hide SliceStart, SliceLength;
    if a < b {
      SliceStartsAscend(total, ranks, a, b - 1);
      SlicesPartition(total, ranks, b - 1, b - 1);
    }
  }

  ghost predicate InSlice(total: nat, ranks: nat, rank: nat, i: nat)
    requires ranks > 0
  {
    SliceStart(total, ranks, rank) <= i < SliceStart(total, ranks, rank) + SliceLength(total, ranks, rank)
  }

  /** Every allowed core is in the slice of exactly one rank. */
  lemma OneSliceEach(total: nat, ranks: nat, i: nat) returns (owner: nat)
    requires ranks > 0 && i < total
    ensures owner < ranks && InSlice(total, ranks, owner, i)
    ensures forall rank :: 0 <= rank < ranks && InSlice(total, ranks, rank, i) ==> rank == owner
  {
    owner := 0;
    SlicesPartition(total, ranks, 0, 0);
    hide SliceStart, SliceLength;
    while SliceStart(total, ranks, owner + 1) <= i
      invariant owner < ranks && SliceStart(total, ranks, owner) <= i < SliceStart(total, ranks, ranks)
      decreases ranks - owner
    {
      owner := owner + 1;
    }
    SlicesPartition(total, ranks, owner, 0);
    forall rank | 0 <= rank < ranks && InSlice(total, ranks, rank, i) ensures rank == owner {
      SlicesPartition(total, ranks, rank, 0);
      if rank < owner {
        SliceStartsAscend(total, ranks, rank + 1, owner);
      } else if rank > owner {
        SliceStartsAscend(total, ranks, owner + 1, rank);
      }
    }
  }
}
