/** The asynchronous retrieval of the multi-step sparse attention: the queries of one stride of decode steps are handed
    to a retrieval task at its last step, and the task's result is loaded one stride later. */
module KvStarPipeline {
  import opened Residues
  import opened Options

  /** A query vector, known by the prompt token or the decode step it was computed for. */
  datatype Query = OfPrompt(token: int) | OfStep(step: nat)

  /** The blocks a retrieval selects: none, or the retrieval library's answer to a query group. */
  datatype Hashes = NoBlocks | Answer(queries: seq<Query>)

  /** The names of the query groups: the prompt's, and the one that starts at a decode step. */
  datatype Record = Prefill | Decode(first: int)

  // ---- which prompt tokens go to which slot ----

  /** The slots that the last queries of a prompt chunk go to, for a chunk of n tokens after c computed ones. */
  function OffloadSlots(prompt: nat, stride: nat, c: nat, n: nat): seq<int> {
    if c + n < prompt - stride then []
    else
      var to := stride - (prompt - (c + n));
      var from := to - Min(to, n);
      seq(to - from, i requires 0 <= i < to - from => from + i)
  }

  /** Slot i is written by exactly the chunk that holds the prompt token `stride - i` before the end. */
  lemma OffloadSlotsExact(prompt: nat, stride: nat, c: nat, n: nat, i: int)
    requires c + n <= prompt
    ensures i in OffloadSlots(prompt, stride, c, n) <==> 0 <= i < stride && c <= prompt - stride + i < c + n
  {
    var s := OffloadSlots(prompt, stride, c, n);
    if 0 <= i < stride && c <= prompt - stride + i < c + n {
      assert s[i - s[0]] == i;
    }
  }

  /** Two different chunks of a prompt never write the same slot. */
  lemma SlotWrittenOnce(prompt: nat, stride: nat, c: nat, n: nat, c': nat, n': nat, i: int)
    requires c + n <= c' && c' + n' <= prompt
    ensures !(i in OffloadSlots(prompt, stride, c, n) && i in OffloadSlots(prompt, stride, c', n'))
  {
    hide OffloadSlots;
    OffloadSlotsExact(prompt, stride, c, n, i);
    OffloadSlotsExact(prompt, stride, c', n', i);
  }

  // ---- the groups ----

  /** The name of the g-th group of decode steps. */
  ghost function Rec(stride: nat, g: nat): Record { Decode(Span(stride, g) + 1) }

  lemma RecInjective(stride: nat, g: nat, h: nat)
    requires stride > 0 && g < h
    ensures Rec(stride, g) != Rec(stride, h)
  {
    hide Span;
    SpanMonotone(stride, g, h);
  }

  ghost function Recs(stride: nat, from: nat, to: nat): set<Record> {
    set g | from <= g < to :: Rec(stride, g)
  }

  lemma RecsGrow(stride: nat, from: nat, to: nat)
    requires stride > 0 && from <= to
    ensures Rec(stride, to) !in Recs(stride, from, to) && Prefill !in Recs(stride, from, to)
    ensures Recs(stride, from, to + 1) == Recs(stride, from, to) + {Rec(stride, to)}
  {
    forall g | from <= g < to ensures Rec(stride, g) != Rec(stride, to) { RecInjective(stride, g, to); }
  }

  lemma RecsShrink(stride: nat, from: nat, to: nat)
    requires stride > 0 && from < to
    ensures Rec(stride, from) in Recs(stride, from, to)
    ensures Recs(stride, from + 1, to) == Recs(stride, from, to) - {Rec(stride, from)}
  {
    forall g | from < g < to ensures Rec(stride, g) != Rec(stride, from) { RecInjective(stride, from, g); }
  }

  /** A window of groups has as many members as it is wide. */
  lemma {:induction false} RecsCount(stride: nat, from: nat, to: nat)
    requires stride > 0 && from <= to
    ensures |Recs(stride, from, to)| == to - from
  {
    if from == to {
      assert Recs(stride, from, to) == {};
    } else {
      var before, last := Recs(stride, from, to - 1), Rec(stride, to - 1);
      RecsGrow(stride, from, to - 1);
      hide *;
      RecsCount(stride, from, to - 1);
      OneMore(before, last);
    }
  }

  lemma OneMore(s: set<Record>, x: Record)
    requires x !in s
    ensures |s + {x}| == |s| + 1
  {
  }

  /** The queries a group's slots hold after step t. */
  ghost function Slots(stride: nat, g: nat, t: nat): seq<Option<Query>> {
    seq(stride, i requires 0 <= i < stride =>
      if Span(stride, g) + 1 + i <= t then Some(OfStep(Span(stride, g) + 1 + i)) else None)
  }

  /** The queries of the stride steps of group g, in order. */
  ghost function GroupQueries(stride: nat, g: nat): seq<Query> {
    seq(stride, i requires 0 <= i < stride => OfStep(Span(stride, g) + 1 + i))
  }

  function Present(slots: seq<Option<Query>>): seq<Query> {
    if slots == [] then []
    else Present(slots[..|slots| - 1]) + match slots[|slots| - 1] case None => [] case Some(x) => [x]
  }

  lemma {:induction false} PresentTail(slots: seq<Option<Query>>, qs: seq<Query>, from: nat)
    requires |slots| == from + |qs|
    requires forall i :: 0 <= i < |slots| ==> slots[i] == if i < from then None else Some(qs[i - from])
    ensures Present(slots) == qs
  {
    if slots != [] {
      if |qs| > 0 {
        PresentTail(slots[..|slots| - 1], qs[..|qs| - 1], from);
      } else {
        PresentTail(slots[..|slots| - 1], qs, from - 1);
      }
    }
  }

  /** A group whose steps are all over is retrieved with exactly its queries. */
  lemma FullGroup(stride: nat, g: nat, t: nat)
    requires Span(stride, g + 1) <= t
    ensures Present(Slots(stride, g, t)) == GroupQueries(stride, g)
  {
    SpanStep(stride, g);
    hide Span, Present;
    PresentTail(Slots(stride, g, t), GroupQueries(stride, g), 0);
  }

  /** The position of a step in its stride. */
  function Phase(stride: nat, t: nat): (r: nat)
    requires stride > 0
    ensures r < stride
  {
    t % stride
  }

  /** The groups started by step t. */
  function Started(stride: nat, t: nat): nat
    requires stride > 0
  {
    CeilDiv(t, stride)
  }

  lemma StepPosition(stride: nat, t: nat)
    requires stride >= 2 && t >= 1
    ensures var g := WholeBlocks(stride, t - 1);
            && t - 1 == Span(stride, g) + Phase(stride, t - 1)
            && Started(stride, t) == g + 1
            && Started(stride, t - 1) == (if Phase(stride, t - 1) == 0 then g else g + 1)
            && WholeBlocks(stride, t) == (if Phase(stride, t) == 0 then g + 1 else g)
            && (Phase(stride, t) == 0 <==> t == Span(stride, g + 1))
            && (Phase(stride, t) == 1 <==> Phase(stride, t - 1) == 0)
            && (Phase(stride, t) == 0 ==> Phase(stride, t - 1) == stride - 1)
            && (t == 1 ==> g == 0)
  {
    var g, r := (t - 1) / stride, (t - 1) % stride;
    assert t - 1 == stride * g + r;
    assert stride * (g + 1) == stride * g + stride;
    if r + 1 < stride {
      QuotientUnique(t, stride, g, r + 1);
    } else {
      QuotientUnique(t, stride, g + 1, 0);
    }
    QuotientUnique(t + stride - 1, stride, g + 1, r);
    if r == 0 {
      QuotientUnique(t - 1 + stride - 1, stride, g, stride - 1);
    } else {
      QuotientUnique(t - 1 + stride - 1, stride, g + 1, r - 1);
    }
    if t == 1 {
      QuotientUnique(0, stride, 0, 0);
    }
  }

  /** A retrieval handed to the thread pool: its query group. */
  datatype Task = Task(queries: seq<Query>)

  // ---- the state after step t, when the first c groups have been loaded ----

  /** The groups started and not loaded are on standby with the queries of their steps so far. */
  ghost predicate OnStandby(stride: nat, standby: map<Record, seq<Option<Query>>>,
                            t: nat, c: nat, prefill: set<Record>)
    requires stride > 0
  {
    && standby.Keys == Recs(stride, c, Started(stride, t)) + prefill
    && forall g :: c <= g < Started(stride, t) ==>
                     Rec(stride, g) in standby && standby[Rec(stride, g)] == Slots(stride, g, t)
  }

  /** The finished groups that are not loaded are being retrieved. */
  ghost predicate Retrieving(stride: nat, groups: map<Record, seq<Query>>,
                             full: nat, c: nat, prefill: set<Record>) {
    && groups.Keys == Recs(stride, c, full) + prefill
    && forall g :: c <= g < full ==> Rec(stride, g) in groups && groups[Rec(stride, g)] == GroupQueries(stride, g)
  }

  /** Each finished group was submitted at its last step. */
  ghost predicate Submitted(stride: nat, waiter: map<Record, Task>, at: map<Record, nat>,
                            full: nat, prefill: set<Record>) {
    && waiter.Keys == Recs(stride, 0, full) + prefill && at.Keys == waiter.Keys
    && forall g :: 0 <= g < full ==>
                     && Rec(stride, g) in waiter && waiter[Rec(stride, g)] == Task(GroupQueries(stride, g))
                     && at[Rec(stride, g)] == Span(stride, g + 1)
  }

  /** Each loaded group has the library's answer to its queries. */
  ghost predicate Loaded(stride: nat, results: map<Record, Hashes>,
                         c: nat, prefill: set<Record>) {
    && results.Keys == Recs(stride, 0, c) + prefill
    && forall g :: 0 <= g < c ==>
                     Rec(stride, g) in results && results[Rec(stride, g)] == Answer(GroupQueries(stride, g))
  }

  function TableOf(stride: nat, standby: map<Record, seq<Option<Query>>>, name: Record): seq<Option<Query>> {
    if name in standby then standby[name] else seq(stride, _ => None)
  }

  lemma SlotsStep(stride: nat, g: nat, t: nat)
    requires stride >= 2 && t >= 1
    ensures g < WholeBlocks(stride, t - 1) ==> Slots(stride, g, t) == Slots(stride, g, t - 1)
    ensures g == WholeBlocks(stride, t - 1) ==>
              Slots(stride, g, t) == Slots(stride, g, t - 1)[Phase(stride, t - 1) := Some(OfStep(t))]
    ensures g == WholeBlocks(stride, t - 1) && Phase(stride, t - 1) == 0 ==>
              Slots(stride, g, t - 1) == seq(stride, _ => None)
  {
    StepPosition(stride, t);
    var g' := WholeBlocks(stride, t - 1);
    if g < g' {
      SpanStep(stride, g);
      SpanMonotone(stride, g + 1, g');
    }
    hide Span, WholeBlocks, Started, Phase;
  }

  /** Saving the query of step t in the slot of its step. */
  lemma SaveKeeps(stride: nat, standby: map<Record, seq<Option<Query>>>,
                  t: nat, c: nat, prefill: set<Record>)
    requires stride >= 2 && t >= 1 && prefill <= {Prefill} && c <= WholeBlocks(stride, t - 1)
    requires OnStandby(stride, standby, t - 1, c, prefill)
    ensures var g := WholeBlocks(stride, t - 1);
            var table := TableOf(stride, standby, Rec(stride, g));
            && |table| == stride
            && OnStandby(stride, standby[Rec(stride, g) := table[Phase(stride, t - 1) := Some(OfStep(t))]], t, c,
                         prefill)
  {
    var g := WholeBlocks(stride, t - 1);
    var s0, s1 := Started(stride, t - 1), Started(stride, t);
    StepPosition(stride, t);
    forall h | c <= h <= g { SlotsStep(stride, h, t); }
    forall h | c <= h < g ensures Rec(stride, h) != Rec(stride, g) { RecInjective(stride, h, g); }
    RecsGrow(stride, c, g);
    RecsGrow(stride, c, g + 1);
    hide Span, WholeBlocks, Started, Slots, Rec, Recs, Phase;
    var table := TableOf(stride, standby, Rec(stride, g));
    assert table == Slots(stride, g, t - 1);
  }

  /** The group that step t completes is submitted with exactly its queries. */
  lemma SubmitKeeps(stride: nat, standby: map<Record, seq<Option<Query>>>,
                    groups: map<Record, seq<Query>>, waiter: map<Record, Task>, at: map<Record, nat>,
                    t: nat, c: nat, prefill: set<Record>)
    requires stride >= 2 && t >= 1 && prefill <= {Prefill} && Phase(stride, t) == 0 && c <= WholeBlocks(stride, t - 1)
    requires OnStandby(stride, standby, t, c, prefill)
    requires Retrieving(stride, groups, WholeBlocks(stride, t - 1), c, {})
    requires Submitted(stride, waiter, at, WholeBlocks(stride, t - 1), {Prefill})
    ensures var name := Rec(stride, WholeBlocks(stride, t - 1));
            && name in standby
            && Retrieving(stride, groups[name := Present(standby[name])], WholeBlocks(stride, t), c, {})
            && Submitted(stride, waiter[name := Task(Present(standby[name]))], at[name := t],
                         WholeBlocks(stride, t), {Prefill})
  {
    var g := WholeBlocks(stride, t - 1);
    StepPosition(stride, t);
    FullGroup(stride, g, t);
    hide Span, WholeBlocks, Started, Slots, Rec, Recs, Present, GroupQueries, Retrieving, Submitted, Phase;
    RetrievingMore(stride, groups, g, c);
    SubmittedMore(stride, waiter, at, g);
  }

  lemma RetrievingMore(stride: nat, groups: map<Record, seq<Query>>, full: nat, c: nat)
    requires stride > 0 && c <= full && Retrieving(stride, groups, full, c, {})
    ensures Retrieving(stride, groups[Rec(stride, full) := GroupQueries(stride, full)], full + 1, c, {})
  {
    forall h | c <= h < full ensures Rec(stride, h) != Rec(stride, full) { RecInjective(stride, h, full); }
    RecsGrow(stride, c, full);
    hide Rec, Recs, GroupQueries;
  }

  lemma SubmittedMore(stride: nat, waiter: map<Record, Task>, at: map<Record, nat>, full: nat)
    requires stride > 0 && Submitted(stride, waiter, at, full, {Prefill})
    ensures Submitted(stride, waiter[Rec(stride, full) := Task(GroupQueries(stride, full))],
                      at[Rec(stride, full) := Span(stride, full + 1)], full + 1, {Prefill})
  {
    forall h | 0 <= h < full ensures Rec(stride, h) != Rec(stride, full) { RecInjective(stride, h, full); }
    RecsGrow(stride, 0, full);
    hide Rec, Recs, GroupQueries, Span;
  }

  /** Loading the oldest group takes it off standby and records the answer to its queries. */
  lemma LoadKeeps(stride: nat,
                  standby: map<Record, seq<Option<Query>>>, groups: map<Record, seq<Query>>,
                  results: map<Record, Hashes>, t: nat, full: nat, c: nat)
    requires stride >= 2 && c < full <= Started(stride, t)
    requires OnStandby(stride, standby, t, c, {}) && Retrieving(stride, groups, full, c, {})
    requires Loaded(stride, results, c, {Prefill})
    ensures var name := Rec(stride, c);
            && name !in results && name in standby && name in groups
            && OnStandby(stride, standby - {name}, t, c + 1, {})
            && Retrieving(stride, groups - {name}, full, c + 1, {})
            && Loaded(stride, results[name := Answer(GroupQueries(stride, c))], c + 1, {Prefill})
  {
    hide Started, Rec, Recs, GroupQueries, Retrieving, OnStandby, Loaded;
    StandbyLess(stride, standby, t, c);
    RetrievingLess(stride, groups, full, c);
    LoadedMore(stride, results, c);
  }

  lemma StandbyLess(stride: nat, standby: map<Record, seq<Option<Query>>>, t: nat, c: nat)
    requires stride > 0 && c < Started(stride, t) && OnStandby(stride, standby, t, c, {})
    ensures Rec(stride, c) in standby && OnStandby(stride, standby - {Rec(stride, c)}, t, c + 1, {})
  {
    RecsShrink(stride, c, Started(stride, t));
    forall h | c < h ensures Rec(stride, h) != Rec(stride, c) { RecInjective(stride, c, h); }
    hide Started, Rec, Recs, Slots;
  }

  lemma RetrievingLess(stride: nat, groups: map<Record, seq<Query>>, full: nat, c: nat)
    requires stride > 0 && c < full && Retrieving(stride, groups, full, c, {})
    ensures Rec(stride, c) in groups && Retrieving(stride, groups - {Rec(stride, c)}, full, c + 1, {})
  {
    RecsShrink(stride, c, full);
    forall h | c < h ensures Rec(stride, h) != Rec(stride, c) { RecInjective(stride, c, h); }
    hide Rec, Recs, GroupQueries;
  }

  lemma LoadedMore(stride: nat, results: map<Record, Hashes>, c: nat)
    requires stride > 0 && Loaded(stride, results, c, {Prefill})
    ensures Rec(stride, c) !in results
    ensures Loaded(stride, results[Rec(stride, c) := Answer(GroupQueries(stride, c))], c + 1, {Prefill})
  {
    RecsGrow(stride, 0, c);
    forall h | 0 <= h < c ensures Rec(stride, h) != Rec(stride, c) { RecInjective(stride, h, c); }
    assert Rec(stride, c) != Prefill;
    hide Rec, Recs, GroupQueries;
  }

  /** A record submitted at a step is loaded for the first time. */
  ghost predicate FirstLoad(name: Record, at: map<Record, nat>, step: int,
                            before: map<Record, Hashes>, after: map<Record, Hashes>) {
    name in at && at[name] == step && name !in before && name in after && after == before[name := after[name]]
  }

  lemma FirstLoadAt(name: Record, at: map<Record, nat>, step: int, before: map<Record, Hashes>,
                    after: map<Record, Hashes>)
    requires FirstLoad(name, at, step, before, after)
    ensures name in at && at[name] == step && name !in before && name in after && before.Keys <= after.Keys
  {
  }

  /** `get_retrieve_record` */
  function RetrieveRecord(stride: nat, step: nat): Record {
    if step == 1 then Prefill else Decode(step - stride)
  }

  /** The record whose result is loaded for a step. */
  function NeededRecord(stride: nat, step: nat): Record
    requires stride > 0
  {
    if step <= stride * 2 then Prefill else Decode((CeilDiv(step, stride) - 3) * stride + 1)
  }

  /** `get_decode_step_record` */
  function StepRecord(stride: nat, step: nat): Record
    requires stride > 0 && step >= 1
  {
    Decode(((step - 1) / stride) * stride + 1)
  }

  /** The three names agree: a step writes the group it belongs to, the last step of a group submits that group, and the
      record then loaded is the group before it. */
  lemma RecordsAgree(stride: nat, t: nat)
    requires stride >= 2 && t >= 1
    ensures var g := WholeBlocks(stride, t - 1);
            && StepRecord(stride, t) == Rec(stride, g)
            && (Phase(stride, t) == 0 ==> RetrieveRecord(stride, t + 1) == Rec(stride, g))
            && (Phase(stride, t) == 0 && t >= 2 * stride ==>
                  g >= 1 && NeededRecord(stride, t + 1) == Rec(stride, g - 1))
  {
    var g := WholeBlocks(stride, t - 1);
    StepGroup(stride, t);
    hide StepRecord, NeededRecord, WholeBlocks, Span, Phase;
    StepPosition(stride, t);
    SpanStep(stride, g);
    if Phase(stride, t) == 0 && t >= 2 * stride {
      SpanStep(stride, 0);
      NeededGroup(stride, g);
    }
  }

  lemma StepGroup(stride: nat, t: nat)
    requires stride > 0 && t >= 1
    ensures StepRecord(stride, t) == Rec(stride, WholeBlocks(stride, t - 1))
  {
  }

  /** After the last step of group g the record needed is that of the group before it. */
  lemma NeededGroup(stride: nat, g: nat)
    requires stride > 0 && g >= 1
    ensures NeededRecord(stride, Span(stride, g + 1) + 1) == Rec(stride, g - 1)
  {
    var step := Span(stride, g + 1) + 1;
    MulMonotone(stride, 2, g + 1);
    assert step > stride * 2;
    MulPlus(stride, g + 1, 1);
    QuotientUnique(step + stride - 1, stride, g + 2, 0);
    assert CeilDiv(step, stride) == g + 2;
  }

  // ---- the steps on the state as a value ----

  /** What a request keeps per layer: the query groups on standby, the ones handed to the library, the results, the
      library's tasks with the step each was submitted at, and the transfers not yet waited for. */
  datatype Pipeline = Pipeline(standby: map<Record, seq<Option<Query>>>, doRetrieve: map<Record, seq<Query>>,
                               results: map<Record, Hashes>, waiter: map<Record, Task>,
                               submittedAt: map<Record, nat>, pending: nat)

  function SaveQuery(p: Pipeline, stride: nat, name: Record, slot: nat, query: Query): Pipeline
    requires slot < |TableOf(stride, p.standby, name)|
  {
    p.(standby := p.standby[name := TableOf(stride, p.standby, name)[slot := Some(query)]])
  }

  /** Without candidates the result is empty at once. */
  function SubmitGroup(p: Pipeline, stride: nat, step: nat, topk: nat, now: nat): Pipeline
    requires topk > 0 ==> RetrieveRecord(stride, step) in p.standby
  {
    var name := RetrieveRecord(stride, step);
    if topk == 0 then p.(results := p.results[name := NoBlocks])
    else
      var queries := Present(p.standby[name]);
      p.(doRetrieve := p.doRetrieve[name := queries], waiter := p.waiter[name := Task(queries)],
         submittedAt := p.submittedAt[name := now])
  }

  predicate CanLoad(p: Pipeline, name: Record) {
    name in p.results || (name in p.waiter && name in p.standby && name in p.doRetrieve)
  }

  /** A result that is not there yet is waited for and its group is dropped; then transfers may be launched. */
  function LoadResult(p: Pipeline, name: Record, launched: nat): Pipeline
    requires CanLoad(p, name)
  {
    var p' := if name in p.results then p
              else p.(results := p.results[name := Answer(p.waiter[name].queries)],
                      standby := p.standby - {name}, doRetrieve := p.doRetrieve - {name});
    p'.(pending := p.pending + launched)
  }

  /** The transfers a load launches for the `missing` blocks that are not resident: the prompt's result is only
      transferred at the first step. */
  function Launched(name: Record, step: nat, missing: nat): nat {
    if name != Prefill || step == 1 then missing else 0
  }

  /** The prompt of a request: its length, and the first token that is not already in the prefix cache. */
  datatype Prompt = Prompt(length: nat, from: nat)

  /** The slots of the prompt's group when its tokens up to `upTo` are computed: slot i is for the token `stride - i`
      before the end. */
  ghost function PromptSlots(stride: nat, prompt: Prompt, upTo: nat): seq<Option<Query>> {
    seq(stride, i requires 0 <= i < stride =>
      if prompt.from <= prompt.length - stride + i < upTo then Some(OfPrompt(prompt.length - stride + i)) else None)
  }

  /** The prompt queries the first retrieval uses: the last `stride` that were computed, in order. */
  ghost function PromptQueries(stride: nat, prompt: Prompt): seq<Query>
    requires prompt.from < prompt.length
  {
    var first := if prompt.from < prompt.length - stride then prompt.length - stride else prompt.from;
    seq(prompt.length - first, i requires 0 <= i < prompt.length - first => OfPrompt(first + i))
  }

  lemma PromptGroup(stride: nat, prompt: Prompt)
    requires prompt.from < prompt.length
    ensures Present(PromptSlots(stride, prompt, prompt.length)) == PromptQueries(stride, prompt)
  {
    hide Present;
    var qs := PromptQueries(stride, prompt);
    PresentTail(PromptSlots(stride, prompt, prompt.length), qs, stride - |qs|);
  }

  /** The state during the prefill. */
  ghost predicate Prefilled(p: Pipeline, stride: nat, prompt: Prompt, upTo: nat) {
    && stride >= 2 && prompt.from <= upTo <= prompt.length && prompt.from < prompt.length
    && p.standby.Keys <= {Prefill} && TableOf(stride, p.standby, Prefill) == PromptSlots(stride, prompt, upTo)
    && p.doRetrieve == map[] && p.results == map[] && p.waiter == map[] && p.submittedAt == map[] && p.pending == 0
  }

  /** The state after step t, with the first c groups loaded. */
  ghost predicate At(p: Pipeline, stride: nat, prompt: Prompt, t: nat, c: nat) {
    && stride >= 2 && prompt.from < prompt.length && t >= 1
    && c <= WholeBlocks(stride, t) <= Started(stride, t) <= c + 2
    && OnStandby(stride, p.standby, t, c, {})
    && Retrieving(stride, p.doRetrieve, WholeBlocks(stride, t), c, {})
    && Submitted(stride, p.waiter, p.submittedAt, WholeBlocks(stride, t), {Prefill})
    && Loaded(stride, p.results, c, {Prefill})
    && Prefill in p.results && p.results[Prefill] == Answer(PromptQueries(stride, prompt))
  }

  /** How many groups are loaded once step t is over. */
  ghost function LoadedBy(stride: nat, t: nat): nat
    requires stride > 0
  {
    if WholeBlocks(stride, t) < 1 then 0 else WholeBlocks(stride, t) - 1
  }

  /** Between two steps: transfers are under way only after the last step of a stride. */
  ghost predicate After(p: Pipeline, stride: nat, prompt: Prompt, t: nat) {
    && stride >= 2
    && (if t == 0 then Prefilled(p, stride, prompt, prompt.length) else At(p, stride, prompt, t, LoadedBy(stride, t)))
    && (p.pending != 0 ==> Phase(stride, t) == 0)
  }

  /** At most two decode groups are on standby or being retrieved at any time. */
  lemma TwoGroupsLive(p: Pipeline, stride: nat, prompt: Prompt, t: nat, c: nat)
    requires At(p, stride, prompt, t, c)
    ensures |p.standby| <= 2 && |p.doRetrieve| <= 2
  {
    var n, m := Started(stride, t), WholeBlocks(stride, t);
    hide Recs, WholeBlocks, Started, Submitted, Loaded, Slots, GroupQueries, Rec;
    KeysCount(p.standby, stride, c, n);
    KeysCount(p.doRetrieve, stride, c, m);
  }

  lemma KeysCount<V>(m: map<Record, V>, stride: nat, from: nat, to: nat)
    requires stride > 0 && from <= to && m.Keys == Recs(stride, from, to) + {}
    ensures |m| == to - from
  {
    hide Recs;
    RecsCount(stride, from, to);
    assert m.Keys == Recs(stride, from, to);
  }

  /** The prompt's group is on standby with the prompt's queries when decoding starts. */
  lemma PromptReady(p: Pipeline, stride: nat, prompt: Prompt)
    requires Prefilled(p, stride, prompt, prompt.length)
    ensures p.standby.Keys == {Prefill} && Present(p.standby[Prefill]) == PromptQueries(stride, prompt)
    ensures OnStandby(stride, p.standby, 0, 0, {Prefill})
  {
    assert PromptSlots(stride, prompt, prompt.length)[stride - 1] == Some(OfPrompt(prompt.length - 1));
    assert TableOf(stride, p.standby, Prefill)[stride - 1] != None;
    PromptGroup(stride, prompt);
    QuotientUnique(stride - 1, stride, 0, stride - 1);
    assert Started(stride, 0) == 0;
    assert Recs(stride, 0, 0) == {};
  }

  /** After the query of step t is saved. */
  ghost predicate Saved(p: Pipeline, stride: nat, prompt: Prompt, t: nat, c: nat) {
    && stride >= 2 && prompt.from < prompt.length && t > 1
    && c <= WholeBlocks(stride, t - 1) <= c + 1
    && OnStandby(stride, p.standby, t, c, {})
    && Retrieving(stride, p.doRetrieve, WholeBlocks(stride, t - 1), c, {})
    && Submitted(stride, p.waiter, p.submittedAt, WholeBlocks(stride, t - 1), {Prefill})
    && Loaded(stride, p.results, c, {Prefill})
    && Prefill in p.results && p.results[Prefill] == Answer(PromptQueries(stride, prompt))
  }

  lemma SaveStep(p: Pipeline, stride: nat, prompt: Prompt, t: nat)
    requires t > 1 && After(p, stride, prompt, t - 1)
    ensures Phase(stride, t - 1) < |TableOf(stride, p.standby, StepRecord(stride, t))|
    ensures Saved(SaveQuery(p, stride, StepRecord(stride, t), Phase(stride, t - 1), OfStep(t)), stride, prompt, t,
                  LoadedBy(stride, t - 1))
  {
    RecordsAgree(stride, t);
    hide OnStandby, Retrieving, Submitted, Loaded, WholeBlocks, Started, Rec, StepRecord, Phase;
    SaveKeeps(stride, p.standby, t, LoadedBy(stride, t - 1), {});
  }

  /** The last step of a stride submits its group; another step leaves the groups as they are. */
  lemma SubmitStep(p: Pipeline, stride: nat, prompt: Prompt, t: nat, c: nat, topk: nat)
    requires Saved(p, stride, prompt, t, c) && topk > 0
    ensures Phase(stride, t) == 0 ==> && RetrieveRecord(stride, t + 1) in p.standby
                                      && At(SubmitGroup(p, stride, t + 1, topk, t), stride, prompt, t, c)
    ensures Phase(stride, t) != 0 ==> At(p, stride, prompt, t, c)
  {
    StepPosition(stride, t);
    RecordsAgree(stride, t);
    hide OnStandby, Retrieving, Submitted, Loaded, WholeBlocks, Started, Rec, RetrieveRecord, Phase, Present, Span;
    if Phase(stride, t) == 0 {
      SubmitKeeps(stride, p.standby, p.doRetrieve, p.waiter, p.submittedAt, t, c, {});
    }
  }

  /** The first decode step retrieves and loads the prompt's group at once. */
  lemma FirstStep(p: Pipeline, stride: nat, prompt: Prompt, topk: nat, missing: nat)
    requires After(p, stride, prompt, 0) && topk > 0
    ensures Phase(stride, 0) < |TableOf(stride, p.standby, StepRecord(stride, 1))|
    ensures var p1 := SaveQuery(p, stride, StepRecord(stride, 1), Phase(stride, 0), OfStep(1));
            && RetrieveRecord(stride, 1) in p1.standby
            && var p2 := SubmitGroup(p1, stride, 1, topk, 1);
            && CanLoad(p2, NeededRecord(stride, 1))
            && At(LoadResult(p2, NeededRecord(stride, 1), missing), stride, prompt, 1, 0)
    ensures Phase(stride, 1) == 1 && LoadedBy(stride, 0) == 0 && p.pending == 0
    ensures NeededRecord(stride, 1) == Prefill && Launched(Prefill, 1, missing) == missing
  {
    PromptReady(p, stride, prompt);
    StepPosition(stride, 1);
    RecordsAgree(stride, 1);
    SaveKeeps(stride, p.standby, 1, 0, {Prefill});
    var p1 := SaveQuery(p, stride, StepRecord(stride, 1), Phase(stride, 0), OfStep(1));
    assert Rec(stride, 0) != Prefill;
    hide Rec, Slots, Present, Phase, Recs, Started, Span, StepRecord;
    assert p1.standby[Prefill] == p.standby[Prefill];
    DropPrefill(stride, p1.standby);
    EmptyPipeline(stride, prompt);
  }

  lemma DropPrefill(stride: nat, standby: map<Record, seq<Option<Query>>>)
    requires stride >= 2 && OnStandby(stride, standby, 1, 0, {Prefill})
    ensures OnStandby(stride, standby - {Prefill}, 1, 0, {})
  {
    StepPosition(stride, 1);
    RecsGrow(stride, 0, 1);
    hide Recs, Slots, Started;
    assert Rec(stride, 0) != Prefill;
    hide Rec;
  }

  lemma BetweenSteps(p: Pipeline, stride: nat, prompt: Prompt, t: nat)
    requires After(p, stride, prompt, t)
    ensures stride >= 2 && (p.pending != 0 ==> Phase(stride, t) == 0)
  {
    hide At, Prefilled, Phase;
  }

  lemma StepEnds(p: Pipeline, stride: nat, prompt: Prompt, t: nat)
    requires stride >= 2 && t >= 1 && At(p, stride, prompt, t, LoadedBy(stride, t))
    requires p.pending != 0 ==> Phase(stride, t) == 0
    ensures After(p, stride, prompt, t)
  {
    hide At, Phase, LoadedBy;
  }

  lemma TransfersDoNotMatter(p: Pipeline, stride: nat, prompt: Prompt, t: nat, c: nat)
    requires At(p, stride, prompt, t, c)
    ensures At(p.(pending := 0), stride, prompt, t, c)
  {
  }

  /** Before any group is finished there is only the prompt's. */
  lemma EmptyPipeline(stride: nat, prompt: Prompt)
    requires stride >= 2 && prompt.from < prompt.length
    ensures Retrieving(stride, map[], 0, 0, {})
    ensures Submitted(stride, map[Prefill := Task(PromptQueries(stride, prompt))], map[Prefill := 1], 0, {Prefill})
    ensures Loaded(stride, map[Prefill := Answer(PromptQueries(stride, prompt))], 0, {Prefill})
  {
    assert Recs(stride, 0, 0) == {};
  }

  /** Loading the oldest group, which was submitted at its last step and not loaded before. */
  lemma LoadStep(p: Pipeline, stride: nat, prompt: Prompt, t: nat, c: nat, launched: nat)
    requires At(p, stride, prompt, t, c) && c < WholeBlocks(stride, t)
    ensures CanLoad(p, Rec(stride, c))
    ensures var p' := LoadResult(p, Rec(stride, c), launched);
            && At(p', stride, prompt, t, c + 1)
            && FirstLoad(Rec(stride, c), p'.submittedAt, Span(stride, c + 1), p.results, p'.results)
  {
    assert Rec(stride, c) != Prefill;
    hide OnStandby, Retrieving, Loaded, WholeBlocks, Started, Rec, Span, GroupQueries, PromptQueries;
    assert Rec(stride, c) in p.waiter && p.waiter[Rec(stride, c)] == Task(GroupQueries(stride, c)) &&
           p.submittedAt[Rec(stride, c)] == Span(stride, c + 1);
    hide Submitted;
    LoadKeeps(stride, p.standby, p.doRetrieve, p.results, t, WholeBlocks(stride, t), c);
  }

  /** At the end of a stride the oldest group is the one submitted a stride earlier. */
  lemma OldestGroup(stride: nat, t: nat)
    requires stride >= 2 && t >= 2 * stride && Phase(stride, t) == 0
    ensures var c := LoadedBy(stride, t - 1);
            && NeededRecord(stride, t + 1) == Rec(stride, c) == Decode(t - 2 * stride + 1) && c < WholeBlocks(stride, t)
            && LoadedBy(stride, t) == c + 1 && Span(stride, c + 1) == t - stride
  {
    StepPosition(stride, t);
    RecordsAgree(stride, t);
    SpanStep(stride, WholeBlocks(stride, t - 1));
    SpanStep(stride, LoadedBy(stride, t - 1));
  }

  /** Outside the ends of strides, and at the end of the first, no further group is loaded. */
  lemma NothingToLoad(stride: nat, t: nat)
    requires stride >= 2 && t >= 1 && !(t >= 2 * stride && Phase(stride, t) == 0)
    ensures LoadedBy(stride, t) == LoadedBy(stride, t - 1)
  {
    StepPosition(stride, t);
    var g := WholeBlocks(stride, t - 1);
    if Phase(stride, t) == 0 && g >= 1 {
      MulMonotone(stride, 2, g + 1);
    }
  }

  /** The slots of `filled` hold their prompt queries, everything else is as before. */
  ghost predicate Filling(before: Pipeline, p: Pipeline, stride: nat, prompt: Prompt, filled: seq<int>) {
    var was, table := TableOf(stride, before.standby, Prefill), TableOf(stride, p.standby, Prefill);
    && p == before.(standby := p.standby) && p.standby.Keys <= {Prefill} && |table| == |was| == stride
    && forall i :: 0 <= i < stride ==>
                     table[i] == if i in filled then Some(OfPrompt(prompt.length - stride + i)) else was[i]
  }

  /** The chunk's k-th offloaded query is the one of the k-th slot's token. */
  lemma ChunkQuery(length: nat, stride: nat, c: nat, n: nat, k: nat)
    requires c + n <= length && k < |OffloadSlots(length, stride, c, n)|
    ensures var info := OffloadSlots(length, stride, c, n);
            |info| <= n && 0 <= info[k] < stride && c + (n - |info| + k) == length - stride + info[k]
  {
    OffloadSlotsExact(length, stride, c, n, OffloadSlots(length, stride, c, n)[k]);
  }

  lemma FillStep(before: Pipeline, p: Pipeline, stride: nat, prompt: Prompt, info: seq<int>, k: nat)
    requires k < |info| && Filling(before, p, stride, prompt, info[..k]) && 0 <= info[k] < stride
    ensures info[k] < |TableOf(stride, p.standby, Prefill)|
    ensures var query := OfPrompt(prompt.length - stride + info[k]);
            Filling(before, SaveQuery(p, stride, Prefill, info[k], query), stride, prompt, info[..k + 1])
  {
    assert info[..k + 1] == info[..k] + [info[k]];
  }

  lemma FillDone(before: Pipeline, p: Pipeline, stride: nat, prompt: Prompt, c: nat, n: nat)
    requires Prefilled(before, stride, prompt, c) && c + n <= prompt.length
    requires Filling(before, p, stride, prompt, OffloadSlots(prompt.length, stride, c, n))
    ensures Prefilled(p, stride, prompt, c + n)
  {
    hide OffloadSlots, TableOf;
    forall i | 0 <= i < stride
      ensures TableOf(stride, p.standby, Prefill)[i] == PromptSlots(stride, prompt, c + n)[i]
    {
      OffloadSlotsExact(prompt.length, stride, c, n, i);
    }
  }

  // ---- one request in one layer ----

  class ReqPerLayerState {
    const stride: nat
    const prompt: Prompt

    var standby: map<Record, seq<Option<Query>>>
    var doRetrieve: map<Record, seq<Query>>
    var results: map<Record, Hashes>
    var waiter: map<Record, Task>
    var pending: nat
    ghost var submittedAt: map<Record, nat>

    ghost function View(): Pipeline
      reads this
    {
      Pipeline(standby, doRetrieve, results, waiter, submittedAt, pending)
    }

    constructor (stride: nat, prompt: Prompt)
      requires stride >= 2 && prompt.from < prompt.length
      ensures this.stride == stride && this.prompt == prompt && Prefilled(View(), stride, prompt, prompt.from)
    {
      this.stride, this.prompt := stride, prompt;
      standby, doRetrieve, results, waiter, pending, submittedAt := map[], map[], map[], map[], 0, map[];
    }

    method SaveToStandby(name: Record, slot: nat, query: Query)
      requires slot < |TableOf(stride, standby, name)|
      modifies `standby
      ensures View() == SaveQuery(old(View()), stride, name, slot, query)
    {
      if name !in standby {
        standby := standby[name := seq(stride, _ => None)];
      }
      standby := standby[name := standby[name][slot := Some(query)]];
    }

    /** A prompt chunk of n tokens after c computed ones: its last queries go to their slots. */
    method OffloadPrefillQuery(c: nat, n: nat, chunk: seq<Query>)
      requires Prefilled(View(), stride, prompt, c) && c + n <= prompt.length && |chunk| == n
      requires forall i :: 0 <= i < n ==> chunk[i] == OfPrompt(c + i)
      modifies `standby
      ensures Prefilled(View(), stride, prompt, c + n)
    {
      var info := OffloadSlots(prompt.length, stride, c, n);
      ghost var before := View();
      assert Filling(before, before, stride, prompt, info[..0]);
      hide *;
      for k := 0 to |info|
        invariant Filling(before, View(), stride, prompt, info[..k])
      {
        ChunkQuery(prompt.length, stride, c, n, k);
        FillStep(before, View(), stride, prompt, info, k);
        SaveToStandby(Prefill, info[k], chunk[n - |info| + k]);
      }
      assert info[..|info|] == info;
      FillDone(before, View(), stride, prompt, c, n);
    }

    method RetrievalAsync(step: nat, topk: nat, ghost now: nat)
      requires topk > 0 ==> RetrieveRecord(stride, step) in standby
      modifies `doRetrieve, `results, `waiter, `submittedAt
      ensures old(results).Keys <= results.Keys
      ensures View() == SubmitGroup(old(View()), stride, step, topk, now)
      // the task has the queries on standby, and no other task or result is touched
      ensures var name := RetrieveRecord(stride, step);
              && (topk > 0 ==> name in waiter && waiter[name] == Task(Present(standby[name])))
              && (topk == 0 ==> name in results && results[name] == NoBlocks)
              && waiter - {name} == old(waiter) - {name} && results - {name} == old(results) - {name}
    {
      var name := RetrieveRecord(stride, step);
      if topk == 0 {
        results := results[name := NoBlocks];
      } else {
        doRetrieve := doRetrieve[name := Present(standby[name])];
        waiter := waiter[name := Task(doRetrieve[name])];
        submittedAt := submittedAt[name := now];
      }
    }

    method LoadRetrieveResultAsync(step: nat, missing: nat) returns (name: Record)
      requires stride > 0 && CanLoad(View(), NeededRecord(stride, step))
      modifies `standby, `doRetrieve, `results, `pending
      ensures old(results).Keys <= results.Keys
      ensures name == NeededRecord(stride, step)
      ensures View() == LoadResult(old(View()), name, Launched(name, step, missing))
      // the result is there, and a group that was waited for is off standby
      ensures name in results && (name !in old(results) ==> name !in standby && name !in doRetrieve)
      ensures results - {name} == old(results) - {name} && standby - {name} == old(standby) - {name}
      // the missing blocks are transferred, for the prompt's result only at the first step
      ensures pending == old(pending) + if name == Prefill && step != 1 then 0 else missing
    {
      name := NeededRecord(stride, step);
      if name !in results {
        var task := waiter[name];
        standby, doRetrieve := standby - {name}, doRetrieve - {name};
        results := results[name := Answer(task.queries)];
      }
      if name != Prefill || step == 1 {
        pending := pending + missing;
      }
    }

    method WaitForTransfers()
      modifies `pending
      ensures View() == old(View()).(pending := 0)
    {
      pending := 0;
    }

    /** Before the attention of decode step t: no transfer is under way when the attention starts. */
    method AttentionBegin(t: nat, query: Query, topk: nat, missing: nat)
      requires t >= 1 && query == OfStep(t) && topk > 0 && After(View(), stride, prompt, t - 1)
      modifies `standby, `doRetrieve, `results, `waiter, `submittedAt, `pending
      ensures At(View(), stride, prompt, t, LoadedBy(stride, t - 1)) && pending == 0
      ensures old(results).Keys <= results.Keys
    {
      hide After, At, Saved, Prefilled, OnStandby, Retrieving, Submitted, Loaded, SaveQuery, SubmitGroup, LoadResult,
           CanLoad, NeededRecord, RetrieveRecord, StepRecord, Launched, Phase, LoadedBy, WholeBlocks, Started, Span,
           TableOf, PromptQueries, Present, Rec, FirstLoad;
      BetweenSteps(View(), stride, prompt, t - 1);
      StepPosition(stride, t);
      ghost var p := View();
      if t == 1 {
        FirstStep(p, stride, prompt, topk, missing);
      } else {
        SaveStep(p, stride, prompt, t);
      }
      SaveToStandby(StepRecord(stride, t), Phase(stride, t - 1), query);
      if t > 1 {
        SubmitStep(View(), stride, prompt, t, LoadedBy(stride, t - 1), topk);
      }
      if Phase(stride, t) == 0 {
        RetrievalAsync(t + 1, topk, t);
      }
      if t == 1 {
        assert View() == View().(pending := 0);
        WaitForTransfers();
        RetrievalAsync(t, topk, t);
        var _ := LoadRetrieveResultAsync(t, missing);
      }
      TransfersDoNotMatter(View(), stride, prompt, t, LoadedBy(stride, t - 1));
      if Phase(stride, t) == 1 {
        WaitForTransfers();
      }
    }

    /** After the attention of decode step t: at the end of a stride the group submitted one stride earlier is loaded,
        for the first time. */
    method AttentionFinished(t: nat, missing: nat) returns (loaded: Option<Record>)
      requires stride >= 2 && t >= 1 && At(View(), stride, prompt, t, LoadedBy(stride, t - 1)) && pending == 0
      modifies `standby, `doRetrieve, `results, `pending
      ensures After(View(), stride, prompt, t)
      ensures loaded.Some? <==> t >= 2 * stride && Phase(stride, t) == 0
      ensures loaded.Some? ==> loaded.value == Decode(t - 2 * stride + 1) && pending == missing
      ensures loaded.Some? ==> FirstLoad(loaded.value, submittedAt, t - stride, old(results), results)
      ensures loaded.None? ==> results == old(results) && pending == 0
    {
      hide After, At, Saved, Prefilled, OnStandby, Retrieving, Submitted, Loaded, SaveQuery, SubmitGroup, LoadResult,
           CanLoad, NeededRecord, RetrieveRecord, StepRecord, Launched, Phase, LoadedBy, WholeBlocks, Started, Span,
           TableOf, PromptQueries, Present, Rec, FirstLoad;
      loaded := None;
      if t >= stride * 2 && Phase(stride, t) == 0 {
        OldestGroup(stride, t);
        var name := NeededRecord(stride, t + 1);
        LoadStep(View(), stride, prompt, t, LoadedBy(stride, t - 1), Launched(name, t + 1, missing));
        loaded := Some(name);
        name := LoadRetrieveResultAsync(t + 1, missing);
      } else {
        NothingToLoad(stride, t);
      }
      StepEnds(View(), stride, prompt, t);
    }

    lemma ResultsInView()
      ensures View().results == results
    {
    }

    /** Any number of decode steps: the group of every stride but the last full one is loaded, in order, one stride
        after it was submitted, and what is loaded is the answer to exactly its queries. The prompt's result answers the
        last queries of the prompt. */
    method DecodeSteps(topk: nat, missing: seq<nat>) returns (ghost log: seq<Load>)
      requires topk > 0 && After(View(), stride, prompt, 0)
      modifies `standby, `doRetrieve, `results, `waiter, `submittedAt, `pending
      ensures After(View(), stride, prompt, |missing|)
      ensures Span(stride, |log|) <= |missing| && |missing| < Span(stride, |log| + 2)
      ensures log != [] ==> Span(stride, |log| + 1) <= |missing|
      ensures forall k :: 0 <= k < |log| ==> IsLoad(log[k], stride, k) && AnswersSteps(results, log[k].name, stride, k)
      ensures missing != [] ==> AnswersPrompt(results, stride, prompt)
    {
      hide *;
      log := [];
      BetweenSteps(View(), stride, prompt, 0);
      NoneLoaded(stride);
      for t := 1 to |missing| + 1
        invariant After(View(), stride, prompt, t - 1) && |log| == LoadedBy(stride, t - 1)
        invariant forall k :: 0 <= k < |log| ==> IsLoad(log[k], stride, k)
      {
        AttentionBegin(t, OfStep(t), topk, missing[t - 1]);
        // here the attention of step t runs, with no transfer under way
        ghost var before := results;
        var loaded := AttentionFinished(t, missing[t - 1]);
        if loaded.Some? {
          FirstLoadAt(loaded.value, submittedAt, t - stride, before, results);
          NextLoad(stride, t);
          log := log + [Load(loaded.value, submittedAt[loaded.value], t)];
        } else {
          NothingToLoad(stride, t);
        }
      }
      LoadedCount(stride, |missing|);
      ResultsInView();
      forall k | 0 <= k < |log| ensures AnswersSteps(results, log[k].name, stride, k) {
        LoadedAnswers(View(), stride, prompt, |missing|, k);
        LoadName(log[k], stride, k);
      }
      if missing != [] {
        PromptAnswered(View(), stride, prompt, |missing|);
      }
    }
  }

  /** What was loaded at the end of a step, and when its retrieval was submitted. */
  datatype Load = Load(name: Record, submitted: nat, loaded: nat)

  /** The k-th load is that of the k-th group, submitted at its last step and loaded a stride later. */
  ghost predicate IsLoad(load: Load, stride: nat, k: nat) {
    && load.name == Decode(Span(stride, k) + 1)
    && load.submitted == Span(stride, k + 1) && load.loaded == Span(stride, k + 2)
  }

  /** The result is the answer to the queries of the k-th stride of steps. */
  ghost predicate AnswersSteps(results: map<Record, Hashes>, name: Record, stride: nat, k: nat) {
    && name in results && results[name].Answer? && |results[name].queries| == stride
    && forall i :: 0 <= i < stride ==> results[name].queries[i] == OfStep(Span(stride, k) + 1 + i)
  }

  /** The prompt's result is the answer to the queries of its last tokens, a stride of them or all if fewer. */
  ghost predicate AnswersPrompt(results: map<Record, Hashes>, stride: nat, prompt: Prompt) {
    && Prefill in results && results[Prefill].Answer?
    && var queries := results[Prefill].queries;
       && |queries| == Min(stride, prompt.length - prompt.from)
       && forall i :: 0 <= i < |queries| ==> queries[i] == OfPrompt(prompt.length - |queries| + i)
  }

  lemma LoadedAnswers(p: Pipeline, stride: nat, prompt: Prompt, t: nat, k: nat)
    requires After(p, stride, prompt, t) && k < LoadedBy(stride, t)
    ensures AnswersSteps(p.results, Decode(Span(stride, k) + 1), stride, k)
  {
    NoneLoaded(stride);
    hide OnStandby, Retrieving, Submitted, Loaded, WholeBlocks, Span, Started, LoadedBy, AnswersSteps, PromptQueries,
         Prefilled;
    GroupAnswered(stride, p.results, LoadedBy(stride, t), k);
  }

  lemma GroupAnswered(stride: nat, results: map<Record, Hashes>, c: nat, k: nat)
    requires Loaded(stride, results, c, {Prefill}) && k < c
    ensures AnswersSteps(results, Decode(Span(stride, k) + 1), stride, k)
  {
    hide Span, Recs;
    assert Rec(stride, k) in results && results[Rec(stride, k)] == Answer(GroupQueries(stride, k));
  }

  lemma LoadName(load: Load, stride: nat, k: nat)
    requires IsLoad(load, stride, k)
    ensures load.name == Decode(Span(stride, k) + 1)
  {
  }

  lemma PromptAnswered(p: Pipeline, stride: nat, prompt: Prompt, t: nat)
    requires After(p, stride, prompt, t) && t > 0
    ensures AnswersPrompt(p.results, stride, prompt)
  {
    hide OnStandby, Retrieving, Submitted, Loaded, WholeBlocks, Span, Started;
  }

  lemma NoneLoaded(stride: nat)
    requires stride > 0
    ensures LoadedBy(stride, 0) == 0
  {
  }

  /** The load at the end of step t. */
  lemma NextLoad(stride: nat, t: nat)
    requires stride >= 2 && t >= 2 * stride && Phase(stride, t) == 0
    ensures var c := LoadedBy(stride, t - 1);
            LoadedBy(stride, t) == c + 1 && IsLoad(Load(Decode(t - 2 * stride + 1), t - stride, t), stride, c)
  {
    OldestGroup(stride, t);
    var c := LoadedBy(stride, t - 1);
    SpanStep(stride, c);
    SpanStep(stride, c + 1);
  }

  lemma LoadedCount(stride: nat, t: nat)
    requires stride > 0
    ensures var c := LoadedBy(stride, t);
            Span(stride, c) <= t < Span(stride, c + 2) && (c > 0 ==> Span(stride, c + 1) <= t)
  {
    var n, c := WholeBlocks(stride, t), LoadedBy(stride, t);
    DivSpan(stride, t, c);
    DivSpan(stride, t, c + 1);
    DivSpan(stride, t, c + 2);
    hide WholeBlocks, Span;
  }
}
