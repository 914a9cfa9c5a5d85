/** The layer-pipelined loader: while layer l is computed, layer l + 1 is being loaded, and a request whose load fails
    is given up with all its blocks reported. */
module LayerwiseLoad {
  import opened Sequences

  type ReqId = int
  type BlockNo = int

  /** A load submitted to the store, for one layer of one request. */
  datatype Task = Task(layer: int, q: ReqId)

  class LayerWiseConnector {
    const firstLayer: int
    const lastLayer: int
    /** Whether the store accepts a submission, and whether a submitted task then succeeds. */
    const accepts: Task -> bool
    const succeeds: Task -> bool

    var loadTasks: map<int, map<ReqId, Task>>
    var requestData: seq<ReqId>
    var loadBlocks: map<ReqId, set<BlockNo>>
    var failed: set<ReqId>
    var invalidBlocks: set<BlockNo>
    var needLoad: bool

    /** The accepted submissions in order, the tasks waited for successfully, and the blocks that were already reported
        when the step began. */
    ghost var submitted: seq<Task>
    ghost var done: set<Task>
    ghost var carried: set<BlockNo>

    constructor (firstLayer: int, lastLayer: int, accepts: Task -> bool, succeeds: Task -> bool)
      requires firstLayer <= lastLayer
      ensures this.firstLayer == firstLayer && this.lastLayer == lastLayer
      ensures this.accepts == accepts && this.succeeds == succeeds && invalidBlocks == {}
    {
      this.firstLayer, this.lastLayer, this.accepts, this.succeeds := firstLayer, lastLayer, accepts, succeeds;
      loadTasks, requestData, loadBlocks, failed, invalidBlocks, needLoad := map[], [], map[], {}, {}, false;
      submitted, done, carried := [], {}, {};
    }

    /** The store accepts and completes every layer of request q up to layer l. */
    ghost predicate Loads(q: ReqId, l: int) {
      forall k :: firstLayer <= k <= l ==> accepts(Task(k, q)) && succeeds(Task(k, q))
    }

    /** No request twice, each with its blocks, and the invalid blocks are the failed requests' and the carried ones. */
    ghost predicate RequestsOk()
      reads `requestData, `needLoad, `loadBlocks, `failed, `invalidBlocks, `carried
    {
      && firstLayer <= lastLayer && Distinct(requestData) && needLoad == (requestData != [])
      && (forall q :: q in requestData ==> q in loadBlocks)
      && (forall q :: q in failed ==> q in requestData && loadBlocks[q] <= invalidBlocks)
      && carried <= invalidBlocks
      && (forall b :: b in invalidBlocks ==> b in carried || exists q :: q in failed && b in loadBlocks[q])
    }

    /** Each layer up to l of each request was submitted once if the store took it and completed all before it. */
    ghost predicate SubmittedUpTo(l: int)
      reads `requestData, `submitted
    {
      LogUpTo(requestData, submitted, l)
    }

    ghost predicate LogUpTo(requests: seq<ReqId>, log: seq<Task>, l: int) {
      Distinct(log) && forall t :: t in log <==> ShouldSubmit(requests, t, l)
    }

    ghost predicate ShouldSubmit(requests: seq<ReqId>, t: Task, l: int) {
      t.q in requests && firstLayer <= t.layer <= l && Loads(t.q, t.layer - 1) && accepts(t)
    }

    ghost predicate WaitedUpTo(l: int)
      reads `requestData, `done
    {
      DoneUpTo(requestData, done, l)
    }

    ghost predicate DoneUpTo(requests: seq<ReqId>, finished: set<Task>, l: int) {
      forall t :: t in finished <==> t.q in requests && firstLayer <= t.layer <= l && Loads(t.q, t.layer)
    }

    /** The failed requests are those with a layer up to l refused or broken or, ahead of it, layer l + 1 refused. */
    ghost predicate FailedAt(l: int, ahead: bool)
      reads `requestData, `failed
    {
      FailedSet(requestData, failed, l, ahead)
    }

    ghost predicate FailedSet(requests: seq<ReqId>, failures: set<ReqId>, l: int, ahead: bool) {
      forall q :: q in requests ==> (q !in failures <==> Loads(q, l) && (ahead ==> accepts(Task(l + 1, q))))
    }

    /** Exactly the requests that have not failed have a task for layer l. */
    ghost predicate InFlight(l: int)
      reads `requestData, `failed, `loadTasks
    {
      Holds(TasksOf(l), l, requestData, failed)
    }

    /** The state when layer l has been waited for. */
    ghost predicate After(l: int)
      reads this
    {
      && RequestsOk() && firstLayer - 1 <= l <= lastLayer && (forall k :: k in loadTasks ==> k <= l + 1)
      && SubmittedUpTo(if l < lastLayer then l + 1 else l) && WaitedUpTo(l) && FailedAt(l, l < lastLayer)
      && (l < lastLayer ==> InFlight(l + 1))
    }

    /** Request q has had all layers up to l submitted and waited for successfully. */
    ghost predicate LoadedUpTo(q: ReqId, l: int)
      reads `submitted, `done
    {
      forall k :: firstLayer <= k <= l ==> Task(k, q) in submitted && Task(k, q) in done
    }

    /** `load_tasks.get(layer, {})` */
    function TasksOf(layer: int): map<ReqId, Task>
      reads `loadTasks
    {
      if layer in loadTasks then loadTasks[layer] else map[]
    }

    /** What a finished wait means: a request is loaded up to l and has not failed, or all its blocks are reported. */
    lemma LoadedOrReported(l: int)
      requires After(l)
      ensures forall q :: q in requestData && q !in failed ==> LoadedUpTo(q, l)
      ensures forall q :: q in requestData && q in failed ==> loadBlocks[q] <= invalidBlocks
      ensures forall t :: t in submitted ==> t.layer <= l + 1
    {
    }

    /** Layer `layer` was offered to the store for the requests of `seen`: it went into the log, or the request
        failed. */
    ghost predicate Offered(seen: seq<ReqId>, layer: int, failed0: set<ReqId>, failed: set<ReqId>,
                            log0: seq<Task>, log: seq<Task>) {
      && failed0 <= failed
      && (forall t :: t in log <==> t in log0 || (t.layer == layer && t.q in seen && t.q !in failed))
      && (forall q :: q in seen ==> (q !in failed <==> q !in failed0 && accepts(Task(layer, q))))
      && (forall q :: q !in seen ==> (q in failed <==> q in failed0))
    }

    lemma NothingOffered(layer: int, failures: set<ReqId>, log: seq<Task>)
      ensures Offered([], layer, failures, failures, log, log) && Holds(map[], layer, [], failures)
    {
    }

    /** A request that was not offered yet has not failed since and has no task of this layer. */
    lemma NotOffered(seen: seq<ReqId>, layer: int, failed0: set<ReqId>, failed: set<ReqId>,
                     log0: seq<Task>, log: seq<Task>, q: ReqId)
      requires Offered(seen, layer, failed0, failed, log0, log) && q !in seen
      requires forall t :: t in log0 ==> t.layer < layer
      ensures (q in failed <==> q in failed0) && Task(layer, q) !in log
    {
    }

    /** When all requests were offered, the failures and the log are those of this layer. */
    lemma AllOffered(requests: seq<ReqId>, layer: int, failed0: set<ReqId>, failed: set<ReqId>,
                     log0: seq<Task>, log: seq<Task>)
      requires Offered(requests, layer, failed0, failed, log0, log) && Distinct(log) && firstLayer <= layer
      requires FailedSet(requests, failed0, layer - 1, false) && LogUpTo(requests, log0, layer - 1)
      ensures failed0 <= failed && FailedSet(requests, failed, layer - 1, true) && LogUpTo(requests, log, layer)
    {
      hide Loads, Distinct;
    }

    lemma OfferStep(seen: seq<ReqId>, q: ReqId, layer: int, failed0: set<ReqId>, was: set<ReqId>, now: set<ReqId>,
                    log0: seq<Task>, logWas: seq<Task>, log: seq<Task>)
      requires Offered(seen, layer, failed0, was, log0, logWas) && q !in seen
      requires q in was ==> now == was && log == logWas
      requires q !in was && accepts(Task(layer, q)) ==> now == was && log == logWas + [Task(layer, q)]
      requires q !in was && !accepts(Task(layer, q)) ==> now == was + {q} && log == logWas
      ensures Offered(seen + [q], layer, failed0, now, log0, log)
    {
    }

    /** The tasks of layer `layer` are those of the requests of `seen` that have not failed. */
    ghost predicate Holds(tasks: map<ReqId, Task>, layer: int, seen: seq<ReqId>, failed: set<ReqId>) {
      && (forall q :: q in tasks <==> q in seen && q !in failed)
      && (forall q :: q in tasks ==> tasks[q] == Task(layer, q))
    }

    lemma HoldsStep(tasks: map<ReqId, Task>, tasks': map<ReqId, Task>, q: ReqId, layer: int, seen: seq<ReqId>,
                    was: set<ReqId>, now: set<ReqId>)
      requires Holds(tasks, layer, seen, was) && q !in seen
      requires q in was ==> now == was && tasks' == tasks
      requires q !in was ==>
                 (now == was && tasks' == tasks[q := Task(layer, q)]) || (now == was + {q} && tasks' == tasks)
      ensures Holds(tasks', layer, seen + [q], now)
    {
    }

    /** What is known when the last layer has been waited for. */
    lemma PassEnds()
      requires After(lastLayer)
      ensures Distinct(submitted) && carried <= invalidBlocks
      ensures forall q :: q in requestData ==> q in loadBlocks
      ensures forall q :: q in requestData && Loads(q, lastLayer) ==> LoadedUpTo(q, lastLayer)
      ensures forall q :: q in requestData && !Loads(q, lastLayer) ==> loadBlocks[q] <= invalidBlocks
      ensures forall b :: b in invalidBlocks && b !in carried ==>
                            exists q :: q in requestData && !Loads(q, lastLayer) && b in loadBlocks[q]
    {
      hide LoadedUpTo, Loads, Distinct;
      LoadedOrReported(lastLayer);
      assert forall q :: q in requestData ==> (q !in failed <==> Loads(q, lastLayer)) by {
        assert FailedAt(lastLayer, false);
      }
    }

    /** Submits one layer for every request that has not failed. */
    method SubmitLayer(layer: int)
      requires RequestsOk() && layer !in loadTasks && SubmittedUpTo(layer - 1) && FailedAt(layer - 1, false)
      requires firstLayer <= layer
      modifies `loadTasks, `failed, `invalidBlocks, `submitted
      ensures RequestsOk() && SubmittedUpTo(layer) && FailedAt(layer - 1, true) && InFlight(layer)
      ensures loadTasks.Keys == old(loadTasks).Keys + {layer}
      ensures old(failed) <= failed && Extends(old(submitted), submitted)
    {
      loadTasks := loadTasks[layer := map[]];
      assert Distinct(requestData) && Distinct(submitted) && forall t :: t in submitted ==> t.layer < layer;
      NothingOffered(layer, failed, submitted);
      hide Loads, RequestsOk, Distinct, LogUpTo, FailedSet, Extends, Offered, Holds;
      LogExtendsItself(submitted);
      for k := 0 to |requestData|
        invariant loadTasks.Keys == old(loadTasks).Keys + {layer} && RequestsOk() && Distinct(submitted)
        invariant Extends(old(submitted), submitted)
        invariant Offered(requestData[..k], layer, old(failed), failed, old(submitted), submitted)
        invariant Holds(TasksOf(layer), layer, requestData[..k], failed)
      {
        var q := requestData[k];
        TakeNext(requestData, k);
        ghost var failedWas, logWas, tasksWere := failed, submitted, TasksOf(layer);
        NotOffered(requestData[..k], layer, old(failed), failed, old(submitted), submitted, q);
        if q !in failed {
          SubmitOne(layer, q);
        }
        OfferStep(requestData[..k], q, layer, old(failed), failedWas, failed, old(submitted), logWas, submitted);
        HoldsStep(tasksWere, TasksOf(layer), q, layer, requestData[..k], failedWas, failed);
      }
      assert requestData[..|requestData|] == requestData;
      AllOffered(requestData, layer, old(failed), failed, old(submitted), submitted);
    }

    /** The store takes the request's layer, or the request fails and its blocks are reported. */
    method SubmitOne(layer: int, q: ReqId)
      requires RequestsOk() && q in requestData && q !in failed && layer in loadTasks
      requires Distinct(submitted) && Task(layer, q) !in submitted
      modifies `loadTasks, `failed, `invalidBlocks, `submitted
      ensures RequestsOk() && Distinct(submitted)
      ensures loadTasks.Keys == old(loadTasks).Keys
      ensures forall log :: Extends(log, old(submitted)) ==> Extends(log, submitted)
      ensures accepts(Task(layer, q)) ==> failed == old(failed) && submitted == old(submitted) + [Task(layer, q)] &&
                                          TasksOf(layer) == old(TasksOf(layer))[q := Task(layer, q)]
      ensures !accepts(Task(layer, q)) ==> failed == old(failed) + {q} && submitted == old(submitted) &&
                                           TasksOf(layer) == old(TasksOf(layer))
    {
      var task := Task(layer, q);
      if accepts(task) {
        submitted := submitted + [task];
        loadTasks := loadTasks[layer := loadTasks[layer][q := task]];
      } else {
        GiveUp(q);
      }
    }

    /** Request q fails: all its blocks are reported. */
    method GiveUp(q: ReqId)
      requires RequestsOk() && q in requestData
      modifies `failed, `invalidBlocks
      ensures RequestsOk() && failed == old(failed) + {q}
    {
      invalidBlocks := invalidBlocks + loadBlocks[q];
      failed := failed + {q};
      forall b | b in invalidBlocks && b !in carried
        ensures exists p :: p in failed && b in loadBlocks[p]
      {
        if b in loadBlocks[q] {
          assert q in failed;
        } else {
          var p :| p in old(failed) && b in loadBlocks[p];
          assert p in failed;
        }
      }
    }

    /** A new step: the requests with something to load, and the first layer submitted for them. */
    method StartLoadKv(requests: seq<ReqId>, blocks: map<ReqId, set<BlockNo>>)
      requires firstLayer <= lastLayer
      requires Distinct(requests) && forall q :: q in requests ==> q in blocks
      modifies this
      ensures After(firstLayer - 1) && carried == old(invalidBlocks) && loadBlocks == blocks
      ensures forall q :: q in requestData <==> q in requests && blocks[q] != {}
    {
      hide *;
      var loading := WithLoads(requests, blocks);
      loadTasks, requestData, failed, needLoad, loadBlocks := map[], loading, {}, loading != [], blocks;
      submitted, done, carried := [], {}, invalidBlocks;
      FreshStep();
      if needLoad {
        SubmitLayer(firstLayer);
      }
      FirstLayerUnderWay();
    }

    /** The state of a new step, before anything is submitted. */
    lemma FreshStep()
      requires firstLayer <= lastLayer && Distinct(requestData) && forall q :: q in requestData ==> q in loadBlocks
      requires loadTasks == map[] && failed == {} && needLoad == (requestData != []) && submitted == [] && done == {}
      requires carried == invalidBlocks
      ensures RequestsOk() && SubmittedUpTo(firstLayer - 1)
      ensures FailedAt(firstLayer - 1, false) && WaitedUpTo(firstLayer - 1)
      ensures !needLoad ==> SubmittedUpTo(firstLayer) && FailedAt(firstLayer - 1, true) && InFlight(firstLayer)
    {
      NothingSubmitted(requestData);
      hide Distinct, LogUpTo, FailedSet, Holds, Loads;
    }

    lemma FirstLayerUnderWay()
      requires RequestsOk() && firstLayer <= lastLayer && (forall k :: k in loadTasks ==> k == firstLayer)
      requires SubmittedUpTo(firstLayer) && FailedAt(firstLayer - 1, true) && InFlight(firstLayer)
      requires WaitedUpTo(firstLayer - 1)
      ensures After(firstLayer - 1)
    {
      hide RequestsOk, SubmittedUpTo, FailedAt, InFlight, WaitedUpTo;
    }

    /** At the beginning of a step nothing was submitted and nothing has failed; with no requests that stays so. */
    lemma NothingSubmitted(requests: seq<ReqId>)
      ensures LogUpTo(requests, [], firstLayer - 1) && FailedSet(requests, {}, firstLayer - 1, false)
      ensures requests == [] ==> LogUpTo(requests, [], firstLayer) && FailedSet(requests, {}, firstLayer - 1, true) &&
                                 Holds(map[], firstLayer, requests, {})
    {
    }

    /** The requests of a step that have blocks to load, in order. */
    static method WithLoads(requests: seq<ReqId>, blocks: map<ReqId, set<BlockNo>>) returns (loading: seq<ReqId>)
      requires Distinct(requests) && forall q :: q in requests ==> q in blocks
      ensures Distinct(loading)
      ensures forall q :: q in loading <==> q in requests && blocks[q] != {}
    {
      loading := [];
      for k := 0 to |requests|
        invariant Distinct(loading)
        invariant forall q :: q in loading <==> q in requests[..k] && q in blocks && blocks[q] != {}
      {
        var q := requests[k];
        TakeNext(requests, k);
        assert q in requests;
        if blocks[q] != {} {
          loading := loading + [q];
        }
      }
      assert requests[..|requests|] == requests;
    }

    /** Waits for layer l, gives up the requests whose load failed, and submits layer l + 1 for the others. */
    method WaitForLayerLoad(l: int)
      requires firstLayer <= l <= lastLayer && After(l - 1)
      modifies `loadTasks, `failed, `invalidBlocks, `submitted, `done
      ensures After(l) && old(failed) <= failed
      ensures forall q :: q in requestData ==>
                            (q !in failed && LoadedUpTo(q, l)) || (q in failed && loadBlocks[q] <= invalidBlocks)
      ensures forall t :: t in submitted ==> t.layer <= l + 1
      ensures Extends(old(submitted), submitted)
      // no further submissions for a request that had failed before
      ensures forall t :: t in submitted && t.q in old(failed) ==> t in old(submitted)
    {
      hide Loads, RequestsOk, Distinct, LoadedUpTo;
      if needLoad {
        WaitAll(l);
        if l + 1 <= lastLayer {
          SubmitLayer(l + 1);
        }
      } else {
        NothingToLoad(l);
      }
      LoadedOrReported(l);
    }

    /** With no request to load, every statement about the layers holds of each layer. */
    lemma NothingToLoad(l: int)
      requires firstLayer <= l <= lastLayer && After(l - 1) && !needLoad
      ensures After(l)
    {
      assert requestData == [];
      assert TasksOf(l + 1).Keys == {};
    }

    /** Waits for every task of layer l: what fails is given up. */
    method WaitAll(l: int)
      requires firstLayer <= l <= lastLayer && After(l - 1)
      modifies `failed, `invalidBlocks, `done
      ensures RequestsOk() && old(failed) <= failed && FailedAt(l, false) && WaitedUpTo(l)
    {
      assert Distinct(requestData) && Holds(TasksOf(l), l, requestData, failed);
      assert Waited([], l, failed, failed, done, done) && requestData[..0] == [];
      hide Loads, RequestsOk, Distinct, FailedSet, DoneUpTo, LogUpTo, Waited;
      for k := 0 to |requestData|
        invariant RequestsOk() && Waited(requestData[..k], l, old(failed), failed, old(done), done)
      {
        var q := requestData[k];
        TakeNext(requestData, k);
        ghost var failedWas, doneWas := failed, done;
        if q in TasksOf(l) {
          if succeeds(TasksOf(l)[q]) {
            done := done + {TasksOf(l)[q]};
          } else {
            GiveUp(q);
          }
        }
        WaitStep(requestData[..k], q, l, old(failed), failedWas, failed, old(done), doneWas, done);
      }
      assert requestData[..|requestData|] == requestData;
      AllWaited(requestData, l, old(failed), failed, old(done), done);
    }

    /** The tasks of layer l of the requests of `seen` were waited for: they are done, or the request failed. */
    ghost predicate Waited(seen: seq<ReqId>, l: int, failed0: set<ReqId>, failures: set<ReqId>,
                           done0: set<Task>, finished: set<Task>) {
      && failed0 <= failures
      && (forall t :: t in finished <==> t in done0 || (t.layer == l && t.q in seen && t.q !in failures))
      && (forall q :: q in seen ==> (q !in failures <==> q !in failed0 && succeeds(Task(l, q))))
      && (forall q :: q !in seen ==> (q in failures <==> q in failed0))
    }

    lemma WaitStep(seen: seq<ReqId>, q: ReqId, l: int, failed0: set<ReqId>, was: set<ReqId>, now: set<ReqId>,
                   done0: set<Task>, doneWas: set<Task>, doneNow: set<Task>)
      requires Waited(seen, l, failed0, was, done0, doneWas) && q !in seen
      requires q in failed0 ==> now == was && doneNow == doneWas
      requires q !in failed0 && succeeds(Task(l, q)) ==> now == was && doneNow == doneWas + {Task(l, q)}
      requires q !in failed0 && !succeeds(Task(l, q)) ==> now == was + {q} && doneNow == doneWas
      ensures Waited(seen + [q], l, failed0, now, done0, doneNow)
    {
    }

    /** When all tasks were waited for, the failures and the finished tasks are those of this layer. */
    lemma AllWaited(requests: seq<ReqId>, l: int, failed0: set<ReqId>, failures: set<ReqId>,
                    done0: set<Task>, finished: set<Task>)
      requires Waited(requests, l, failed0, failures, done0, finished) && firstLayer <= l
      requires FailedSet(requests, failed0, l - 1, true) && DoneUpTo(requests, done0, l - 1)
      ensures failed0 <= failures && FailedSet(requests, failures, l, false) && DoneUpTo(requests, finished, l)
    {
      forall q { LoadsStep(q, l); }
      hide Loads;
    }

    lemma LoadsStep(q: ReqId, l: int)
      requires firstLayer <= l
      ensures Loads(q, l) <==> Loads(q, l - 1) && accepts(Task(l, q)) && succeeds(Task(l, q))
    {
    }

    /** Hands the reported blocks to the engine and starts a new collection. */
    method TakeLoadErrors() returns (blocks: set<BlockNo>)
      modifies `invalidBlocks
      ensures blocks == old(invalidBlocks) && invalidBlocks == {}
    {
      blocks := invalidBlocks;
      invalidBlocks := {};
    }

    /** A forward pass that waits for every layer in order: at its end each loading request has every layer loaded, or
        the store failed it and all its blocks are reported; and no other block is reported. */
    method ForwardPass(requests: seq<ReqId>, blocks: map<ReqId, set<BlockNo>>) returns (errors: set<BlockNo>)
      requires firstLayer <= lastLayer
      requires Distinct(requests) && forall q :: q in requests ==> q in blocks
      modifies this
      ensures invalidBlocks == {} && Distinct(submitted)
      ensures forall q :: q in requests && blocks[q] != {} && Loads(q, lastLayer) ==> LoadedUpTo(q, lastLayer)
      ensures forall q :: q in requests && !Loads(q, lastLayer) ==> blocks[q] <= errors
      ensures old(invalidBlocks) <= errors
      ensures forall b :: b in errors ==> b in old(invalidBlocks) ||
                                          exists q :: q in requests && !Loads(q, lastLayer) && b in blocks[q]
    {
      hide *;
      StartLoadKv(requests, blocks);
      for l := firstLayer to lastLayer + 1
        invariant After(l - 1) && loadBlocks == blocks && carried == old(invalidBlocks)
        invariant forall q :: q in requestData <==> q in requests && blocks[q] != {}
      {
        WaitForLayerLoad(l);
      }
      PassEnds();
      errors := TakeLoadErrors();
    }
  }
}
