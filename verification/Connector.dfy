/** The scheduler-side connector object: it records a match per request and turns scheduled steps into dispatches. */
module Connector {
  import opened Residues
  import opened ChainedHash
  import opened Dispatch
  import opened Options

  /** A request scheduled in a step: new and resumed requests load, continued ones do not. */
  datatype Scheduled = Scheduled(q: ReqId, blocks: seq<BlockNo>, tokens: nat, needLoad: bool)

  ghost predicate DistinctRequests(reqs: seq<Scheduled>) {
    forall i, j :: 0 <= i < j < |reqs| ==> reqs[i].q != reqs[j].q
  }

  /** The dispatch of one scheduled request from its own record. */
  function Own(cfg: Config, metas: map<ReqId, RequestMeta>, r: Scheduled): (RequestMeta, DispatchMeta)
    requires cfg.size > 0 && r.q in metas
  {
    Dispatched(cfg, metas[r.q], r.tokens, r.blocks, r.needLoad)
  }

  class DirectConnector {
    const hasher: Hasher
    const cfg: Config
    var requestsMeta: map<ReqId, RequestMeta>

    ghost predicate Valid() {
      hasher.size > 0 && cfg.cp > 0 && cfg.size == Span(hasher.size, cfg.cp) && cfg.size > 0
    }

    constructor (hasher: Hasher, cfg: Config)
      requires hasher.size > 0 && cfg.cp > 0 && cfg.size == Span(hasher.size, cfg.cp) && cfg.size > 0
      ensures Valid() && requestsMeta == map[] && this.hasher == hasher && this.cfg == cfg
    {
      this.hasher, this.cfg, requestsMeta := hasher, cfg, map[];
    }

    /** `lookup` is the store's answer for the ids past the HBM hits: how many leading ones it has, None on error. */
    method GetNumNewMatchedTokens(q: ReqId, tokens: seq<Token>, numComputed: nat, lookup: seq<BlockId> -> Option<nat>)
      returns (external: int)
      requires Valid() && numComputed % cfg.size == 0
      modifies this
      ensures var ids, hbm := BlockIds(hasher, tokens), numComputed / cfg.size;
              var out := Match(cfg, ids, |tokens|, hbm, lookup(Slice(ids, Span(cfg.cp, hbm), |ids|)));
              && (out.Skipped? ==> external == 0 && requestsMeta == old(requestsMeta))
              && (out.Recorded? ==> external == out.newTokens && requestsMeta == old(requestsMeta)[q := out.meta])
      // in terms of the store's answer: too short a request is skipped, and any other is recorded
      ensures var ids, hbm := BlockIds(hasher, tokens), numComputed / cfg.size;
              if TooShort(cfg, ids, |tokens|, hbm) then external == 0 && requestsMeta == old(requestsMeta)
              else
                && q in requestsMeta && requestsMeta - {q} == old(requestsMeta) - {q}
                && Reports(cfg, ids, |tokens|, hbm, lookup(ids[Span(cfg.cp, hbm)..]), requestsMeta[q], external)
    {
      hide Reports, Span, BlockIds, IsIdList;
      var hbmHit := numComputed / cfg.size;
      var ids := GenerateHash(hasher, tokens);
      if cfg.threshold > |tokens| { return 0; }
      var externalIds := Slice(ids, Span(cfg.cp, hbmHit), |ids|);
      if externalIds == [] { return 0; }
      assert externalIds == ids[Span(cfg.cp, hbmHit)..];
      var found := lookup(externalIds);
      MatchReports(cfg, ids, |tokens|, hbmHit, found);
      var externalHit := if found.None? then 0 else found.value / cfg.cp;
      var totalHit := hbmHit + externalHit;
      external := Span(cfg.size, externalHit);
      var hitTokens := Span(cfg.size, totalHit);
      if hitTokens == |tokens| {
        external := external - 1;
      }
      var meta := RequestMeta(ids, hbmHit, totalHit, |tokens|, [], hitTokens);
      RestKept(requestsMeta, q, meta);
      requestsMeta := requestsMeta[q := meta];
    }

    static lemma RestKept(metas: map<ReqId, RequestMeta>, q: ReqId, meta: RequestMeta)
      ensures metas[q := meta] - {q} == metas - {q}
    {
    }

    /** Extends the recorded blocks and advances the processed tokens of one request. */
    method GenerateDispatchMeta(q: ReqId, newTokens: nat, blocks: seq<BlockNo>, needLoad: bool)
      returns (d: DispatchMeta)
      requires Valid() && q in requestsMeta
      modifies this
      ensures var out := Dispatched(cfg, old(requestsMeta[q]), newTokens, blocks, needLoad);
              d == out.1 && requestsMeta == old(requestsMeta)[q := out.0]
      // each block with its own ids, and nothing is both loaded and dumped
      ensures Consistent(cfg, old(requestsMeta[q]), newTokens, blocks, needLoad) ==>
                DispatchRight(cfg, old(requestsMeta[q]), newTokens, blocks, needLoad, d)
    {
      if Consistent(cfg, requestsMeta[q], newTokens, blocks, needLoad) {
        DispatchedIsRight(cfg, requestsMeta[q], newTokens, blocks, needLoad);
      }
      hide Consistent, DispatchRight;
      var meta := requestsMeta[q];
      meta := meta.(blocks := meta.blocks + blocks);
      var loadIds, loadBlocks, dumpIds, dumpBlocks := [], [], [], [];
      if needLoad {
        loadIds := Slice(meta.ids, Span(cfg.cp, meta.hbmHit), Span(cfg.cp, meta.totalHit));
        loadBlocks := Slice(blocks, meta.hbmHit, meta.totalHit);
      }
      if meta.processed < meta.numTokens {
        var start := WholeBlocks(cfg.size, meta.processed);
        var end := WholeBlocks(cfg.size, meta.processed + newTokens);
        dumpIds := Slice(meta.ids, Span(cfg.cp, start), Span(cfg.cp, end));
        dumpBlocks := Slice(meta.blocks, start, end);
        meta := meta.(processed := meta.processed + newTokens);
      }
      requestsMeta := requestsMeta[q := meta];
      d := DispatchMeta(loadIds, loadBlocks, dumpIds, dumpBlocks);
    }

    /** One scheduler output: every scheduled request that is tracked gets the dispatch of its own record, requests
        without a record get none, and finished requests are forgotten. */
    method BuildConnectorMeta(reqs: seq<Scheduled>, finished: set<ReqId>) returns (out: map<ReqId, DispatchMeta>)
      requires Valid() && DistinctRequests(reqs)
      modifies this
      ensures forall i :: 0 <= i < |reqs| ==>
                (reqs[i].q in out <==> reqs[i].q in old(requestsMeta))
      ensures forall i :: 0 <= i < |reqs| && reqs[i].q in old(requestsMeta) ==>
                out[reqs[i].q] == Own(cfg, old(requestsMeta), reqs[i]).1
      ensures forall i :: 0 <= i < |reqs| && reqs[i].q in old(requestsMeta) && reqs[i].q !in finished ==>
                reqs[i].q in requestsMeta && requestsMeta[reqs[i].q] == Own(cfg, old(requestsMeta), reqs[i]).0
      ensures forall q :: q in out ==> exists i :: 0 <= i < |reqs| && reqs[i].q == q
      ensures requestsMeta.Keys == old(requestsMeta).Keys - finished
      ensures forall q :: q in requestsMeta && (forall i :: 0 <= i < |reqs| ==> reqs[i].q != q) ==>
                requestsMeta[q] == old(requestsMeta)[q]
    {
      hide Dispatched;
      ghost var metas := requestsMeta;
      out := map[];
      for k := 0 to |reqs|
        invariant requestsMeta.Keys == metas.Keys
        invariant forall i :: 0 <= i < k ==> (reqs[i].q in out <==> reqs[i].q in metas)
        invariant forall i :: 0 <= i < k && reqs[i].q in metas ==>
                    (requestsMeta[reqs[i].q], out[reqs[i].q]) == Own(cfg, metas, reqs[i])
        invariant forall q :: q in out ==> exists i :: 0 <= i < k && reqs[i].q == q
        invariant forall q :: q in metas && (forall i :: 0 <= i < k ==> reqs[i].q != q) ==> requestsMeta[q] == metas[q]
      {
        var r := reqs[k];
        if r.q in requestsMeta {
          var d := GenerateDispatchMeta(r.q, r.tokens, r.blocks, r.needLoad);
          out := out[r.q := d];
        }
      }
      requestsMeta := requestsMeta - finished;
    }
  }
}
