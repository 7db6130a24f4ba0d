/**
 Where every task of a run comes from: each task found was linked from a page fetched before it, one level
 up; and in a run that is not cancelled nothing is set aside, no fetch is cut short, and no batch is lost.
 */
module CrawlTrace {
  import opened Options
  import opened CrawlTypes
  import opened CrawlSystem
  import opened CrawlSafety
  import opened CrawlLedger
  import opened CrawlOnce
  import opened Runs
  import opened Tally

  /** `x` is what a worker makes of one link of the page of `t`. */
  predicate LinkedFrom(web: Web, t: CrawlTask, x: CrawlTask) {
    x.url in LinksOf(web, t.url) && x.originUrl == t.url && x.depth == t.depth + 1
  }

  ghost predicate Linked(p: Params, h: History, x: CrawlTask) {
    exists t :: t in h.fetched && LinkedFrom(p.web, t, x)
  }

  /** A task in a batch is a link of a fetched page, or an accepted task on its way back. */
  ghost predicate Traced(p: Params, h: History, x: CrawlTask) {
    x in p.queue0 || x in h.found || Linked(p, h, x)
  }

  ghost predicate AllTraced(p: Params, h: History, ts: seq<CrawlTask>) {
    forall x :: x in ts ==> Traced(p, h, x)
  }

  ghost predicate WorkerTraced(p: Params, h: History, w: Worker) {
    match w
    case Holding(t) => t in p.queue0 || t in h.found
    case Fetching(t) => t in h.fetched
    case Reporting(r) => TaskOf(r) in h.fetched && (r.links == [] || r.links == LinksOf(p.web, r.url))
    case Posting(b) => AllTraced(p, h, b)
    case _ => true
  }

  ghost predicate Origins(p: Params, s: State) {
    && (forall x :: x in s.hist.found ==> Linked(p, s.hist, x))
    && (forall x :: x in s.hist.fetched ==> x in p.queue0 || x in s.hist.found)
    && (forall b :: b in s.discoveredCh ==> AllTraced(p, s.hist, b))
    && (forall w :: w in s.workers ==> WorkerTraced(p, s.hist, w))
  }

  lemma TracedGrows(p: Params, h: History, h': History, x: CrawlTask)
    requires Traced(p, h, x)
    requires forall y :: y in h.found ==> y in h'.found
    requires forall y :: y in h.fetched ==> y in h'.fetched
    ensures Traced(p, h', x) && (Linked(p, h, x) ==> Linked(p, h', x))
  {}

  lemma OriginsGrow(p: Params, s: State, h': History)
    requires Origins(p, s)
    requires forall y :: y in s.hist.found ==> y in h'.found
    requires forall y :: y in s.hist.fetched ==> y in h'.fetched
    ensures forall x :: x in s.hist.found ==> Linked(p, h', x)
    ensures forall b :: b in s.discoveredCh ==> AllTraced(p, h', b)
    ensures forall w :: w in s.workers ==> WorkerTraced(p, h', w)
  {
    hide Traced, Linked;
    forall x | Traced(p, s.hist, x) ensures Traced(p, h', x) { TracedGrows(p, s.hist, h', x); }
    forall x | x in s.hist.found ensures Linked(p, h', x) { LinkedGrows(p, s.hist, h', x); }
  }

  lemma LinkedGrows(p: Params, h: History, h': History, x: CrawlTask)
    requires Linked(p, h, x)
    requires forall y :: y in h.fetched ==> y in h'.fetched
    ensures Linked(p, h', x)
  {}

  lemma BatchTraced(p: Params, h: History, r: PageRecord)
    requires TaskOf(r) in h.fetched && (r.links == [] || r.links == LinksOf(p.web, r.url))
    ensures AllTraced(p, h, BatchOf(r))
  {
    forall x | x in BatchOf(r) ensures Traced(p, h, x) {
      assert LinkedFrom(p.web, TaskOf(r), x);
    }
  }

  lemma WaitingIsAccepted(p: Params, s: State, t: CrawlTask)
    requires TaskBooks(p, s, t) && t in s.taskCh
    ensures t in p.queue0 || t in s.hist.found
  {
    assert t in multiset(s.taskCh);
  }

  lemma TakeKeepsOrigins(p: Params, s: State, w: nat)
    requires (forall t :: TaskBooks(p, s, t)) && Origins(p, s) && Enabled(p, s, ATake(w))
    ensures Origins(p, Apply(p, s, ATake(w)))
  {
    hide Traced, Linked, TaskBooks;
    assert TaskBooks(p, s, s.taskCh[0]);
    WaitingIsAccepted(p, s, s.taskCh[0]);
  }

  /** Replacing one worker by another that is traced, with histories that only grow. */
  lemma SwapKeepsOrigins(p: Params, s: State, w: nat, x: Worker, s': State)
    requires Origins(p, s) && w < |s.workers| && s'.workers == s.workers[w := x] && WorkerTraced(p, s'.hist, x)
    requires s'.discoveredCh == s.discoveredCh && s'.hist.found == s.hist.found
    requires forall y :: y in s.hist.fetched ==> y in s'.hist.fetched
    requires forall y :: y in s'.hist.fetched ==> y in s.hist.fetched || y in p.queue0 || y in s.hist.found
    ensures Origins(p, s')
  {
    hide Traced, Linked;
    OriginsGrow(p, s, s'.hist);
    hide WorkerTraced, AllTraced;
  }

  lemma CheckCancelKeepsOrigins(p: Params, s: State, w: nat)
    requires Origins(p, s) && w < |s.workers| && s.workers[w].Holding?
    ensures Origins(p, CheckCancel(s, w))
  {
    var s' := CheckCancel(s, w);
    assert WorkerTraced(p, s.hist, s.workers[w]);
    hide Origins, Linked;
    SwapKeepsOrigins(p, s, w, s'.workers[w], s');
  }

  lemma EndFetchKeepsOrigins(p: Params, s: State, w: nat, cut: bool)
    requires Origins(p, s) && w < |s.workers| && s.workers[w].Fetching?
    ensures Origins(p, EndFetch(p, s, w, cut))
  {
    var s' := EndFetch(p, s, w, cut);
    assert WorkerTraced(p, s.hist, s.workers[w]);
    hide Origins, Linked;
    SwapKeepsOrigins(p, s, w, s'.workers[w], s');
  }

  lemma SendRecordKeepsOrigins(p: Params, s: State, w: nat)
    requires Origins(p, s) && w < |s.workers| && s.workers[w].Reporting? && !s.resultsClosed
    ensures Origins(p, SendRecord(s, w))
  {
    var s' := SendRecord(s, w);
    assert WorkerTraced(p, s.hist, s.workers[w]);
    BatchTraced(p, s.hist, s.workers[w].record);
    hide Origins, AllTraced, BatchOf;
    SwapKeepsOrigins(p, s, w, s'.workers[w], s');
  }

  lemma FreeKeepsOrigins(p: Params, s: State, a: Action)
    requires Origins(p, s) && Enabled(p, s, a) && (a.ASendBatch? || a.AExit?)
    ensures Origins(p, Apply(p, s, a))
  {
    assert WorkerTraced(p, s.hist, s.workers[a.w]);
    hide Traced, Linked, AllTraced;
  }

  /** What dedup accepts is a link of a fetched page: an accepted task on its way back is already visited. */
  lemma DedupLinked(p: Params, s: State, batch: seq<CrawlTask>, x: CrawlTask)
    requires Ledger(p, s) && Urls(p.queue0) <= p.visited0 && AllTraced(p, s.hist, batch)
    requires x in Dedup(p.cfg, batch, s.coord.visited).0
    ensures Linked(p, s.hist, x)
  {
    DedupAccepts(p.cfg, batch, s.coord.visited);
    DedupMarks(p.cfg, batch, s.coord.visited);
    hide Dedup, Linked;
    assert x.url in Urls(Dedup(p.cfg, batch, s.coord.visited).0);
  }

  lemma ReceiveKeepsOrigins(p: Params, s: State)
    requires Ledger(p, s) && Urls(p.queue0) <= p.visited0 && Origins(p, s) && s.discoveredCh != []
    ensures Origins(p, ReceiveBatch(p.cfg, s))
  {
    hide Traced, Linked, Dedup, Ledger, AllTraced;
    var s' := ReceiveBatch(p.cfg, s);
    OriginsGrow(p, s, s'.hist);
    forall x | x in s'.hist.found ensures Linked(p, s'.hist, x) {
      if x !in s.hist.found {
        assert s.discoveredCh[0] in s.discoveredCh;
        DedupLinked(p, s, s.discoveredCh[0], x);
        LinkedGrows(p, s.hist, s'.hist, x);
      }
    }
  }

  lemma SameFlowKeepsOrigins(p: Params, s: State, s': State)
    requires Origins(p, s) && SameFlow(s, s')
    ensures Origins(p, s')
  {
    hide Traced, Linked;
    OriginsGrow(p, s, s'.hist);
  }

  ghost predicate SameFlow(s: State, s': State) {
    && s'.workers == s.workers && s'.hist.found == s.hist.found && s'.hist.fetched == s.hist.fetched
    && forall b :: b in s'.discoveredCh ==> b in s.discoveredCh
  }

  lemma TasksKeepFlow(cfg: Config, s: State)
    ensures SameFlow(s, CheckLoop(cfg, s))
    ensures s.coord.phase.Dispatch? ==> SameFlow(s, DispatchNext(cfg, s))
  {
    LoopKeepsPipeline(cfg, s);
    LoopSetsAside(cfg, s);
    TasksKeepPipeline(cfg, s);
    LoopSendsNothing(cfg, s);
    DispatchFindsNothing(cfg, s);
    hide CheckLoop, DispatchNext;
  }

  lemma LoopSendsNothing(cfg: Config, s: State)
    ensures CheckLoop(cfg, s).discoveredCh == s.discoveredCh
  {
    hide Flush;
  }

  lemma DispatchFindsNothing(cfg: Config, s: State)
    ensures s.coord.phase.Dispatch? ==> DispatchNext(cfg, s).discoveredCh == s.discoveredCh && DispatchNext(cfg, s).hist == s.hist
  {}

  lemma OthersKeepFlow(p: Params, s: State, a: Action)
    requires Enabled(p, s, a) && !IsWorkerAction(a) && !a.AReceiveBatch?
    ensures SameFlow(s, Apply(p, s, a))
  {
    TasksKeepFlow(p.cfg, s);
    hide CheckLoop, DispatchNext, Flush;
  }

  lemma OriginsKept(p: Params, s: State, a: Action)
    requires Sound(p, s) && Urls(p.queue0) <= p.visited0 && Origins(p, s) && Enabled(p, s, a)
    ensures Origins(p, Apply(p, s, a))
  {
    hide Origins, Shape, Ledger, TaskBooks, RecordBooks, CheckCancel, EndFetch, SendRecord, ReceiveBatch, Urls;
    if a.ATake? {
      TakeKeepsOrigins(p, s, a.w);
    } else if a.ACheckCancel? {
      CheckCancelKeepsOrigins(p, s, a.w);
    } else if a.AEndFetch? {
      EndFetchKeepsOrigins(p, s, a.w, a.cut);
    } else if a.ASendRecord? {
      NotClosedYet(p, s, a);
      SendRecordKeepsOrigins(p, s, a.w);
    } else if IsWorkerAction(a) {
      FreeKeepsOrigins(p, s, a);
    } else if a.AReceiveBatch? {
      ReceiveKeepsOrigins(p, s);
    } else {
      OthersKeepFlow(p, s, a);
      hide Apply, Enabled;
      SameFlowKeepsOrigins(p, s, Apply(p, s, a));
    }
  }

  /** In every reachable state, every task found was linked from a page fetched one level up. */
  lemma OriginsAlways(p: Params, acts: seq<Action>)
    requires WellFormed(p) && Urls(p.queue0) <= p.visited0 && After(p, acts).Some?
    ensures Origins(p, After(p, acts).value)
  {
    hide Origins, Sound, Enabled, Apply;
    var inv := (s: State) => Sound(p, s) && Origins(p, s);
    forall s, a | inv(s) && Stepper(p)(s, a).Some? ensures inv(Stepper(p)(s, a).value) {
      SoundKept(p, s, a);
      OriginsKept(p, s, a);
    }
    SoundInit(p);
    InitOrigins(p);
    Invariance(Stepper(p), inv, Init(p), acts);
  }

  lemma InitOrigins(p: Params)
    ensures Origins(p, Init(p))
  {}
}
