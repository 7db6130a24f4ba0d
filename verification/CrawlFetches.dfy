/**
 How fetches end. A fetch that runs to its end leaves the record of its page; one that cancellation cuts short
 leaves an error record, and its page is never indexed.
 */
module CrawlFetches {
  import opened Options
  import opened CrawlTypes
  import opened CrawlSystem
  import opened CrawlSafety
  import opened CrawlLedger
  import opened CrawlOnce
  import opened CrawlTrace
  import opened CrawlTermination
  import opened CrawlCoverage
  import opened CrawlOutcome
  import opened Runs
  import opened Tally

  // ---------- Every fetch ends once ----------

  function Fetches(t: CrawlTask): Worker -> nat {
    w => if w == Fetching(t) then 1 else 0
  }

  /** A fetch started is under way, completed or cut short. */
  ghost predicate FetchBooks(s: State, t: CrawlTask) {
    Total(s.workers, Fetches(t)) + multiset(s.hist.completed)[t] + multiset(s.hist.aborted)[t] == multiset(s.hist.fetched)[t]
  }

  lemma CheckCancelKeepsFetchBooks(s: State, w: nat, t: CrawlTask)
    requires FetchBooks(s, t) && w < |s.workers| && s.workers[w].Holding?
    ensures FetchBooks(CheckCancel(s, w), t)
  {
    hide Total;
    var task := s.workers[w].task;
    if s.cancelled {
      TotalUpdate(s.workers, w, Posting([task]), Fetches(t));
    } else {
      TotalUpdate(s.workers, w, Fetching(task), Fetches(t));
      LastCount(s.hist.fetched, task, t);
    }
  }

  lemma EndFetchKeepsFetchBooks(p: Params, s: State, w: nat, cut: bool, t: CrawlTask)
    requires FetchBooks(s, t) && w < |s.workers| && s.workers[w].Fetching?
    ensures FetchBooks(EndFetch(p, s, w, cut), t)
  {
    var task, s' := s.workers[w].task, EndFetch(p, s, w, cut);
    EndFetchEnds(p, s, w, cut);
    TotalUpdate(s.workers, w, s'.workers[w], Fetches(t));
    LastCount(if cut then s.hist.aborted else s.hist.completed, task, t);
    hide Total, EndFetch;
  }

  lemma EndFetchEnds(p: Params, s: State, w: nat, cut: bool)
    requires w < |s.workers| && s.workers[w].Fetching?
    ensures var s', task := EndFetch(p, s, w, cut), s.workers[w].task;
      && |s'.workers| == |s.workers| && s'.workers == s.workers[w := s'.workers[w]] && s'.workers[w].Reporting?
      && s'.hist.fetched == s.hist.fetched
      && s'.hist.aborted == (if cut then s.hist.aborted + [task] else s.hist.aborted)
      && s'.hist.completed == (if cut then s.hist.completed else s.hist.completed + [task])
  {
    hide RecordOf, FailedRecord;
  }

  predicate EndsOrStartsFetch(a: Action) { a.ACheckCancel? || a.AEndFetch? }

  lemma OtherWorkerKeepsFetchBooks(p: Params, s: State, a: Action, t: CrawlTask)
    requires FetchBooks(s, t) && Enabled(p, s, a) && IsWorkerAction(a) && !EndsOrStartsFetch(a)
    ensures FetchBooks(Apply(p, s, a), t)
  {
    OtherWorkerSwaps(p, s, a);
    var s' := Apply(p, s, a);
    hide Total, Apply, Enabled;
    TotalUpdate(s.workers, a.w, s'.workers[a.w], Fetches(t));
  }

  lemma OtherWorkerSwaps(p: Params, s: State, a: Action)
    requires Enabled(p, s, a) && IsWorkerAction(a) && !EndsOrStartsFetch(a)
    ensures var s' := Apply(p, s, a);
      && a.w < |s.workers| && |s'.workers| == |s.workers| && s'.workers == s.workers[a.w := s'.workers[a.w]]
      && !s.workers[a.w].Fetching? && !s'.workers[a.w].Fetching? && s'.hist == s.hist
  {
    hide BatchOf;
    match a
    case ATake(w) =>
    case ASendRecord(w) =>
    case ASendBatch(w) =>
    case AExit(w) =>
    case _ =>
  }

  /** The coordinator and the indexer leave the fetches alone. */
  lemma OthersFetchNothing(p: Params, s: State, a: Action)
    requires Enabled(p, s, a) && !IsWorkerAction(a)
    ensures var s' := Apply(p, s, a);
      && s'.workers == s.workers && s'.hist.fetched == s.hist.fetched
      && s'.hist.completed == s.hist.completed && s'.hist.aborted == s.hist.aborted
  {
    if IsIndexerAction(a) {
      hide Flush, Accept, Dedup;
    } else {
      OthersKeepPipeline(p, s, a);
      OthersCompleteNothing(p, s, a);
      hide Apply, Enabled;
    }
  }

  lemma LoopCompletesNothing(cfg: Config, s: State)
    ensures CheckLoop(cfg, s).hist.completed == s.hist.completed
  {
    hide Flush;
  }

  lemma OthersCompleteNothing(p: Params, s: State, a: Action)
    requires Enabled(p, s, a) && !IsWorkerAction(a) && !IsIndexerAction(a)
    ensures Apply(p, s, a).hist.completed == s.hist.completed
  {
    LoopCompletesNothing(p.cfg, s);
    hide CheckLoop, Flush, Accept, Dedup;
  }

  lemma FetchBooksKept(p: Params, s: State, a: Action, t: CrawlTask)
    requires FetchBooks(s, t) && Enabled(p, s, a)
    ensures FetchBooks(Apply(p, s, a), t)
  {
    hide Total, FetchBooks, CheckCancel, EndFetch;
    if a.ACheckCancel? {
      CheckCancelKeepsFetchBooks(s, a.w, t);
    } else if a.AEndFetch? {
      EndFetchKeepsFetchBooks(p, s, a.w, a.cut, t);
    } else if IsWorkerAction(a) {
      OtherWorkerKeepsFetchBooks(p, s, a, t);
    } else {
      OthersFetchNothing(p, s, a);
      hide Apply, Enabled;
      SameFetches(s, Apply(p, s, a), t);
    }
  }

  lemma SameFetches(s: State, s': State, t: CrawlTask)
    requires FetchBooks(s, t) && s'.workers == s.workers && s'.hist.fetched == s.hist.fetched
    requires s'.hist.completed == s.hist.completed && s'.hist.aborted == s.hist.aborted
    ensures FetchBooks(s', t)
  {
    hide Total;
  }

  lemma FetchBooksAlways(p: Params, acts: seq<Action>, t: CrawlTask)
    requires After(p, acts).Some?
    ensures FetchBooks(After(p, acts).value, t)
  {
    hide FetchBooks, Enabled, Apply, Init;
    var inv := (s: State) => FetchBooks(s, t);
    forall s, a | inv(s) && Stepper(p)(s, a).Some? ensures inv(Stepper(p)(s, a).value) {
      FetchBooksKept(p, s, a, t);
    }
    FetchBooksInit(p, t);
    Invariance(Stepper(p), inv, Init(p), acts);
  }

  lemma FetchBooksInit(p: Params, t: CrawlTask)
    ensures FetchBooks(Init(p), t)
  {
    TotalZero(Init(p).workers, Fetches(t));
  }

  /** Once the coordinator has returned, every fetch started has been completed or cut short, exactly one of the two. */
  lemma {:induction false} EveryFetchEnded(p: Params, acts: seq<Action>, t: CrawlTask)
    requires WellFormed(p) && After(p, acts).Some? && Returned(After(p, acts).value)
    ensures var h := After(p, acts).value.hist; multiset(h.completed)[t] + multiset(h.aborted)[t] == multiset(h.fetched)[t]
  {
    FetchBooksAlways(p, acts, t);
    QuietAfterReturn(p, acts);
    hide After;
    TotalZero(After(p, acts).value.workers, Fetches(t));
    hide Total;
  }

  /** Without cancellation every accepted task is fetched to the end: fresh, or from any start without a URL limit. */
  lemma EverythingCompleted(p: Params, acts: seq<Action>)
    requires WellFormed(p) && (FreshStart(p) || p.cfg.maxURLs <= 0) && RanToEnd(p, acts)
    ensures var s := After(p, acts).value; multiset(s.hist.completed) == multiset(Accepted(p, s))
  {
    var s := After(p, acts).value;
    SteadyAlways(p, acts);
    EverythingFetched(p, acts);
    forall t ensures multiset(s.hist.completed)[t] == multiset(s.hist.fetched)[t] { EveryFetchEnded(p, acts, t); }
    hide After, Accepted;
  }

  // ---------- What a fetch leaves behind ----------

  /** The record is on its way to the index, or has arrived. */
  ghost predicate Delivered(s: State, r: PageRecord) {
    Reporting(r) in s.workers || r in s.resultsCh || s.indexer.pc == Adding(r) || r in s.hist.done
  }

  ghost predicate AllDelivered(p: Params, s: State) {
    && (forall t :: t in s.hist.completed ==> Delivered(s, RecordOf(p.web, t)))
    && (forall t :: t in s.hist.aborted ==> Delivered(s, FailedRecord(t)))
  }

  lemma WorkerKeepsDelivered(p: Params, s: State, a: Action, r: PageRecord)
    requires Shape(p, s) && Enabled(p, s, a) && IsWorkerAction(a) && Delivered(s, r)
    ensures Delivered(Apply(p, s, a), r)
  {
    var s' := Apply(p, s, a);
    WorkerSwaps(p, s, a);
    hide Apply, Enabled, Shape;
    if Reporting(r) in s.workers && Reporting(r) != s.workers[a.w] {
      StillIn(s.workers, a.w, s'.workers[a.w], Reporting(r));
    }
  }

  lemma WorkerSwaps(p: Params, s: State, a: Action)
    requires Shape(p, s) && Enabled(p, s, a) && IsWorkerAction(a)
    ensures var s' := Apply(p, s, a);
      && a.w < |s.workers| && |s'.workers| == |s.workers| && s'.workers == s.workers[a.w := s'.workers[a.w]]
      && s'.indexer == s.indexer && s'.hist.done == s.hist.done
      && (a.ASendRecord? ==> s'.resultsCh == s.resultsCh + [s.workers[a.w].record])
      && (!a.ASendRecord? ==> s'.resultsCh == s.resultsCh && !s.workers[a.w].Reporting?)
      && (a.AEndFetch? ==> s'.workers[a.w] == Reporting(if a.cut then FailedRecord(s.workers[a.w].task) else RecordOf(p.web, s.workers[a.w].task)))
      && s'.hist.completed == (if a.AEndFetch? && !a.cut then s.hist.completed + [s.workers[a.w].task] else s.hist.completed)
      && s'.hist.aborted == (if a.AEndFetch? && a.cut then s.hist.aborted + [s.workers[a.w].task] else s.hist.aborted)
  {
    NotClosedYet(p, s, a);
    WorkerMoves(p, s, a);
    WorkerTouchesOnlyFlow(p, s, a);
    hide RecordOf, FailedRecord, BatchOf, Total, Shape, SetAside;
    match a
    case ATake(w) =>
    case ACheckCancel(w) =>
    case AEndFetch(w, cut) =>
    case ASendRecord(w) =>
    case ASendBatch(w) =>
    case AExit(w) =>
  }

  lemma WorkerKeepsAllDelivered(p: Params, s: State, a: Action)
    requires Shape(p, s) && AllDelivered(p, s) && Enabled(p, s, a) && IsWorkerAction(a)
    ensures AllDelivered(p, Apply(p, s, a))
  {
    var s' := Apply(p, s, a);
    WorkerSwaps(p, s, a);
    forall r | Delivered(s, r) ensures Delivered(s', r) { WorkerKeepsDelivered(p, s, a, r); }
    hide Apply, Enabled, Shape, RecordOf, FailedRecord;
    if a.AEndFetch? {
      var t := s.workers[a.w].task;
      assert s'.workers[a.w] in s'.workers;
      assert Delivered(s', if a.cut then FailedRecord(t) else RecordOf(p.web, t));
    }
    hide Delivered;
  }

  lemma IndexerKeepsDelivered(p: Params, s: State, a: Action, r: PageRecord)
    requires Enabled(p, s, a) && IsIndexerAction(a) && Delivered(s, r)
    ensures Delivered(Apply(p, s, a), r)
  {
    match a
    case AReceiveRecord => assert s.resultsCh == [s.resultsCh[0]] + s.resultsCh[1..];
    case AAddRecord =>
    case AFlushTick =>
    case AStopIndexer =>
  }

  lemma AllDeliveredKept(p: Params, s: State, a: Action)
    requires Shape(p, s) && AllDelivered(p, s) && Enabled(p, s, a)
    ensures AllDelivered(p, Apply(p, s, a))
  {
    hide Shape, RecordOf, FailedRecord;
    if IsWorkerAction(a) {
      hide AllDelivered, Apply, Enabled;
      WorkerKeepsAllDelivered(p, s, a);
    } else if IsIndexerAction(a) {
      OthersFetchNothing(p, s, a);
      forall r | Delivered(s, r) ensures Delivered(Apply(p, s, a), r) { IndexerKeepsDelivered(p, s, a, r); }
      hide Delivered, Apply, Enabled;
    } else {
      OthersFetchNothing(p, s, a);
      OthersKeepPipeline(p, s, a);
      hide Apply, Enabled;
    }
  }

  lemma AllDeliveredAlways(p: Params, acts: seq<Action>)
    requires WellFormed(p) && After(p, acts).Some?
    ensures AllDelivered(p, After(p, acts).value)
  {
    hide Sound, AllDelivered, Enabled, Apply;
    var inv := (s: State) => Sound(p, s) && AllDelivered(p, s);
    forall s, a | inv(s) && Stepper(p)(s, a).Some? ensures inv(Stepper(p)(s, a).value) {
      SoundKept(p, s, a);
      ShapeOf(p, s);
      AllDeliveredKept(p, s, a);
    }
    SoundInit(p);
    NothingEnded(p);
    Invariance(Stepper(p), inv, Init(p), acts);
  }

  lemma NothingEnded(p: Params)
    ensures AllDelivered(p, Init(p))
  {}

  ghost predicate Over(p: Params, acts: seq<Action>) {
    After(p, acts).Some? && After(p, acts).value.coord.phase.Finished?
  }

  /** At the end of any run, cancelled or not, a fetch that was completed has its page's record indexed, if it has a page. */
  lemma {:induction false} CompletedIsIndexed(p: Params, acts: seq<Action>, t: CrawlTask)
    requires WellFormed(p) && Over(p, acts) && t in After(p, acts).value.hist.completed
    ensures RecordOf(p.web, t) in After(p, acts).value.hist.done
    ensures RecordOf(p.web, t) in After(p, acts).value.indexer.docs <==> p.web(t.url).Fetched?
  {
    var s := After(p, acts).value;
    AllDeliveredAlways(p, acts);
    QuietAfterReturn(p, acts);
    SoundAlways(p, acts);
    hide After;
    SoundHasDocs(p, s);
    hide Sound;
    assert Delivered(s, RecordOf(p.web, t));
    SucceededAre(s.hist.done, RecordOf(p.web, t));
  }

  lemma SoundHasDocs(p: Params, s: State)
    requires Sound(p, s)
    ensures s.indexer.docs == Succeeded(s.hist.done)
  {}

  /** One that was cut short has left an error record, and no document of its URL is ever indexed. */
  lemma {:induction false} CutShortIsNeverIndexed(p: Params, acts: seq<Action>, t: CrawlTask)
    requires WellFormed(p) && Over(p, acts) && t in After(p, acts).value.hist.aborted
    requires DistinctUrls(p.queue0) && Urls(p.queue0) <= p.visited0
    ensures FailedRecord(t) in After(p, acts).value.hist.done
    ensures forall r :: r in After(p, acts).value.indexer.docs ==> r.url != t.url
  {
    var s := After(p, acts).value;
    AllDeliveredAlways(p, acts);
    QuietAfterReturn(p, acts);
    SoundAlways(p, acts);
    AtMostOneRecord(p, acts);
    hide After;
    SoundHasDocs(p, s);
    hide Sound;
    assert Delivered(s, FailedRecord(t));
    forall r | r in s.indexer.docs ensures r.url != t.url {
      SucceededAre(s.hist.done, r);
      OneRecordPerUrl(s.hist.done, r, FailedRecord(t));
    }
  }

  lemma OneRecordPerUrl(rs: seq<PageRecord>, r: PageRecord, q: PageRecord)
    requires DistinctUrls(TasksOf(rs)) && r in rs && q in rs && r != q
    ensures r.url != q.url
  {
    var i :| 0 <= i < |rs| && rs[i] == r;
    var j :| 0 <= j < |rs| && rs[j] == q;
    assert TasksOf(rs)[i].url != TasksOf(rs)[j].url;
  }
}
