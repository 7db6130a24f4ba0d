/**
 A stop and the resume after it, as two runs. The second run starts from what the first one stored: the visited rows
 and the saved queue, neither filtered nor deduplicated.
 */
module CrawlResume {
  import opened Options
  import opened CrawlTypes
  import opened CrawlSystem
  import opened CrawlSafety
  import opened CrawlLedger
  import opened CrawlOnce
  import opened CrawlTrace
  import opened CrawlTermination
  import opened CrawlCoverage
  import opened CrawlOutcome
  import opened CrawlShutdown
  import opened CrawlLoss
  import opened CrawlExceptions
  import opened Runs
  import opened Tally

  // ---------- How deep a saved task can be ----------

  ghost predicate AllWithin(ts: seq<CrawlTask>, d: int) { forall t :: t in ts ==> t.depth <= d }

  ghost predicate WorkerWithin(w: Worker, d: int) {
    match w
    case Fetching(t) => t.depth <= d
    case Reporting(r) => r.depth <= d
    case Posting(b) => AllWithin(b, d + 1)
    case _ => true
  }

  /** Fetches stay within `d`, batches and what the drain collects within one level more. */
  ghost predicate Bounded(s: State, d: int) {
    && (forall w :: w in s.workers ==> WorkerWithin(w, d))
    && (forall b :: b in s.discoveredCh ==> AllWithin(b, d + 1))
    && (s.coord.phase.Drain? || Returned(s) ==> AllWithin(s.coord.overflow, d + 1))
  }

  /** Accepted tasks lie within `d`. */
  ghost predicate AcceptedWithin(p: Params, s: State, d: int) {
    (forall t :: TaskBooks(p, s, t)) && AllWithin(Accepted(p, s), d)
  }

  lemma HeldWithin(p: Params, s: State, w: nat, d: int)
    requires AcceptedWithin(p, s, d) && w < |s.workers| && s.workers[w].Holding?
    ensures s.workers[w].task.depth <= d
  {
    var t := s.workers[w].task;
    HolderCounted(s.workers, w);
    assert TaskBooks(p, s, t);
    hide Total;
    assert t in Accepted(p, s);
  }

  lemma QueuedWithin(p: Params, s: State, d: int)
    requires AcceptedWithin(p, s, d) && !s.coord.phase.Drain? && !Returned(s)
    ensures AllWithin(s.coord.overflow, d)
  {
    hide Total;
    forall t | t in s.coord.overflow ensures t.depth <= d {
      assert TaskBooks(p, s, t);
      assert t in multiset(s.coord.overflow);
      assert t in Accepted(p, s);
    }
  }

  lemma CheckCancelKeepsBounded(p: Params, s: State, w: nat, d: int)
    requires AcceptedWithin(p, s, d) && Bounded(s, d) && w < |s.workers| && s.workers[w].Holding?
    ensures Bounded(CheckCancel(s, w), d)
  {
    HeldWithin(p, s, w, d);
    hide AcceptedWithin;
  }

  lemma EndFetchKeepsBounded(p: Params, s: State, w: nat, cut: bool, d: int)
    requires Bounded(s, d) && w < |s.workers| && s.workers[w].Fetching?
    ensures Bounded(EndFetch(p, s, w, cut), d)
  {
    assert s.workers[w] in s.workers;
    assert TaskOf(RecordOf(p.web, s.workers[w].task)) == s.workers[w].task == TaskOf(FailedRecord(s.workers[w].task));
    hide RecordOf, FailedRecord;
  }

  lemma SendRecordKeepsBounded(s: State, w: nat, d: int)
    requires Bounded(s, d) && w < |s.workers| && s.workers[w].Reporting?
    ensures Bounded(SendRecord(s, w), d)
  {
    assert s.workers[w] in s.workers;
  }

  lemma FreeKeepsBounded(p: Params, s: State, a: Action, d: int)
    requires Bounded(s, d) && Enabled(p, s, a) && (a.ATake? || a.ASendBatch? || a.AExit?)
    ensures Bounded(Apply(p, s, a), d)
  {
    assert s.workers[a.w] in s.workers;
    hide AllWithin;
  }

  lemma WorkerKeepsBounded(p: Params, s: State, a: Action, d: int)
    requires AcceptedWithin(p, s, d) && Bounded(s, d) && Enabled(p, s, a) && IsWorkerAction(a)
    ensures Bounded(Apply(p, s, a), d)
  {
    hide AcceptedWithin, Bounded, CheckCancel, EndFetch, SendRecord;
    match a
    case ACheckCancel(w) => CheckCancelKeepsBounded(p, s, w, d);
    case AEndFetch(w, cut) => EndFetchKeepsBounded(p, s, w, cut, d);
    case ASendRecord(w) => SendRecordKeepsBounded(s, w, d);
    case _ => FreeKeepsBounded(p, s, a, d);
  }

  lemma LoopKeepsBounded(p: Params, s: State, d: int)
    requires AcceptedWithin(p, s, d) && Bounded(s, d) && s.coord.phase.Head?
    ensures Bounded(CheckLoop(p.cfg, s), d)
  {
    QueuedWithin(p, s, d);
    LoopKeepsPipeline(p.cfg, s);
    LoopSetsAside(p.cfg, s);
    LoopSendsNothing(p.cfg, s);
    hide CheckLoop, AcceptedWithin, WorkerWithin;
  }

  lemma ReceiveKeepsBounded(p: Params, s: State, d: int)
    requires Bounded(s, d) && InSelect(s) && s.discoveredCh != []
    ensures Bounded(ReceiveBatch(p.cfg, s), d)
  {
    hide WorkerWithin, AllWithin, Dedup;
    var s' := ReceiveBatch(p.cfg, s);
    assert s'.workers == s.workers && !s'.coord.phase.Drain? && !Returned(s');
    assert forall b :: b in s'.discoveredCh ==> b in s.discoveredCh;
  }

  lemma DrainKeepsBounded(s: State, d: int)
    requires Bounded(s, d) && s.coord.phase.Drain? && s.discoveredCh != []
    ensures Bounded(DrainBatch(s), d)
  {
    hide WorkerWithin;
    var s' := DrainBatch(s);
    assert s.discoveredCh[0] in s.discoveredCh;
    assert forall b :: b in s'.discoveredCh ==> b in s.discoveredCh;
  }

  lemma FlushKeepsQueue(cfg: Config, c: Coordinator)
    ensures Flush(cfg, c).overflow == c.overflow && Flush(cfg, c).phase == c.phase
  {}

  predicate SwapsOrMovesBatches(a: Action) {
    IsWorkerAction(a) || a.ACheckLoop? || a.AReceiveBatch? || a.ADrainBatch?
  }

  /** The pipeline of fetches and batches is untouched, and so is the overflow once the drain has begun. */
  lemma OthersKeepBatches(p: Params, s: State, a: Action)
    requires Enabled(p, s, a) && !SwapsOrMovesBatches(a)
    ensures var s' := Apply(p, s, a);
      && s'.workers == s.workers && s'.discoveredCh == s.discoveredCh
      && (s'.coord.phase.Drain? || Returned(s') ==>
          s'.coord.overflow == s.coord.overflow && (s.coord.phase.Drain? || Returned(s) || a.ABeginDrain?))
  {
    if IsIndexerAction(a) {
      IndexerTouchesOnlyResults(p, s, a);
      hide Apply, Enabled;
    } else {
      CoordinatorKeepsBatches(p, s, a);
    }
  }

  lemma CoordinatorKeepsBatches(p: Params, s: State, a: Action)
    requires Enabled(p, s, a) && !SwapsOrMovesBatches(a) && !IsIndexerAction(a)
    ensures var s' := Apply(p, s, a);
      && s'.workers == s.workers && s'.discoveredCh == s.discoveredCh
      && (s'.coord.phase.Drain? || Returned(s') ==>
          s'.coord.overflow == s.coord.overflow && (s.coord.phase.Drain? || Returned(s) || a.ABeginDrain?))
  {
    FlushKeepsQueue(p.cfg, s.coord);
    hide Flush, SetAside;
    match a
    case ACancel =>
    case ASendOverflow =>
    case ADispatchNext =>
    case APersistTick =>
    case ABeginDrain =>
    case AFinishDrain =>
    case ACloseResults =>
    case AFinishRun =>
    case _ =>
  }

  lemma OthersKeepBounded(p: Params, s: State, a: Action, d: int)
    requires AcceptedWithin(p, s, d) && Bounded(s, d)
    requires Enabled(p, s, a) && !SwapsOrMovesBatches(a)
    ensures Bounded(Apply(p, s, a), d)
  {
    if a.ABeginDrain? {
      assert !s.coord.phase.Drain? && !Returned(s);
      QueuedWithin(p, s, d);
    }
    OthersKeepBatches(p, s, a);
    hide Apply, Enabled, AcceptedWithin, WorkerWithin, Returned;
  }

  lemma BoundedKept(p: Params, s: State, a: Action, d: int)
    requires AcceptedWithin(p, s, d) && Bounded(s, d) && Enabled(p, s, a)
    ensures Bounded(Apply(p, s, a), d)
  {
    hide AcceptedWithin, Bounded, CheckLoop, ReceiveBatch, DrainBatch;
    if IsWorkerAction(a) {
      WorkerKeepsBounded(p, s, a, d);
    } else if a.ACheckLoop? {
      LoopKeepsBounded(p, s, d);
    } else if a.AReceiveBatch? {
      ReceiveKeepsBounded(p, s, d);
    } else if a.ADrainBatch? {
      DrainKeepsBounded(s, d);
    } else {
      OthersKeepBounded(p, s, a, d);
    }
  }

  lemma SoundWithin(p: Params, s: State, d: int)
    requires Sound(p, s) && p.cfg.maxDepth <= d && AllWithin(p.queue0, d)
    ensures AcceptedWithin(p, s, d)
  {
    hide TaskBooks, RecordBooks, Shape;
  }

  lemma BoundedAlways(p: Params, acts: seq<Action>, d: int)
    requires WellFormed(p) && After(p, acts).Some? && p.cfg.maxDepth <= d && AllWithin(p.queue0, d)
    ensures Bounded(After(p, acts).value, d)
  {
    hide Sound, Bounded, AllWithin, AcceptedWithin, Enabled, Apply, Init;
    var inv := (s: State) => Sound(p, s) && Bounded(s, d);
    forall s, a | inv(s) && Stepper(p)(s, a).Some? ensures inv(Stepper(p)(s, a).value) {
      SoundKept(p, s, a);
      SoundWithin(p, s, d);
      BoundedKept(p, s, a, d);
    }
    SoundInit(p);
    BoundedInit(p, d);
    Invariance(Stepper(p), inv, Init(p), acts);
  }

  lemma BoundedInit(p: Params, d: int)
    ensures Bounded(Init(p), d)
  {}

  /**
   What any run saves is at most one level deeper than what it was allowed to fetch: MaxDepth, or the deepest task it
   started from.
   */
  lemma {:induction false} SavedWithinOneMore(p: Params, acts: seq<Action>, d: int)
    requires WellFormed(p) && p.cfg.hasDb && After(p, acts).Some? && Returned(After(p, acts).value)
    requires p.cfg.maxDepth <= d && AllWithin(p.queue0, d)
    ensures var s := After(p, acts).value;
      s.coord.savedQueue.Some? && forall t :: t in s.coord.savedQueue.value ==> t.depth <= d + 1
  {
    BoundedAlways(p, acts, d);
    SavedAlways(p, acts);
    hide After, WorkerWithin;
  }

  // ---------- What a resumed run fetches ----------

  /** The queue handed to a resumed session; an empty one gets the session's address back. */
  function ResumeQueue(saved: seq<CrawlTask>, origin: Url): seq<CrawlTask> {
    if saved == [] then [CrawlTask(origin, "", 0)] else saved
  }

  /** The start of the run that resumes a stopped one. */
  function ResumedParams(p: Params, s: State, origin: Url, counts: Counts): Params
    requires s.coord.savedQueue.Some?
  {
    StartParams(p.cfg, p.web, [origin], Some(ResumeState(s.coord.stored, ResumeQueue(s.coord.savedQueue.value, origin))), counts)
  }

  lemma FetchedIsAccepted(p: Params, s: State, t: CrawlTask)
    requires TaskBooks(p, s, t) && t in s.hist.fetched
    ensures t in Accepted(p, s)
  {
    hide Total;
    assert t in multiset(s.hist.fetched);
  }

  /** Whatever a run fetches it was started with, or found unmarked and within MaxDepth. */
  lemma FetchedIsQueuedOrNew(p: Params, acts: seq<Action>, t: CrawlTask)
    requires WellFormed(p) && After(p, acts).Some? && t in After(p, acts).value.hist.fetched
    ensures t in p.queue0 || (t.url !in p.visited0 && t.depth <= p.cfg.maxDepth)
  {
    var s := After(p, acts).value;
    SoundAlways(p, acts);
    hide After;
    FetchedIsAccepted(p, s, t);
    hide Shape, TaskBooks, RecordBooks;
    if t in s.hist.found {
      assert t.url in Urls(s.hist.found);
    }
  }

  /** An unlimited run can fetch all it was started with: nothing of its queue is checked again. */
  lemma SomeRunFetchesQueue(p: Params) returns (acts: seq<Action>)
    requires WellFormed(p) && p.cfg.maxURLs <= 0
    ensures After(p, acts).Some? && forall t :: t in p.queue0 ==> t in After(p, acts).value.hist.fetched
  {
    assert After(p, []).Some? && !After(p, []).value.cancelled;
    acts := CarryOn(p, []);
    EverythingFetched(p, acts);
    var s := After(p, acts).value;
    hide After;
    forall t | t in p.queue0 ensures t in s.hist.fetched {
      assert t in Accepted(p, s);
      assert t in multiset(Accepted(p, s));
      assert t in multiset(s.hist.fetched);
    }
  }

  ghost predicate NeverFetches(p: Params, urls: set<Url>) {
    forall acts :: After(p, acts).Some? ==> Urls(After(p, acts).value.hist.fetched) !! urls
  }

  ghost predicate NeverTooDeep(p: Params) {
    forall acts, t :: After(p, acts).Some? && t in After(p, acts).value.hist.fetched ==> t.depth <= p.cfg.maxDepth
  }

  /** An unlimited run keeps away from URLs marked at its start exactly when its queue holds none of them. */
  lemma {:induction false} NeverFetchesIff(p: Params, urls: set<Url>)
    requires WellFormed(p) && p.cfg.maxURLs <= 0 && urls <= p.visited0
    ensures NeverFetches(p, urls) <==> Urls(p.queue0) !! urls
  {
    hide After, WellFormed;
    if Urls(p.queue0) !! urls {
      forall acts | After(p, acts).Some? ensures Urls(After(p, acts).value.hist.fetched) !! urls {
        forall t | t in After(p, acts).value.hist.fetched ensures t.url !in urls {
          FetchedIsQueuedOrNew(p, acts, t);
        }
      }
    }
    if NeverFetches(p, urls) {
      var acts := SomeRunFetchesQueue(p);
      assert Urls(After(p, acts).value.hist.fetched) !! urls;
    }
  }

  /** And it keeps within MaxDepth exactly when its queue does. */
  lemma {:induction false} NeverTooDeepIff(p: Params)
    requires WellFormed(p) && p.cfg.maxURLs <= 0
    ensures NeverTooDeep(p) <==> AllWithin(p.queue0, p.cfg.maxDepth)
  {
    hide After, WellFormed;
    if AllWithin(p.queue0, p.cfg.maxDepth) {
      forall acts, t | After(p, acts).Some? && t in After(p, acts).value.hist.fetched ensures t.depth <= p.cfg.maxDepth {
        FetchedIsQueuedOrNew(p, acts, t);
      }
    }
    if NeverTooDeep(p) {
      var acts := SomeRunFetchesQueue(p);
    }
  }

  /** A run that has returned, with a database to resume from. */
  ghost predicate Halted(p: Params, acts: seq<Action>) {
    WellFormed(p) && p.cfg.hasDb && After(p, acts).Some? && Returned(After(p, acts).value)
  }

  /** Without a stored row the saved queue is ignored: the second run is a fresh crawl of the session's address. */
  lemma NothingStoredStartsOver(p: Params, s: State, origin: Url, counts: Counts)
    requires s.coord.savedQueue.Some? && s.coord.stored == {}
    ensures ResumedParams(p, s, origin, counts) == FreshParams(p.cfg, p.web, [origin]).(counts0 := counts)
    ensures ResumedParams(p, s, origin, counts).queue0 == [CrawlTask(origin, "", 0)]
    ensures ResumedParams(p, s, origin, counts).visited0 == {origin}
  {
    assert SeedTasks([origin]) == [CrawlTask(origin, "", 0)];
  }

  /** What a stopped run, of any start, leaves for the next one to start from. */
  lemma ResumedStart(p: Params, acts: seq<Action>, origin: Url, counts: Counts)
    requires Halted(p, acts)
    ensures var s := After(p, acts).value;
      && s.coord.savedQueue.Some?
      && var q := ResumedParams(p, s, origin, counts);
        && WellFormed(q) && q.cfg == p.cfg && q.web == p.web && q.counts0 == counts && q.stored0 == s.coord.stored
        && (if s.coord.stored == {} then q.queue0 == [CrawlTask(origin, "", 0)] && q.visited0 == {origin}
            else q.queue0 == ResumeQueue(s.coord.savedQueue.value, origin) && q.visited0 == s.coord.stored)
  {
    SavedAlways(p, acts);
    hide After;
    var s := After(p, acts).value;
    if s.coord.stored == {} {
      NothingStoredStartsOver(p, s, origin, counts);
    } else {
      assert |s.coord.stored| > 0;
    }
  }

  /** The first run of a session: fresh, and returned. */
  ghost predicate Resumable(p: Params, acts: seq<Action>, origin: Url) {
    Halted(p, acts) && FreshStart(p) && p.stored0 == {} && origin in p.visited0
  }

  /** What the first run has fetched, its seeds aside. */
  ghost function FetchedBeyondSeeds(p: Params, s: State): set<Url> { Urls(s.hist.fetched) - p.visited0 }

  lemma FetchedIsStored(p: Params, acts: seq<Action>, origin: Url)
    requires Resumable(p, acts, origin)
    ensures FetchedBeyondSeeds(p, After(p, acts).value) <= After(p, acts).value.coord.stored
  {
    AtMostOneFetch(p, acts);
    FetchedInHand(After(p, acts).value);
    StoredTracksVisited(p, acts);
    hide After, FreshStart, InHandOrFetched;
  }

  /**
   Over a stop and a resume without a URL limit, no page but a seed is fetched a second time under any schedule of the
   second run exactly when no saved task leads to a page the first run has fetched. The drain saves link batches
   unfiltered, so it can save such tasks.
   */
  lemma {:induction false} ResumeRefetchesIff(p: Params, acts: seq<Action>, origin: Url, counts: Counts)
    requires Resumable(p, acts, origin) && p.cfg.maxURLs <= 0
    ensures var s := After(p, acts).value;
      && s.coord.savedQueue.Some?
      && (NeverFetches(ResumedParams(p, s, origin, counts), FetchedBeyondSeeds(p, s))
          <==> forall t :: t in s.coord.savedQueue.value ==> t.url !in FetchedBeyondSeeds(p, s))
  {
    var s := After(p, acts).value;
    ResumedStart(p, acts, origin, counts);
    FetchedIsStored(p, acts, origin);
    hide After, FreshStart, NeverFetches, WellFormed;
    var q := ResumedParams(p, s, origin, counts);
    hide ResumedParams;
    if s.coord.stored == {} {
      assert FetchedBeyondSeeds(p, s) == {};
    }
    NeverFetchesIff(q, FetchedBeyondSeeds(p, s));
    hide NeverFetches;
    QueueAvoids(s.coord.savedQueue.value, origin, FetchedBeyondSeeds(p, s));
  }

  lemma QueueAvoids(saved: seq<CrawlTask>, origin: Url, urls: set<Url>)
    requires origin !in urls
    ensures Urls(ResumeQueue(saved, origin)) !! urls <==> forall t :: t in saved ==> t.url !in urls
  {}

  /** No saved task is shallower than the shallowest the run started from. */
  lemma SavedNotAbove(p: Params, acts: seq<Action>)
    requires Halted(p, acts)
    ensures var saved := After(p, acts).value.coord.savedQueue;
      saved.Some? && forall t :: t in saved.value ==> t.depth >= MinDepth(p.queue0)
  {
    SavedAlways(p, acts);
    PlacementAlways(p, acts);
    hide After, MinDepth, WorkerPlaced;
  }

  /**
   The second run keeps within MaxDepth exactly when MaxDepth is not negative and either no row was stored, which makes
   it start over, or every saved task lies within MaxDepth. No saved task lies more than one level beyond.
   */
  lemma {:induction false} ResumeTooDeepIff(p: Params, acts: seq<Action>, origin: Url, counts: Counts)
    requires Resumable(p, acts, origin) && p.cfg.maxURLs <= 0
    ensures var s := After(p, acts).value;
      && s.coord.savedQueue.Some?
      && (NeverTooDeep(ResumedParams(p, s, origin, counts)) <==>
          p.cfg.maxDepth >= 0 && (s.coord.stored == {} || AllWithin(s.coord.savedQueue.value, p.cfg.maxDepth)))
      && AllWithin(s.coord.savedQueue.value, (if p.cfg.maxDepth < 0 then 0 else p.cfg.maxDepth) + 1)
  {
    var s := After(p, acts).value;
    ResumedStart(p, acts, origin, counts);
    SavedWithinOneMore(p, acts, if p.cfg.maxDepth < 0 then 0 else p.cfg.maxDepth);
    SavedNotAbove(p, acts);
    MinDepthZero(p.queue0);
    hide After, FreshStart, NeverTooDeep, WellFormed, MinDepth;
    var q := ResumedParams(p, s, origin, counts);
    hide ResumedParams;
    NeverTooDeepIff(q);
    assert q.queue0[0] in q.queue0 && q.queue0[0].depth >= 0;
  }
}
