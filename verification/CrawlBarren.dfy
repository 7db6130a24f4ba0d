/**
 Runs that find nothing new: every page they start from is too deep to be expanded, or links to nothing. Until
 cancellation such a run accepts nothing, and it never fetches more than it was started with.
 */
module CrawlBarren {
  import opened Options
  import opened CrawlTypes
  import opened CrawlSystem
  import opened CrawlSafety
  import opened CrawlLedger
  import opened CrawlTermination
  import opened CrawlCoverage
  import opened CrawlFetches
  import opened Runs

  /** Nothing the page of `t` links to can be accepted. */
  predicate Barren(p: Params, t: CrawlTask) { t.depth >= p.cfg.maxDepth || LinksOf(p.web, t.url) == [] }

  ghost predicate AllBarren(p: Params, ts: seq<CrawlTask>) { forall t :: t in ts ==> Barren(p, t) }

  ghost predicate AllTooDeep(p: Params, ts: seq<CrawlTask>) { forall t :: t in ts ==> t.depth > p.cfg.maxDepth }

  ghost predicate WorkerBarren(p: Params, w: Worker) {
    match w
    case Holding(t) => Barren(p, t)
    case Fetching(t) => Barren(p, t)
    case Reporting(r) => AllTooDeep(p, BatchOf(r))
    case Posting(b) => AllTooDeep(p, b)
    case _ => true
  }

  /** Nothing was found, and nothing on its way can be accepted. */
  ghost predicate NothingFound(p: Params, s: State) {
    && s.hist.found == [] && AllBarren(p, s.taskCh) && AllBarren(p, s.coord.overflow)
    && (s.coord.phase.Dispatch? ==> s.coord.phase.rest == [])
    && (forall b :: b in s.discoveredCh ==> AllTooDeep(p, b))
    && (forall w :: w in s.workers ==> WorkerBarren(p, w))
  }

  lemma {:induction false} DedupTooDeep(p: Params, batch: seq<CrawlTask>, visited: set<Url>)
    requires AllTooDeep(p, batch)
    ensures Dedup(p.cfg, batch, visited) == ([], visited)
    decreases |batch|
  {
    if batch != [] {
      assert batch[0] in batch;
      DedupTooDeep(p, batch[1..], visited);
    }
  }

  lemma BarrenRecord(p: Params, t: CrawlTask, cut: bool)
    requires Barren(p, t)
    ensures AllTooDeep(p, BatchOf(if cut then FailedRecord(t) else RecordOf(p.web, t)))
  {}

  /** What a worker turns into while nobody has cancelled. */
  lemma WorkerStaysBarren(p: Params, s: State, a: Action)
    requires NothingFound(p, s) && Enabled(p, s, a) && IsWorkerAction(a) && !s.cancelled && !s.resultsClosed
    ensures WorkerBarren(p, Apply(p, s, a).workers[a.w])
  {
    assert s.workers[a.w] in s.workers;
    assert WorkerBarren(p, s.workers[a.w]);
    hide AllTooDeep, RecordOf, FailedRecord, BatchOf, Barren;
    match a
    case ATake(w) =>
    case ACheckCancel(w) =>
    case AEndFetch(w, cut) => BarrenRecord(p, s.workers[w].task, cut);
    case ASendRecord(w) =>
    case ASendBatch(w) =>
    case AExit(w) =>
  }

  lemma WorkerSends(p: Params, s: State, a: Action)
    requires Enabled(p, s, a) && IsWorkerAction(a) && !s.resultsClosed
    ensures Apply(p, s, a).discoveredCh == s.discoveredCh
      || (s.workers[a.w].Posting? && Apply(p, s, a).discoveredCh == s.discoveredCh + [s.workers[a.w].batch])
  {
    hide RecordOf, FailedRecord, BatchOf, SetAside;
    match a
    case ATake(w) =>
    case ACheckCancel(w) =>
    case AEndFetch(w, cut) =>
    case ASendRecord(w) =>
    case ASendBatch(w) =>
    case AExit(w) =>
  }

  lemma WorkerKeepsNothingFound(p: Params, s: State, a: Action)
    requires Shape(p, s) && NothingFound(p, s) && Enabled(p, s, a) && IsWorkerAction(a) && !s.cancelled
    ensures NothingFound(p, Apply(p, s, a))
  {
    NotClosedYet(p, s, a);
    WorkerTouchesOnlyFlow(p, s, a);
    WorkerMoves(p, s, a);
    WorkerSends(p, s, a);
    WorkerStaysBarren(p, s, a);
    assert s.workers[a.w] in s.workers && WorkerBarren(p, s.workers[a.w]);
    hide Apply, Enabled, Shape, Barren, AllTooDeep, BatchOf;
  }

  lemma ReceiveKeepsNothingFound(p: Params, s: State)
    requires NothingFound(p, s) && InSelect(s) && s.discoveredCh != []
    ensures NothingFound(p, ReceiveBatch(p.cfg, s))
  {
    assert s.discoveredCh[0] in s.discoveredCh;
    DedupTooDeep(p, s.discoveredCh[0], s.coord.visited);
    hide Dedup, WorkerBarren, AllTooDeep, Barren, UrlSeq;
    assert s.discoveredCh == [s.discoveredCh[0]] + s.discoveredCh[1..];
  }

  lemma LoopKeepsNothingFound(p: Params, s: State)
    requires NothingFound(p, s)
    ensures NothingFound(p, CheckLoop(p.cfg, s))
  {
    LoopCases(p.cfg, s);
    hide CheckLoop, WorkerBarren, AllTooDeep, Barren, Flush;
  }

  lemma OthersKeepNothingFound(p: Params, s: State, a: Action)
    requires Shape(p, s) && NothingFound(p, s) && Enabled(p, s, a) && !s.cancelled && !IsWorkerAction(a)
    requires !a.AReceiveBatch? && !a.ACheckLoop? && !IsIndexerAction(a)
    ensures NothingFound(p, Apply(p, s, a))
  {
    hide WorkerBarren, AllTooDeep, Barren, CheckLoop, ReceiveBatch;
  }

  lemma NothingFoundKept(p: Params, s: State, a: Action)
    requires Shape(p, s) && NothingFound(p, s) && Enabled(p, s, a) && !s.cancelled
    ensures NothingFound(p, Apply(p, s, a))
  {
    hide Shape, CheckLoop, ReceiveBatch;
    if IsWorkerAction(a) {
      hide NothingFound, Apply, Enabled;
      WorkerKeepsNothingFound(p, s, a);
    } else if a.AReceiveBatch? {
      hide NothingFound;
      ReceiveKeepsNothingFound(p, s);
    } else if a.ACheckLoop? {
      hide NothingFound;
      LoopKeepsNothingFound(p, s);
    } else if IsIndexerAction(a) {
      IndexerTouchesOnlyResults(p, s, a);
      hide Apply, Enabled, WorkerBarren, AllTooDeep, Barren;
    } else {
      hide NothingFound, Apply, Enabled;
      OthersKeepNothingFound(p, s, a);
    }
  }

  /** After cancellation no fetch is started. */
  lemma CancelledStartsNothing(p: Params, s: State, a: Action)
    requires Enabled(p, s, a) && (s.cancelled || a.ACancel?)
    ensures Apply(p, s, a).hist.fetched == s.hist.fetched
  {
    if IsWorkerAction(a) {
      hide RecordOf, FailedRecord, BatchOf;
      match a
      case ATake(w) =>
      case ACheckCancel(w) =>
      case AEndFetch(w, cut) =>
      case ASendRecord(w) =>
      case ASendBatch(w) =>
      case AExit(w) =>
    } else {
      OthersFetchNothing(p, s, a);
      hide Apply, Enabled;
    }
  }

  ghost predicate FetchedWithinQueue(p: Params, s: State) {
    forall t :: multiset(s.hist.fetched)[t] <= multiset(p.queue0)[t]
  }

  ghost predicate Confined(p: Params, s: State) {
    Sound(p, s) && FetchedWithinQueue(p, s) && (!s.cancelled ==> NothingFound(p, s))
  }

  lemma NothingFoundFetchesQueue(p: Params, s: State)
    requires Sound(p, s) && s.hist.found == []
    ensures FetchedWithinQueue(p, s)
  {
    hide Shape, Ledger, RecordBooks, Queued, Holds;
    forall t ensures multiset(s.hist.fetched)[t] <= multiset(p.queue0)[t] { assert TaskBooks(p, s, t); }
  }

  lemma ConfinedKept(p: Params, s: State, a: Action)
    requires WellFormed(p) && Confined(p, s) && Enabled(p, s, a)
    ensures Confined(p, Apply(p, s, a))
  {
    var s' := Apply(p, s, a);
    SoundKept(p, s, a);
    if s.cancelled || a.ACancel? {
      CancelledStartsNothing(p, s, a);
      if s.cancelled { OnlyCancelCancels(p, s, a); }
      assert a.ACancel? ==> s'.cancelled;
      hide Sound, NothingFound, Apply, Enabled;
    } else {
      ShapeOf(p, s);
      NothingFoundKept(p, s, a);
      NothingIsFound(p, s');
      hide Sound, NothingFound, Apply, Enabled, FetchedWithinQueue;
      NothingFoundFetchesQueue(p, s');
    }
  }

  lemma NothingIsFound(p: Params, s: State)
    requires NothingFound(p, s)
    ensures s.hist.found == []
  {}

  lemma ConfinedAlways(p: Params, acts: seq<Action>)
    requires WellFormed(p) && AllBarren(p, p.queue0) && After(p, acts).Some?
    ensures Confined(p, After(p, acts).value)
  {
    hide Confined, Enabled, Apply;
    var inv := (s: State) => Confined(p, s);
    forall s, a | inv(s) && Stepper(p)(s, a).Some? ensures inv(Stepper(p)(s, a).value) {
      ConfinedKept(p, s, a);
    }
    ConfinedInit(p);
    Invariance(Stepper(p), inv, Init(p), acts);
  }

  /** A barren run accepts nothing before cancellation, and never fetches more than its starting queue. */
  lemma {:induction false} BarrenAlways(p: Params, acts: seq<Action>)
    requires WellFormed(p) && AllBarren(p, p.queue0) && After(p, acts).Some?
    ensures var s := After(p, acts).value;
      && (!s.cancelled ==> s.hist.found == [])
      && forall t :: multiset(s.hist.fetched)[t] <= multiset(p.queue0)[t]
  {
    ConfinedAlways(p, acts);
    hide After, Sound;
  }

  lemma ConfinedInit(p: Params)
    requires WellFormed(p) && AllBarren(p, p.queue0)
    ensures Confined(p, Init(p))
  {
    SoundInit(p);
    hide Sound, Barren;
  }
}
