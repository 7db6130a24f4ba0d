/**
 The URL limit against a restored counter. A resumed run is handed the count of pages processed before, so the limit's
 shortcut, which drops what is still queued, can come while saved tasks wait. Exactly when it cannot is stated here.
 */
module CrawlLimit {
  import opened Options
  import opened CrawlTypes
  import opened CrawlSystem
  import opened CrawlSafety
  import opened CrawlLedger
  import opened CrawlOnce
  import opened CrawlProgress
  import opened CrawlTermination
  import opened CrawlCoverage
  import opened CrawlOutcome
  import opened CrawlShutdown
  import opened CrawlFetches
  import opened CrawlBarren
  import opened CrawlExceptions
  import opened CrawlResume
  import opened Runs
  import opened Tally

  /** Under the limit a batch received is only counted: nothing of it is accepted, not even if a resumed run could. */
  lemma LimitIgnoresBatches(p: Params, acts: seq<Action>)
    requires After(p, acts + [AReceiveBatch]).Some? && After(p, acts).Some? && After(p, acts).value.coord.phase.LimitSelect?
    ensures var s, s' := After(p, acts).value, After(p, acts + [AReceiveBatch]).value;
      && s'.hist == s.hist && s'.coord == s.coord.(inFlight := s.coord.inFlight - 1, phase := Head)
      && s'.taskCh == s.taskCh
  {
    assert (acts + [AReceiveBatch])[..|acts|] == acts;
  }

  /** There is no limit, or the queue fits on the channel, or the limit leaves room for all of it. */
  predicate RoomForQueue(p: Params) {
    p.cfg.maxURLs <= 0 || |p.queue0| <= p.cfg.queueSize || p.counts0.processed + |p.queue0| <= p.cfg.maxURLs
  }

  // ---------- With room, the starting queue goes out before the limit ----------

  /** How often a task waits to be sent, or was given up unsent. */
  ghost function Unsent(s: State, t: CrawlTask): nat {
    multiset(s.coord.overflow)[t] + multiset(Undispatched(s))[t] + s.hist.setAside[t]
  }

  /** Nothing of the starting queue waits any more: what waits, or was given up, was found. */
  ghost predicate QueueOut(s: State) {
    forall t :: Unsent(s, t) <= multiset(s.hist.found)[t]
  }

  /** The starting queue from `k` on waits ahead of what was found, and nothing was given up. */
  ghost predicate QueueAhead(p: Params, s: State, k: nat) {
    && k < |p.queue0| && s.coord.overflow == p.queue0[k..] + s.hist.found && s.hist.setAside == multiset{}
    && (s.coord.phase.Head? || s.coord.phase.Select?)
  }

  ghost predicate InOrder(p: Params, s: State) {
    QueueOut(s) || (p.counts0.processed + |p.queue0| <= p.cfg.maxURLs && exists k: nat :: QueueAhead(p, s, k))
  }

  /** As long as part of the queue waits, fewer pages have been processed than the limit allows. */
  lemma LimitNotYet(p: Params, s: State, k: nat)
    requires Sound(p, s) && QueueAhead(p, s, k) && p.counts0.processed + |p.queue0| <= p.cfg.maxURLs
    ensures !UrlLimitReached(p.cfg, s)
  {
    DoneWithinFetched(s);
    InHandCount(p, s);
    hide TaskBooks, RecordBooks, Shape;
    assert StillQueued(s) == s.coord.overflow;
    assert Counters(p, s.indexer, s.hist.done);
  }

  lemma LoopKeepsOut(p: Params, s: State)
    requires QueueOut(s) && s.coord.phase.Head?
    ensures QueueOut(CheckLoop(p.cfg, s))
  {
    var s' := CheckLoop(p.cfg, s);
    LoopSetsAside(p.cfg, s);
    hide CheckLoop;
    forall t ensures Unsent(s', t) <= multiset(s'.hist.found)[t] {
      AsideCount(s.hist.setAside, s.coord.overflow, t);
    }
  }

  lemma LoopKeepsAhead(p: Params, s: State, k: nat)
    requires Sound(p, s) && QueueAhead(p, s, k) && s.coord.phase.Head?
    requires p.counts0.processed + |p.queue0| <= p.cfg.maxURLs
    ensures QueueAhead(p, CheckLoop(p.cfg, s), k)
  {
    LimitNotYet(p, s, k);
    hide Sound, UrlLimitReached;
    assert CheckLoop(p.cfg, s) == s.(coord := s.coord.(phase := Select));
  }

  /** The found tasks of a batch wait behind, or are about to be sent when nothing waits. */
  lemma ReceiveQueues(p: Params, s: State)
    requires s.discoveredCh != []
    ensures var s', more := ReceiveBatch(p.cfg, s), Dedup(p.cfg, s.discoveredCh[0], s.coord.visited).0;
      && s'.hist.setAside == s.hist.setAside
      && (s.coord.phase.LimitSelect? ==> s'.coord.overflow == s.coord.overflow && Undispatched(s') == [] && s'.hist.found == s.hist.found)
      && (s.coord.phase.Select? ==> s'.hist.found == s.hist.found + more)
      && (s.coord.phase.Select? && s.coord.overflow != [] ==> s'.coord.phase.Head? && s'.coord.overflow == s.coord.overflow + more)
      && (s.coord.phase.Select? && s.coord.overflow == [] ==> s'.coord.overflow == [] && Undispatched(s') == more)
  {
    hide Dedup, UrlSeq;
  }

  lemma ReceiveKeepsOut(p: Params, s: State)
    requires QueueOut(s) && InSelect(s) && s.discoveredCh != []
    ensures QueueOut(ReceiveBatch(p.cfg, s))
  {
    var s' := ReceiveBatch(p.cfg, s);
    ReceiveQueues(p, s);
    hide ReceiveBatch, Dedup;
    forall t ensures Unsent(s', t) <= multiset(s'.hist.found)[t] {
      assert Unsent(s, t) <= multiset(s.hist.found)[t];
      assert s.coord.overflow == [] ==> multiset(s.coord.overflow)[t] == 0;
    }
  }

  lemma ReceiveKeepsAhead(p: Params, s: State, k: nat)
    requires Shape(p, s) && QueueAhead(p, s, k) && InSelect(s) && s.discoveredCh != []
    ensures QueueAhead(p, ReceiveBatch(p.cfg, s), k)
  {
    ReceiveQueues(p, s);
    hide Shape, ReceiveBatch, Dedup;
    var more := Dedup(p.cfg, s.discoveredCh[0], s.coord.visited).0;
    assert p.queue0[k..] + s.hist.found + more == p.queue0[k..] + (s.hist.found + more);
  }

  lemma SendKeepsOut(s: State)
    requires !s.taskClosed && QueueOut(s) && s.coord.phase.Select? && s.coord.overflow != []
    ensures QueueOut(SendOverflow(s))
  {
    forall t ensures multiset(s.coord.overflow[1..])[t] <= multiset(s.coord.overflow)[t] { HeadCount(s.coord.overflow, t); }
  }

  lemma SendKeepsAhead(p: Params, s: State, k: nat)
    requires !s.taskClosed && QueueAhead(p, s, k) && s.coord.phase.Select? && s.coord.overflow != []
    ensures var s' := SendOverflow(s); if k + 1 < |p.queue0| then QueueAhead(p, s', k + 1) else QueueOut(s')
  {
    var s' := SendOverflow(s);
    assert s'.coord.overflow == p.queue0[k + 1..] + s'.hist.found;
    if k + 1 == |p.queue0| {
      assert s'.coord.overflow == s'.hist.found && Undispatched(s') == [];
    }
  }

  lemma DispatchKeepsOut(p: Params, s: State)
    requires !s.taskClosed && QueueOut(s) && s.coord.phase.Dispatch?
    ensures QueueOut(DispatchNext(p.cfg, s))
  {
    var s' := DispatchNext(p.cfg, s);
    DispatchOnlySends(p.cfg, s);
    forall t ensures Unsent(s', t) <= multiset(s'.hist.found)[t] {
      DispatchMoves(p.cfg, s, t);
      QueuedIs(s, t);
      QueuedIs(s', t);
      hide DispatchNext, Undispatched, Queued;
    }
  }

  lemma DispatchOnlySends(cfg: Config, s: State)
    requires s.coord.phase.Dispatch?
    ensures forall t :: multiset(s.taskCh)[t] <= multiset(DispatchNext(cfg, s).taskCh)[t]
  {}

  /** Steps that leave the queue, the tasks found and those given up as they are. */
  ghost predicate SameQueue(s: State, s': State) {
    && s'.coord.overflow == s.coord.overflow && Undispatched(s') == Undispatched(s)
    && s'.hist.found == s.hist.found && s'.hist.setAside == s.hist.setAside
    && (s.coord.phase.Head? || s.coord.phase.Select? ==> s'.coord.phase.Head? || s'.coord.phase.Select?)
  }

  lemma WorkerKeepsQueue(p: Params, s: State, a: Action)
    requires Enabled(p, s, a) && !s.cancelled && IsWorkerAction(a)
    ensures SameQueue(s, Apply(p, s, a))
  {
    hide RecordOf, FailedRecord, BatchOf;
    match a
    case ATake(w) =>
    case ACheckCancel(w) =>
    case AEndFetch(w, cut) =>
    case ASendRecord(w) =>
    case ASendBatch(w) =>
    case AExit(w) =>
  }

  predicate MovesQueue(a: Action) {
    a.ACheckLoop? || a.AReceiveBatch? || a.ADispatchNext? || a.ASendOverflow?
  }

  lemma OthersKeepQueue(p: Params, s: State, a: Action)
    requires Shape(p, s) && Enabled(p, s, a) && !s.cancelled && !MovesQueue(a)
    ensures SameQueue(s, Apply(p, s, a))
  {
    if IsWorkerAction(a) {
      WorkerKeepsQueue(p, s, a);
      hide Apply, Enabled;
    } else if IsIndexerAction(a) {
      IndexerTouchesOnlyResults(p, s, a);
      hide Apply, Enabled;
    } else {
      FlushKeepsQueue(p.cfg, s.coord);
      hide Flush;
    }
  }

  lemma OutKept(p: Params, s: State, a: Action)
    requires Shape(p, s) && QueueOut(s) && Enabled(p, s, a) && !s.cancelled
    ensures QueueOut(Apply(p, s, a))
  {
    hide QueueOut, CheckLoop, ReceiveBatch, DispatchNext, SendOverflow;
    if a.ACheckLoop? {
      LoopKeepsOut(p, s);
    } else if a.AReceiveBatch? {
      ReceiveKeepsOut(p, s);
    } else if a.ADispatchNext? {
      DispatchKeepsOut(p, s);
    } else if a.ASendOverflow? {
      SendKeepsOut(s);
    } else {
      OthersKeepQueue(p, s, a);
      hide Apply, Enabled;
      SameQueueKeepsOut(s, Apply(p, s, a));
    }
  }

  lemma SameQueueKeepsOut(s: State, s': State)
    requires QueueOut(s) && SameQueue(s, s')
    ensures QueueOut(s')
  {
    hide Undispatched;
  }

  lemma AheadKept(p: Params, s: State, a: Action, k: nat)
    requires Sound(p, s) && QueueAhead(p, s, k) && Enabled(p, s, a) && !s.cancelled
    requires p.counts0.processed + |p.queue0| <= p.cfg.maxURLs
    ensures QueueAhead(p, Apply(p, s, a), k) || QueueAhead(p, Apply(p, s, a), k + 1) || QueueOut(Apply(p, s, a))
  {
    ShapeOf(p, s);
    hide Sound, QueueOut, CheckLoop, ReceiveBatch, DispatchNext, SendOverflow;
    if a.ACheckLoop? {
      LoopKeepsAhead(p, s, k);
    } else if a.AReceiveBatch? {
      ReceiveKeepsAhead(p, s, k);
    } else if a.ASendOverflow? {
      SendKeepsAhead(p, s, k);
    } else {
      assert !a.ADispatchNext?;
      OthersKeepQueue(p, s, a);
      hide Apply, Enabled, Shape;
    }
  }

  lemma OrderKept(p: Params, s: State, a: Action)
    requires Sound(p, s) && InOrder(p, s) && Enabled(p, s, a) && !s.cancelled
    ensures InOrder(p, Apply(p, s, a))
  {
    hide Sound, QueueOut, QueueAhead, Apply, Enabled;
    if QueueOut(s) {
      ShapeOf(p, s);
      OutKept(p, s, a);
    } else {
      var k: nat :| QueueAhead(p, s, k);
      AheadKept(p, s, a, k);
    }
  }

  ghost predicate Orderly(p: Params, s: State) { Sound(p, s) && (!s.cancelled ==> InOrder(p, s)) }

  lemma OrderlyAlways(p: Params, acts: seq<Action>)
    requires WellFormed(p) && p.cfg.maxURLs > 0 && RoomForQueue(p) && After(p, acts).Some?
    ensures Orderly(p, After(p, acts).value)
  {
    hide Sound, InOrder, Enabled, Apply;
    var inv := (s: State) => Orderly(p, s);
    forall s, a | inv(s) && Stepper(p)(s, a).Some? ensures inv(Stepper(p)(s, a).value) {
      SoundKept(p, s, a);
      if s.cancelled { OnlyCancelCancels(p, s, a); } else { OrderKept(p, s, a); }
    }
    SoundInit(p);
    OrderInit(p);
    Invariance(Stepper(p), inv, Init(p), acts);
  }

  lemma OrderInit(p: Params)
    requires p.cfg.maxURLs > 0 && RoomForQueue(p)
    ensures InOrder(p, Init(p))
  {
    var s := Init(p);
    if |p.queue0| <= p.cfg.queueSize {
      assert QueueOut(s);
    } else {
      assert QueueAhead(p, s, p.cfg.queueSize);
    }
  }

  ghost predicate FetchesItsQueue(p: Params, s: State) {
    forall t :: multiset(p.queue0)[t] <= multiset(s.hist.fetched)[t]
  }

  /** With room for it, the starting queue is fetched by every run that is not cancelled. */
  lemma {:induction false} QueueFetchedWithRoom(p: Params, acts: seq<Action>)
    requires WellFormed(p) && RoomForQueue(p) && RanToEnd(p, acts)
    ensures FetchesItsQueue(p, After(p, acts).value)
  {
    var s := After(p, acts).value;
    if p.cfg.maxURLs <= 0 {
      EverythingFetched(p, acts);
      hide After;
      forall t ensures multiset(p.queue0)[t] <= multiset(Accepted(p, s))[t] {}
    } else {
      OrderlyAlways(p, acts);
      QuietAfterReturn(p, acts);
      hide After, InOrder;
      OutAtEnd(p, s);
      QueueFetchedAtEnd(p, s);
    }
  }

  lemma OutAtEnd(p: Params, s: State)
    requires InOrder(p, s) && Returned(s)
    ensures QueueOut(s)
  {
    hide QueueOut;
  }

  lemma QueueFetchedAtEnd(p: Params, s: State)
    requires Sound(p, s) && QueueOut(s) && Returned(s) && s.taskCh == [] && forall w :: w in s.workers ==> w.Idle? || w.Exited?
    ensures FetchesItsQueue(p, s)
  {
    hide Shape, Ledger, RecordBooks;
    forall t ensures multiset(p.queue0)[t] <= multiset(s.hist.fetched)[t] {
      assert TaskBooks(p, s, t);
      TotalZero(s.workers, Holds(t));
      assert s.hist.setAside[t] <= multiset(s.hist.found)[t];
    }
  }

  // ---------- Without room, a run can leave part of the queue behind ----------

  /** Part of the queue waits, nothing was given up, and nobody has cancelled. */
  ghost predicate Stalled(s: State) {
    && !s.cancelled && s.coord.overflow != [] && s.hist.setAside == multiset{}
    && (s.coord.phase.Head? || s.coord.phase.Select?)
  }

  /** Any step of the program but sending the last task that waits. */
  ghost predicate Stalls(s: State, a: Action) {
    IsProgress(a) && !(a.ASendOverflow? && |s.coord.overflow| == 1)
  }

  ghost predicate CanStall(p: Params, s: State) { exists a :: Stalls(s, a) && Enabled(p, s, a) }

  lemma StallingMove(p: Params, s: State, a: Action)
    requires Stalls(s, a) && Enabled(p, s, a)
    ensures CanStall(p, s)
  {}

  lemma IndexerStalls(p: Params, s: State)
    requires Shape(p, s) && Stalled(s) && (s.resultsCh != [] || s.indexer.pc.Adding?)
    ensures CanStall(p, s)
  {
    StallingMove(p, s, if s.indexer.pc.Adding? then AAddRecord else AReceiveRecord);
  }

  lemma WorkerStalls(p: Params, s: State, w: nat)
    requires WellFormed(p) && Shape(p, s) && Stalled(s) && w < |s.workers| && s.discoveredCh == []
    requires !s.workers[w].Idle? || s.taskCh != []
    ensures CanStall(p, s)
  {
    match s.workers[w]
    case Idle => StallingMove(p, s, ATake(w));
    case Holding(_) => StallingMove(p, s, ACheckCancel(w));
    case Fetching(_) => StallingMove(p, s, AEndFetch(w, false));
    case Reporting(_) =>
      if |s.resultsCh| < 2 * p.cfg.numWorkers { StallingMove(p, s, ASendRecord(w)); } else { IndexerStalls(p, s); }
    case Posting(_) => StallingMove(p, s, ASendBatch(w));
    case Exited => assert false;
  }

  /** With all but the last task fetched and processed the limit is reached. */
  lemma AllButOneProcessed(p: Params, s: State)
    requires Sound(p, s) && Stalled(s) && s.hist.found == [] && |s.coord.overflow| == 1 && s.taskCh == []
    requires s.resultsCh == [] && !s.indexer.pc.Adding? && forall w :: w in s.workers ==> w.Idle?
    ensures s.indexer.pagesProcessed == p.counts0.processed + |p.queue0| - 1
  {
    InHandCount(p, s);
    NoneHeld(s.workers);
    hide TaskBooks, Shape, HeldTasks;
    AllReported(s);
    assert |multiset(TasksOf(s.hist.done))| == |multiset(s.hist.fetched)|;
    assert StillQueued(s) == s.coord.overflow;
  }

  /** Until the limit is reached some other step is possible. */
  lemma StallsUntilLimit(p: Params, s: State)
    requires WellFormed(p) && Sound(p, s) && Stalled(s) && s.hist.found == [] && !UrlLimitReached(p.cfg, s)
    requires p.cfg.maxURLs > 0 && p.counts0.processed + |p.queue0| > p.cfg.maxURLs
    ensures CanStall(p, s)
  {
    ShapeOf(p, s);
    hide Sound, CanStall;
    if s.coord.phase.Head? {
      StallingMove(p, s, ACheckLoop);
    } else if s.discoveredCh != [] {
      StallingMove(p, s, AReceiveBatch);
    } else if |s.coord.overflow| > 1 && |s.taskCh| < p.cfg.queueSize {
      StallingMove(p, s, ASendOverflow);
    } else if w: nat :| w < |s.workers| && (!s.workers[w].Idle? || s.taskCh != []) {
      WorkerStalls(p, s, w);
    } else if s.resultsCh != [] || s.indexer.pc.Adding? {
      IndexerStalls(p, s);
    } else {
      assert s.taskCh == [] by { assert 0 < |s.workers|; }
      AllButOneProcessed(p, s);
    }
  }

  lemma StalledKept(p: Params, s: State, a: Action)
    requires Shape(p, s) && NothingFound(p, s) && Stalled(s) && Stalls(s, a) && Enabled(p, s, a) && !UrlLimitReached(p.cfg, s)
    ensures Stalled(Apply(p, s, a))
  {
    ProgressKeepsCancelled(p, s, a);
    if a.ACheckLoop? {
      hide NothingFound, Shape, UrlLimitReached;
    } else if a.AReceiveBatch? {
      assert s.discoveredCh[0] in s.discoveredCh;
      DedupTooDeep(p, s.discoveredCh[0], s.coord.visited);
      ReceiveQueues(p, s);
      hide Shape, NothingFound, ReceiveBatch, Dedup;
    } else if a.ASendOverflow? {
      hide NothingFound, Shape;
    } else {
      OthersKeepQueue(p, s, a);
      hide Shape, NothingFound, Apply, Undispatched;
    }
  }

  /** A stalled run can be carried on to the limit, still stalled. */
  lemma {:induction false} RunToLimit(p: Params, acts: seq<Action>) returns (all: seq<Action>)
    requires WellFormed(p) && AllBarren(p, p.queue0) && After(p, acts).Some? && Stalled(After(p, acts).value)
    requires p.cfg.maxURLs > 0 && p.counts0.processed + |p.queue0| > p.cfg.maxURLs
    ensures After(p, all).Some? && Stalled(After(p, all).value) && UrlLimitReached(p.cfg, After(p, all).value)
    decreases Weight(p, After(p, acts).value)
  {
    var s := After(p, acts).value;
    all := acts;
    if !UrlLimitReached(p.cfg, s) {
      ConfinedAlways(p, acts);
      PlacementAlways(p, acts);
      ShapeOf(p, s);
      StallsUntilLimit(p, s);
      var a :| Stalls(s, a) && Enabled(p, s, a);
      StalledKept(p, s, a);
      StepLowersWeight(p, s, a);
      OneMore(p, acts, a);
      hide *;
      all := RunToLimit(p, acts + [a]);
    }
  }

  /** There the next turn of the loop gives up what waits. */
  lemma LimitGivesUp(p: Params, acts: seq<Action>) returns (all: seq<Action>, t: CrawlTask)
    requires After(p, acts).Some? && Stalled(After(p, acts).value) && UrlLimitReached(p.cfg, After(p, acts).value)
    ensures After(p, all).Some? && !After(p, all).value.cancelled && After(p, all).value.hist.setAside[t] > 0
  {
    var a1, s1 := acts, After(p, acts).value;
    t := s1.coord.overflow[0];
    hide After;
    if s1.coord.phase.Select? {
      FlushKeepsQueue(p.cfg, s1.coord);
      a1, s1 := Then(p, acts, s1, APersistTick);
      hide Flush;
    }
    var a2, s2 := Then(p, a1, s1, ACheckLoop);
    LoopSetsAside(p.cfg, s1);
    all := a2;
    assert t in multiset(s1.coord.overflow);
    assert !s2.coord.phase.Select? by { hide Flush; }
  }

  lemma AsideGrows(p: Params, s: State, a: Action, t: CrawlTask)
    requires Enabled(p, s, a)
    ensures s.hist.setAside[t] <= Apply(p, s, a).hist.setAside[t]
  {
    if IsWorkerAction(a) {
      hide RecordOf, FailedRecord, BatchOf;
    } else if IsIndexerAction(a) {
      IndexerTouchesOnlyResults(p, s, a);
      hide Apply, Enabled;
    } else {
      LoopSetsAside(p.cfg, s);
      hide CheckLoop, Flush, Dedup, Accept;
    }
  }

  lemma AsideStays(p: Params, acts: seq<Action>, all: seq<Action>, t: CrawlTask)
    requires acts <= all && After(p, acts).Some? && After(p, all).Some?
    ensures After(p, acts).value.hist.setAside[t] <= After(p, all).value.hist.setAside[t]
  {
    var s0 := After(p, acts).value;
    assert all == acts + all[|acts|..];
    ExecConcat(Stepper(p), Init(p), acts, all[|acts|..]);
    var inv := (s: State) => s0.hist.setAside[t] <= s.hist.setAside[t];
    forall s, a | inv(s) && Stepper(p)(s, a).Some? ensures inv(Stepper(p)(s, a).value) {
      AsideGrows(p, s, a, t);
    }
    hide Enabled, Apply;
    Invariance(Stepper(p), inv, s0, all[|acts|..]);
  }

  /** On a web without links, a run that leaves a task of its queue behind. */
  lemma SomeRunLeavesTask(p: Params) returns (all: seq<Action>)
    requires WellFormed(p) && p.web == OnePageWeb() && !RoomForQueue(p)
    ensures RanToEnd(p, all) && !FetchesItsQueue(p, After(p, all).value)
  {
    assert After(p, []).Some? && Stalled(After(p, []).value);
    var stalled := RunToLimit(p, []);
    var less, t := LimitGivesUp(p, stalled);
    hide After, Stalled;
    all := CarryOn(p, less);
    AsideStays(p, less, all, t);
    BarrenAlways(p, all);
    SoundAlways(p, all);
    GivenUpIsUnfetched(p, After(p, all).value, t);
  }

  lemma GivenUpIsUnfetched(p: Params, s: State, t: CrawlTask)
    requires Sound(p, s) && s.hist.found == [] && s.hist.setAside[t] > 0
    ensures multiset(s.hist.fetched)[t] < multiset(p.queue0)[t]
  {
    assert TaskBooks(p, s, t);
    hide Shape, Ledger, RecordBooks, Total, Queued;
  }

  // ---------- Exactly when ----------

  /** Whatever the web, every run that is not cancelled has fetched its starting queue by its end. */
  ghost predicate AlwaysFetchesQueue(p: Params) {
    forall web: Web, acts :: RanToEnd(p.(web := web), acts) ==> FetchesItsQueue(p, After(p.(web := web), acts).value)
  }

  /**
   From any start, with or without a URL limit: every uncancelled run fetches its whole starting queue, whatever the web
   and the schedule, exactly when there is no limit, or the queue fits on the channel, or the count of pages processed
   that the run was handed leaves the limit room for the queue.
   */
  lemma {:induction false} AlwaysFetchesQueueIff(p: Params)
    requires WellFormed(p)
    ensures AlwaysFetchesQueue(p) <==> RoomForQueue(p)
  {
    hide After;
    if RoomForQueue(p) {
      forall web: Web, acts | RanToEnd(p.(web := web), acts) ensures FetchesItsQueue(p, After(p.(web := web), acts).value) {
        QueueFetchedWithRoom(p.(web := web), acts);
      }
    } else {
      var q := p.(web := OnePageWeb());
      var acts := SomeRunLeavesTask(q);
      assert !FetchesItsQueue(p, After(q, acts).value);
    }
  }

  /**
   A resumed run is handed the saved queue and the restored counter: it fetches all saved tasks exactly when they fit on
   the channel or the limit leaves room for them. Without a stored row, or a saved task, its queue is one address.
   */
  lemma {:induction false} ResumedQueueFetchedIff(p: Params, acts: seq<Action>, origin: Url, counts: Counts)
    requires Halted(p, acts)
    ensures var s := After(p, acts).value;
      && s.coord.savedQueue.Some?
      && (AlwaysFetchesQueue(ResumedParams(p, s, origin, counts)) <==>
          || s.coord.stored == {} || p.cfg.maxURLs <= 0
          || |s.coord.savedQueue.value| <= p.cfg.queueSize
          || counts.processed + |s.coord.savedQueue.value| <= p.cfg.maxURLs)
  {
    ResumedStart(p, acts, origin, counts);
    hide After, ResumedParams, AlwaysFetchesQueue;
    AlwaysFetchesQueueIff(ResumedParams(p, After(p, acts).value, origin, counts));
  }

  /**
   So what `CrawlCoverage.UrlLimitHarmless` says of a fresh crawl fails with a restored counter: here the first turn of
   the loop gives up a saved task.
   */
  lemma RestoredCounterDropsTask()
    ensures var y, z := CrawlTask("y", "x", 2), CrawlTask("z", "x", 2);
      var p := Params(Config(3, 2, 1, 1, true), OnePageWeb(), {"x"}, [y, z], {"x"}, Counts(2, 2, 2, 0));
        WellFormed(p) && After(p, [ACheckLoop]).Some? && var s := After(p, [ACheckLoop]).value;
          !s.cancelled && UrlLimitReached(p.cfg, s) && s.hist.setAside == multiset{z}
  {
    var y, z := CrawlTask("y", "x", 2), CrawlTask("z", "x", 2);
    var p := Params(Config(3, 2, 1, 1, true), OnePageWeb(), {"x"}, [y, z], {"x"}, Counts(2, 2, 2, 0));
    OneMore(p, [], ACheckLoop);
    assert [] + [ACheckLoop] == [ACheckLoop];
    assert Init(p).coord.overflow == [z];
  }
}
