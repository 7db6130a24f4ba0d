/**
 Which crawls can be stopped at any moment and resumed without losing a page: those that cannot find one beyond a single
 seed. Any other crawl has a moment at which stopping it loses one.
 */
module CrawlAnyStop {
  import opened Options
  import opened CrawlTypes
  import opened CrawlSystem
  import opened CrawlSafety
  import opened CrawlLedger
  import opened CrawlOnce
  import opened CrawlTermination
  import opened CrawlCoverage
  import opened CrawlOutcome
  import opened CrawlShutdown
  import opened CrawlFetches
  import opened CrawlLoss
  import opened CrawlBarren
  import opened CrawlExceptions
  import opened CrawlResume
  import opened CrawlRestart
  import opened Runs
  import opened Tally

  /** Wherever this crawl is stopped, the run that resumes it fetches every page it left unfinished. */
  ghost predicate SurvivesEveryStop(p: Params, origin: Url) {
    forall acts, counts ::
      Halted(p, acts) ==>
        After(p, acts).value.coord.savedQueue.Some? && ResumeLosesNothing(p, After(p, acts).value, origin, counts)
  }

  // ---------- Nothing beyond one seed ----------

  /** No link of the seed can be accepted but the seed itself. */
  ghost predicate LeadsNowhere(cfg: Config, web: Web, seed: Url) {
    cfg.maxDepth <= 0 || forall u :: u in LinksOf(web, seed) ==> u == seed
  }

  lemma {:induction false} LonelyBall(web: Web, seed: Url, d: nat)
    requires d == 0 || forall u :: u in LinksOf(web, seed) ==> u == seed
    ensures Ball(web, {seed}, d) == {seed}
  {
    if d > 0 {
      LonelyBall(web, seed, d - 1);
      hide LinksOf;
      assert Neighbours(web, {seed}) <= {seed};
    }
  }

  lemma NothingBeyondSeed(p: Params, acts: seq<Action>, origin: Url)
    requires WellFormed(p) && FreshStart(p) && After(p, acts).Some?
    requires p.visited0 == {origin} && LeadsNowhere(p.cfg, p.web, origin)
    ensures var s := After(p, acts).value; s.coord.visited <= {origin} && Urls(Accepted(p, s)) <= {origin}
  {
    VisitedWithinBall(p, acts);
    LonelyBall(p.web, origin, if p.cfg.maxDepth < 0 then 0 else p.cfg.maxDepth);
    GroundAlways(p, acts);
    hide After, FreshStart, Ground, Accepted, Ball, LeadsNowhere;
    UseGround(p, After(p, acts).value);
  }

  lemma LonelySeedSurvives(p: Params, acts: seq<Action>, origin: Url, counts: Counts)
    requires Resumable(p, acts, origin) && p.cfg.maxURLs <= 0
    requires p.visited0 == {origin} && LeadsNowhere(p.cfg, p.web, origin)
    ensures After(p, acts).value.coord.savedQueue.Some? && ResumeLosesNothing(p, After(p, acts).value, origin, counts)
  {
    var s := After(p, acts).value;
    NothingBeyondSeed(p, acts, origin);
    StoredTracksVisited(p, acts);
    ResumeLosesNothingIff(p, acts, origin, counts);
    hide After, FreshStart, Accepted, ResumeLosesNothing, LeadsNowhere;
    forall t | t in Accepted(p, s) ensures HandedOver(s, origin, t.url) {
      assert t.url in Urls(Accepted(p, s));
    }
  }

  // ---------- Once the drain has begun ----------

  /** Nothing more is marked, accepted or fetched. */
  ghost predicate Frozen(s0: State, s: State) {
    && Stopping(s) && s.coord.visited == s0.coord.visited
    && s.hist.found == s0.hist.found && s.hist.fetched == s0.hist.fetched
    && s0.hist.aborted <= s.hist.aborted
  }

  lemma FrozenKept(p: Params, s0: State, s: State, a: Action)
    requires Frozen(s0, s) && Enabled(p, s, a)
    ensures Frozen(s0, Apply(p, s, a))
  {
    ShutdownStep(p, s, a);
    CancelledStartsNothing(p, s, a);
    if IsWorkerAction(a) {
      WorkerTouchesOnlyFlow(p, s, a);
      hide Apply, Enabled;
    } else if IsIndexerAction(a) {
      IndexerTouchesOnlyResults(p, s, a);
      hide Apply, Enabled;
    } else {
      FlushMarksNothing(p.cfg, s.coord);
      hide Flush, CheckLoop, ReceiveBatch, SendOverflow, DispatchNext, BeginDrain;
    }
  }

  /** A run that has begun its drain, carried on to its end. */
  lemma DrainToEnd(p: Params, acts: seq<Action>) returns (all: seq<Action>)
    requires WellFormed(p) && After(p, acts).Some? && p.cfg.hasDb
    requires After(p, acts).value.cancelled && After(p, acts).value.coord.phase.Drain?
    ensures acts <= all && Halted(p, all) && Frozen(After(p, acts).value, After(p, all).value)
  {
    var s0 := After(p, acts).value;
    all := CarryOn(p, acts);
    var more := all[|acts|..];
    assert all == acts + more;
    ExecConcat(Stepper(p), Init(p), acts, more);
    var inv := (s: State) => Frozen(s0, s);
    forall s, a | inv(s) && Stepper(p)(s, a).Some? ensures inv(Stepper(p)(s, a).value) {
      FrozenKept(p, s0, s, a);
    }
    hide Enabled, Apply;
    Invariance(Stepper(p), inv, s0, more);
  }

  // ---------- Two seeds, stopped at once ----------

  /** Cancelled before anything has moved, the coordinator goes straight to the drain. */
  lemma StopAtOnce(p: Params) returns (acts: seq<Action>, s: State)
    requires WellFormed(p) && p.queue0 != [] && p.cfg.maxURLs <= 0
    ensures After(p, acts) == Some(s) && var s0 := Init(p);
      s == BeginDrain(s0).(cancelled := true)
  {
    var s0 := Init(p);
    assert s0.coord.overflow != [] || s0.coord.inFlight > 0;
    assert s0.coord.phase == Head && After(p, []) == Some(s0) && !s0.cancelled;
    hide After, Init;
    var a1, s1 := Then(p, [], s0, ACancel);
    var a2, s2 := Then(p, a1, s1, ACheckLoop);
    assert s2.coord.phase.Select? by { hide LeaveLoop; }
    acts, s := Then(p, a2, s2, ABeginDrain);
  }

  lemma SecondSeedLost(p: Params, origin: Url, seed: CrawlTask)
    requires WellFormed(p) && FreshStart(p) && p.stored0 == {} && p.cfg.hasDb && p.cfg.maxURLs <= 0
    requires seed in p.queue0 && seed.url != origin
    ensures !SurvivesEveryStop(p, origin)
  {
    var stop, s0 := StopAtOnce(p);
    assert s0.coord.visited == p.visited0 && s0.hist.fetched == [];
    hide After, FreshStart;
    var acts := DrainToEnd(p, stop);
    var s := After(p, acts).value;
    EveryFetchEnded(p, acts, seed);
    StoredTracksVisited(p, acts);
    NothingCompleted(p, acts);
    ResumeLosesNothingIff(p, acts, origin, NO_COUNTS);
    assert Urls([]) == {};
    hide WellFormed, Frozen, ResumeLosesNothing;
    assert seed in Accepted(p, s) && !HandedOver(s, origin, seed.url) by { assert s.coord.stored == {}; }
  }

  lemma NothingCompleted(p: Params, acts: seq<Action>)
    requires Halted(p, acts) && After(p, acts).value.hist.fetched == []
    ensures After(p, acts).value.hist.completed == []
  {
    var completed := After(p, acts).value.hist.completed;
    forall t ensures multiset(completed)[t] == 0 { EveryFetchEnded(p, acts, t); }
    NoneCounted(completed);
  }

  // ---------- One seed with a link, whose fetch is cut short ----------

  /** Worker 0 is at work, the others are idle, and no batch is under way. */
  ghost predicate OnlyZeroBusy(s: State, w: Worker) {
    && |s.workers| >= 1 && s.workers[0] == w && (forall i :: 1 <= i < |s.workers| ==> s.workers[i].Idle?)
    && s.discoveredCh == [] && s.coord.inFlight >= 1 && !s.cancelled && !s.taskClosed
  }

  /** Worker 0 takes the only task on the channel and starts its fetch. */
  lemma StartFetch(p: Params, acts: seq<Action>, s: State, x: CrawlTask) returns (more: seq<Action>, s': State)
    requires After(p, acts) == Some(s) && |s.workers| >= 1 && s.workers[0] == Idle && s.taskCh == [x] && !s.cancelled
    ensures After(p, more) == Some(s')
    ensures s' == s.(workers := s.workers[0 := Fetching(x)], taskCh := [], hist := s.hist.(fetched := s.hist.fetched + [x]))
  {
    hide After;
    var a1, s1 := Then(p, acts, s, ATake(0));
    assert s1.workers[0] == Holding(x) && s1.taskCh == [];
    more, s' := Then(p, a1, s1, ACheckCancel(0));
    assert s'.workers == s.workers[0 := Fetching(x)];
  }

  /** The only seed has been fetched, and its links are waiting for the coordinator. */
  lemma SeedIsFetched(p: Params, seed: CrawlTask) returns (acts: seq<Action>, s: State)
    requires WellFormed(p) && p.queue0 == [seed]
    ensures After(p, acts) == Some(s) && s.discoveredCh == [LinkBatch(p.web, seed)] && s.taskCh == []
    ensures !s.cancelled && !s.taskClosed
    ensures |s.workers| >= 1 && forall i :: 0 <= i < |s.workers| ==> s.workers[i].Idle?
    ensures s.coord == Init(p).coord && s.coord.phase == Head && s.coord.inFlight == 1 && s.coord.overflow == []
    ensures s.hist.fetched == [seed] && s.hist.found == [] && s.hist.aborted == []
  {
    var s0 := Init(p);
    assert s0.taskCh == [seed] && s0.coord.overflow == [] && s0.coord.inFlight == 1 && s0.workers[0] == Idle && |s0.workers| >= 1;
    assert forall i :: 0 <= i < |s0.workers| ==> s0.workers[i].Idle?;
    assert After(p, []) == Some(s0) && s0.hist.fetched == [] && s0.hist.found == [] && s0.hist.aborted == [] && s0.coord.phase == Head;
    assert s0.discoveredCh == [] && s0.resultsCh == [] && !s0.resultsClosed && !s0.cancelled && !s0.taskClosed;
    assert p.cfg.numWorkers >= 1;
    hide After, Init, WellFormed;
    var a1, s1 := StartFetch(p, [], s0, seed);
    hide RecordOf;
    var a3, s3 := Then(p, a1, s1, AEndFetch(0, false));
    assert s3.workers == s0.workers[0 := Reporting(RecordOf(p.web, seed))];
    assert BatchOf(RecordOf(p.web, seed)) == LinkBatch(p.web, seed);
    hide Apply, Enabled, LinkBatch, BatchOf;
    acts, s := SendLinks(p, a3, s3, RecordOf(p.web, seed));
  }

  lemma SendLinks(p: Params, acts: seq<Action>, s: State, r: PageRecord) returns (more: seq<Action>, s': State)
    requires After(p, acts) == Some(s) && |s.workers| >= 1 && s.workers[0] == Reporting(r)
    requires p.cfg.numWorkers >= 1 && s.resultsCh == [] && s.discoveredCh == [] && !s.resultsClosed
    ensures After(p, more) == Some(s')
    ensures s' == s.(workers := s.workers[0 := Idle], resultsCh := [r], discoveredCh := [BatchOf(r)])
  {
    hide After, BatchOf;
    var a1, s1 := Then(p, acts, s, ASendRecord(0));
    assert s1.workers[0] == Posting(BatchOf(r)) && s1.resultsCh == [r];
    more, s' := Then(p, a1, s1, ASendBatch(0));
    assert s'.workers == s.workers[0 := Idle];
  }

  /** The first link accepted is being fetched, and is nowhere else. */
  ghost predicate FirstLinkInFetch(p: Params, s: State, seed: CrawlTask, x: CrawlTask) {
    && OnlyZeroBusy(s, Fetching(x)) && s.hist.fetched == [seed, x] && s.hist.aborted == [] && x in s.hist.found
    && (s.coord.phase.Head? || s.coord.phase.Dispatch?)
    && Without(s.taskCh, x.url) && Without(s.coord.overflow, x.url) && Without(Undispatched(s), x.url)
  }

  ghost predicate Without(ts: seq<CrawlTask>, u: Url) { forall t :: t in ts ==> t.url != u }

  /** What deduplication makes of the links of the only page fetched so far. */
  lemma FirstLink(p: Params, seed: CrawlTask, u: Url)
    requires p.cfg.maxURLs <= 0 && seed.depth < p.cfg.maxDepth && u in LinksOf(p.web, seed.url) && u !in p.visited0
    ensures var found := Dedup(p.cfg, LinkBatch(p.web, seed), p.visited0).0;
      found != [] && found[0].url !in p.visited0 && Without(found[1..], found[0].url)
  {
    var batch := LinkBatch(p.web, seed);
    DedupExpands(p, seed, p.visited0);
    DedupMarks(p.cfg, batch, p.visited0);
    DedupAccepts(p.cfg, batch, p.visited0);
    hide Dedup, LinkTasks;
    var found := Dedup(p.cfg, batch, p.visited0).0;
    assert u in Urls(found);
    assert found[0].url in Urls(found);
  }

  /** The coordinator takes in the batch and sends the first task it accepts. */
  lemma FirstIsSent(p: Params, acts: seq<Action>, s: State, found: seq<CrawlTask>) returns (more: seq<Action>, s': State)
    requires p.cfg.maxURLs <= 0 && p.cfg.queueSize >= 1 && After(p, acts) == Some(s) && |s.discoveredCh| == 1
    requires s.coord.phase == Head && s.coord.inFlight == 1 && s.coord.overflow == [] && s.taskCh == [] && !s.taskClosed
    requires found != [] && found == Dedup(p.cfg, s.discoveredCh[0], s.coord.visited).0
    ensures After(p, more) == Some(s') && s'.taskCh == [found[0]] && s'.coord.phase == Dispatch(found[1..])
    ensures s'.coord.inFlight == 1 && s'.coord.overflow == [] && s'.discoveredCh == [] && !s'.taskClosed
    ensures s'.workers == s.workers && s'.cancelled == s.cancelled && s'.hist == s.hist.(found := s.hist.found + found)
  {
    hide After, Dedup, UrlSeq;
    var a2, s2 := Then(p, acts, s, ACheckLoop);
    assert s2 == s.(coord := s.coord.(phase := Select));
    var a3, s3 := Then(p, a2, s2, AReceiveBatch);
    assert s3.coord.phase == Dispatch(found) && s3.hist == s.hist.(found := s.hist.found + found) && s3.coord.inFlight == 0;
    hide Accept;
    more, s' := Then(p, a3, s3, ADispatchNext);
  }

  lemma LinkIsTaken(p: Params, seed: CrawlTask, u: Url) returns (acts: seq<Action>, s: State, x: CrawlTask)
    requires WellFormed(p) && p.queue0 == [seed] && p.visited0 == {seed.url} && p.cfg.maxURLs <= 0
    requires seed.depth < p.cfg.maxDepth && u in LinksOf(p.web, seed.url) && u != seed.url
    ensures After(p, acts) == Some(s) && FirstLinkInFetch(p, s, seed, x) && x.url != seed.url
  {
    var a1, s1 := SeedIsFetched(p, seed);
    FirstLink(p, seed, u);
    var found := Dedup(p.cfg, LinkBatch(p.web, seed), p.visited0).0;
    assert s1.coord.visited == p.visited0;
    x := found[0];
    hide After, Init, Dedup, LinkBatch, Without;
    var a4, s4 := FirstIsSent(p, a1, s1, found);
    acts, s := StartFetch(p, a4, s4, x);
    NothingWithout(x.url);
  }

  lemma NothingWithout(u: Url)
    ensures Without([], u)
  {}

  /** The coordinator deals with the other links. */
  lemma {:induction false} OthersDispatched(p: Params, acts: seq<Action>, seed: CrawlTask, x: CrawlTask) returns (all: seq<Action>)
    requires After(p, acts).Some? && FirstLinkInFetch(p, After(p, acts).value, seed, x)
    ensures After(p, all).Some? && FirstLinkInFetch(p, After(p, all).value, seed, x) && After(p, all).value.coord.phase.Head?
    decreases var s := After(p, acts).value; if s.coord.phase.Head? then 0 else 1 + |Undispatched(s)|
  {
    var s := After(p, acts).value;
    all := acts;
    if s.coord.phase.Dispatch? {
      hide After;
      var more, s' := Then(p, acts, s, ADispatchNext);
      DispatchedWithout(p, s, seed, x);
      all := OthersDispatched(p, more, seed, x);
    }
  }

  lemma DispatchedWithout(p: Params, s: State, seed: CrawlTask, x: CrawlTask)
    requires s.coord.phase.Dispatch? && FirstLinkInFetch(p, s, seed, x)
    ensures var s' := DispatchNext(p.cfg, s);
      && FirstLinkInFetch(p, s', seed, x)
      && (s'.coord.phase.Head? || (s'.coord.phase.Dispatch? && |Undispatched(s')| < |Undispatched(s)|))
  {}

  /** The crawl is stopped while the link is being fetched, and the fetch cut short. */
  lemma LinkIsCut(p: Params, acts: seq<Action>, s: State, seed: CrawlTask, x: CrawlTask) returns (more: seq<Action>, s': State)
    requires p.cfg.maxURLs <= 0 && After(p, acts) == Some(s) && FirstLinkInFetch(p, s, seed, x) && s.coord.phase.Head?
    ensures After(p, more) == Some(s') && s'.cancelled && s'.coord.phase.Drain?
    ensures s'.hist.fetched == [seed, x] && s'.hist.aborted == [x] && x in s'.hist.found
    ensures forall t: CrawlTask :: t.url == x.url ==> InReach(p, s', t) == 0
  {
    hide After, Without;
    var a1, s1 := Then(p, acts, s, ACancel);
    hide FailedRecord;
    var a2, s2 := Then(p, a1, s1, AEndFetch(0, true));
    assert s2.workers == s.workers[0 := Reporting(FailedRecord(x))] && s2.hist.aborted == [x];
    var a3, s3 := Then(p, a2, s2, ACheckLoop);
    assert s3 == s2.(coord := s2.coord.(phase := Select));
    more, s' := Then(p, a3, s3, ABeginDrain);
    assert s'.workers == s2.workers && s'.taskCh == s.taskCh && s'.coord.overflow == s.coord.overflow && s'.discoveredCh == [];
    hide Apply, Enabled;
    forall t: CrawlTask | t.url == x.url ensures InReach(p, s', t) == 0 { OutOfReach(p, s', x, t); }
  }

  lemma OutOfReach(p: Params, s: State, x: CrawlTask, t: CrawlTask)
    requires |s.workers| >= 1 && s.workers[0] == Reporting(FailedRecord(x))
    requires forall i :: 1 <= i < |s.workers| ==> s.workers[i].Idle?
    requires s.discoveredCh == [] && Without(s.taskCh, x.url) && Without(s.coord.overflow, x.url) && t.url == x.url
    ensures InReach(p, s, t) == 0
  {
    assert BatchOf(FailedRecord(x)) == [];
    hide FailedRecord, BatchOf, LinkBatch;
    forall w | w in s.workers ensures Owes(p.web, t)(w) == 0 {}
    AllZero(s.workers, Owes(p.web, t));
    assert t !in s.taskCh && t !in s.coord.overflow;
    assert t !in multiset(s.taskCh) && t !in multiset(s.coord.overflow);
  }

  /** So the link is stored as visited, not fetched to the end, and in no saved task. */
  lemma LinkIsLost(p: Params, stop: seq<Action>, seed: CrawlTask, x: CrawlTask)
    requires WellFormed(p) && FreshStart(p) && p.stored0 == {} && p.cfg.hasDb
    requires p.cfg.maxURLs <= 0 && p.queue0 == [seed] && x.url != seed.url
    requires After(p, stop).Some? && var s := After(p, stop).value;
      && s.cancelled && s.coord.phase.Drain? && s.hist.fetched == [seed, x] && s.hist.aborted == [x] && x in s.hist.found
      && forall t: CrawlTask :: t.url == x.url ==> InReach(p, s, t) == 0
    ensures !SurvivesEveryStop(p, seed.url)
  {
    hide After, FreshStart;
    var acts := DrainToEnd(p, stop);
    var s := After(p, acts).value;
    StoredTracksVisited(p, acts);
    SoundAlways(p, acts);
    NotSavedFor(p, stop, acts, x.url);
    NotCompletedFor(p, acts, seed, x);
    ResumeLosesNothingIff(p, acts, seed.url, NO_COUNTS);
    hide WellFormed, ResumeLosesNothing, Shape, TaskBooks, RecordBooks;
    assert x.url in s.coord.stored by { assert x.url in Urls(s.hist.found); }
    assert x in Accepted(p, s) && !HandedOver(s, seed.url, x.url);
  }

  lemma NotSavedFor(p: Params, stop: seq<Action>, acts: seq<Action>, u: Url)
    requires After(p, stop).Some? && After(p, stop).value.coord.phase.Drain? && stop <= acts && Halted(p, acts)
    requires forall t: CrawlTask :: t.url == u ==> InReach(p, After(p, stop).value, t) == 0
    ensures var saved := After(p, acts).value.coord.savedQueue; saved.Some? && Without(saved.value, u)
  {
    var s := After(p, acts).value;
    assert acts == stop + acts[|stop|..];
    DrainConserves(p, stop, acts[|stop|..], CrawlTask(u, "", 0));
    hide After, InReach;
    forall t | t in s.coord.overflow ensures t.url != u {
      assert t in multiset(s.coord.overflow);
      DrainConserves(p, stop, acts[|stop|..], t);
    }
  }

  lemma NotCompletedFor(p: Params, acts: seq<Action>, seed: CrawlTask, x: CrawlTask)
    requires Halted(p, acts) && x.url != seed.url
    requires After(p, acts).value.hist.fetched == [seed, x] && [x] <= After(p, acts).value.hist.aborted
    ensures x.url !in Urls(After(p, acts).value.hist.completed)
  {
    var h := After(p, acts).value.hist;
    forall t | t in h.completed ensures t.url != x.url {
      EveryFetchEnded(p, acts, t);
      hide After;
      assert t in multiset(h.completed);
      assert multiset(h.fetched)[t] == One(seed == t) + One(x == t);
      assert h.aborted[0] in multiset(h.aborted);
    }
  }

  // ---------- Exactly when ----------

  /**
   A crawl without a URL limit can be stopped at any moment and resumed without losing an accepted page exactly when it
   has no seed, or a single one that leads nowhere else.
   */
  lemma {:induction false} SurvivesEveryStopIff(cfg: Config, web: Web, seeds: seq<Url>, origin: Url)
    requires cfg.numWorkers >= 1 && cfg.queueSize >= 1 && cfg.hasDb && cfg.maxURLs <= 0
    requires DistinctSeeds(seeds) && (seeds != [] ==> origin == seeds[0])
    ensures SurvivesEveryStop(FreshParams(cfg, web, seeds), origin) <==>
      seeds == [] || (|seeds| == 1 && LeadsNowhere(cfg, web, origin))
  {
    var p := FreshParams(cfg, web, seeds);
    SeedsMakeFreshStart(cfg, web, seeds);
    assert |p.queue0| == |seeds| && forall i :: 0 <= i < |seeds| ==> p.queue0[i] == CrawlTask(seeds[i], "", 0);
    assert p.cfg == cfg && p.web == web && p.stored0 == {} && WellFormed(p);
    assert |seeds| == 1 ==> p.visited0 == {origin};
    hide FreshParams, FreshStart, WellFormed, SurvivesEveryStop;
    if seeds == [] {
      EmptyCrawlSurvives(p, origin);
    } else if |seeds| > 1 {
      SecondSeedLost(p, origin, p.queue0[1]);
    } else if LeadsNowhere(cfg, web, origin) {
      LonelyCrawlSurvives(p, origin);
    } else {
      LinkedCrawlLoses(p, p.queue0[0]);
    }
  }

  lemma EmptyCrawlSurvives(p: Params, origin: Url)
    requires WellFormed(p) && FreshStart(p) && p.queue0 == [] && p.cfg.maxURLs <= 0
    ensures SurvivesEveryStop(p, origin)
  {
    hide After, WellFormed, FreshStart, ResumeLosesNothing;
    forall acts, counts | Halted(p, acts)
      ensures After(p, acts).value.coord.savedQueue.Some? && ResumeLosesNothing(p, After(p, acts).value, origin, counts)
    {
      NothingToCrawl(p, acts);
      ResumeLosesNothingIff(p, acts, origin, counts);
    }
  }

  lemma LonelyCrawlSurvives(p: Params, origin: Url)
    requires WellFormed(p) && FreshStart(p) && p.stored0 == {} && p.cfg.maxURLs <= 0
    requires p.visited0 == {origin} && LeadsNowhere(p.cfg, p.web, origin)
    ensures SurvivesEveryStop(p, origin)
  {
    hide After, WellFormed, FreshStart, ResumeLosesNothing, LeadsNowhere;
    forall acts, counts | Halted(p, acts)
      ensures After(p, acts).value.coord.savedQueue.Some? && ResumeLosesNothing(p, After(p, acts).value, origin, counts)
    {
      LonelySeedSurvives(p, acts, origin, counts);
    }
  }

  lemma LinkedCrawlLoses(p: Params, seed: CrawlTask)
    requires WellFormed(p) && FreshStart(p) && p.stored0 == {} && p.cfg.hasDb && p.cfg.maxURLs <= 0
    requires p.queue0 == [seed] && seed.depth == 0 && p.visited0 == {seed.url} && !LeadsNowhere(p.cfg, p.web, seed.url)
    ensures !SurvivesEveryStop(p, seed.url)
  {
    var u :| u in LinksOf(p.web, seed.url) && u != seed.url;
    hide After, WellFormed, FreshStart, SurvivesEveryStop;
    var a1, s1, x := LinkIsTaken(p, seed, u);
    hide FirstLinkInFetch, InReach;
    var a2 := OthersDispatched(p, a1, seed, x);
    var a3, s3 := LinkIsCut(p, a2, After(p, a2).value, seed, x);
    LinkIsLost(p, a3, seed, x);
  }
}
