/**
 Small crawls that are stopped and resumed, and what goes wrong with them: a page fetched again, a URL fetched twice by
 the second run, a page and a seed that are never fetched at all.
 */
module CrawlResumeExamples {
  import opened Options
  import opened CrawlTypes
  import opened CrawlSystem
  import opened CrawlSafety
  import opened CrawlLedger
  import opened CrawlTermination
  import opened CrawlCoverage
  import opened CrawlOutcome
  import opened CrawlShutdown
  import opened CrawlLoss
  import opened CrawlBarren
  import opened CrawlExceptions
  import opened CrawlResume
  import opened CrawlRepeats
  import opened CrawlRestart
  import opened CrawlAnyStop
  import opened Runs

  // ---------- A small crawl ----------

  /** "s" links to "x", and every other page to `far`. */
  function ChainWeb(far: Url): Web { u => Fetched("", "", [NextAfter(far, u)]) }

  function NextAfter(far: Url, u: Url): Url { if u == "s" then "x" else far }

  function ChainParams(maxDepth: int, far: Url): Params { FreshParams(SmallConfig(maxDepth), ChainWeb(far), ["s"]) }

  const LINK_FROM_SEED := CrawlTask("x", "s", 1)

  lemma ChainBatch(far: Url, t: CrawlTask)
    ensures BatchOf(RecordOf(ChainWeb(far), t)) == [CrawlTask(NextAfter(far, t.url), t.url, t.depth + 1)]
  {}

  /** One worker takes the only task and fetches its page. */
  lemma FetchPage(p: Params, acts: seq<Action>, s: State, t: CrawlTask) returns (more: seq<Action>, s': State)
    requires p.cfg.numWorkers == 1 && After(p, acts) == Some(s)
    requires s.workers == [Idle] && s.taskCh == [t] && !s.cancelled
    ensures After(p, more) == Some(s')
    ensures s' == s.(workers := [Reporting(RecordOf(p.web, t))], taskCh := [],
                     hist := s.hist.(fetched := s.hist.fetched + [t], completed := s.hist.completed + [t]))
  {
    hide After, RecordOf;
    var a1, s1 := StartFetch(p, acts, s, t);
    assert s1.workers == [Fetching(t)];
    more, s' := Then(p, a1, s1, AEndFetch(0, false));
    assert s'.workers == [Reporting(RecordOf(p.web, t))];
  }

  /** And reports it, up to the batch. */
  lemma FetchOne(p: Params, far: Url, acts: seq<Action>, s: State, t: CrawlTask) returns (more: seq<Action>, s': State)
    requires p.web == ChainWeb(far) && p.cfg.numWorkers == 1 && After(p, acts) == Some(s)
    requires s.workers == [Idle] && s.taskCh == [t] && !s.cancelled && !s.resultsClosed && |s.resultsCh| < 2
    ensures After(p, more) == Some(s')
    ensures s' == s.(workers := [Posting([CrawlTask(NextAfter(far, t.url), t.url, t.depth + 1)])], taskCh := [], resultsCh := s'.resultsCh,
                     hist := s.hist.(fetched := s.hist.fetched + [t], completed := s.hist.completed + [t]))
    ensures |s'.resultsCh| == |s.resultsCh| + 1
  {
    ChainBatch(far, t);
    hide After, RecordOf, BatchOf;
    var a1, s1 := FetchPage(p, acts, s, t);
    more, s' := Then(p, a1, s1, ASendRecord(0));
    assert s'.workers == [Posting(BatchOf(RecordOf(p.web, t)))];
  }

  /** The coordinator takes in the seed's batch, and sends its one link to the worker. */
  lemma BatchIsTaken(p: Params, acts: seq<Action>, s: State) returns (more: seq<Action>, s': State)
    requires p.cfg.maxDepth >= 1 && p.cfg.maxURLs <= 0 && p.cfg.queueSize >= 1
    requires After(p, acts) == Some(s) && s.discoveredCh == [[LINK_FROM_SEED]]
    requires s.coord.phase == Head && s.coord.inFlight == 1 && s.coord.overflow == [] && "x" !in s.coord.visited
    requires s.taskCh == [] && !s.taskClosed && s.coord.newVisited == []
    ensures After(p, more) == Some(s') && s'.taskCh == [LINK_FROM_SEED] && s'.discoveredCh == []
    ensures s'.workers == s.workers && s'.cancelled == s.cancelled && s'.resultsClosed == s.resultsClosed && s'.resultsCh == s.resultsCh
    ensures s'.coord.phase == Head && s'.coord.overflow == [] && s'.coord.inFlight == 1 && s'.coord.newVisited == ["x"] && !s'.taskClosed
    ensures s'.coord.stored == s.coord.stored && s'.hist == s.hist.(found := s.hist.found + [LINK_FROM_SEED])
  {
    hide After;
    var a3, s3 := Then(p, acts, s, ACheckLoop);
    assert s3 == s.(coord := s.coord.(phase := Select));
    DedupOne(p.cfg, s3.coord.visited);
    hide Dedup;
    var a4, s4 := Then(p, a3, s3, AReceiveBatch);
    assert s4.coord.phase == Dispatch([LINK_FROM_SEED]) && s4.coord.newVisited == ["x"];
    var a5, s5 := Then(p, a4, s4, ADispatchNext);
    assert s5.taskCh == [LINK_FROM_SEED];
    more, s' := Then(p, a5, s5, ADispatchNext);
  }

  /** The seed is fetched and its link to "x" accepted and sent to the worker. */
  lemma SeedLeadsToX(maxDepth: int, far: Url) returns (acts: seq<Action>, s: State)
    requires maxDepth >= 1
    ensures var p := ChainParams(maxDepth, far);
      After(p, acts) == Some(s) && s.workers == [Idle] && s.taskCh == [LINK_FROM_SEED] && s.discoveredCh == []
    ensures !s.cancelled && !s.resultsClosed && |s.resultsCh| == 1 && s.coord.phase == Head && s.coord.overflow == []
    ensures s.coord.inFlight == 1 && s.coord.newVisited == ["x"] && s.coord.stored == {} && !s.taskClosed
    ensures s.hist == History([LINK_FROM_SEED], [CrawlTask("s", "", 0)], multiset{}, [CrawlTask("s", "", 0)], [], [])
  {
    var p := ChainParams(maxDepth, far);
    var seed := CrawlTask("s", "", 0);
    var s0 := Init(p);
    assert s0.taskCh == [seed] && s0.coord.overflow == [] && s0.workers == [Idle] && "x" !in s0.coord.visited;
    assert After(p, []) == Some(s0) && s0.coord.newVisited == [] && !s0.taskClosed && s0.coord.inFlight == 1 && s0.coord.phase == Head;
    assert s0.discoveredCh == [] && p.web == ChainWeb(far) && p.cfg == SmallConfig(maxDepth) && s0.coord.stored == {};
    assert s0.hist == History([], [], multiset{}, [], [], []);
    hide After, Init, ChainParams, ChainWeb;
    var a1, s1 := FetchOne(p, far, [], s0, seed);
    var a2, s2 := Then(p, a1, s1, ASendBatch(0));
    assert s2.workers == [Idle] && s2.discoveredCh == [[LINK_FROM_SEED]];
    hide Apply;
    acts, s := BatchIsTaken(p, a2, s2);
    assert [] + [seed] == [seed] && [] + [LINK_FROM_SEED] == [LINK_FROM_SEED];
  }

  lemma DedupOne(cfg: Config, visited: set<Url>)
    requires cfg.maxDepth >= 1 && cfg.maxURLs <= 0 && "x" !in visited
    ensures Dedup(cfg, [LINK_FROM_SEED], visited).0 == [LINK_FROM_SEED]
  {}

  /** After cancellation the last batch is sent, and the drain begins. */
  lemma LastBatchIsSent(p: Params, acts: seq<Action>, s: State, batch: seq<CrawlTask>) returns (more: seq<Action>, s': State)
    requires p.cfg.maxURLs <= 0 && p.cfg.numWorkers == 1
    requires After(p, acts) == Some(s) && s.workers == [Posting(batch)] && s.discoveredCh == [] && s.cancelled
    requires s.coord.phase == Head && s.coord.inFlight == 1 && s.coord.overflow == []
    ensures After(p, more) == Some(s') && s'.discoveredCh == [batch] && s'.coord == s.coord.(phase := Drain)
    ensures s'.hist == SetAside(s.hist, multiset{})
  {
    hide After;
    var a2, s2 := Then(p, acts, s, ASendBatch(0));
    assert s2.discoveredCh == [batch];
    var a4, s4 := Then(p, a2, s2, ACheckLoop);
    assert s4 == s2.(coord := s.coord.(phase := Select));
    more, s' := Then(p, a4, s4, ABeginDrain);
  }

  /** There it is collected, and saved as it is. */
  lemma LastBatchIsSaved(p: Params, acts: seq<Action>, s: State, batch: seq<CrawlTask>) returns (more: seq<Action>)
    requires p.cfg.maxURLs <= 0 && p.cfg.hasDb && p.cfg.numWorkers == 1
    requires After(p, acts) == Some(s) && s.workers == [Posting(batch)] && s.discoveredCh == [] && s.cancelled
    requires s.coord.phase == Head && s.coord.inFlight == 1 && s.coord.overflow == []
    requires s.coord.newVisited == ["x"] && s.coord.stored == {}
    ensures After(p, more).Some? && var s' := After(p, more).value;
      && Returned(s') && s'.coord.savedQueue == Some(batch) && s'.coord.stored == {"x"}
      && s'.hist.fetched == s.hist.fetched && s'.hist.completed == s.hist.completed && s'.hist.found == s.hist.found
  {
    hide After;
    var a5, s5 := LastBatchIsSent(p, acts, s, batch);
    var a6, s6 := Then(p, a5, s5, ADrainBatch);
    assert s6.coord.overflow == batch && s6.coord.inFlight == 0;
    assert (set u | u in ["x"]) == {"x"};
    more, s6 := Then(p, a6, s6, AFinishDrain);
  }

  lemma ChainIsFresh(maxDepth: int, far: Url)
    ensures var p := ChainParams(maxDepth, far);
      && WellFormed(p) && FreshStart(p) && p.stored0 == {} && p.cfg == SmallConfig(maxDepth) && p.web == ChainWeb(far)
      && p.visited0 == {"s"} && p.queue0 == [CrawlTask("s", "", 0)]
  {
    SeedsMakeFreshStart(SmallConfig(maxDepth), ChainWeb(far), ["s"]);
    assert ChainParams(maxDepth, far).visited0 == {"s"};
  }

  /** "x" is fetched, the crawl stopped, and the link of "x" drained and saved. */
  lemma StopSavesLinkOfX(maxDepth: int, far: Url) returns (acts: seq<Action>)
    requires maxDepth >= 1
    ensures var p := ChainParams(maxDepth, far);
      && Resumable(p, acts, "s") && var s := After(p, acts).value;
        && s.coord.savedQueue == Some([CrawlTask(far, "x", 2)]) && s.coord.stored == {"x"}
        && s.hist.fetched == s.hist.completed == [CrawlTask("s", "", 0), LINK_FROM_SEED]
  {
    var p := ChainParams(maxDepth, far);
    ChainIsFresh(maxDepth, far);
    var a0, s0 := SeedLeadsToX(maxDepth, far);
    hide After, ChainParams, FreshStart, ChainWeb;
    var a1, s1 := FetchOne(p, far, a0, s0, LINK_FROM_SEED);
    var a2, s2 := Then(p, a1, s1, ACancel);
    hide Apply;
    acts := LastBatchIsSaved(p, a2, s2, [CrawlTask(far, "x", 2)]);
  }

  // ---------- Fetched again ----------

  /** Distinct seeds are not enough: over a stop and a resume a page that is no seed can be fetched twice. */
  lemma ResumeCanRefetch(counts: Counts)
    ensures var p := ChainParams(1, "x");
      exists acts :: Resumable(p, acts, "s") && After(p, acts).value.coord.savedQueue.Some?
        && !NeverFetches(ResumedParams(p, After(p, acts).value, "s", counts), FetchedBeyondSeeds(p, After(p, acts).value))
  {
    var p := ChainParams(1, "x");
    ChainIsFresh(1, "x");
    var acts := StopSavesLinkOfX(1, "x");
    var s := After(p, acts).value;
    hide After, FreshStart, ChainParams, NeverFetches;
    assert LINK_FROM_SEED in s.hist.fetched;
    assert "x" in Urls(s.hist.fetched);
    assert CrawlTask("x", "x", 2) in s.coord.savedQueue.value;
    ResumeRefetchesIff(p, acts, "s", counts);
  }

  /**
   Nor is a saved queue that avoids what the first run fetched: drained links are queued without being marked, so when
   such a page is found again the second run fetches it twice.
   */
  lemma ResumeCanRepeat(counts: Counts)
    ensures var p := ChainParams(3, "z");
      exists acts :: Resumable(p, acts, "s") && After(p, acts).value.coord.savedQueue == Some([CrawlTask("z", "x", 2)])
        && var q := ResumedParams(p, After(p, acts).value, "s", counts);
          NeverFetches(q, FetchedBeyondSeeds(p, After(p, acts).value)) && !NeverFetchesTwice(q)
  {
    var p, t := ChainParams(3, "z"), CrawlTask("z", "x", 2);
    ChainIsFresh(3, "z");
    var acts := StopSavesLinkOfX(3, "z");
    var s := After(p, acts).value;
    ResumeRefetchesIff(p, acts, "s", counts);
    ResumedStart(p, acts, "s", counts);
    hide After, FreshStart, ChainParams, NeverFetches, WellFormed;
    var q := ResumedParams(p, s, "s", counts);
    assert forall x :: x in s.coord.savedQueue.value ==> x == t;
    assert forall u :: u in Urls(s.hist.fetched) ==> u == "s" || u == "x";
    assert t in q.queue0 && "z" in LinksOf(q.web, "z") && "z" in Urls(q.queue0);
    hide ResumedParams;
    var more := SomeRunEnds(q);
    LinkedQueueUrlIsRepeated(q, more, t, "z");
  }

  // ---------- Never fetched ----------

  /** The fetch of "x" is cut short: nothing is left in the queue, and "x" is stored as visited. */
  lemma StopCutsX() returns (acts: seq<Action>)
    ensures var p := ChainParams(1, "x");
      && Resumable(p, acts, "s") && var s := After(p, acts).value;
        && s.coord.savedQueue == Some([]) && s.coord.stored == {"x"}
        && s.hist.completed == [CrawlTask("s", "", 0)] && s.hist.found == [LINK_FROM_SEED]
  {
    var p := ChainParams(1, "x");
    ChainIsFresh(1, "x");
    var a0, s0 := SeedLeadsToX(1, "x");
    hide After, ChainParams, FreshStart, ChainWeb, RecordOf;
    acts := CutFetch(p, a0, s0);
  }

  lemma CutFetch(p: Params, acts: seq<Action>, s: State) returns (more: seq<Action>)
    requires p.cfg == SmallConfig(1) && After(p, acts) == Some(s) && s.workers == [Idle] && s.taskCh == [LINK_FROM_SEED]
    requires s.discoveredCh == [] && !s.cancelled && !s.resultsClosed && |s.resultsCh| == 1
    requires s.coord.phase == Head && s.coord.overflow == [] && s.coord.inFlight == 1
    requires s.coord.newVisited == ["x"] && s.coord.stored == {}
    ensures After(p, more).Some? && var s' := After(p, more).value;
      && Returned(s') && s'.coord.savedQueue == Some([]) && s'.coord.stored == {"x"}
      && s'.hist.completed == s.hist.completed && s'.hist.found == s.hist.found
  {
    hide After, RecordOf;
    var a1, s1 := StartFetch(p, acts, s, LINK_FROM_SEED);
    assert s1.workers == [Fetching(LINK_FROM_SEED)];
    var a3, s3 := Then(p, a1, s1, ACancel);
    var a4, s4 := Then(p, a3, s3, AEndFetch(0, true));
    assert s4.workers == [Reporting(FailedRecord(LINK_FROM_SEED))] && BatchOf(FailedRecord(LINK_FROM_SEED)) == [];
    hide FailedRecord, BatchOf;
    var a5, s5 := Then(p, a4, s4, ASendRecord(0));
    assert s5.workers == [Posting([])];
    hide Apply;
    more := LastBatchIsSaved(p, a5, s5, []);
  }

  /** One seed, and a page lost for good: stored as visited, not fetched to the end, and never fetched by the second run. */
  lemma CutPageIsLost(counts: Counts)
    ensures var p := ChainParams(1, "x");
      exists acts :: Resumable(p, acts, "s") && var s := After(p, acts).value;
        && s.coord.savedQueue.Some? && "x" in Unfinished(p, s)
        && forall web: Web :: NeverFetches(ResumedParams(p, s, "s", counts).(web := web), {"x"})
  {
    var p := ChainParams(1, "x");
    ChainIsFresh(1, "x");
    var acts := StopCutsX();
    var s := After(p, acts).value;
    ResumedStart(p, acts, "s", counts);
    hide After, FreshStart, ChainParams, NeverFetches;
    assert LINK_FROM_SEED in Accepted(p, s);
    assert "x" in Unfinished(p, s);
    var q := ResumedParams(p, s, "s", counts);
    hide ResumedParams;
    forall web: Web ensures NeverFetches(q.(web := web), {"x"}) {
      NeverFetchesIff(q.(web := web), {"x"});
    }
  }

  /**
   Two seeds, stopped at once: nothing is lost in the first run, both being saved, but with no row stored the saved queue
   is ignored and the second run knows the first seed only.
   */
  lemma SecondSeedIsLost(counts: Counts)
    ensures var p := FreshParams(Config(1, 0, 1, 2, true), OnePageWeb(), ["a", "b"]);
      exists acts :: Resumable(p, acts, "a") && var s := After(p, acts).value;
        && s.coord.savedQueue == Some(p.queue0) && NothingLost(p, s) && NoneTakenBack(p, acts) && s.hist.aborted == []
        && "b" in Unfinished(p, s) && NeverFetches(ResumedParams(p, s, "a", counts), {"b"})
  {
    var p := FreshParams(Config(1, 0, 1, 2, true), OnePageWeb(), ["a", "b"]);
    SeedsMakeFreshStart(p.cfg, p.web, ["a", "b"]);
    var acts := BothSeedsSaved(p);
    var s := After(p, acts).value;
    assert p.cfg == Config(1, 0, 1, 2, true) && p.web == OnePageWeb() && p.stored0 == {} && "a" in p.visited0 && WellFormed(p);
    assert p.queue0[1] == CrawlTask("b", "", 0);
    NothingLostIff(p, acts);
    ResumedStart(p, acts, "a", counts);
    hide After, FreshStart, FreshParams, NoneTakenBack;
    assert p.queue0[1] in Accepted(p, s);
    assert "b" in Unfinished(p, s);
    var q := ResumedParams(p, s, "a", counts);
    hide ResumedParams;
    OnlyQueueIsFetched(q, "b");
  }

  lemma OnlyQueueIsFetched(q: Params, u: Url)
    requires WellFormed(q) && q.web == OnePageWeb() && u !in Urls(q.queue0)
    ensures NeverFetches(q, {u})
  {
    hide After, WellFormed;
    forall acts | After(q, acts).Some? ensures Urls(After(q, acts).value.hist.fetched) !! {u} {
      BarrenAlways(q, acts);
      var fetched := After(q, acts).value.hist.fetched;
      forall t | t in fetched ensures t.url != u {
        assert t in multiset(fetched);
        assert t in multiset(q.queue0);
      }
    }
  }

  /** Stopped before anything is fetched: the worker returns both seeds to the drain. */
  lemma BothSeedsSaved(p: Params) returns (acts: seq<Action>)
    requires p == FreshParams(Config(1, 0, 1, 2, true), OnePageWeb(), ["a", "b"])
    ensures After(p, acts).Some? && var s := After(p, acts).value;
      && Returned(s) && s.coord.savedQueue == Some(p.queue0) && s.coord.stored == {} && s.hist == NothingBut(p.queue0)
  {
    var a, b := CrawlTask("a", "", 0), CrawlTask("b", "", 0);
    var a3, s3 := StopAtOnce(p);
    assert p.queue0 == [a, b] && p.cfg == Config(1, 0, 1, 2, true);
    assert s3.taskCh == [a, b] && s3.coord.overflow == [] && s3.workers == [Idle] && s3.coord.inFlight == 2;
    hide After, Init, FreshParams;
    var a4, s4 := ReturnToDrain(p, a3, s3, a, [b]);
    var a5, s5 := ReturnToDrain(p, a4, s4, b, []);
    assert s5.coord.overflow == [a, b];
    acts, s5 := Then(p, a5, s5, AFinishDrain);
  }

  function NothingBut(aside: seq<CrawlTask>): History { History([], [], multiset(aside), [], [], []) }

  /** After cancellation the worker takes a task and returns it. */
  lemma TaskIsReturned(p: Params, acts: seq<Action>, s: State, t: CrawlTask, rest: seq<CrawlTask>)
    returns (more: seq<Action>, s': State)
    requires After(p, acts) == Some(s) && s.cancelled && s.workers == [Idle] && s.taskCh == [t] + rest
    ensures After(p, more) == Some(s')
    ensures s' == s.(taskCh := rest, workers := [Posting([t])],
                     hist := s.hist.(setAside := s.hist.setAside + multiset{t}))
  {
    hide After;
    var a1, s1 := Then(p, acts, s, ATake(0));
    assert s1.workers == [Holding(t)] && s1.taskCh == rest;
    more, s' := Then(p, a1, s1, ACheckCancel(0));
    assert s'.workers == [Posting([t])];
  }

  /** During the drain the coordinator collects it. */
  lemma ReturnToDrain(p: Params, acts: seq<Action>, s: State, t: CrawlTask, rest: seq<CrawlTask>)
    returns (more: seq<Action>, s': State)
    requires p.cfg.numWorkers == 1 && After(p, acts) == Some(s) && s.cancelled && s.coord.phase == Drain
    requires s.workers == [Idle] && s.taskCh == [t] + rest && s.discoveredCh == [] && s.coord.inFlight == |s.taskCh|
    ensures After(p, more) == Some(s')
    ensures s' == s.(taskCh := rest, coord := s.coord.(overflow := s.coord.overflow + [t], inFlight := s.coord.inFlight - 1),
                     hist := s.hist.(setAside := s.hist.setAside + multiset{t}))
  {
    hide After;
    var a2, s2 := TaskIsReturned(p, acts, s, t, rest);
    var a3, s3 := Then(p, a2, s2, ASendBatch(0));
    assert s3.workers == [Idle] && s3.discoveredCh == [[t]];
    more, s' := Then(p, a3, s3, ADrainBatch);
  }
}
