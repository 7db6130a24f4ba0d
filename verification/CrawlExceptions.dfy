/**
 Claims the crawl does not keep in general: at-most-once fetching, which holds exactly for distinct seeds, and
 conservation at cancellation, which holds of every run only when there is nothing to crawl. CrawlLoss says exactly
 which runs lose something.
 */
module CrawlExceptions {
  import opened Options
  import opened CrawlTypes
  import opened CrawlSystem
  import opened CrawlSafety
  import opened CrawlLedger
  import opened CrawlOnce
  import opened CrawlTermination
  import opened CrawlCoverage
  import opened CrawlOutcome
  import opened CrawlShutdown
  import opened CrawlFetches
  import opened CrawlLoss
  import opened Runs
  import opened Tally

  // ---------- Distinct seeds ----------

  lemma DistinctFromBag(xs: seq<CrawlTask>, ys: seq<CrawlTask>)
    requires multiset(xs) == multiset(ys) && DistinctUrls(xs)
    ensures DistinctUrls(ys)
  {
    BagWithin(ys, xs);
  }

  ghost predicate NeverFetchesTwice(p: Params) {
    forall acts :: After(p, acts).Some? ==> DistinctUrls(After(p, acts).value.hist.fetched)
  }

  /**
   Seeds are not deduplicated, so an unlimited fresh crawl fetches each URL at most once under every schedule
   exactly when its seeds are distinct.
   */
  lemma AtMostOnceIffDistinctSeeds(cfg: Config, web: Web, seeds: seq<Url>)
    requires cfg.numWorkers >= 1 && cfg.queueSize >= 1 && cfg.maxURLs <= 0
    ensures NeverFetchesTwice(FreshParams(cfg, web, seeds)) <==> DistinctSeeds(seeds)
  {
    var p := FreshParams(cfg, web, seeds);
    if DistinctSeeds(seeds) {
      SeedsMakeFreshStart(cfg, web, seeds);
      forall acts | After(p, acts).Some? ensures DistinctUrls(After(p, acts).value.hist.fetched) {
        AtMostOneFetch(p, acts);
      }
    }
    if NeverFetchesTwice(p) {
      var all := CarryOn(p, []);
      var s := After(p, all).value;
      EverythingFetched(p, all);
      DistinctFromBag(s.hist.fetched, Accepted(p, s));
      assert forall i :: 0 <= i < |seeds| ==> Accepted(p, s)[i].url == seeds[i];
    }
  }

  // ---------- A task lost at cancellation ----------

  function OnePageWeb(): Web { u => Fetched("", "", []) }

  /** One worker, a queue of one, no URL limit. */
  function SmallConfig(maxDepth: int): Config { Config(maxDepth, 0, 1, 1, true) }

  lemma Then(p: Params, acts: seq<Action>, s: State, a: Action) returns (longer: seq<Action>, s': State)
    requires After(p, acts) == Some(s) && Enabled(p, s, a)
    ensures s' == Apply(p, s, a) && After(p, longer) == Some(s')
  {
    OneMore(p, acts, a);
    longer, s' := acts + [a], Apply(p, s, a);
  }

  /**
   Conservation at stop holds only from the start of the drain. Here cancellation comes while a worker holds the
   only task: the worker returns it, the ordinary loop drops it as already visited, and the run ends as if
   complete, with an empty saved queue and the seed never fetched.
   */
  lemma CancelledRunCanLoseTask()
    ensures var p := FreshParams(SmallConfig(1), OnePageWeb(), ["s"]);
      exists acts :: After(p, acts).Some? && var s := After(p, acts).value;
        && Returned(s) && s.hist.fetched == [] && s.coord.savedQueue == Some([]) && "s" in s.coord.visited
  {
    var p := FreshParams(SmallConfig(1), OnePageWeb(), ["s"]);
    var seed := CrawlTask("s", "", 0);
    var s0 := Init(p);
    assert s0.taskCh == [seed] && s0.coord.overflow == [] && s0.workers == [Idle] && s0.coord.inFlight == 1;
    assert After(p, []) == Some(s0) && p.cfg == SmallConfig(1) && "s" in s0.coord.visited;
    var acts, s := SeedComesBack(p, s0, seed);
    hide After, Init, FreshParams;
    LossEnds(p, acts, s, seed);
  }

  /** The worker takes the seed, sees the cancellation and returns it while the loop is in an ordinary select. */
  lemma SeedComesBack(p: Params, s0: State, seed: CrawlTask) returns (acts: seq<Action>, s: State)
    requires After(p, []) == Some(s0) && p.cfg == SmallConfig(1) && s0 == Init(p)
    requires s0.taskCh == [seed] && s0.coord.overflow == [] && s0.workers == [Idle] && s0.coord.inFlight == 1
    ensures After(p, acts) == Some(s) && s.coord == s0.coord.(phase := Select)
    ensures s.discoveredCh == [[seed]] && s.hist.fetched == []
  {
    assert s0.coord.phase == Head && s0.discoveredCh == [] && !s0.cancelled && s0.hist.fetched == [];
    hide After, Init;
    var a1, s1 := Then(p, [], s0, ATake(0));
    assert s1.workers == [Holding(seed)] && s1.taskCh == [];
    var a2, s2 := Then(p, a1, s1, ACancel);
    var a3, s3 := Then(p, a2, s2, ACheckLoop);
    var a4, s4 := Then(p, a3, s3, ACheckCancel(0));
    acts, s := Then(p, a4, s4, ASendBatch(0));
    assert s.discoveredCh == [[seed]];
  }

  lemma LossEnds(p: Params, acts: seq<Action>, s: State, seed: CrawlTask)
    requires After(p, acts) == Some(s) && s.coord.phase.Select? && s.discoveredCh == [[seed]] && s.coord.inFlight == 1
    requires seed.url in s.coord.visited && s.coord.overflow == [] && s.hist.fetched == [] && p.cfg.hasDb
    ensures exists more :: After(p, more).Some? && var t := After(p, more).value;
      Returned(t) && t.hist.fetched == [] && t.coord.savedQueue == Some([]) && t.coord.visited == s.coord.visited
  {
    assert Urls([seed]) == {seed.url};
    DedupNothingNew(p.cfg, [seed], s.coord.visited);
    var a1, s1 := Then(p, acts, s, AReceiveBatch);
    var a2, s2 := Then(p, a1, s1, ADispatchNext);
    var a3, s3 := Then(p, a2, s2, ACheckLoop);
  }

  // ---------- Any crawl can lose a task ----------

  /** Every run of this crawl, wherever it is stopped, loses nothing. */
  ghost predicate NeverLoses(p: Params) {
    forall acts :: After(p, acts).Some? && Returned(After(p, acts).value) ==> NothingLost(p, After(p, acts).value)
  }

  /** No run of this crawl, once it has returned, has cut a fetch short. */
  ghost predicate NeverCutsShort(p: Params) {
    forall acts :: After(p, acts).Some? && Returned(After(p, acts).value) ==> After(p, acts).value.hist.aborted == []
  }

  /** No run of this crawl, once it has returned, has taken back a returned task. */
  ghost predicate NeverTakesBack(p: Params) {
    forall acts :: After(p, acts).Some? && Returned(After(p, acts).value) ==> NoneTakenBack(p, acts)
  }

  /** The first moves of any crawl with something to do: worker 0 takes the first task. */
  lemma FirstTaken(p: Params) returns (acts: seq<Action>, s: State)
    requires WellFormed(p) && p.queue0 != []
    ensures After(p, acts) == Some(s) && |s.workers| >= 1 && s.workers[0] == Holding(p.queue0[0])
    ensures s.coord.phase.Head? && !s.cancelled && s.coord.inFlight >= 1 && s.discoveredCh == [] && s.hist.found == []
    ensures s.indexer.pagesProcessed == p.counts0.processed
  {
    var s0 := Init(p);
    assert s0.taskCh[0] == p.queue0[0];
    acts, s := Then(p, [], s0, ATake(0));
  }

  lemma SomeFetchIsCut(p: Params) returns (acts: seq<Action>)
    requires WellFormed(p) && p.queue0 != []
    ensures After(p, acts).Some? && After(p, acts).value.hist.aborted != []
  {
    var t := p.queue0[0];
    var a1, s1 := FirstTaken(p);
    var a2, s2 := Then(p, a1, s1, ACheckCancel(0));
    assert s2.workers[0] == Fetching(t);
    var a3, s3 := Then(p, a2, s2, ACancel);
    var a4, s4 := Then(p, a3, s3, AEndFetch(0, true));
    acts := a4;
  }

  lemma ReturnArrives(p: Params) returns (acts: seq<Action>, s: State)
    requires WellFormed(p) && p.queue0 != [] && (p.cfg.maxURLs > 0 ==> p.counts0.processed < p.cfg.maxURLs)
    ensures After(p, acts) == Some(s) && Enabled(p, s, AReceiveBatch) && s.discoveredCh == [[p.queue0[0]]]
  {
    var t := p.queue0[0];
    var a1, s1 := FirstTaken(p);
    var a2, s2 := Then(p, a1, s1, ACheckLoop);
    assert s2.coord.phase.Select?;
    var a3, s3 := Then(p, a2, s2, ACancel);
    var a4, s4 := Then(p, a3, s3, ACheckCancel(0));
    assert s4.workers[0] == Posting([t]);
    acts, s := Then(p, a4, s4, ASendBatch(0));
  }

  lemma SomeTaskIsTakenBack(p: Params) returns (acts: seq<Action>)
    requires WellFormed(p) && p.queue0 != [] && (p.cfg.maxURLs > 0 ==> p.counts0.processed < p.cfg.maxURLs)
    ensures After(p, acts).Some? && TakenBack(p, acts, p.queue0[0]) > 0
  {
    var t := p.queue0[0];
    var before, s := ReturnArrives(p);
    OneMore(p, before, AReceiveBatch);
    acts := before + [AReceiveBatch];
    assert acts[..|acts| - 1] == before;
    assert t in Accepted(p, s) && multiset([t])[t] == 1;
    hide After, Apply, Enabled, Accepted;
  }

  lemma {:induction false} TakenBackGrows(p: Params, acts: seq<Action>, n: nat, t: CrawlTask)
    requires n <= |acts|
    ensures TakenBack(p, acts[..n], t) <= TakenBack(p, acts, t)
    decreases |acts|
  {
    hide After, TakenBackBy;
    if n == |acts| {
      assert acts[..n] == acts;
    } else {
      var shorter := acts[..|acts| - 1];
      assert shorter[..n] == acts[..n];
      TakenBackGrows(p, shorter, n, t);
    }
  }

  lemma AbortedGrows(p: Params, s: State, a: Action)
    requires Enabled(p, s, a)
    ensures s.hist.aborted <= Apply(p, s, a).hist.aborted
  {
    hide Apply, Enabled;
    if IsWorkerAction(a) {
      WorkerAbortsMore(p, s, a);
    } else {
      OthersFetchNothing(p, s, a);
    }
  }

  lemma AbortedStays(p: Params, acts: seq<Action>, all: seq<Action>)
    requires acts <= all && After(p, acts).Some? && After(p, all).Some?
    ensures After(p, acts).value.hist.aborted <= After(p, all).value.hist.aborted
  {
    var s0 := After(p, acts).value;
    assert all == acts + all[|acts|..];
    ExecConcat(Stepper(p), Init(p), acts, all[|acts|..]);
    var inv := (s: State) => s0.hist.aborted <= s.hist.aborted;
    forall s, a | inv(s) && Stepper(p)(s, a).Some? ensures inv(Stepper(p)(s, a).value) {
      AbortedGrows(p, s, a);
    }
    hide Enabled, Apply;
    Invariance(Stepper(p), inv, s0, all[|acts|..]);
  }

  /** Nothing is accepted when there is nothing to start from. */
  lemma NothingToCrawl(p: Params, acts: seq<Action>)
    requires WellFormed(p) && FreshStart(p) && p.queue0 == [] && After(p, acts).Some?
    ensures Accepted(p, After(p, acts).value) == []
  {
    var s := After(p, acts).value;
    VisitedWithinBall(p, acts);
    assert p.visited0 == {};
    if s.hist.found != [] {
      var t := s.hist.found[0];
      assert t in Accepted(p, s);
      EmptyBall(p.web, t.depth);
    }
    hide After;
  }

  lemma {:induction false} EmptyBall(web: Web, d: nat)
    ensures Ball(web, {}, d) == {}
  {
    if d > 0 { EmptyBall(web, d - 1); }
  }

  /** Carried on to its end, a run with a fetch cut short is still one. */
  lemma CutRunEnds(p: Params) returns (all: seq<Action>)
    requires WellFormed(p) && p.queue0 != []
    ensures After(p, all).Some? && Returned(After(p, all).value) && After(p, all).value.hist.aborted != []
  {
    var cut := SomeFetchIsCut(p);
    hide After, WellFormed;
    all := CarryOn(p, cut);
    AbortedStays(p, cut, all);
  }

  /** So is one with a task taken back. */
  lemma BackRunEnds(p: Params) returns (all: seq<Action>)
    requires WellFormed(p) && p.queue0 != [] && (p.cfg.maxURLs > 0 ==> p.counts0.processed < p.cfg.maxURLs)
    ensures After(p, all).Some? && Returned(After(p, all).value) && TakenBack(p, all, p.queue0[0]) > 0
  {
    var back := SomeTaskIsTakenBack(p);
    hide After, TakenBack, WellFormed;
    all := CarryOn(p, back);
    assert all[..|back|] == back;
    TakenBackGrows(p, all, |back|, p.queue0[0]);
  }

  lemma NothingHappens(p: Params, acts: seq<Action>)
    requires WellFormed(p) && FreshStart(p) && p.queue0 == [] && After(p, acts).Some?
    ensures After(p, acts).value.hist.aborted == [] && NoneTakenBack(p, acts)
  {
    var s := After(p, acts).value;
    NothingToCrawl(p, acts);
    GroundAlways(p, acts);
    hide After, TakenBack, Ground, Accepted, FreshStart, WellFormed;
    forall t ensures TakenBack(p, acts, t) == 0 && multiset(s.hist.aborted)[t] == 0 {
      FateAlways(p, acts, t);
      UnacceptedIsUnfetched(p, s, t);
      FetchBooksAlways(p, acts, t);
    }
    NoneCounted(s.hist.aborted);
  }

  lemma EmptyNeverLoses(p: Params)
    requires WellFormed(p) && FreshStart(p) && p.cfg.hasDb && p.queue0 == []
    ensures NeverLoses(p) && NeverCutsShort(p) && NeverTakesBack(p)
  {
    hide WellFormed, FreshStart, After, NothingLost, Returned, NoneTakenBack;
    forall acts | After(p, acts).Some? && Returned(After(p, acts).value)
      ensures NothingLost(p, After(p, acts).value) && After(p, acts).value.hist.aborted == [] && NoneTakenBack(p, acts)
    {
      NothingHappens(p, acts);
      NothingLostIff(p, acts);
    }
  }

  /**
   A crawl loses nothing under any schedule only when it has no seeds. With any seed, a cancellation can come while its
   fetch is under way, which cuts it short, or while a worker holds it, which lets the ordinary loop take it back and
   drop it; either way it is neither fetched to the end nor saved.
   */
  lemma {:induction false} NeverLosesIffNothingToCrawl(cfg: Config, web: Web, seeds: seq<Url>)
    requires cfg.numWorkers >= 1 && cfg.queueSize >= 1 && cfg.hasDb
    requires DistinctSeeds(seeds) && (cfg.maxURLs > 0 ==> |seeds| <= cfg.maxURLs)
    ensures var p := FreshParams(cfg, web, seeds);
      && (NeverLoses(p) <==> seeds == []) && (NeverCutsShort(p) <==> seeds == []) && (NeverTakesBack(p) <==> seeds == [])
  {
    var p := FreshParams(cfg, web, seeds);
    SeedsMakeFreshStart(cfg, web, seeds);
    assert p.queue0 == [] <==> seeds == [];
    assert p.counts0 == NO_COUNTS;
    hide FreshParams, FreshStart, After, TakenBack, NothingLost;
    if seeds == [] {
      EmptyNeverLoses(p);
    } else {
      var cut := CutRunEnds(p);
      NothingLostIff(p, cut);
      var back := BackRunEnds(p);
      assert !NoneTakenBack(p, back);
    }
  }
}
