/**
 What a fresh crawl that runs to its end has visited and indexed, under every schedule, and why the URL
 limit's shortcut loses nothing.
 */
module CrawlCoverage {
  import opened Options
  import opened CrawlTypes
  import opened CrawlSystem
  import opened CrawlSafety
  import opened CrawlLedger
  import opened CrawlOnce
  import opened CrawlTrace
  import opened CrawlTermination
  import opened Runs
  import opened Tally

  /** A fresh crawl from distinct seeds, no more of them than the URL limit allows. */
  ghost predicate FreshStart(p: Params) {
    && DistinctUrls(p.queue0) && Urls(p.queue0) == p.visited0
    && (forall t :: t in p.queue0 ==> t.depth == 0)
    && (p.cfg.maxURLs > 0 ==> |p.queue0| <= p.cfg.maxURLs)
    && p.counts0 == NO_COUNTS
  }

  ghost predicate DistinctSeeds(seeds: seq<Url>) {
    forall i, j :: 0 <= i < j < |seeds| ==> seeds[i] != seeds[j]
  }

  lemma SeedsMakeFreshStart(cfg: Config, web: Web, seeds: seq<Url>)
    requires DistinctSeeds(seeds) && (cfg.maxURLs > 0 ==> |seeds| <= cfg.maxURLs)
    ensures FreshStart(FreshParams(cfg, web, seeds))
  {
    var p := FreshParams(cfg, web, seeds);
    assert forall i :: 0 <= i < |seeds| ==> p.queue0[i].url == seeds[i];
    forall u | u in p.visited0 ensures u in Urls(p.queue0) {
      var i :| 0 <= i < |seeds| && seeds[i] == u;
      assert p.queue0[i] in p.queue0;
    }
  }

  // ---------- The URL limit ----------

  lemma LastUrlIsNew(ts: seq<CrawlTask>)
    requires DistinctUrls(ts) && ts != []
    ensures var init, last := ts[..|ts| - 1], ts[|ts| - 1];
      ts == init + [last] && DistinctUrls(init) && last.url !in Urls(init)
  {
    var init, last := ts[..|ts| - 1], ts[|ts| - 1];
    forall x | x in init ensures x.url != last.url {
      var i :| 0 <= i < |init| && ts[i] == x;
    }
  }

  lemma {:induction false} UrlsCount(ts: seq<CrawlTask>)
    requires DistinctUrls(ts)
    ensures |Urls(ts)| == |ts|
  {
    if ts == [] {
      assert Urls(ts) == {};
    } else {
      var init, last := ts[..|ts| - 1], ts[|ts| - 1];
      LastUrlIsNew(ts);
      UrlsConcat(init, [last]);
      assert Urls([last]) == {last.url};
      hide DistinctUrls, Urls;
      UrlsCount(init);
    }
  }

  lemma BagCount<T>(xs: multiset<T>, ys: multiset<T>)
    requires forall t :: xs[t] <= ys[t]
    ensures |xs| <= |ys|
  {
    assert ys == xs + (ys - xs);
  }

  lemma BagSum<T>(xs: multiset<T>, ys: multiset<T>, whole: multiset<T>)
    requires forall t :: xs[t] + ys[t] == whole[t]
    ensures xs + ys == whole && |xs| + |ys| == |whole|
  {
    assert xs + ys == whole;
    assert |xs + ys| == |xs| + |ys|;
  }

  /** On a fresh start every visited URL is an accepted task's. */
  lemma VisitedCount(p: Params, s: State)
    requires FreshStart(p) && Ledger(p, s)
    ensures |s.coord.visited| == |Accepted(p, s)|
  {
    UrlsCount(p.queue0);
  }

  lemma DoneWithinFetched(s: State)
    requires forall t :: RecordBooks(s, t)
    ensures |s.hist.done| <= |s.hist.fetched|
  {
    var tasks := TasksOf(s.hist.done);
    forall t ensures multiset(tasks)[t] <= multiset(s.hist.fetched)[t] {
      assert RecordBooks(s, t);
      AnswersCount(s.hist.done, t);
    }
    BagCount(multiset(tasks), multiset(s.hist.fetched));
  }

  lemma InHandCount(p: Params, s: State)
    requires forall t :: TaskBooks(p, s, t)
    ensures |InHandOrFetched(s)| + |s.hist.setAside| == |Accepted(p, s)|
    ensures multiset(InHandOrFetched(s)) + s.hist.setAside == multiset(Accepted(p, s))
  {
    hide InHandOrFetched, Accepted, TaskBooks;
    forall t ensures multiset(InHandOrFetched(s))[t] + s.hist.setAside[t] == multiset(Accepted(p, s))[t] {
      InHandWithinAccepted(p, s, t);
    }
    BagSum(multiset(InHandOrFetched(s)), s.hist.setAside, multiset(Accepted(p, s)));
  }

  /** Pages processed never outnumber the URLs visited. */
  lemma ProcessedWithinVisited(p: Params, s: State)
    requires FreshStart(p) && Sound(p, s)
    ensures s.indexer.pagesProcessed + |StillQueued(s)| + |s.taskCh| + |HeldTasks(s.workers)| + |s.hist.setAside| <= |s.coord.visited|
  {
    hide TaskBooks, RecordBooks, Shape;
    VisitedCount(p, s);
    DoneWithinFetched(s);
    InHandCount(p, s);
  }

  /**
   The cap is never exceeded, and the limit's shortcut is harmless: by the time it applies the cap is
   reached exactly, nothing is left to hand out, and dedup would accept nothing from any batch.
   */
  lemma UrlLimitHarmless(p: Params, acts: seq<Action>, batch: seq<CrawlTask>)
    requires WellFormed(p) && FreshStart(p) && After(p, acts).Some? && p.cfg.maxURLs > 0
    ensures var s := After(p, acts).value;
      && |s.coord.visited| <= p.cfg.maxURLs
      && (UrlLimitReached(p.cfg, s) ==>
        && |s.coord.visited| == p.cfg.maxURLs && s.hist.setAside == multiset{}
        && StillQueued(s) == [] && s.taskCh == [] && HeldTasks(s.workers) == []
        && Dedup(p.cfg, batch, s.coord.visited) == ([], s.coord.visited))
  {
    var s := After(p, acts).value;
    SoundAlways(p, acts);
    LimitHarmless(p, s, batch);
  }

  lemma LimitHarmless(p: Params, s: State, batch: seq<CrawlTask>)
    requires FreshStart(p) && Sound(p, s) && p.cfg.maxURLs > 0
    ensures |s.coord.visited| <= p.cfg.maxURLs
    ensures UrlLimitReached(p.cfg, s) ==>
        && |s.coord.visited| == p.cfg.maxURLs && s.hist.setAside == multiset{}
        && StillQueued(s) == [] && s.taskCh == [] && HeldTasks(s.workers) == []
        && Dedup(p.cfg, batch, s.coord.visited) == ([], s.coord.visited)
  {
    UrlsCount(p.queue0);
    ProcessedWithinVisited(p, s);
    if UrlLimitReached(p.cfg, s) {
      DedupNothingNew(p.cfg, batch, s.coord.visited);
    }
  }

  // ---------- Nothing is lost in an uncancelled run: fresh, or from any start without a URL limit ----------

  predicate Faithful(web: Web, r: PageRecord) { r == RecordOf(web, TaskOf(r)) }

  ghost predicate AllFaithful(web: Web, rs: seq<PageRecord>) { forall r :: r in rs ==> Faithful(web, r) }

  /** Nothing given up, no fetch cut short, and every record says what the page says. */
  ghost predicate Undisturbed(p: Params, s: State) {
    && s.hist.setAside == multiset{} && s.hist.aborted == []
    && AllFaithful(p.web, s.resultsCh) && AllFaithful(p.web, s.hist.done)
    && (s.indexer.pc.Adding? ==> Faithful(p.web, s.indexer.pc.record))
    && (forall w :: w in s.workers && w.Reporting? ==> Faithful(p.web, w.record))
  }

  lemma RecordOfFaithful(web: Web, t: CrawlTask)
    ensures Faithful(web, RecordOf(web, t))
  {}

  lemma WorkerKeepsUndisturbed(p: Params, s: State, a: Action)
    requires Undisturbed(p, s) && Enabled(p, s, a) && !s.cancelled && IsWorkerAction(a)
    ensures Undisturbed(p, Apply(p, s, a))
  {
    hide Faithful, RecordOf;
    assert s.workers[a.w] in s.workers;
    if a.AEndFetch? {
      RecordOfFaithful(p.web, s.workers[a.w].task);
    }
  }

  lemma LoopKeepsUndisturbed(p: Params, s: State)
    requires (FreshStart(p) || p.cfg.maxURLs <= 0) && Sound(p, s) && Undisturbed(p, s) && s.coord.phase.Head?
    ensures Undisturbed(p, CheckLoop(p.cfg, s))
  {
    if p.cfg.maxURLs > 0 {
      LimitHarmless(p, s, []);
    }
    hide Faithful, Sound, Flush, FreshStart, Dedup;
    assert multiset(s.coord.overflow) == multiset{} || !UrlLimitReached(p.cfg, s);
  }

  lemma OthersKeepUndisturbed(p: Params, s: State, a: Action)
    requires Undisturbed(p, s) && Enabled(p, s, a) && !s.cancelled && !IsWorkerAction(a) && !a.ACheckLoop?
    ensures Undisturbed(p, Apply(p, s, a))
  {
    hide Faithful, Flush, Accept, Dedup;
  }

  /** Pages still owed to the coordinator: being fetched, reported or posted, or waiting in the channel. */
  ghost predicate Pending(p: Params, s: State, t: CrawlTask) {
    var batch := LinkTasks(t, LinksOf(p.web, t.url));
    || Fetching(t) in s.workers || Reporting(RecordOf(p.web, t)) in s.workers
    || Posting(batch) in s.workers || batch in s.discoveredCh
  }

  ghost predicate LinksVisited(p: Params, visited: set<Url>, t: CrawlTask) {
    forall u :: u in LinksOf(p.web, t.url) ==> u in visited
  }

  /** A fetched page that may still be expanded has its links visited, unless its batch is on its way or the cap is reached. */
  ghost predicate Expanded(p: Params, s: State, t: CrawlTask) {
    t.depth < p.cfg.maxDepth ==> AtUrlCap(p.cfg, s.coord.visited) || Pending(p, s, t) || LinksVisited(p, s.coord.visited, t)
  }

  ghost predicate AllExpanded(p: Params, s: State) {
    forall t :: t in s.hist.fetched ==> Expanded(p, s, t)
  }

  lemma StillIn<T>(xs: seq<T>, i: nat, y: T, x: T)
    requires i < |xs| && x in xs && x != xs[i]
    ensures x in xs[i := y]
  {
    var j :| 0 <= j < |xs| && xs[j] == x;
    assert xs[i := y][j] == x;
  }

  lemma WorkerKeepsPending(p: Params, s: State, a: Action, t: CrawlTask)
    requires Enabled(p, s, a) && IsWorkerAction(a) && !s.cancelled && !s.resultsClosed && Pending(p, s, t)
    ensures Pending(p, Apply(p, s, a), t)
  {
    var was, now := s.workers[a.w], Apply(p, s, a).workers[a.w];
    assert now in s.workers[a.w := now] by { assert s.workers[a.w := now][a.w] == now; }
    forall x | x in s.workers && x != was ensures x in s.workers[a.w := now] { StillIn(s.workers, a.w, now, x); }
  }

  lemma WorkerKeepsExpanded(p: Params, s: State, a: Action)
    requires Shape(p, s) && Undisturbed(p, s) && AllExpanded(p, s) && Enabled(p, s, a) && IsWorkerAction(a) && !s.cancelled
    ensures AllExpanded(p, Apply(p, s, a))
  {
    if s.resultsClosed {
      return;
    }
    var s' := Apply(p, s, a);
    assert s'.coord == s.coord;
    assert s'.workers == s.workers[a.w := s'.workers[a.w]];
    forall t | t in s'.hist.fetched ensures Expanded(p, s', t) {
      if t in s.hist.fetched {
        if Pending(p, s, t) {
          WorkerKeepsPending(p, s, a, t);
        }
      } else {
        assert s'.workers[a.w] == Fetching(t);
      }
    }
  }

  /** Receiving a page's batch visits its links, unless the cap stops it. */
  lemma DedupExpands(p: Params, t: CrawlTask, visited: set<Url>)
    requires t.depth < p.cfg.maxDepth
    ensures var marked := Dedup(p.cfg, LinkTasks(t, LinksOf(p.web, t.url)), visited).1;
      AtUrlCap(p.cfg, marked) || LinksVisited(p, marked, t)
  {
    var links := LinksOf(p.web, t.url);
    var batch := LinkTasks(t, links);
    DedupComplete(p.cfg, batch, visited);
    hide Dedup;
    var marked := Dedup(p.cfg, batch, visited).1;
    if !AtUrlCap(p.cfg, marked) {
      forall u | u in links ensures u in marked {
        var i :| 0 <= i < |links| && links[i] == u;
        assert batch[i] in batch;
      }
    }
  }

  lemma ReceiveKeepsExpandedAt(p: Params, s: State, t: CrawlTask)
    requires s.discoveredCh != [] && s.coord.phase.Select? && Expanded(p, s, t)
    ensures Expanded(p, ReceiveBatch(p.cfg, s), t)
  {
    var batch := s.discoveredCh[0];
    DedupMarks(p.cfg, batch, s.coord.visited);
    if t.depth < p.cfg.maxDepth {
      DedupExpands(p, t, s.coord.visited);
    }
    hide Dedup;
    assert s.discoveredCh == [batch] + s.discoveredCh[1..];
  }

  lemma ReceiveKeepsExpanded(p: Params, s: State)
    requires (FreshStart(p) || p.cfg.maxURLs <= 0) && Sound(p, s) && AllExpanded(p, s) && InSelect(s) && s.discoveredCh != []
    ensures AllExpanded(p, ReceiveBatch(p.cfg, s))
  {
    var s' := ReceiveBatch(p.cfg, s);
    forall t | t in s'.hist.fetched ensures Expanded(p, s', t) {
      if s.coord.phase.Select? {
        ReceiveKeepsExpandedAt(p, s, t);
      } else {
        LimitHarmless(p, s, s.discoveredCh[0]);
      }
    }
  }

  lemma SameFlowKeepsExpanded(p: Params, s: State, s': State)
    requires AllExpanded(p, s) && s'.workers == s.workers && s'.discoveredCh == s.discoveredCh
    requires s'.hist.fetched == s.hist.fetched && s'.coord.visited == s.coord.visited
    ensures AllExpanded(p, s')
  {
    hide AtUrlCap, LinksVisited, LinkTasks, LinksOf;
    forall t | t in s'.hist.fetched ensures Expanded(p, s', t) {
      assert Expanded(p, s, t);
    }
  }

  lemma OthersKeepDiscovered(p: Params, s: State, a: Action)
    requires Shape(p, s) && Enabled(p, s, a) && !s.cancelled && !IsWorkerAction(a) && !a.AReceiveBatch?
    ensures Apply(p, s, a).discoveredCh == s.discoveredCh && Apply(p, s, a).coord.visited == s.coord.visited
  {}

  // ---------- Every state of an uncancelled run ----------

  ghost predicate Steady(p: Params, s: State) {
    Sound(p, s) && (!s.cancelled ==> Undisturbed(p, s) && AllExpanded(p, s))
  }

  lemma UncancelledKept(p: Params, s: State, a: Action)
    requires (FreshStart(p) || p.cfg.maxURLs <= 0) && Sound(p, s)
    requires Undisturbed(p, s) && AllExpanded(p, s) && Enabled(p, s, a) && !s.cancelled
    ensures Undisturbed(p, Apply(p, s, a)) && AllExpanded(p, Apply(p, s, a))
  {
    hide Undisturbed, AllExpanded, FreshStart, Ledger, Shape, TaskBooks, RecordBooks, CheckLoop, ReceiveBatch;
    if IsWorkerAction(a) {
      WorkerKeepsUndisturbed(p, s, a);
      WorkerKeepsExpanded(p, s, a);
    } else {
      if a.ACheckLoop? {
        LoopKeepsUndisturbed(p, s);
      } else {
        OthersKeepUndisturbed(p, s, a);
      }
      if a.AReceiveBatch? {
        ReceiveKeepsExpanded(p, s);
      } else {
        OthersKeepFlow(p, s, a);
        OthersKeepDiscovered(p, s, a);
        SameFlowKeepsExpanded(p, s, Apply(p, s, a));
      }
    }
  }

  lemma SteadyAlways(p: Params, acts: seq<Action>)
    requires WellFormed(p) && (FreshStart(p) || p.cfg.maxURLs <= 0) && After(p, acts).Some?
    ensures Steady(p, After(p, acts).value)
  {
    hide Sound, Undisturbed, AllExpanded, Enabled, Apply, FreshStart;
    var inv := (s: State) => Steady(p, s);
    forall s, a | inv(s) && Stepper(p)(s, a).Some? ensures inv(Stepper(p)(s, a).value) {
      SoundKept(p, s, a);
      if s.cancelled {
        OnlyCancelCancels(p, s, a);
      } else {
        UncancelledKept(p, s, a);
      }
    }
    SoundInit(p);
    SteadyInit(p);
    Invariance(Stepper(p), inv, Init(p), acts);
  }

  lemma SteadyInit(p: Params)
    ensures Undisturbed(p, Init(p)) && AllExpanded(p, Init(p))
  {}
}
