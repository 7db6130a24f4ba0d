/**
 The outcome of a fresh crawl, under every schedule: which URLs it has visited, that every accepted page was
 fetched and accounted for, and when it has covered everything reachable.
 */
module CrawlOutcome {
  import opened Options
  import opened CrawlTypes
  import opened CrawlSystem
  import opened CrawlSafety
  import opened CrawlLedger
  import opened CrawlOnce
  import opened CrawlTrace
  import opened CrawlTermination
  import opened CrawlCoverage
  import opened Runs
  import opened Tally

  /** The coordinator has returned and nobody cancelled. */
  ghost predicate RanToEnd(p: Params, acts: seq<Action>) {
    After(p, acts).Some? && Returned(After(p, acts).value) && !After(p, acts).value.cancelled
  }

  // ---------- Nothing outside the ball ----------

  lemma MinDepthZero(ts: seq<CrawlTask>)
    requires forall t :: t in ts ==> t.depth == 0
    ensures MinDepth(ts) == 0
  {
    if |ts| > 1 {
      MinDepthZero(ts[1..]);
    }
  }

  /** Every accepted task lies within its depth of a seed, and no URL beyond MaxDepth links is ever visited. */
  lemma VisitedWithinBall(p: Params, acts: seq<Action>)
    requires WellFormed(p) && FreshStart(p) && After(p, acts).Some?
    ensures var s := After(p, acts).value;
      && (forall t :: t in Accepted(p, s) ==> t.depth >= 0 && t.url in Ball(p.web, p.visited0, t.depth))
      && s.coord.visited <= Ball(p.web, p.visited0, if p.cfg.maxDepth < 0 then 0 else p.cfg.maxDepth)
  {
    var s := After(p, acts).value;
    SoundAlways(p, acts);
    PlacementAlways(p, acts);
    hide After, Ball, Placement, Sound;
    forall t | t in Accepted(p, s) ensures t.depth >= 0 && t.url in Ball(p.web, p.visited0, t.depth) {
      AcceptedInBall(p, s, t);
    }
    forall u | u in s.coord.visited
      ensures u in Ball(p.web, p.visited0, if p.cfg.maxDepth < 0 then 0 else p.cfg.maxDepth)
    {
      VisitedInBall(p, s, u);
    }
  }

  lemma AcceptedInBall(p: Params, s: State, t: CrawlTask)
    requires FreshStart(p) && Placement(p, s) && t in Accepted(p, s)
    ensures t.depth >= 0 && t.url in Ball(p.web, p.visited0, t.depth)
  {
    hide Ball;
    QueuePlaced(p);
    MinDepthZero(p.queue0);
    assert Placed(p, t);
  }

  lemma VisitedInBall(p: Params, s: State, u: Url)
    requires FreshStart(p) && Sound(p, s) && Placement(p, s) && u in s.coord.visited
    ensures u in Ball(p.web, p.visited0, if p.cfg.maxDepth < 0 then 0 else p.cfg.maxDepth)
  {
    if u in p.visited0 {
      hide Sound, Placement;
      SeedInBall(p, u, if p.cfg.maxDepth < 0 then 0 else p.cfg.maxDepth);
    } else {
      var t :| t in s.hist.found && t.url == u;
      AcceptedInBall(p, s, t);
      hide Placement, FreshStart;
      BallMonotone(p.web, p.visited0, t.depth, p.cfg.maxDepth);
    }
  }

  lemma SeedInBall(p: Params, u: Url, d: nat)
    requires u in p.visited0
    ensures u in Ball(p.web, p.visited0, d)
  {
    BallMonotone(p.web, p.visited0, 0, d);
  }

  // ---------- Everything accepted is fetched ----------

  /** A run that was not cancelled fetches exactly what it accepted, from a fresh start or, without a URL limit, from any. */
  lemma EverythingFetched(p: Params, acts: seq<Action>)
    requires WellFormed(p) && (FreshStart(p) || p.cfg.maxURLs <= 0) && RanToEnd(p, acts)
    ensures var s := After(p, acts).value; multiset(s.hist.fetched) == multiset(Accepted(p, s))
  {
    var s := After(p, acts).value;
    SteadyAlways(p, acts);
    QuietAfterReturn(p, acts);
    InHandCount(p, s);
    NoneHeld(s.workers);
    hide After;
    assert InHandOrFetched(s) == s.hist.fetched;
  }

  lemma NoneHeld(ws: seq<Worker>)
    requires forall w :: w in ws ==> !w.Holding?
    ensures HeldTasks(ws) == []
  {
    if ws != [] {
      NoneHeld(ws[1..]);
    }
  }

  /**
   The end of an uncancelled run: either the URL cap has been reached exactly, or the visited set is closed
   under the links of every accepted task that may still be expanded.
   */
  lemma ClosedAtEnd(p: Params, acts: seq<Action>)
    requires WellFormed(p) && (FreshStart(p) || p.cfg.maxURLs <= 0) && RanToEnd(p, acts)
    ensures var s := After(p, acts).value;
      || (p.cfg.maxURLs > 0 && |s.coord.visited| == p.cfg.maxURLs)
      || forall t :: t in Accepted(p, s) && t.depth < p.cfg.maxDepth ==> LinksVisited(p, s.coord.visited, t)
  {
    var s := After(p, acts).value;
    SteadyAlways(p, acts);
    QuietAfterReturn(p, acts);
    EverythingFetched(p, acts);
    if AtUrlCap(p.cfg, s.coord.visited) {
      LimitHarmless(p, s, []);
    } else {
      hide After, Accepted, Sound, Undisturbed, FreshStart, LinksVisited;
      forall t | t in Accepted(p, s) && t.depth < p.cfg.maxDepth ensures LinksVisited(p, s.coord.visited, t) {
        assert t in multiset(s.hist.fetched);
        assert Expanded(p, s, t);
        NothingPending(p, s, t);
      }
    }
  }

  lemma NothingPending(p: Params, s: State, t: CrawlTask)
    requires s.discoveredCh == [] && forall w :: w in s.workers ==> w.Idle? || w.Exited?
    ensures !Pending(p, s, t)
  {}

  // ---------- The whole reachable set ----------

  /** `reach` is what can be reached from the seeds by following links. */
  ghost predicate IsReachable(web: Web, roots: set<Url>, reach: set<Url>) {
    forall u :: u in reach <==> exists n: nat :: u in Ball(web, roots, n)
  }

  /** An accepted task at depth d stands on accepted tasks at every smaller depth. */
  lemma {:induction false} DepthChain(p: Params, s: State, t: CrawlTask) returns (chain: seq<CrawlTask>)
    requires FreshStart(p) && Origins(p, s) && t in Accepted(p, s) && t.depth >= 0
    ensures |chain| == t.depth + 1
    ensures forall k :: 0 <= k < |chain| ==> chain[k] in Accepted(p, s) && chain[k].depth == k
    decreases t.depth
  {
    if t.depth == 0 {
      chain := [t];
    } else {
      assert t in s.hist.found;
      var parent :| parent in s.hist.fetched && LinkedFrom(p.web, parent, t);
      var shorter := DepthChain(p, s, parent);
      chain := shorter + [t];
    }
  }

  lemma DeepNeedsMany(p: Params, s: State, t: CrawlTask)
    requires FreshStart(p) && Ledger(p, s) && Origins(p, s) && t in Accepted(p, s) && t.depth >= 0
    ensures t.depth + 1 <= |s.coord.visited|
  {
    var chain := DepthChain(p, s, t);
    AcceptedDistinct(p, s);
    forall i, j | 0 <= i < j < |chain| ensures chain[i].url != chain[j].url {
      if chain[i].url == chain[j].url {
        SameUrl(Accepted(p, s), chain[i], chain[j]);
      }
    }
    UrlsCount(chain);
    assert Urls(chain) <= Urls(Accepted(p, s));
    SubsetCount(Urls(chain), s.coord.visited);
  }

  lemma SubsetCount<T>(a: set<T>, b: set<T>)
    requires a <= b
    ensures |a| <= |b| && (|a| == |b| ==> a == b)
  {
    assert b == a + (b - a);
    assert |b| == |a| + |b - a|;
    if |a| == |b| {
      assert b - a == {};
    }
  }

  lemma {:induction false} ClosedHoldsBalls(web: Web, roots: set<Url>, us: set<Url>, n: nat)
    requires roots <= us && Neighbours(web, us) <= us
    ensures Ball(web, roots, n) <= us
  {
    if n > 0 {
      ClosedHoldsBalls(web, roots, us, n - 1);
      assert Neighbours(web, Ball(web, roots, n - 1)) <= Neighbours(web, us);
    }
  }

  /** With no URL limit and MaxDepth at least the number of reachable URLs less one, everything reachable is visited. */
  lemma {:induction false} FullCoverage(p: Params, acts: seq<Action>, reach: set<Url>)
    requires WellFormed(p) && FreshStart(p) && RanToEnd(p, acts) && p.cfg.maxURLs <= 0
    requires IsReachable(p.web, p.visited0, reach) && p.cfg.maxDepth >= |reach| - 1
    ensures After(p, acts).value.coord.visited == reach
  {
    hide *;
    EndedFresh(p, acts);
    var s := After(p, acts).value;
    SoundAlways(p, acts);
    OriginsAlways(p, acts);
    VisitedWithinBall(p, acts);
    ClosedAtEnd(p, acts);
    VisitedIsReachable(p, s, reach);
    if t :| t in Accepted(p, s) && t.depth >= p.cfg.maxDepth {
      LedgerOf(p, s);
      DeepNeedsMany(p, s, t);
      SubsetCount(s.coord.visited, reach);
    } else {
      LedgerOf(p, s);
      CappedNever(p, s);
      VisitedClosed(p, s);
      ReachableIsVisited(p, s, reach);
    }
  }

  lemma EndedFresh(p: Params, acts: seq<Action>)
    requires FreshStart(p) && RanToEnd(p, acts)
    ensures After(p, acts).Some? && Urls(p.queue0) <= p.visited0
  {
    hide After;
  }

  lemma LedgerOf(p: Params, s: State)
    requires Sound(p, s)
    ensures Ledger(p, s)
  {}

  lemma CappedNever(p: Params, s: State)
    requires p.cfg.maxURLs <= 0
    ensures !AtUrlCap(p.cfg, s.coord.visited)
  {}

  lemma VisitedIsReachable(p: Params, s: State, reach: set<Url>)
    requires IsReachable(p.web, p.visited0, reach)
    requires s.coord.visited <= Ball(p.web, p.visited0, if p.cfg.maxDepth < 0 then 0 else p.cfg.maxDepth)
    ensures s.coord.visited <= reach
  {
    hide Ball;
  }

  lemma ReachableIsVisited(p: Params, s: State, reach: set<Url>)
    requires IsReachable(p.web, p.visited0, reach)
    requires p.visited0 <= s.coord.visited && Neighbours(p.web, s.coord.visited) <= s.coord.visited
    ensures reach <= s.coord.visited
  {
    hide Ball, Neighbours;
    forall u | u in reach ensures u in s.coord.visited {
      var n: nat :| u in Ball(p.web, p.visited0, n);
      ClosedHoldsBalls(p.web, p.visited0, s.coord.visited, n);
    }
  }

  lemma VisitedClosed(p: Params, s: State)
    requires FreshStart(p) && Ledger(p, s)
    requires forall t :: t in Accepted(p, s) ==> LinksVisited(p, s.coord.visited, t)
    ensures p.visited0 <= s.coord.visited && Neighbours(p.web, s.coord.visited) <= s.coord.visited
  {
    forall v | v in Neighbours(p.web, s.coord.visited) ensures v in s.coord.visited {
      var u :| u in s.coord.visited && v in LinksOf(p.web, u);
      VisitedIsAccepted(p, s, u);
      var t :| t in Accepted(p, s) && t.url == u;
      assert LinksVisited(p, s.coord.visited, t);
    }
  }

  lemma VisitedIsAccepted(p: Params, s: State, u: Url)
    requires FreshStart(p) && Ledger(p, s) && u in s.coord.visited
    ensures exists t :: t in Accepted(p, s) && t.url == u
  {
    UrlsConcat(p.queue0, s.hist.found);
    assert u in Urls(Accepted(p, s));
  }

  // ---------- Accounting ----------

  /** The record says what the page says, or that there is none. */
  ghost predicate Shows(web: Web, r: PageRecord) {
    && r == RecordOf(web, TaskOf(r))
    && match web(r.url)
       case Fetched(title, bodyText, links) => !r.failed && r.title == title && r.bodyText == bodyText && r.links == links
       case Unfetchable => r.failed
  }

  /**
   At the end of an uncancelled run the counters agree with each other and with the visited set, and every
   accepted page has exactly one record, which is an index document just when the page could be fetched.
   */
  lemma FinalAccounting(p: Params, acts: seq<Action>)
    requires WellFormed(p) && FreshStart(p) && RanToEnd(p, acts) && After(p, acts).value.coord.phase.Finished?
    ensures var s := After(p, acts).value;
      && s.coord.pagesQueued == s.indexer.pagesProcessed == |s.coord.visited|
      && s.indexer.indexedDocs + s.indexer.pagesErrored == |s.coord.visited| && s.indexer.indexedDocs == |s.indexer.docs|
      && multiset(TasksOf(s.hist.done)) == multiset(Accepted(p, s))
      && (forall r :: r in s.hist.done ==> Shows(p.web, r))
      && s.indexer.docs == Succeeded(s.hist.done)
  {
    var s := After(p, acts).value;
    SteadyAlways(p, acts);
    QuietAfterReturn(p, acts);
    EverythingFetched(p, acts);
    VisitedCount(p, s);
    hide After, Accepted;
    AllReported(s);
    assert |multiset(TasksOf(s.hist.done))| == |multiset(Accepted(p, s))|;
  }

  lemma AllReported(s: State)
    requires (forall t :: RecordBooks(s, t)) && s.resultsCh == [] && !s.indexer.pc.Adding?
    requires forall w :: w in s.workers ==> w.Idle? || w.Exited?
    ensures multiset(TasksOf(s.hist.done)) == multiset(s.hist.fetched)
  {
    forall t ensures multiset(TasksOf(s.hist.done))[t] + multiset{}[t] == multiset(s.hist.fetched)[t] {
      assert RecordBooks(s, t);
      TotalZero(s.workers, IsFetching(t));
      AnswersCount(s.hist.done, t);
    }
    BagSum(multiset(TasksOf(s.hist.done)), multiset{}, multiset(s.hist.fetched));
  }

  /** One index document per page that could be fetched, and none for the others. */
  lemma OneDocumentPerPage(p: Params, acts: seq<Action>, t: CrawlTask)
    requires WellFormed(p) && FreshStart(p) && RanToEnd(p, acts) && After(p, acts).value.coord.phase.Finished?
    requires t in Accepted(p, After(p, acts).value)
    ensures var docs := After(p, acts).value.indexer.docs;
      && (RecordOf(p.web, t) in docs <==> p.web(t.url).Fetched?)
      && DistinctUrls(TasksOf(docs))
  {
    var s := After(p, acts).value;
    FinalAccounting(p, acts);
    AtMostOneRecord(p, acts);
    hide After, Accepted;
    assert t in multiset(TasksOf(s.hist.done));
    var i :| 0 <= i < |s.hist.done| && TaskOf(s.hist.done[i]) == t;
    assert s.hist.done[i] in s.hist.done;
    SucceededAre(s.hist.done, RecordOf(p.web, t));
    SucceededDistinct(s.hist.done);
  }

  lemma {:induction false} SucceededAre(rs: seq<PageRecord>, r: PageRecord)
    ensures r in Succeeded(rs) <==> r in rs && !r.failed
  {
    if rs != [] {
      SucceededAre(rs[..|rs| - 1], r);
      assert rs == rs[..|rs| - 1] + [rs[|rs| - 1]];
    }
  }

  lemma {:induction false} SucceededDistinct(rs: seq<PageRecord>)
    requires DistinctUrls(TasksOf(rs))
    ensures DistinctUrls(TasksOf(Succeeded(rs)))
  {
    if rs != [] {
      var init, last := rs[..|rs| - 1], rs[|rs| - 1];
      assert TasksOf(rs) == TasksOf(init) + [TaskOf(last)];
      assert DistinctUrls(TasksOf(init)) by {
        forall i, j | 0 <= i < j < |init| ensures TasksOf(init)[i].url != TasksOf(init)[j].url {
          assert TasksOf(rs)[i].url != TasksOf(rs)[j].url;
        }
      }
      SucceededDistinct(init);
      var kept := TasksOf(Succeeded(init));
      forall i | 0 <= i < |kept| ensures kept[i].url != last.url {
        var r := Succeeded(init)[i];
        SucceededAre(init, r);
        var k :| 0 <= k < |init| && init[k] == r;
        assert TasksOf(rs)[k].url != TasksOf(rs)[|rs| - 1].url;
      }
    }
  }

  // ---------- The reason reported ----------

  /** The crawl is cancelled exactly when its user has cancelled it. */
  lemma {:induction false} CancelledIff(p: Params, acts: seq<Action>)
    requires After(p, acts).Some?
    ensures After(p, acts).value.cancelled <==> ACancel in acts
    decreases |acts|
  {
    hide Enabled, Apply;
    if acts != [] {
      var n := |acts| - 1;
      CancelledIff(p, acts[..n]);
      OnlyCancelCancels(p, After(p, acts[..n]).value, acts[n]);
      assert acts == acts[..n] + [acts[n]];
    }
  }

  /** A run ends with one step only. */
  lemma OnlyFinishFinishes(p: Params, s: State, a: Action)
    requires !s.coord.phase.Finished? && Enabled(p, s, a) && Apply(p, s, a).coord.phase.Finished?
    ensures a == AFinishRun
  {
    if IsWorkerAction(a) {
      WorkerTouchesOnlyFlow(p, s, a);
      hide Apply;
    } else if IsIndexerAction(a) {
      IndexerTouchesOnlyResults(p, s, a);
      hide Apply;
    } else {
      LoopCases(p.cfg, s);
      hide CheckLoop, Flush, Dedup, SetAside, EndFetch, SendRecord, AddRecord;
    }
  }

  /** The reason for a run that ended after these steps, with so many records finished. */
  function ReasonFor(p: Params, before: seq<Action>, done: nat): StopReason {
    if ACancel in before then StoppedEarly
    else if p.cfg.maxURLs > 0 && p.counts0.processed + done >= p.cfg.maxURLs then UrlLimit
    else Completed
  }

  lemma StartIsNotFinished(p: Params)
    ensures After(p, []) == Some(Init(p)) && !Init(p).coord.phase.Finished?
  {}

  lemma ReasonAtFinish(p: Params, acts: seq<Action>)
    requires WellFormed(p) && After(p, acts).Some? && Enabled(p, After(p, acts).value, AFinishRun)
    ensures var s' := Apply(p, After(p, acts).value, AFinishRun);
      s'.stopReason == ReasonFor(p, acts, |s'.hist.done|)
  {
    var s := After(p, acts).value;
    SoundAlways(p, acts);
    CancelledIff(p, acts);
    hide After, Shape, TaskBooks, RecordBooks;
    assert Counters(p, s.indexer, s.hist.done);
  }

  lemma {:induction false} ReasonStands(p: Params, acts: seq<Action>) returns (k: nat)
    requires WellFormed(p) && After(p, acts).Some? && After(p, acts).value.coord.phase.Finished?
    ensures k < |acts| && acts[k] == AFinishRun && forall j :: k < j < |acts| ==> acts[j] == ACancel
    ensures var s := After(p, acts).value; s.stopReason == ReasonFor(p, acts[..k], |s.hist.done|)
    decreases |acts|
  {
    hide Enabled, Apply, ReasonFor, WellFormed, Sound, Shape;
    StartIsNotFinished(p);
    var n := |acts| - 1;
    var s := After(p, acts[..n]).value;
    if s.coord.phase.Finished? {
      k := ReasonStands(p, acts[..n]);
      SoundAlways(p, acts[..n]);
      ShapeOf(p, s);
      FinishedStands(p, s, acts[n]);
      assert acts[..n][..k] == acts[..k];
    } else {
      k := n;
      OnlyFinishFinishes(p, s, acts[n]);
      ReasonAtFinish(p, acts[..n]);
    }
  }

  /**
   Of any run, fresh or resumed, cancelled or not: it ends with the step `k`, after which at most a late cancellation
   comes. The reason is that it was stopped exactly when it was cancelled before, otherwise the URL limit exactly when the
   pages counted, those counted before a resume included, have reached it, and otherwise completion.
   */
  lemma StopReasonExact(p: Params, acts: seq<Action>) returns (k: nat)
    requires WellFormed(p) && After(p, acts).Some? && After(p, acts).value.coord.phase.Finished?
    ensures k < |acts| && acts[k] == AFinishRun && forall j :: k < j < |acts| ==> acts[j] == ACancel
    ensures var s := After(p, acts).value;
      && (s.stopReason == StoppedEarly <==> ACancel in acts[..k])
      && (s.stopReason == UrlLimit <==>
          ACancel !in acts[..k] && p.cfg.maxURLs > 0 && p.counts0.processed + |s.hist.done| >= p.cfg.maxURLs)
      && (s.stopReason == Completed <==>
          ACancel !in acts[..k] && !(p.cfg.maxURLs > 0 && p.counts0.processed + |s.hist.done| >= p.cfg.maxURLs))
  {
    k := ReasonStands(p, acts);
    hide After;
  }

  /** Of an uncancelled fresh run: the limit exactly when the visited set has reached it. */
  lemma StopReasonTells(p: Params, acts: seq<Action>)
    requires WellFormed(p) && FreshStart(p) && RanToEnd(p, acts) && After(p, acts).value.coord.phase.Finished?
    ensures var s := After(p, acts).value;
      && (s.stopReason == UrlLimit <==> AtUrlCap(p.cfg, s.coord.visited))
      && (s.stopReason == Completed <==> !AtUrlCap(p.cfg, s.coord.visited))
  {
    FinalAccounting(p, acts);
    CancelledIff(p, acts);
    var k := StopReasonExact(p, acts);
    SoundAlways(p, acts);
    hide After, Shape, TaskBooks, RecordBooks, Accepted;
    assert Counters(p, After(p, acts).value.indexer, After(p, acts).value.hist.done);
  }
}
