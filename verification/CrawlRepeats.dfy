/**
 When a URL can be fetched twice: within one run from any start queue, and over the runs of a session that is stopped
 and resumed. Pages can change between runs, so the conditions speak of every web.
 */
module CrawlRepeats {
  import opened Options
  import opened CrawlTypes
  import opened CrawlSystem
  import opened CrawlSafety
  import opened CrawlLedger
  import opened CrawlOnce
  import opened CrawlTrace
  import opened CrawlTermination
  import opened CrawlCoverage
  import opened CrawlOutcome
  import opened CrawlShutdown
  import opened CrawlLoss
  import opened CrawlBarren
  import opened CrawlExceptions
  import opened CrawlResume
  import opened Runs

  /** Whatever the web, no schedule fetches a URL twice, or one of `before` at all. */
  ghost predicate FetchesOnlyNew(p: Params, before: set<Url>) {
    forall web: Web, acts ::
      After(p.(web := web), acts).Some? ==>
        var fetched := After(p.(web := web), acts).value.hist.fetched;
        DistinctUrls(fetched) && Urls(fetched) !! before
  }

  /** None of these tasks' pages has its links followed. */
  ghost predicate NoneExpands(p: Params, ts: seq<CrawlTask>) { forall t :: t in ts ==> t.depth >= p.cfg.maxDepth }

  // ---------- Where the claim holds ----------

  lemma MarkedQueueFetchesOnlyNew(p: Params, before: set<Url>, acts: seq<Action>)
    requires WellFormed(p) && After(p, acts).Some?
    requires DistinctUrls(p.queue0) && Urls(p.queue0) !! before && Urls(p.queue0) + before <= p.visited0
    ensures var fetched := After(p, acts).value.hist.fetched; DistinctUrls(fetched) && Urls(fetched) !! before
  {
    AtMostOneFetch(p, acts);
    hide After, InHandOrFetched, WellFormed, DistinctUrls;
    forall t | t in After(p, acts).value.hist.fetched ensures t.url !in before {
      FetchedIsQueuedOrNew(p, acts, t);
    }
  }

  lemma DeepQueueFetchesOnlyNew(p: Params, before: set<Url>, acts: seq<Action>)
    requires WellFormed(p) && After(p, acts).Some?
    requires DistinctUrls(p.queue0) && Urls(p.queue0) !! before && NoneExpands(p, p.queue0)
    ensures var fetched := After(p, acts).value.hist.fetched; DistinctUrls(fetched) && Urls(fetched) !! before
  {
    BarrenAlways(p, acts);
    hide After, WellFormed;
    BagWithin(After(p, acts).value.hist.fetched, p.queue0);
  }

  // ---------- Where it fails ----------

  /** An uncancelled run, to its end. */
  lemma SomeRunEnds(p: Params) returns (acts: seq<Action>)
    requires WellFormed(p)
    ensures RanToEnd(p, acts)
  {
    assert After(p, []).Some? && !After(p, []).value.cancelled;
    hide After, WellFormed;
    acts := CarryOn(p, []);
  }

  /** A page of the queue links to an unmarked URL, and may be expanded: some task found leads there. */
  lemma LinkIsFound(p: Params, acts: seq<Action>, t: CrawlTask, u: Url)
    requires WellFormed(p) && p.cfg.maxURLs <= 0 && RanToEnd(p, acts)
    requires t in p.queue0 && t.depth < p.cfg.maxDepth && u in LinksOf(p.web, t.url) && u !in p.visited0
    ensures u in Urls(After(p, acts).value.hist.found)
  {
    var s := After(p, acts).value;
    ClosedAtEnd(p, acts);
    SoundAlways(p, acts);
    hide After, Shape, TaskBooks, RecordBooks, WellFormed;
    assert t in Accepted(p, s);
    assert LinksVisited(p, s.coord.visited, t);
  }

  /** A URL of the queue that is not marked, linked from a page that may be expanded, is fetched twice. */
  lemma LinkedQueueUrlIsRepeated(p: Params, acts: seq<Action>, t: CrawlTask, u: Url)
    requires WellFormed(p) && p.cfg.maxURLs <= 0 && RanToEnd(p, acts)
    requires t in p.queue0 && t.depth < p.cfg.maxDepth && u in LinksOf(p.web, t.url) && u !in p.visited0
    requires u in Urls(p.queue0)
    ensures !DistinctUrls(After(p, acts).value.hist.fetched)
  {
    var s := After(p, acts).value;
    LinkIsFound(p, acts, t, u);
    EverythingFetched(p, acts);
    hide After, WellFormed;
    var i :| 0 <= i < |p.queue0| && p.queue0[i].url == u;
    var j :| 0 <= j < |s.hist.found| && s.hist.found[j].url == u;
    assert Accepted(p, s)[i].url == Accepted(p, s)[|p.queue0| + j].url;
    if DistinctUrls(s.hist.fetched) {
      DistinctFromBag(s.hist.fetched, Accepted(p, s));
    }
  }

  function EveryPageLinksTo(u: Url): Web { v => Fetched("", "", [u]) }

  lemma ExpandableQueueRepeats(p: Params, before: set<Url>, t: CrawlTask, u: Url)
    requires WellFormed(p) && p.cfg.maxURLs <= 0 && t in p.queue0 && t.depth < p.cfg.maxDepth
    requires u in Urls(p.queue0) + before && u !in p.visited0
    ensures !FetchesOnlyNew(p, before)
  {
    var q := p.(web := EveryPageLinksTo(u));
    assert WellFormed(q) && u in LinksOf(q.web, t.url);
    hide WellFormed, LinksOf;
    var acts := SomeRunEnds(q);
    var s := After(q, acts).value;
    LinkIsFound(q, acts, t, u);
    EverythingFetched(q, acts);
    if u in Urls(p.queue0) {
      LinkedQueueUrlIsRepeated(q, acts, t, u);
      hide After;
    } else {
      hide After;
      var x :| x in s.hist.found && x.url == u;
      assert x in multiset(Accepted(q, s));
      assert x in multiset(s.hist.fetched);
      assert u in Urls(s.hist.fetched);
    }
  }

  lemma QueueIsFetched(p: Params, before: set<Url>)
    requires WellFormed(p) && p.cfg.maxURLs <= 0 && FetchesOnlyNew(p, before)
    ensures DistinctUrls(p.queue0) && Urls(p.queue0) !! before
  {
    assert p.(web := p.web) == p;
    var acts := SomeRunEnds(p);
    var s := After(p, acts).value;
    EverythingFetched(p, acts);
    hide After, WellFormed;
    DistinctFromBag(s.hist.fetched, Accepted(p, s));
    assert forall i :: 0 <= i < |p.queue0| ==> p.queue0[i] == Accepted(p, s)[i];
    forall t | t in p.queue0 ensures t.url !in before {
      assert t in multiset(Accepted(p, s));
      assert t in multiset(s.hist.fetched);
    }
  }

  /**
   From any start queue, without a URL limit: over all webs and schedules no URL is fetched twice, and none of `before`
   at all, exactly when the queue names distinct URLs outside `before`, and either none of its pages may be expanded
   or the queue and `before` are marked as visited.
   */
  lemma {:induction false} FetchesOnlyNewIff(p: Params, before: set<Url>)
    requires WellFormed(p) && p.cfg.maxURLs <= 0
    ensures FetchesOnlyNew(p, before) <==>
      && DistinctUrls(p.queue0) && Urls(p.queue0) !! before
      && (NoneExpands(p, p.queue0) || Urls(p.queue0) + before <= p.visited0)
  {
    hide After, DistinctUrls;
    if && DistinctUrls(p.queue0) && Urls(p.queue0) !! before
       && (NoneExpands(p, p.queue0) || Urls(p.queue0) + before <= p.visited0)
    {
      forall web: Web, acts | After(p.(web := web), acts).Some?
        ensures var fetched := After(p.(web := web), acts).value.hist.fetched;
          DistinctUrls(fetched) && Urls(fetched) !! before
      {
        if NoneExpands(p, p.queue0) {
          DeepQueueFetchesOnlyNew(p.(web := web), before, acts);
        } else {
          MarkedQueueFetchesOnlyNew(p.(web := web), before, acts);
        }
      }
    }
    if FetchesOnlyNew(p, before) {
      QueueIsFetched(p, before);
      forall t, u | t in p.queue0 && t.depth < p.cfg.maxDepth && u in Urls(p.queue0) + before ensures u in p.visited0 {
        if u !in p.visited0 { ExpandableQueueRepeats(p, before, t, u); }
      }
    }
  }

  /** At most once within one run, over all webs and schedules. */
  ghost predicate AlwaysAtMostOnce(p: Params) { forall web: Web :: NeverFetchesTwice(p.(web := web)) }

  lemma {:induction false} AlwaysAtMostOnceIff(p: Params)
    requires WellFormed(p) && p.cfg.maxURLs <= 0
    ensures AlwaysAtMostOnce(p) <==>
      DistinctUrls(p.queue0) && (Urls(p.queue0) <= p.visited0 || forall t :: t in p.queue0 ==> t.depth >= p.cfg.maxDepth)
  {
    FetchesOnlyNewIff(p, {});
    hide After, DistinctUrls, WellFormed;
    assert FetchesOnlyNew(p, {}) ==> AlwaysAtMostOnce(p);
    if AlwaysAtMostOnce(p) {
      forall web: Web, acts | After(p.(web := web), acts).Some?
        ensures DistinctUrls(After(p.(web := web), acts).value.hist.fetched)
      {
        assert NeverFetchesTwice(p.(web := web));
      }
    }
  }

  // ---------- Over a stop and a resume ----------

  /** `fetched` are a session's fetches so far. Whatever the web by then, no schedule of its next run, `q`, repeats a URL. */
  ghost predicate SessionAtMostOnce(fetched: seq<CrawlTask>, q: Params) {
    forall web: Web, acts ::
      After(q.(web := web), acts).Some? ==> DistinctUrls(fetched + After(q.(web := web), acts).value.hist.fetched)
  }

  lemma DistinctSplit(a: seq<CrawlTask>, b: seq<CrawlTask>)
    ensures DistinctUrls(a + b) <==> DistinctUrls(a) && DistinctUrls(b) && Urls(a) !! Urls(b)
  {
    if DistinctUrls(a) && DistinctUrls(b) && Urls(a) !! Urls(b) { DistinctConcat(a, b); }
    if DistinctUrls(a + b) {
      forall i, j | 0 <= i < j < |a| ensures a[i].url != a[j].url { assert (a + b)[i].url != (a + b)[j].url; }
      FromTail(a, b);
      forall x, y | x in a && y in b ensures x.url != y.url { ApartInConcat(a, b, x, y); }
    }
  }

  lemma SessionIsOnlyNew(fetched: seq<CrawlTask>, q: Params)
    ensures SessionAtMostOnce(fetched, q) <==> DistinctUrls(fetched) && FetchesOnlyNew(q, Urls(fetched))
  {
    assert q.(web := q.web) == q && After(q, []).Some?;
    hide After, DistinctUrls, Urls;
    forall web: Web, acts | After(q.(web := web), acts).Some?
      ensures var more := After(q.(web := web), acts).value.hist.fetched;
        DistinctUrls(fetched + more) <==> DistinctUrls(fetched) && DistinctUrls(more) && Urls(more) !! Urls(fetched)
    {
      DistinctSplit(fetched, After(q.(web := web), acts).value.hist.fetched);
    }
  }

  /** What the next run may be handed: distinct URLs, none of `before`, and nothing that could lead back. */
  ghost predicate CleanHandover(p: Params, s: State, before: set<Url>, origin: Url)
    requires s.coord.savedQueue.Some?
  {
    if s.coord.stored == {} then origin !in before && (p.cfg.maxDepth <= 0 || before == {})
    else
      var queue := ResumeQueue(s.coord.savedQueue.value, origin);
      DistinctUrls(queue) && Urls(queue) !! before && (NoneExpands(p, queue) || Urls(queue) + before <= s.coord.stored)
  }

  /**
   At most once over a session, without a URL limit: after any stopped run, its first or a resumed one, and whatever the
   session has fetched by then, no web and no schedule of the next run make it fetch a URL twice, exactly when it has not
   done so yet and what is left between the runs is a clean handover.
   */
  lemma {:induction false} SessionAtMostOnceIff(p: Params, acts: seq<Action>, fetched: seq<CrawlTask>, origin: Url, counts: Counts)
    requires Halted(p, acts) && p.cfg.maxURLs <= 0
    ensures var s := After(p, acts).value;
      && s.coord.savedQueue.Some?
      && (SessionAtMostOnce(fetched, ResumedParams(p, s, origin, counts)) <==>
          DistinctUrls(fetched) && CleanHandover(p, s, Urls(fetched), origin))
  {
    var s := After(p, acts).value;
    ResumedStart(p, acts, origin, counts);
    var q := ResumedParams(p, s, origin, counts);
    hide After, ResumedParams, WellFormed;
    SessionIsOnlyNew(fetched, q);
    FetchesOnlyNewIff(q, Urls(fetched));
    hide SessionAtMostOnce, FetchesOnlyNew;
    if s.coord.stored == {} {
      StartsOverClean(p, q, fetched, origin);
    }
    hide DistinctUrls;
  }

  lemma StartsOverClean(p: Params, q: Params, fetched: seq<CrawlTask>, origin: Url)
    requires q.cfg == p.cfg && q.queue0 == [CrawlTask(origin, "", 0)] && q.visited0 == {origin}
    ensures
      (DistinctUrls(q.queue0) && Urls(q.queue0) !! Urls(fetched)
       && (NoneExpands(q, q.queue0) || Urls(q.queue0) + Urls(fetched) <= q.visited0))
      <==> origin !in Urls(fetched) && (p.cfg.maxDepth <= 0 || Urls(fetched) == {})
  {
    assert Urls(q.queue0) == {origin};
    assert NoneExpands(q, q.queue0) <==> q.queue0[0].depth >= p.cfg.maxDepth;
  }

  /** Whatever was found, a seed was fetched first. */
  lemma {:induction false} SeedBehind(p: Params, s: State, t: CrawlTask)
    requires Ground(p, s) && t in s.hist.fetched
    ensures t.depth >= 0 && exists x :: x in p.queue0 && x in s.hist.fetched
    decreases t.depth
  {
    hide Sound, FreshStart, WorkerTraced, Traced;
    assert t in Accepted(p, s);
    if t !in p.queue0 {
      assert Linked(p, s.hist, t);
      var parent :| parent in s.hist.fetched && LinkedFrom(p.web, parent, t);
      assert parent in Accepted(p, s);
      SeedBehind(p, s, parent);
    }
  }

  lemma StoredMeansSeedFetched(p: Params, acts: seq<Action>, origin: Url)
    requires Resumable(p, acts, origin) && After(p, acts).value.coord.stored != {}
    ensures !(Urls(After(p, acts).value.hist.fetched) <= After(p, acts).value.coord.stored)
  {
    var s := After(p, acts).value;
    GroundAlways(p, acts);
    SeedsNeverStored(p, acts);
    SomethingFound(p, acts);
    hide After;
    assert Linked(p, s.hist, s.hist.found[0]);
    var t :| t in s.hist.fetched && LinkedFrom(p.web, t, s.hist.found[0]);
    hide Sound;
    SeedBehind(p, s, t);
    var x :| x in p.queue0 && x in s.hist.fetched;
    assert x.url in Urls(s.hist.fetched);
  }

  lemma SomethingFound(p: Params, acts: seq<Action>)
    requires Halted(p, acts) && p.stored0 == {} && After(p, acts).value.coord.stored != {}
    ensures After(p, acts).value.hist.found != []
  {
    var s := After(p, acts).value;
    SoundAlways(p, acts);
    StoredTracksVisited(p, acts);
    hide After, Shape, TaskBooks, RecordBooks;
  }

  /** After the first run of a session stored rows mean that a seed was fetched, so nothing handed over may be expanded. */
  lemma {:induction false} FirstHandover(p: Params, acts: seq<Action>, origin: Url)
    requires Resumable(p, acts, origin) && After(p, acts).value.coord.stored != {}
    ensures var s := After(p, acts).value;
      && s.coord.savedQueue.Some?
      && var queue, before := ResumeQueue(s.coord.savedQueue.value, origin), Urls(s.hist.fetched);
        CleanHandover(p, s, before, origin) <==> DistinctUrls(queue) && Urls(queue) !! before && NoneExpands(p, queue)
  {
    SavedAlways(p, acts);
    StoredMeansSeedFetched(p, acts, origin);
    hide After, FreshStart, DistinctUrls;
  }
}
