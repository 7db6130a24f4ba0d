/**
 Whether a stop and the resume after it lose a page. Within one run a task is lost when its fetch is cut short or the
 ordinary loop takes it back; over the two runs what counts is what the second one starts from.
 */
module CrawlRestart {
  import opened Options
  import opened CrawlTypes
  import opened CrawlSystem
  import opened CrawlSafety
  import opened CrawlLedger
  import opened CrawlOnce
  import opened CrawlTermination
  import opened CrawlCoverage
  import opened CrawlOutcome
  import opened CrawlShutdown
  import opened CrawlFetches
  import opened CrawlLoss
  import opened CrawlBarren
  import opened CrawlExceptions
  import opened CrawlResume
  import opened CrawlRepeats
  import opened Runs

  // ---------- What every run from a start completes ----------

  /** Whatever pages link to by then, every uncancelled run from this start, run to its end, completes these fetches. */
  ghost predicate AlwaysCompletes(q: Params, urls: set<Url>) {
    forall web: Web, acts ::
      RanToEnd(q.(web := web), acts) ==> urls <= Urls(After(q.(web := web), acts).value.hist.completed)
  }

  lemma SameBagUrls(a: seq<CrawlTask>, b: seq<CrawlTask>)
    requires multiset(a) == multiset(b)
    ensures Urls(a) == Urls(b)
  {
    forall t ensures t in a <==> t in b { assert t in multiset(a) <==> t in multiset(b); }
  }

  /** So the pages a start is sure to lead to are those of its queue. */
  lemma {:induction false} AlwaysCompletesIff(q: Params, urls: set<Url>)
    requires WellFormed(q) && q.cfg.maxURLs <= 0
    ensures AlwaysCompletes(q, urls) <==> urls <= Urls(q.queue0)
  {
    hide After;
    if urls <= Urls(q.queue0) {
      forall web: Web, acts | RanToEnd(q.(web := web), acts)
        ensures urls <= Urls(After(q.(web := web), acts).value.hist.completed)
      {
        CompletedUrls(q.(web := web), acts);
      }
    }
    if AlwaysCompletes(q, urls) {
      var r := q.(web := OnePageWeb());
      var acts := SomeRunEnds(r);
      CompletedUrls(r, acts);
      BarrenAlways(r, acts);
      assert Urls([]) == {};
    }
  }

  lemma CompletedUrls(p: Params, acts: seq<Action>)
    requires WellFormed(p) && p.cfg.maxURLs <= 0 && RanToEnd(p, acts)
    ensures var s := After(p, acts).value; Urls(s.hist.completed) == Urls(p.queue0) + Urls(s.hist.found)
  {
    var s := After(p, acts).value;
    EverythingCompleted(p, acts);
    hide After, WellFormed;
    SameBagUrls(s.hist.completed, Accepted(p, s));
    UrlsConcat(p.queue0, s.hist.found);
  }

  /** On a given web, an uncancelled run fetches a URL marked at its start exactly when its queue holds it. */
  lemma {:induction false} MarkedCompletesIff(q: Params, acts: seq<Action>, u: Url)
    requires WellFormed(q) && q.cfg.maxURLs <= 0 && u in q.visited0 && RanToEnd(q, acts)
    ensures u in Urls(After(q, acts).value.hist.completed) <==> u in Urls(q.queue0)
  {
    CompletedUrls(q, acts);
    SoundAlways(q, acts);
    hide After, Shape, TaskBooks, RecordBooks;
  }

  // ---------- Over a stop and a resume ----------

  /** The pages a run accepted and has not fetched to the end. */
  ghost function Unfinished(p: Params, s: State): set<Url> { Urls(Accepted(p, s)) - Urls(s.hist.completed) }

  /** Whatever the web by then, every uncancelled end of the second run has fetched what the first left unfinished. */
  ghost predicate ResumeLosesNothing(p: Params, s: State, origin: Url, counts: Counts)
    requires s.coord.savedQueue.Some?
  {
    AlwaysCompletes(ResumedParams(p, s, origin, counts), Unfinished(p, s))
  }

  /** What lies between the runs leads to the page: a saved task if a row is stored, the session's address if not. */
  predicate HandedOver(s: State, origin: Url, u: Url)
    requires s.coord.savedQueue.Some?
  {
    if s.coord.stored == {} || s.coord.savedQueue.value == [] then u == origin
    else exists t :: t in s.coord.savedQueue.value && t.url == u
  }

  lemma HandedOverIsQueued(p: Params, acts: seq<Action>, origin: Url, counts: Counts, u: Url)
    requires Halted(p, acts)
    ensures var s := After(p, acts).value;
      && s.coord.savedQueue.Some?
      && (u in Urls(ResumedParams(p, s, origin, counts).queue0) <==> HandedOver(s, origin, u))
  {
    ResumedStart(p, acts, origin, counts);
    hide After;
    assert Urls([CrawlTask(origin, "", 0)]) == {origin} by { UrlsCons(CrawlTask(origin, "", 0), []); }
  }

  /**
   A stop and its resume lose no accepted page, without a URL limit and for a first run of any start, exactly when every
   accepted page that was not fetched to the end is handed over. The saved tasks are fetched, whatever the web, exactly
   when a row is stored or all of them lead to the session's address.
   */
  lemma {:induction false} ResumeLosesNothingIff(p: Params, acts: seq<Action>, origin: Url, counts: Counts)
    requires Halted(p, acts) && p.cfg.maxURLs <= 0
    ensures var s := After(p, acts).value;
      && s.coord.savedQueue.Some?
      && (ResumeLosesNothing(p, s, origin, counts) <==>
          forall t :: t in Accepted(p, s) && t.url !in Urls(s.hist.completed) ==> HandedOver(s, origin, t.url))
      && (AlwaysCompletes(ResumedParams(p, s, origin, counts), Urls(s.coord.savedQueue.value)) <==>
          s.coord.stored != {} || forall t :: t in s.coord.savedQueue.value ==> t.url == origin)
  {
    var s := After(p, acts).value;
    ResumedStart(p, acts, origin, counts);
    var q := ResumedParams(p, s, origin, counts);
    forall u ensures u in Urls(q.queue0) <==> HandedOver(s, origin, u) { HandedOverIsQueued(p, acts, origin, counts, u); }
    hide After, ResumedParams, WellFormed, Accepted;
    AlwaysCompletesIff(q, Unfinished(p, s));
    AlwaysCompletesIff(q, Urls(s.coord.savedQueue.value));
    hide AlwaysCompletes;
  }

  /**
   And on any one web: a page the first run has stored as visited is fetched by the second, run to its end without
   cancellation, exactly when a saved task leads to it.
   */
  lemma {:induction false} StoredPageRefetchedIff(p: Params, acts: seq<Action>, origin: Url, counts: Counts, web: Web,
                                                  more: seq<Action>, u: Url)
    requires Halted(p, acts) && p.cfg.maxURLs <= 0 && u in After(p, acts).value.coord.stored
    ensures var s := After(p, acts).value;
      && s.coord.savedQueue.Some?
      && var q := ResumedParams(p, s, origin, counts).(web := web);
        RanToEnd(q, more) ==> (u in Urls(After(q, more).value.hist.completed) <==> HandedOver(s, origin, u))
  {
    ResumedStart(p, acts, origin, counts);
    HandedOverIsQueued(p, acts, origin, counts, u);
    var s := After(p, acts).value;
    var q := ResumedParams(p, s, origin, counts).(web := web);
    hide After, ResumedParams, HandedOver;
    if RanToEnd(q, more) {
      MarkedCompletesIff(q, more, u);
    }
  }

  /**
   A fresh run that cut no fetch short and took back no task is resumed without loss exactly when it has stored a row,
   or has no page unfinished but the session's address.
   */
  lemma {:induction false} SparedRunLosesNothing(p: Params, acts: seq<Action>, origin: Url, counts: Counts)
    requires Resumable(p, acts, origin) && p.cfg.maxURLs <= 0
    requires NoneTakenBack(p, acts) && After(p, acts).value.hist.aborted == []
    ensures var s := After(p, acts).value;
      && s.coord.savedQueue.Some?
      && (ResumeLosesNothing(p, s, origin, counts) <==> s.coord.stored != {} || Unfinished(p, s) <= {origin})
  {
    NothingLostIff(p, acts);
    ResumeLosesNothingIff(p, acts, origin, counts);
    var s := After(p, acts).value;
    hide After, FreshStart, WellFormed, NoneTakenBack, ResumeLosesNothing, Accepted;
    forall t | t in Accepted(p, s) && t.url !in Urls(s.hist.completed) && (s.coord.stored != {} || Unfinished(p, s) <= {origin})
      ensures HandedOver(s, origin, t.url)
    {
      assert t.url in Unfinished(p, s);
      assert t in s.coord.savedQueue.value;
    }
  }
}
