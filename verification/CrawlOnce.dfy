/**
 Safety over whole runs: at most one fetch per URL, one record per fetch, an exact in-flight counter,
 and channels that are neither sent on nor closed once they have been closed.
 */
module CrawlOnce {
  import opened Options
  import opened CrawlTypes
  import opened CrawlSystem
  import opened CrawlSafety
  import opened CrawlLedger
  import opened Runs
  import opened Tally

  // ---------- Bags and distinct URLs ----------

  lemma {:induction false} TwiceCounted<T>(xs: seq<T>, i: nat, j: nat)
    requires i < j < |xs| && xs[i] == xs[j]
    ensures multiset(xs)[xs[i]] >= 2
  {
    assert xs == xs[..j] + [xs[j]] + xs[j + 1..];
    assert xs[..j][i] == xs[i];
    assert xs[i] in multiset(xs[..j]);
  }

  lemma {:induction false} CountedOnce(xs: seq<CrawlTask>, t: CrawlTask)
    requires DistinctUrls(xs)
    ensures multiset(xs)[t] <= 1
  {
    if xs != [] {
      var init, last := xs[..|xs| - 1], xs[|xs| - 1];
      assert xs == init + [last];
      CountedOnce(init, t);
      forall i | 0 <= i < |init| ensures init[i] != last { assert xs[i].url != xs[|xs| - 1].url; }
    }
  }

  /** A sequence that holds nothing more often than a sequence of distinct URLs has distinct URLs itself. */
  lemma BagWithin(xs: seq<CrawlTask>, ys: seq<CrawlTask>)
    requires DistinctUrls(ys) && forall t :: multiset(xs)[t] <= multiset(ys)[t]
    ensures DistinctUrls(xs) && forall t :: t in xs ==> t in ys
  {
    forall t | t in xs ensures t in ys {
      assert t in multiset(xs) && t in multiset(ys);
    }
    forall i, j | 0 <= i < j < |xs| ensures xs[i].url != xs[j].url {
      if xs[i].url == xs[j].url {
        SameUrl(ys, xs[i], xs[j]);
        TwiceCounted(xs, i, j);
        CountedOnce(ys, xs[i]);
      }
    }
  }

  lemma SameUrl(ys: seq<CrawlTask>, t: CrawlTask, u: CrawlTask)
    requires DistinctUrls(ys) && t in ys && u in ys && t.url == u.url
    ensures t == u
  {
    var i :| 0 <= i < |ys| && ys[i] == t;
    var j :| 0 <= j < |ys| && ys[j] == u;
  }

  // ---------- Where the tasks of a run are ----------

  function HeldTasks(ws: seq<Worker>): seq<CrawlTask> {
    if ws == [] then []
    else (if ws[0].Holding? then [ws[0].task] else []) + HeldTasks(ws[1..])
  }

  lemma {:induction false} HeldCount(ws: seq<Worker>, t: CrawlTask)
    ensures multiset(HeldTasks(ws))[t] == Total(ws, Holds(t))
  {
    if ws != [] {
      HeldCount(ws[1..], t);
    }
  }

  /** Tasks the coordinator still has to hand out; the drain only collects tasks for the next run. */
  function StillQueued(s: State): seq<CrawlTask> {
    if s.coord.phase.Dispatch? then s.coord.overflow + s.coord.phase.rest
    else if s.coord.phase.Drain? || Returned(s) then []
    else s.coord.overflow
  }

  /** Queued, waiting on the channel, in a worker's hands, and fetched, one after the other. */
  function InHandOrFetched(s: State): seq<CrawlTask> {
    StillQueued(s) + s.taskCh + HeldTasks(s.workers) + s.hist.fetched
  }

  lemma FetchedInHand(s: State)
    ensures Urls(s.hist.fetched) <= Urls(InHandOrFetched(s))
  {
    hide HeldTasks;
  }

  lemma AcceptedDistinct(p: Params, s: State)
    requires Ledger(p, s) && DistinctUrls(p.queue0) && Urls(p.queue0) <= p.visited0
    ensures DistinctUrls(Accepted(p, s)) && Urls(Accepted(p, s)) <= s.coord.visited
  {
    DistinctConcat(p.queue0, s.hist.found);
    UrlsConcat(p.queue0, s.hist.found);
  }

  lemma InHandWithinAccepted(p: Params, s: State, t: CrawlTask)
    requires TaskBooks(p, s, t)
    ensures multiset(InHandOrFetched(s))[t] + s.hist.setAside[t] == multiset(Accepted(p, s))[t]
  {
    HeldCount(s.workers, t);
    hide Total, HeldTasks;
  }

  /**
   At most one fetch per URL, in any run, cancelled or not: over everything queued, waiting, held and
   fetched no URL occurs twice, and all of it is marked visited.
   */
  lemma AtMostOneFetch(p: Params, acts: seq<Action>)
    requires WellFormed(p) && After(p, acts).Some?
    requires DistinctUrls(p.queue0) && Urls(p.queue0) <= p.visited0
    ensures var s := After(p, acts).value;
      DistinctUrls(InHandOrFetched(s)) && Urls(InHandOrFetched(s)) <= s.coord.visited && DistinctUrls(s.hist.fetched)
  {
    var s := After(p, acts).value;
    SoundAlways(p, acts);
    AcceptedDistinct(p, s);
    forall t ensures multiset(InHandOrFetched(s))[t] <= multiset(Accepted(p, s))[t] {
      InHandWithinAccepted(p, s, t);
    }
    BagWithin(InHandOrFetched(s), Accepted(p, s));
    var before := StillQueued(s) + s.taskCh + HeldTasks(s.workers);
    assert InHandOrFetched(s) == before + s.hist.fetched;
    FromTail(before, s.hist.fetched);
  }

  lemma FromTail(a: seq<CrawlTask>, b: seq<CrawlTask>)
    requires DistinctUrls(a + b)
    ensures DistinctUrls(b)
  {
    forall i, j | 0 <= i < j < |b| ensures b[i].url != b[j].url {
      assert (a + b)[|a| + i].url != (a + b)[|a| + j].url;
    }
  }

  lemma ApartInConcat(a: seq<CrawlTask>, b: seq<CrawlTask>, x: CrawlTask, y: CrawlTask)
    requires DistinctUrls(a + b) && x in a && y in b
    ensures x.url != y.url
  {
    var j :| 0 <= j < |a| && a[j] == x;
    var k :| 0 <= k < |b| && b[k] == y;
    assert (a + b)[j] == x && (a + b)[|a| + k] == y;
  }

  // ---------- Records ----------

  function TasksOf(rs: seq<PageRecord>): (ts: seq<CrawlTask>)
    ensures |ts| == |rs| && forall i :: 0 <= i < |ts| ==> ts[i] == TaskOf(rs[i])
  {
    seq(|rs|, i requires 0 <= i < |rs| => TaskOf(rs[i]))
  }

  lemma {:induction false} AnswersCount(rs: seq<PageRecord>, t: CrawlTask)
    ensures multiset(TasksOf(rs))[t] == Total(rs, Answers(t))
  {
    if rs != [] {
      AnswersCount(rs[1..], t);
      assert TasksOf(rs) == [TaskOf(rs[0])] + TasksOf(rs[1..]);
    }
  }

  /** No URL is indexed or counted twice: the finished records answer distinct URLs, each fetched. */
  lemma AtMostOneRecord(p: Params, acts: seq<Action>)
    requires WellFormed(p) && After(p, acts).Some?
    requires DistinctUrls(p.queue0) && Urls(p.queue0) <= p.visited0
    ensures var s := After(p, acts).value;
      DistinctUrls(TasksOf(s.hist.done)) && forall t :: t in TasksOf(s.hist.done) ==> t in s.hist.fetched
  {
    var s := After(p, acts).value;
    SoundAlways(p, acts);
    AtMostOneFetch(p, acts);
    forall t ensures multiset(TasksOf(s.hist.done))[t] <= multiset(s.hist.fetched)[t] {
      assert RecordBooks(s, t);
      AnswersCount(s.hist.done, t);
    }
    BagWithin(TasksOf(s.hist.done), s.hist.fetched);
  }

  // ---------- The in-flight counter and the channels ----------

  /** The workers that took a task and have not yet sent its batch. */
  function BusyWorkers(ws: seq<Worker>): set<nat> {
    set i: nat | i < |ws| && !ws[i].Idle? && !ws[i].Exited?
  }

  lemma {:induction false} BusyCount(ws: seq<Worker>)
    ensures Total(ws, BusyOf) == |BusyWorkers(ws)|
    decreases |ws|
  {
    if ws != [] {
      var n := |ws| - 1;
      BusyCount(ws[..n]);
      TotalAppend(ws[..n], ws[n], BusyOf);
      assert ws == ws[..n] + [ws[n]];
      assert BusyWorkers(ws) == BusyWorkers(ws[..n]) + (if BusyOf(ws[n]) == 1 then {n} else {});
    }
  }

  /** The counter is exact in every state, and no schedule sends on or re-closes a closed channel. */
  lemma InFlightExact(p: Params, acts: seq<Action>)
    requires WellFormed(p) && After(p, acts).Some?
    ensures var s := After(p, acts).value;
      && s.coord.inFlight == |s.taskCh| + |BusyWorkers(s.workers)| + |s.discoveredCh|
      && !s.panicked
      && |s.taskCh| <= p.cfg.queueSize && |s.discoveredCh| <= 2 * p.cfg.numWorkers && |s.resultsCh| <= 2 * p.cfg.numWorkers
  {
    SoundAlways(p, acts);
    BusyCount(After(p, acts).value.workers);
  }

  /** Once the coordinator has returned nothing is in flight: no task, no batch, no busy worker, no unsent record. */
  lemma QuietAfterReturn(p: Params, acts: seq<Action>)
    requires WellFormed(p) && After(p, acts).Some? && Returned(After(p, acts).value)
    ensures var s := After(p, acts).value;
      && s.taskCh == [] && s.discoveredCh == [] && s.taskClosed
      && (forall w :: w in s.workers ==> w.Idle? || w.Exited?)
      && (s.coord.phase.Finished? ==> s.resultsCh == [] && s.indexer.pc.Stopped? && forall w :: w in s.workers ==> w.Exited?)
  {
    SoundAlways(p, acts);
    TotalZero(After(p, acts).value.workers, BusyOf);
  }
}
