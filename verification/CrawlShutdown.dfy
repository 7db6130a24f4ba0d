/**
 Stopping a crawl: what the drain saves, what the stored rows hold afterwards, and what can be lost when
 cancellation meets the ordinary loop before the drain begins.
 */
module CrawlShutdown {
  import opened Options
  import opened CrawlTypes
  import opened CrawlSystem
  import opened CrawlSafety
  import opened CrawlLedger
  import opened CrawlOnce
  import opened CrawlTrace
  import opened CrawlTermination
  import opened CrawlCoverage
  import opened CrawlOutcome
  import opened Runs
  import opened Tally

  // ---------- Drain conservation ----------

  function LinkBatch(web: Web, t: CrawlTask): seq<CrawlTask> { LinkTasks(t, LinksOf(web, t.url)) }

  function InBatch(t: CrawlTask): seq<CrawlTask> -> nat { b => multiset(b)[t] }

  /** What a worker will still send to the coordinator after cancellation, if its fetch is not cut short. */
  function Owes(web: Web, t: CrawlTask): Worker -> nat {
    (w: Worker) => OwedBy(web, w, t)
  }

  function OwedBy(web: Web, w: Worker, t: CrawlTask): nat {
    match w
    case Holding(x) => One(x == t)
    case Fetching(x) => multiset(LinkBatch(web, x))[t]
    case Reporting(r) => multiset(BatchOf(r))[t]
    case Posting(b) => multiset(b)[t]
    case _ => 0
  }

  function CutLinks(web: Web, t: CrawlTask): CrawlTask -> nat { x => multiset(LinkBatch(web, x))[t] }

  /** Occurrences of `t` in the overflow, the channels and the workers' hands. */
  ghost function InReach(p: Params, s: State, t: CrawlTask): nat {
    multiset(s.coord.overflow)[t] + Total(s.discoveredCh, InBatch(t)) + multiset(s.taskCh)[t] + Total(s.workers, Owes(p.web, t))
  }

  ghost function InReachOrCut(p: Params, s: State, t: CrawlTask): nat {
    InReach(p, s, t) + Total(s.hist.aborted, CutLinks(p.web, t))
  }

  predicate Stopping(s: State) { s.cancelled && (s.coord.phase.Drain? || Returned(s)) }

  lemma TakeConserves(p: Params, s: State, w: nat, t: CrawlTask)
    requires Enabled(p, s, ATake(w))
    ensures InReachOrCut(p, Apply(p, s, ATake(w)), t) == InReachOrCut(p, s, t)
  {
    hide Total, LinkBatch;
    TotalUpdate(s.workers, w, Holding(s.taskCh[0]), Owes(p.web, t));
    HeadCount(s.taskCh, t);
  }

  lemma CheckCancelConserves(p: Params, s: State, w: nat, t: CrawlTask)
    requires s.cancelled && w < |s.workers| && s.workers[w].Holding?
    ensures InReachOrCut(p, CheckCancel(s, w), t) == InReachOrCut(p, s, t)
  {
    hide Total, LinkBatch;
    TotalUpdate(s.workers, w, Posting([s.workers[w].task]), Owes(p.web, t));
    LastCount([], s.workers[w].task, t);
    assert [] + [s.workers[w].task] == [s.workers[w].task];
  }

  lemma EndFetchConserves(p: Params, s: State, w: nat, cut: bool, t: CrawlTask)
    requires w < |s.workers| && s.workers[w].Fetching?
    ensures InReachOrCut(p, EndFetch(p, s, w, cut), t) == InReachOrCut(p, s, t)
  {
    hide Total;
    var task := s.workers[w].task;
    if cut {
      TotalUpdate(s.workers, w, Reporting(FailedRecord(task)), Owes(p.web, t));
      assert BatchOf(FailedRecord(task)) == [];
      TotalAppend(s.hist.aborted, task, CutLinks(p.web, t));
    } else {
      TotalUpdate(s.workers, w, Reporting(RecordOf(p.web, task)), Owes(p.web, t));
    }
  }

  lemma SendRecordConserves(p: Params, s: State, w: nat, t: CrawlTask)
    requires w < |s.workers| && s.workers[w].Reporting?
    ensures InReachOrCut(p, SendRecord(s, w), t) == InReachOrCut(p, s, t)
  {
    hide Total, LinkBatch;
    TotalUpdate(s.workers, w, Posting(BatchOf(s.workers[w].record)), Owes(p.web, t));
  }

  lemma SendBatchConserves(p: Params, s: State, w: nat, t: CrawlTask)
    requires w < |s.workers| && s.workers[w].Posting?
    ensures InReachOrCut(p, SendBatch(s, w), t) == InReachOrCut(p, s, t)
  {
    hide Total, LinkBatch;
    TotalUpdate(s.workers, w, Idle, Owes(p.web, t));
    TotalAppend(s.discoveredCh, s.workers[w].batch, InBatch(t));
  }

  lemma ExitConserves(p: Params, s: State, w: nat, t: CrawlTask)
    requires Enabled(p, s, AExit(w))
    ensures InReachOrCut(p, Apply(p, s, AExit(w)), t) == InReachOrCut(p, s, t)
  {
    hide Total, LinkBatch;
    TotalUpdate(s.workers, w, Exited, Owes(p.web, t));
  }

  lemma WorkerConserves(p: Params, s: State, a: Action, t: CrawlTask)
    requires Stopping(s) && Enabled(p, s, a) && IsWorkerAction(a)
    ensures InReachOrCut(p, Apply(p, s, a), t) == InReachOrCut(p, s, t)
  {
    hide InReachOrCut, CheckCancel, EndFetch, SendRecord, SendBatch;
    match a
    case ATake(w) => TakeConserves(p, s, w, t);
    case ACheckCancel(w) => CheckCancelConserves(p, s, w, t);
    case AEndFetch(w, cut) => EndFetchConserves(p, s, w, cut, t);
    case ASendRecord(w) => SendRecordConserves(p, s, w, t);
    case ASendBatch(w) => SendBatchConserves(p, s, w, t);
    case AExit(w) => ExitConserves(p, s, w, t);
  }

  lemma DrainBatchConserves(p: Params, s: State, t: CrawlTask)
    requires s.discoveredCh != []
    ensures InReachOrCut(p, DrainBatch(s), t) == InReachOrCut(p, s, t)
  {
    var batch, rest := s.discoveredCh[0], s.discoveredCh[1..];
    assert Total(s.discoveredCh, InBatch(t)) == InBatch(t)(batch) + Total(rest, InBatch(t));
    hide Total;
    assert multiset(s.coord.overflow + batch)[t] == multiset(s.coord.overflow)[t] + multiset(batch)[t];
  }

  lemma OthersConserve(p: Params, s: State, a: Action, t: CrawlTask)
    requires Stopping(s) && Enabled(p, s, a) && !IsWorkerAction(a) && !a.ADrainBatch?
    ensures InReachOrCut(p, Apply(p, s, a), t) == InReachOrCut(p, s, t)
  {
    hide Total;
  }

  lemma StoppingConserves(p: Params, s: State, a: Action, t: CrawlTask)
    requires Shape(p, s) && Stopping(s) && Enabled(p, s, a)
    ensures InReachOrCut(p, Apply(p, s, a), t) == InReachOrCut(p, s, t)
  {
    hide InReachOrCut, Shape, DrainBatch;
    if IsWorkerAction(a) {
      WorkerConserves(p, s, a, t);
    } else if a.ADrainBatch? {
      DrainBatchConserves(p, s, t);
    } else {
      OthersConserve(p, s, a, t);
    }
  }

  /** A later state of the same shutdown: what the drain began with is still all there, and nothing else. */
  ghost predicate SameShutdown(p: Params, s0: State, s: State) {
    && Sound(p, s) && Stopping(s)
    && s0.hist.aborted <= s.hist.aborted
    && (Returned(s) && p.cfg.hasDb ==> s.coord.savedQueue == Some(s.coord.overflow))
    && forall t :: InReachOrCut(p, s, t) == InReachOrCut(p, s0, t)
  }

  lemma ShutdownStep(p: Params, s: State, a: Action)
    requires Stopping(s) && Enabled(p, s, a)
    ensures var s' := Apply(p, s, a);
      && Stopping(s') && s.hist.aborted <= s'.hist.aborted
      && (Returned(s) ==> s'.coord.overflow == s.coord.overflow && s'.coord.savedQueue == s.coord.savedQueue)
      && (!Returned(s) && Returned(s') && p.cfg.hasDb ==> s'.coord.savedQueue == Some(s'.coord.overflow))
      && s'.coord.inFlight + (if a.ADrainBatch? then 1 else 0) == s.coord.inFlight
  {
    if IsWorkerAction(a) {
      WorkerTouchesOnlyFlow(p, s, a);
      WorkerAbortsMore(p, s, a);
      hide Apply;
    } else if IsIndexerAction(a) {
      IndexerTouchesOnlyResults(p, s, a);
      hide Apply;
    } else {
      hide CheckLoop, SendOverflow, ReceiveBatch, DispatchNext, BeginDrain;
    }
  }

  lemma WorkerAbortsMore(p: Params, s: State, a: Action)
    requires Enabled(p, s, a) && IsWorkerAction(a)
    ensures s.hist.aborted <= Apply(p, s, a).hist.aborted
  {
    hide RecordOf, FailedRecord, BatchOf, SetAside;
    match a
    case ATake(w) =>
    case ACheckCancel(w) =>
    case AEndFetch(w, cut) =>
    case ASendRecord(w) =>
    case ASendBatch(w) =>
    case AExit(w) =>
  }

  lemma SameShutdownKept(p: Params, s0: State, s: State, a: Action)
    requires WellFormed(p) && SameShutdown(p, s0, s) && Enabled(p, s, a)
    ensures SameShutdown(p, s0, Apply(p, s, a))
  {
    SoundKept(p, s, a);
    ShutdownStep(p, s, a);
    ShapeOf(p, s);
    hide Sound, Shape, InReachOrCut, Apply, Enabled;
    forall t ensures InReachOrCut(p, Apply(p, s, a), t) == InReachOrCut(p, s0, t) {
      StoppingConserves(p, s, a, t);
    }
  }

  lemma ShutdownContinues(p: Params, acts: seq<Action>, more: seq<Action>)
    requires WellFormed(p) && After(p, acts).Some? && After(p, acts + more).Some?
    requires After(p, acts).value.coord.phase.Drain?
    ensures SameShutdown(p, After(p, acts).value, After(p, acts + more).value)
  {
    var s0 := After(p, acts).value;
    SoundAlways(p, acts);
    ShapeOf(p, s0);
    ExecConcat(Stepper(p), Init(p), acts, more);
    var inv := (s: State) => SameShutdown(p, s0, s);
    forall s, a | inv(s) && Stepper(p)(s, a).Some? ensures inv(Stepper(p)(s, a).value) {
      SameShutdownKept(p, s0, s, a);
    }
    hide Sound, InReachOrCut, Enabled, Apply;
    Invariance(Stepper(p), inv, s0, more);
  }

  lemma {:induction false} AllZero<T>(xs: seq<T>, f: T -> nat)
    requires forall x :: x in xs ==> f(x) == 0
    ensures Total(xs, f) == 0
  {
    TotalZero(xs, f);
  }

  /**
   From the moment the drain starts, the queue it ends with holds exactly what was then in the overflow, in the
   discovery channel, on the task channel, in a worker's hands, and linked from the fetches under way, less the
   links of fetches that cancellation cut short; and that is the queue it saves.
   */
  lemma DrainConserves(p: Params, acts: seq<Action>, more: seq<Action>, t: CrawlTask)
    requires WellFormed(p) && After(p, acts).Some? && After(p, acts + more).Some?
    requires After(p, acts).value.coord.phase.Drain? && Returned(After(p, acts + more).value)
    ensures var s0, s := After(p, acts).value, After(p, acts + more).value;
      && s0.hist.aborted <= s.hist.aborted
      && multiset(s.coord.overflow)[t] + Total(s.hist.aborted[|s0.hist.aborted|..], CutLinks(p.web, t)) == InReach(p, s0, t)
      && (p.cfg.hasDb ==> s.coord.savedQueue == Some(s.coord.overflow))
      && s.taskCh == [] && s.discoveredCh == []
  {
    hide WellFormed;
    ShutdownContinues(p, acts, more);
    QuietAfterReturn(p, acts + more);
    hide After;
    ConservedAtEnd(p, After(p, acts).value, After(p, acts + more).value, t);
  }

  lemma ConservedAtEnd(p: Params, s0: State, s: State, t: CrawlTask)
    requires SameShutdown(p, s0, s) && s0.coord.phase.Drain? && Returned(s) && s.taskCh == [] && s.discoveredCh == []
    requires forall w :: w in s.workers ==> w.Idle? || w.Exited?
    ensures s0.hist.aborted <= s.hist.aborted && (p.cfg.hasDb ==> s.coord.savedQueue == Some(s.coord.overflow))
    ensures multiset(s.coord.overflow)[t] + Total(s.hist.aborted[|s0.hist.aborted|..], CutLinks(p.web, t)) == InReach(p, s0, t)
  {
    hide Sound;
    AllZero(s.workers, Owes(p.web, t));
    assert InReachOrCut(p, s, t) == InReachOrCut(p, s0, t);
    assert s.hist.aborted == s0.hist.aborted + s.hist.aborted[|s0.hist.aborted|..];
    TotalConcat(s0.hist.aborted, s.hist.aborted[|s0.hist.aborted|..], CutLinks(p.web, t));
    assert multiset(s.taskCh)[t] == 0;
  }

  function Drains(acts: seq<Action>): nat {
    if acts == [] then 0 else Drains(acts[..|acts| - 1]) + (if acts[|acts| - 1].ADrainBatch? then 1 else 0)
  }

  lemma {:induction false} DrainCounts(p: Params, acts: seq<Action>, more: seq<Action>)
    requires WellFormed(p) && After(p, acts).Some? && After(p, acts + more).Some?
    requires After(p, acts).value.coord.phase.Drain?
    ensures Drains(more) + After(p, acts + more).value.coord.inFlight == After(p, acts).value.coord.inFlight
    decreases |more|
  {
    hide WellFormed, Apply, Enabled, SameShutdown;
    if more == [] {
      assert acts + more == acts;
    } else {
      var n := |more| - 1;
      assert (acts + more)[..|acts + more| - 1] == acts + more[..n];
      DrainCounts(p, acts, more[..n]);
      ShutdownContinues(p, acts, more[..n]);
      var s := After(p, acts + more[..n]).value;
      StoppingStill(p, After(p, acts).value, s);
      ShutdownStep(p, s, more[n]);
    }
  }

  lemma StoppingStill(p: Params, s0: State, s: State)
    requires SameShutdown(p, s0, s)
    ensures Stopping(s)
  {
    hide Sound, InReachOrCut;
  }

  /** The drain takes exactly as many batches as were in flight when it started. */
  lemma DrainReceivesInFlight(p: Params, acts: seq<Action>, more: seq<Action>)
    requires WellFormed(p) && After(p, acts).Some? && After(p, acts + more).Some?
    requires After(p, acts).value.coord.phase.Drain? && Returned(After(p, acts + more).value)
    ensures Drains(more) == After(p, acts).value.coord.inFlight
  {
    DrainCounts(p, acts, more);
    SoundAlways(p, acts + more);
    ShapeOf(p, After(p, acts + more).value);
  }

  // ---------- Stored rows ----------

  /**
   With a database, stored and unflushed rows together are always the visited set less what `Start` itself
   marked without storing; once the coordinator has returned the stored rows alone are.
   */
  lemma StoredTracksVisited(p: Params, acts: seq<Action>)
    requires WellFormed(p) && After(p, acts).Some? && p.cfg.hasDb
    ensures var s := After(p, acts).value;
      && s.coord.stored + (set u | u in s.coord.newVisited) == s.coord.visited - (p.visited0 - p.stored0)
      && (Returned(s) ==> s.coord.stored == s.coord.visited - (p.visited0 - p.stored0))
  {
    SoundAlways(p, acts);
    assert p.stored0 <= p.visited0;
    hide After, Init;
    StoredTracks(p, After(p, acts).value);
  }

  lemma StoredTracks(p: Params, s: State)
    requires Sound(p, s) && p.cfg.hasDb && p.stored0 <= p.visited0
    ensures s.coord.stored + (set u | u in s.coord.newVisited) == s.coord.visited - (p.visited0 - p.stored0)
    ensures Returned(s) ==> s.coord.stored == s.coord.visited - (p.visited0 - p.stored0)
  {
    assert Ledger(p, s);
    hide Shape, TaskBooks, RecordBooks, Counters, DistinctUrls, Urls;
    assert s.coord.stored + (set u | u in s.coord.newVisited) == p.stored0 + Urls(s.hist.found);
    assert s.coord.visited - (p.visited0 - p.stored0) == p.stored0 + Urls(s.hist.found);
  }

  /** The persist timer brings the stored rows up to the visited set while the crawl goes on. */
  lemma TickStores(p: Params, acts: seq<Action>)
    requires WellFormed(p) && p.cfg.hasDb && After(p, acts + [APersistTick]).Some?
    ensures var s := After(p, acts + [APersistTick]).value; s.coord.stored == s.coord.visited - (p.visited0 - p.stored0)
  {
    var all := acts + [APersistTick];
    assert all[..|all| - 1] == acts;
    assert After(p, all).value.coord.newVisited == [];
    StoredTracksVisited(p, all);
  }

  /** A fresh crawl never stores a seed as visited, so a resumed crawl does not know its seeds were fetched. */
  lemma SeedsNeverStored(p: Params, acts: seq<Action>)
    requires WellFormed(p) && FreshStart(p) && p.stored0 == {} && After(p, acts).Some? && p.cfg.hasDb
    ensures After(p, acts).value.coord.stored !! p.visited0
  {
    StoredTracksVisited(p, acts);
  }

  // ---------- What cancellation can lose ----------

  /**
   A task returned by a worker and received before the drain is dropped: its URL is visited, so nothing is
   accepted, and neither the queue nor any other place holds it afterwards.
   */
  lemma ReturnedTaskIsDropped(p: Params, s: State, t: CrawlTask)
    requires Sound(p, s) && Urls(p.queue0) <= p.visited0 && t in Accepted(p, s)
    requires s.coord.phase.Select? && s.discoveredCh != [] && s.discoveredCh[0] == [t]
    ensures ReceiveBatch(p.cfg, s).coord.visited == s.coord.visited && ReceiveBatch(p.cfg, s).hist == s.hist
    ensures StillQueued(ReceiveBatch(p.cfg, s)) == s.coord.overflow
  {
    AcceptedIsVisited(p, s, t);
    assert Urls([t]) == {t.url};
    DedupNothingNew(p.cfg, [t], s.coord.visited);
    hide Dedup, Sound;
    assert s.hist.found + [] == s.hist.found;
  }

  lemma AcceptedIsVisited(p: Params, s: State, t: CrawlTask)
    requires Sound(p, s) && Urls(p.queue0) <= p.visited0 && t in Accepted(p, s)
    ensures t.url in s.coord.visited
  {
    UrlsConcat(p.queue0, s.hist.found);
  }
}
