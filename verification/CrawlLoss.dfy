/**
 What becomes of each accepted task of a crawl, cancelled or not: it is fetched to the end, or its fetch is cut short,
 or it is in the queue the run ends with, or an ordinary select took it in again after a worker had returned it. The
 second and the last case are the two ways to lose a task.
 */
module CrawlLoss {
  import opened Options
  import opened CrawlTypes
  import opened CrawlSystem
  import opened CrawlSafety
  import opened CrawlLedger
  import opened CrawlOnce
  import opened CrawlTrace
  import opened CrawlTermination
  import opened CrawlCoverage
  import opened CrawlOutcome
  import opened CrawlShutdown
  import opened CrawlFetches
  import opened Runs
  import opened Tally

  // ---------- Where a task can be ----------

  /** Occurrences in a batch a worker is about to send. */
  function Posts(t: CrawlTask): Worker -> nat {
    (w: Worker) => if w.Posting? then multiset(w.batch)[t] else 0
  }

  /** Whether a fetch under way, or just ended, links to the task. */
  function LinksTo(web: Web, t: CrawlTask): Worker -> nat {
    (w: Worker) => LinkedBy(web, w, t)
  }

  function LinkedBy(web: Web, w: Worker, t: CrawlTask): nat {
    match w
    case Fetching(x) => One(t in LinkBatch(web, x))
    case Reporting(r) => One(t in BatchOf(r))
    case _ => 0
  }

  /** Whether a worker has, or will have, a batch with the task in it. */
  function Brings(web: Web, t: CrawlTask): Worker -> nat {
    (w: Worker) => LinkedBy(web, w, t) + One(w.Posting? && t in w.batch)
  }

  function Has(t: CrawlTask): seq<CrawlTask> -> nat { b => One(t in b) }

  /** With the coordinator, on the task channel, in a worker's hands, or fetched. */
  ghost function Settled(s: State, t: CrawlTask): nat {
    multiset(s.coord.overflow)[t] + multiset(Undispatched(s))[t] + multiset(s.taskCh)[t]
    + Total(s.workers, Holds(t)) + multiset(s.hist.fetched)[t]
  }

  /** On its way to the coordinator in some batch. */
  ghost function Underway(s: State, t: CrawlTask): nat {
    Total(s.discoveredCh, InBatch(t)) + Total(s.workers, Posts(t))
  }

  /** The batches, sent or to come, that hold the task. */
  ghost function Bearers(p: Params, s: State, t: CrawlTask): nat {
    Total(s.discoveredCh, Has(t)) + Total(s.workers, Brings(p.web, t))
  }

  /**
   At most one batch bears a task. An accepted one is in one place, unless it was taken back, and no fetch links to
   it any more; `lost` counts how often it was taken back.
   */
  ghost predicate Fate(p: Params, s: State, t: CrawlTask, lost: nat) {
    && Bearers(p, s, t) <= 1
    && (t in Accepted(p, s) ==> Settled(s, t) + Underway(s, t) + lost == 1 && Total(s.workers, LinksTo(p.web, t)) == 0)
    && (t !in Accepted(p, s) ==> lost == 0)
  }

  // ---------- Sums ----------

  lemma {:induction false} TotalAtMost<T>(xs: seq<T>, f: T -> nat, g: T -> nat)
    requires forall x :: x in xs ==> f(x) <= g(x)
    ensures Total(xs, f) <= Total(xs, g)
  {
    if xs != [] {
      assert xs == [xs[0]] + xs[1..];
      TotalAtMost(xs[1..], f, g);
    }
  }

  lemma {:induction false} TotalSum<T>(xs: seq<T>, f: T -> nat, g: T -> nat, h: T -> nat)
    requires forall x :: x in xs ==> h(x) == f(x) + g(x)
    ensures Total(xs, h) == Total(xs, f) + Total(xs, g)
  {
    if xs != [] {
      assert xs == [xs[0]] + xs[1..];
      TotalSum(xs[1..], f, g, h);
    }
  }

  lemma CountOfMember(b: seq<CrawlTask>, t: CrawlTask)
    ensures One(t in b) <= multiset(b)[t] && (t !in b ==> multiset(b)[t] == 0)
  {
    if t in b { assert t in multiset(b); }
    if t in multiset(b) { assert t in b; }
  }

  /** Bearers of a task are no more than its occurrences under way and the fetches linking to it. */
  lemma BearersBound(p: Params, s: State, t: CrawlTask)
    ensures Bearers(p, s, t) <= Underway(s, t) + Total(s.workers, LinksTo(p.web, t))
    ensures Bearers(p, s, t) == 0 ==> Underway(s, t) == 0 && Total(s.workers, LinksTo(p.web, t)) == 0
  {
    hide LinkedBy;
    forall b | b in s.discoveredCh ensures Has(t)(b) <= InBatch(t)(b) { CountOfMember(b, t); }
    TotalAtMost(s.discoveredCh, Has(t), InBatch(t));
    var has := (w: Worker) => One(w.Posting? && t in w.batch);
    forall w | w in s.workers ensures has(w) <= Posts(t)(w) { if w.Posting? { CountOfMember(w.batch, t); } }
    TotalAtMost(s.workers, has, Posts(t));
    TotalSum(s.workers, LinksTo(p.web, t), has, Brings(p.web, t));
    if Bearers(p, s, t) == 0 {
      NoneUnderway(s, t, has);
    }
  }

  lemma NoneUnderway(s: State, t: CrawlTask, has: Worker -> nat)
    requires Total(s.discoveredCh, Has(t)) == 0 && Total(s.workers, has) == 0
    requires forall w :: has(w) == One(w.Posting? && t in w.batch)
    ensures Underway(s, t) == 0
  {
    TotalZero(s.discoveredCh, Has(t));
    TotalZero(s.workers, has);
    hide Total;
    forall b | b in s.discoveredCh ensures InBatch(t)(b) == 0 { CountOfMember(b, t); assert Has(t)(b) == 0; }
    forall w | w in s.workers ensures Posts(t)(w) == 0 { if w.Posting? { CountOfMember(w.batch, t); assert has(w) == 0; } }
    TotalZero(s.discoveredCh, InBatch(t));
    TotalZero(s.workers, Posts(t));
  }

  // ---------- What the rest of the project knows about a state ----------

  ghost predicate Ground(p: Params, s: State) {
    && FreshStart(p) && Sound(p, s) && Origins(p, s)
    && forall t :: t in Accepted(p, s) ==> t.depth >= 0
  }

  lemma AcceptedOnce(p: Params, s: State, t: CrawlTask)
    requires Ground(p, s)
    ensures multiset(Accepted(p, s))[t] == One(t in Accepted(p, s)) && TaskBooks(p, s, t)
    ensures multiset(Accepted(p, s))[t] == multiset(p.queue0)[t] + multiset(s.hist.found)[t]
  {
    AcceptedDistinct(p, s);
    CountedOnce(Accepted(p, s), t);
    CountOfMember(Accepted(p, s), t);
  }

  /** No two accepted tasks share a URL, and none is both in hand and fetched. */
  lemma HeldIsNotFetched(p: Params, s: State, x: CrawlTask, y: CrawlTask)
    requires Ground(p, s) && Total(s.workers, Holds(x)) > 0 && y in s.hist.fetched
    ensures x in Accepted(p, s) && x.url != y.url
  {
    AcceptedOnce(p, s, x);
    AcceptedOnce(p, s, y);
    CountOfMember(s.hist.fetched, y);
    hide Total, Accepted, Ground;
    assert y in Accepted(p, s);
    if x.url == y.url {
      assert DistinctUrls(Accepted(p, s)) by { UseGround(p, s); }
      SameUrl(Accepted(p, s), x, y);
    }
  }

  lemma UseGround(p: Params, s: State)
    requires Ground(p, s)
    ensures DistinctUrls(Accepted(p, s)) && Urls(Accepted(p, s)) <= s.coord.visited && Shape(p, s)
  {
    AcceptedDistinct(p, s);
  }

  /** Anything in the system that a page yet to be fetched links to would have come from that very page. */
  lemma NotYetLinked(p: Params, s: State, x: CrawlTask, t: CrawlTask)
    requires Ground(p, s) && Total(s.workers, Holds(x)) > 0 && LinkedFrom(p.web, x, t)
    ensures !Traced(p, s.hist, t)
  {
    if Traced(p, s.hist, t) {
      assert !(t in p.queue0) by { HeldDepth(p, s, x); }
      if y :| y in s.hist.fetched && LinkedFrom(p.web, y, t) {
        HeldIsNotFetched(p, s, x, y);
      }
    }
  }

  lemma HeldDepth(p: Params, s: State, x: CrawlTask)
    requires Ground(p, s) && Total(s.workers, Holds(x)) > 0
    ensures x.depth >= 0 && forall t :: t in p.queue0 ==> t.depth == 0
  {
    AcceptedOnce(p, s, x);
  }

  lemma UntracedIsNowhere(p: Params, s: State, t: CrawlTask)
    requires Origins(p, s) && !Traced(p, s.hist, t)
    ensures t !in Accepted(p, s) && Bearers(p, s, t) == 0
  {
    hide Traced, Total;
    assert t !in p.queue0 && t !in s.hist.found by { UntracedNotFound(p, s.hist, t); }
    forall b | b in s.discoveredCh ensures Has(t)(b) == 0 { assert AllTraced(p, s.hist, b); }
    TotalZero(s.discoveredCh, Has(t));
    forall w | w in s.workers ensures Brings(p.web, t)(w) == 0 {
      if Brings(p.web, t)(w) > 0 { BringsTraced(p, s.hist, w, t); }
    }
    TotalZero(s.workers, Brings(p.web, t));
  }

  lemma UntracedNotFound(p: Params, h: History, t: CrawlTask)
    requires !Traced(p, h, t)
    ensures t !in p.queue0 && t !in h.found
  {}

  /** So when its fetch starts, none of its links is accepted or under way. */
  lemma {:induction false} LinksAreNew(p: Params, s: State, x: CrawlTask, t: CrawlTask)
    requires Ground(p, s) && Total(s.workers, Holds(x)) > 0 && t in LinkBatch(p.web, x)
    ensures t !in Accepted(p, s) && Bearers(p, s, t) == 0
  {
    assert LinkedFrom(p.web, x, t);
    NotYetLinked(p, s, x, t);
    assert Origins(p, s);
    hide *;
    UntracedIsNowhere(p, s, t);
  }

  lemma BringsTraced(p: Params, h: History, w: Worker, t: CrawlTask)
    requires WorkerTraced(p, h, w) && Brings(p.web, t)(w) > 0
    ensures Traced(p, h, t)
  {
    match w
    case Fetching(x) => assert LinkedFrom(p.web, x, t);
    case Reporting(r) => BatchTraced(p, h, r);
    case Posting(b) =>
    case _ =>
  }

  // ---------- Workers ----------

  lemma TakeCounts(p: Params, s: State, w: nat, t: CrawlTask)
    requires Enabled(p, s, ATake(w))
    ensures var s' := Apply(p, s, ATake(w));
      && Settled(s', t) == Settled(s, t) && Underway(s', t) == Underway(s, t) && s'.hist == s.hist
      && Total(s'.workers, LinksTo(p.web, t)) == Total(s.workers, LinksTo(p.web, t)) && Bearers(p, s', t) == Bearers(p, s, t)
  {
    hide Total, LinkBatch;
    SwapTotals(p.web, s.workers, w, Holding(s.taskCh[0]), t);
    HeadCount(s.taskCh, t);
  }

  lemma TakeKeepsFate(p: Params, s: State, w: nat, t: CrawlTask, lost: nat)
    requires Fate(p, s, t, lost) && Enabled(p, s, ATake(w))
    ensures Fate(p, Apply(p, s, ATake(w)), t, lost)
  {
    hide *;
    TakeCounts(p, s, w, t);
    var s' := Apply(p, s, ATake(w));
    SameAccepted(p, s, s');
    FateOfLinked(p, s, s', t, lost, 0);
  }

  /** What swapping one worker does to the four totals. */
  lemma SwapTotals(web: Web, ws: seq<Worker>, w: nat, x: Worker, t: CrawlTask)
    requires w < |ws|
    ensures var ws' := ws[w := x];
      && Total(ws', Holds(t)) + Holds(t)(ws[w]) == Total(ws, Holds(t)) + Holds(t)(x)
      && Total(ws', Posts(t)) + Posts(t)(ws[w]) == Total(ws, Posts(t)) + Posts(t)(x)
      && Total(ws', LinksTo(web, t)) + LinkedBy(web, ws[w], t) == Total(ws, LinksTo(web, t)) + LinkedBy(web, x, t)
      && Total(ws', Brings(web, t)) + Brings(web, t)(ws[w]) == Total(ws, Brings(web, t)) + Brings(web, t)(x)
  {
    TotalUpdate(ws, w, x, Holds(t));
    TotalUpdate(ws, w, x, Posts(t));
    TotalUpdate(ws, w, x, LinksTo(web, t));
    TotalUpdate(ws, w, x, Brings(web, t));
    hide Total, LinkedBy;
  }

  lemma ReturnCounts(p: Params, s: State, w: nat, t: CrawlTask)
    requires w < |s.workers| && s.workers[w].Holding? && s.cancelled
    ensures var s', moved := CheckCancel(s, w), One(s.workers[w].task == t);
      && Settled(s', t) + moved == Settled(s, t) && Underway(s', t) == Underway(s, t) + moved
      && Total(s'.workers, LinksTo(p.web, t)) == Total(s.workers, LinksTo(p.web, t))
      && Bearers(p, s', t) == Bearers(p, s, t) + moved && s'.hist.found == s.hist.found
  {
    hide Total;
    var task := s.workers[w].task;
    SwapTotals(p.web, s.workers, w, Posting([task]), t);
    assert multiset([task])[t] == One(task == t);
  }

  /** A worker sees the cancellation and returns its task, which nothing else can be bearing. */
  lemma ReturnKeepsFate(p: Params, s: State, w: nat, t: CrawlTask, lost: nat)
    requires Ground(p, s) && Fate(p, s, t, lost) && w < |s.workers| && s.workers[w].Holding? && s.cancelled
    ensures Fate(p, CheckCancel(s, w), t, lost)
  {
    AcceptedOnce(p, s, t);
    BearersBound(p, s, t);
    ReturnCounts(p, s, w, t);
    SameAccepted(p, s, CheckCancel(s, w));
    HolderCounted(s.workers, w);
    hide Total, Ground, Accepted, CheckCancel, Underway, Bearers;
  }

  lemma SameAccepted(p: Params, s: State, s': State)
    requires s'.hist.found == s.hist.found
    ensures Accepted(p, s') == Accepted(p, s)
  {}

  lemma StartCounts(p: Params, s: State, w: nat, t: CrawlTask)
    requires w < |s.workers| && s.workers[w].Holding? && !s.cancelled
    ensures var s', linked := CheckCancel(s, w), One(t in LinkBatch(p.web, s.workers[w].task));
      && Settled(s', t) == Settled(s, t) && Underway(s', t) == Underway(s, t)
      && Total(s'.workers, LinksTo(p.web, t)) == Total(s.workers, LinksTo(p.web, t)) + linked
      && Bearers(p, s', t) == Bearers(p, s, t) + linked && s'.hist.found == s.hist.found
  {
    hide Total, LinkBatch;
    var task := s.workers[w].task;
    SwapTotals(p.web, s.workers, w, Fetching(task), t);
    LastCount(s.hist.fetched, task, t);
  }

  /** A fetch starts, and what it links to is new. */
  lemma StartFetchKeepsFate(p: Params, s: State, w: nat, t: CrawlTask, lost: nat)
    requires Ground(p, s) && Fate(p, s, t, lost) && w < |s.workers| && s.workers[w].Holding? && !s.cancelled
    ensures Fate(p, CheckCancel(s, w), t, lost)
  {
    var task := s.workers[w].task;
    HolderCounted(s.workers, w);
    StartCounts(p, s, w, t);
    SameAccepted(p, s, CheckCancel(s, w));
    hide *;
    if t in LinkBatch(p.web, task) {
      LinksAreNew(p, s, task, t);
    }
    FateOfLinked(p, s, CheckCancel(s, w), t, lost, One(t in LinkBatch(p.web, task)));
  }

  /** A task stays where it is, or is new and gets its first bearer. */
  lemma FateOfLinked(p: Params, s: State, s': State, t: CrawlTask, lost: nat, linked: nat)
    requires Fate(p, s, t, lost) && Accepted(p, s') == Accepted(p, s) && linked <= 1
    requires linked > 0 ==> t !in Accepted(p, s) && Bearers(p, s, t) == 0
    requires Settled(s', t) == Settled(s, t) && Underway(s', t) == Underway(s, t)
    requires Total(s'.workers, LinksTo(p.web, t)) == Total(s.workers, LinksTo(p.web, t)) + linked
    requires Bearers(p, s', t) == Bearers(p, s, t) + linked
    ensures Fate(p, s', t, lost)
  {
    hide Total, Settled, Underway, Bearers, Accepted;
  }

  lemma HolderCounted(ws: seq<Worker>, w: nat)
    requires w < |ws| && ws[w].Holding?
    ensures Total(ws, Holds(ws[w].task)) > 0
  {
    TotalZero(ws, Holds(ws[w].task));
    assert ws[w] in ws;
  }

  lemma EndFetchOnlySwaps(p: Params, s: State, w: nat, cut: bool)
    requires w < |s.workers| && s.workers[w].Fetching?
    ensures var s', task := EndFetch(p, s, w, cut), s.workers[w].task;
      && s'.workers == s.workers[w := Reporting(if cut then FailedRecord(task) else RecordOf(p.web, task))]
      && s'.discoveredCh == s.discoveredCh && s'.coord == s.coord && s'.taskCh == s.taskCh
      && s'.hist.fetched == s.hist.fetched && s'.hist.found == s.hist.found
  {}

  lemma ReportedLinks(web: Web, task: CrawlTask, cut: bool, t: CrawlTask)
    ensures LinkedBy(web, Reporting(if cut then FailedRecord(task) else RecordOf(web, task)), t) == One(!cut && t in LinkBatch(web, task))
  {
    assert BatchOf(FailedRecord(task)) == [] && BatchOf(RecordOf(web, task)) == LinkBatch(web, task);
  }

  lemma EndFetchCounts(p: Params, s: State, w: nat, cut: bool, t: CrawlTask)
    requires w < |s.workers| && s.workers[w].Fetching?
    ensures var s', linked := EndFetch(p, s, w, cut), One(!cut && t in LinkBatch(p.web, s.workers[w].task));
      && Settled(s', t) == Settled(s, t) && Underway(s', t) == Underway(s, t) && s'.hist.found == s.hist.found
      && Total(s'.workers, LinksTo(p.web, t)) + One(t in LinkBatch(p.web, s.workers[w].task)) == Total(s.workers, LinksTo(p.web, t)) + linked
      && Bearers(p, s', t) + One(t in LinkBatch(p.web, s.workers[w].task)) == Bearers(p, s, t) + linked
  {
    hide Total, RecordOf, FailedRecord, BatchOf, LinkBatch, EndFetch;
    var task := s.workers[w].task;
    EndFetchOnlySwaps(p, s, w, cut);
    ReportedLinks(p.web, task, cut, t);
    SwapTotals(p.web, s.workers, w, Reporting(if cut then FailedRecord(task) else RecordOf(p.web, task)), t);
  }

  lemma EndFetchKeepsFate(p: Params, s: State, w: nat, cut: bool, t: CrawlTask, lost: nat)
    requires Fate(p, s, t, lost) && w < |s.workers| && s.workers[w].Fetching?
    ensures Fate(p, EndFetch(p, s, w, cut), t, lost)
  {
    EndFetchCounts(p, s, w, cut, t);
    SameAccepted(p, s, EndFetch(p, s, w, cut));
    hide Total, EndFetch, Settled, Underway, Bearers, Accepted, LinkBatch;
  }

  lemma SendRecordKeepsFate(p: Params, s: State, w: nat, t: CrawlTask, lost: nat)
    requires Fate(p, s, t, lost) && w < |s.workers| && s.workers[w].Reporting? && !s.resultsClosed
    ensures Fate(p, SendRecord(s, w), t, lost)
  {
    hide Total, BatchOf;
    var r := s.workers[w].record;
    var x := Posting(BatchOf(r));
    TotalUpdate(s.workers, w, x, Holds(t));
    TotalUpdate(s.workers, w, x, Posts(t));
    TotalUpdate(s.workers, w, x, LinksTo(p.web, t));
    TotalUpdate(s.workers, w, x, Brings(p.web, t));
    CountOfMember(BatchOf(r), t);
  }

  lemma SendBatchKeepsFate(p: Params, s: State, w: nat, t: CrawlTask, lost: nat)
    requires Fate(p, s, t, lost) && w < |s.workers| && s.workers[w].Posting?
    ensures Fate(p, SendBatch(s, w), t, lost)
  {
    hide Total;
    var b := s.workers[w].batch;
    TotalUpdate(s.workers, w, Idle, Holds(t));
    TotalUpdate(s.workers, w, Idle, Posts(t));
    TotalUpdate(s.workers, w, Idle, LinksTo(p.web, t));
    TotalUpdate(s.workers, w, Idle, Brings(p.web, t));
    TotalAppend(s.discoveredCh, b, InBatch(t));
    TotalAppend(s.discoveredCh, b, Has(t));
  }

  lemma ExitKeepsFate(p: Params, s: State, w: nat, t: CrawlTask, lost: nat)
    requires Fate(p, s, t, lost) && Enabled(p, s, AExit(w))
    ensures Fate(p, Apply(p, s, AExit(w)), t, lost)
  {
    hide Total;
    TotalUpdate(s.workers, w, Exited, Holds(t));
    TotalUpdate(s.workers, w, Exited, Posts(t));
    TotalUpdate(s.workers, w, Exited, LinksTo(p.web, t));
    TotalUpdate(s.workers, w, Exited, Brings(p.web, t));
  }

  // ---------- Coordinator ----------

  /** The oldest batch, taken off the channel. */
  lemma HeadBatch(s: State, t: CrawlTask)
    requires s.discoveredCh != []
    ensures Total(s.discoveredCh, InBatch(t)) == multiset(s.discoveredCh[0])[t] + Total(s.discoveredCh[1..], InBatch(t))
    ensures Total(s.discoveredCh, Has(t)) == One(t in s.discoveredCh[0]) + Total(s.discoveredCh[1..], Has(t))
  {}

  /** How often an ordinary receive takes back a task that was accepted before. */
  function Back(p: Params, s: State, t: CrawlTask): nat
    requires s.discoveredCh != []
  {
    if t in Accepted(p, s) then multiset(s.discoveredCh[0])[t] else 0
  }

  lemma DropKeepsFate(p: Params, s: State, t: CrawlTask, lost: nat)
    requires Fate(p, s, t, lost) && s.coord.phase.LimitSelect? && s.discoveredCh != []
    ensures Fate(p, ReceiveBatch(p.cfg, s), t, lost + Back(p, s, t))
  {
    HeadBatch(s, t);
    hide Total;
  }

  lemma ReceiveKeepsFate(p: Params, s: State, t: CrawlTask, lost: nat)
    requires Ground(p, s) && Fate(p, s, t, lost) && s.coord.phase.Select? && s.discoveredCh != []
    ensures Fate(p, ReceiveBatch(p.cfg, s), t, lost + Back(p, s, t))
  {
    var b := s.discoveredCh[0];
    var found := Dedup(p.cfg, b, s.coord.visited).0;
    var s' := ReceiveBatch(p.cfg, s);
    ReceiveCounts(p, s, t);
    FoundIsNew(p, s, b, t);
    AcceptedGrows(p, s, s', found, t);
    AcceptedOnce(p, s, t);
    hide *;
    if t in found {
      BearersBound(p, s', t);
      NothingSettled(p, s, t);
      OnlyBearer(p, s, t, lost, b, Bearers(p, s', t));
      FateOfFound(p, s', t);
    } else {
      FateOfOthers(p, s, s', t, lost);
    }
  }

  lemma OnlyBearer(p: Params, s: State, t: CrawlTask, lost: nat, b: seq<CrawlTask>, others: nat)
    requires Fate(p, s, t, lost) && t in b && t !in Accepted(p, s) && others + One(t in b) == Bearers(p, s, t)
    ensures others == 0 && lost == 0
  {}

  lemma FateOfFound(p: Params, s': State, t: CrawlTask)
    requires t in Accepted(p, s') && Bearers(p, s', t) == 0 && Settled(s', t) == 1
    requires Underway(s', t) == 0 && Total(s'.workers, LinksTo(p.web, t)) == 0
    ensures Fate(p, s', t, 0)
  {}

  lemma FateOfOthers(p: Params, s: State, s': State, t: CrawlTask, lost: nat)
    requires Fate(p, s, t, lost) && s.discoveredCh != [] && (t in Accepted(p, s') <==> t in Accepted(p, s))
    requires Settled(s', t) == Settled(s, t) && Underway(s', t) + multiset(s.discoveredCh[0])[t] == Underway(s, t)
    requires s'.workers == s.workers && Bearers(p, s', t) <= Bearers(p, s, t)
    ensures Fate(p, s', t, lost + Back(p, s, t))
  {
    hide Total, Settled, Underway, Bearers, Accepted;
  }

  lemma AcceptedGrows(p: Params, s: State, s': State, found: seq<CrawlTask>, t: CrawlTask)
    requires s'.hist.found == s.hist.found + found
    ensures t in Accepted(p, s') <==> t in Accepted(p, s) || t in found
  {}

  lemma NothingSettled(p: Params, s: State, t: CrawlTask)
    requires TaskBooks(p, s, t) && s.coord.phase.Select? && multiset(p.queue0)[t] + multiset(s.hist.found)[t] == 0
    ensures Settled(s, t) == 0
  {
    hide Total;
  }

  lemma FoundIsNew(p: Params, s: State, b: seq<CrawlTask>, t: CrawlTask)
    requires Ground(p, s)
    ensures var found := Dedup(p.cfg, b, s.coord.visited).0;
      && multiset(found)[t] == One(t in found) && (t in found ==> t in b && t !in Accepted(p, s))
  {
    var found := Dedup(p.cfg, b, s.coord.visited).0;
    DedupMarks(p.cfg, b, s.coord.visited);
    DedupAccepts(p.cfg, b, s.coord.visited);
    UseGround(p, s);
    hide Dedup, Ground, Accepted;
    CountedOnce(found, t);
    CountOfMember(found, t);
    if t in found {
      assert t.url in Urls(found);
      forall x | x in Accepted(p, s) ensures x != t { assert x.url in Urls(Accepted(p, s)); }
    }
  }

  lemma ReceiveCounts(p: Params, s: State, t: CrawlTask)
    requires s.coord.phase.Select? && s.discoveredCh != []
    ensures var s', b, found := ReceiveBatch(p.cfg, s), s.discoveredCh[0], Dedup(p.cfg, s.discoveredCh[0], s.coord.visited).0;
      && Settled(s', t) == Settled(s, t) + multiset(found)[t]
      && Underway(s', t) + multiset(b)[t] == Underway(s, t) && s'.workers == s.workers
      && Bearers(p, s', t) + One(t in b) == Bearers(p, s, t) && s'.hist.found == s.hist.found + found
  {
    HeadBatch(s, t);
    hide Total, Dedup;
  }

  lemma DispatchKeepsFate(p: Params, s: State, t: CrawlTask, lost: nat)
    requires Shape(p, s) && Fate(p, s, t, lost) && s.coord.phase.Dispatch?
    ensures Fate(p, DispatchNext(p.cfg, s), t, lost)
  {
    DispatchMoves(p.cfg, s, t);
    QueuedIs(s, t);
    QueuedIs(DispatchNext(p.cfg, s), t);
    hide Total, Shape, DispatchNext, Undispatched, Queued, Holds;
  }

  lemma SendOverflowKeepsFate(p: Params, s: State, t: CrawlTask, lost: nat)
    requires Shape(p, s) && Fate(p, s, t, lost) && s.coord.phase.Select? && s.coord.overflow != []
    ensures Fate(p, SendOverflow(s), t, lost)
  {
    hide Total;
    HeadCount(s.coord.overflow, t);
  }

  lemma DrainBatchKeepsFate(p: Params, s: State, t: CrawlTask, lost: nat)
    requires Fate(p, s, t, lost) && s.coord.phase.Drain? && s.discoveredCh != []
    ensures Fate(p, DrainBatch(s), t, lost)
  {
    HeadBatch(s, t);
    hide Total;
    assert multiset(s.coord.overflow + s.discoveredCh[0])[t] == multiset(s.coord.overflow)[t] + multiset(s.discoveredCh[0])[t];
  }

  /** The loop test gives nothing up: when it drops the queue, the queue is empty. */
  lemma LoopGivesNothingUp(p: Params, s: State)
    requires Ground(p, s) && s.coord.phase.Head?
    ensures CheckLoop(p.cfg, s).coord.overflow == s.coord.overflow
  {
    if UrlLimitReached(p.cfg, s) {
      LimitHarmless(p, s, []);
      hide Ground, Accepted;
      assert StillQueued(s) == s.coord.overflow;
    }
    hide Flush, Ground;
  }

  /** Steps that leave every task and every batch where it is. */
  ghost predicate SamePlaces(s: State, s': State) {
    && s'.workers == s.workers && s'.discoveredCh == s.discoveredCh && s'.taskCh == s.taskCh
    && s'.coord.overflow == s.coord.overflow && Undispatched(s') == Undispatched(s)
    && s'.hist.found == s.hist.found && s'.hist.fetched == s.hist.fetched
  }

  lemma SamePlacesKeepFate(p: Params, s: State, s': State, t: CrawlTask, lost: nat)
    requires SamePlaces(s, s') && Fate(p, s, t, lost)
    ensures Fate(p, s', t, lost)
  {
    hide Total;
  }

  lemma LoopKeepsPlaces(p: Params, s: State)
    requires Ground(p, s) && s.coord.phase.Head?
    ensures SamePlaces(s, CheckLoop(p.cfg, s))
  {
    LoopGivesNothingUp(p, s);
    LoopKeepsPipeline(p.cfg, s);
    LoopSetsAside(p.cfg, s);
    LoopSendsNothing(p.cfg, s);
    hide Ground, CheckLoop;
  }

  predicate MovesNothing(a: Action) {
    !IsWorkerAction(a) && !a.ACheckLoop? && !a.AReceiveBatch? && !a.ADispatchNext? && !a.ASendOverflow? && !a.ADrainBatch?
  }

  lemma OthersKeepPlaces(p: Params, s: State, a: Action)
    requires Enabled(p, s, a) && MovesNothing(a)
    ensures SamePlaces(s, Apply(p, s, a))
  {}

  /** What a step adds to the times a task was taken back. */
  function TakenBackBy(p: Params, s: State, a: Action, t: CrawlTask): nat {
    if a.AReceiveBatch? && s.discoveredCh != [] then Back(p, s, t) else 0
  }

  lemma WorkerKeepsFate(p: Params, s: State, a: Action, t: CrawlTask, lost: nat)
    requires Ground(p, s) && Fate(p, s, t, lost) && Enabled(p, s, a) && IsWorkerAction(a)
    ensures Fate(p, Apply(p, s, a), t, lost)
  {
    hide Fate, Ground, CheckCancel, EndFetch, SendRecord, SendBatch;
    match a
    case ATake(w) => TakeKeepsFate(p, s, w, t, lost);
    case ACheckCancel(w) =>
      if s.cancelled { ReturnKeepsFate(p, s, w, t, lost); } else { StartFetchKeepsFate(p, s, w, t, lost); }
    case AEndFetch(w, cut) => EndFetchKeepsFate(p, s, w, cut, t, lost);
    case ASendRecord(w) =>
      UseGround(p, s);
      NotClosedYet(p, s, a);
      SendRecordKeepsFate(p, s, w, t, lost);
    case ASendBatch(w) => SendBatchKeepsFate(p, s, w, t, lost);
    case AExit(w) => ExitKeepsFate(p, s, w, t, lost);
  }

  lemma QueueSteps(p: Params, s: State, a: Action)
    requires Enabled(p, s, a)
    ensures a.AReceiveBatch? ==> InSelect(s) && s.discoveredCh != [] && Apply(p, s, a) == ReceiveBatch(p.cfg, s)
    ensures a.ADispatchNext? ==> s.coord.phase.Dispatch? && Apply(p, s, a) == DispatchNext(p.cfg, s)
    ensures a.ASendOverflow? ==> s.coord.phase.Select? && s.coord.overflow != [] && Apply(p, s, a) == SendOverflow(s)
    ensures a.ADrainBatch? ==> s.coord.phase.Drain? && s.discoveredCh != [] && Apply(p, s, a) == DrainBatch(s)
  {
    hide ReceiveBatch, DispatchNext, SendOverflow, DrainBatch;
  }

  lemma LoopKeepsFate(p: Params, s: State, t: CrawlTask, lost: nat)
    requires Ground(p, s) && Fate(p, s, t, lost) && Enabled(p, s, ACheckLoop)
    ensures Fate(p, Apply(p, s, ACheckLoop), t, lost)
  {
    LoopKeepsPlaces(p, s);
    hide Fate, Ground, CheckLoop, SamePlaces;
    SamePlacesKeepFate(p, s, CheckLoop(p.cfg, s), t, lost);
  }

  lemma AnyReceiveKeepsFate(p: Params, s: State, t: CrawlTask, lost: nat)
    requires InSelect(s) && s.discoveredCh != [] && Ground(p, s) && Fate(p, s, t, lost)
    ensures Fate(p, ReceiveBatch(p.cfg, s), t, lost + Back(p, s, t))
  {
    hide Fate, Ground, Back, ReceiveBatch;
    if s.coord.phase.LimitSelect? { DropKeepsFate(p, s, t, lost); } else { ReceiveKeepsFate(p, s, t, lost); }
  }

  lemma FateKept(p: Params, s: State, a: Action, t: CrawlTask, lost: nat)
    requires Ground(p, s) && Fate(p, s, t, lost) && Enabled(p, s, a)
    ensures Fate(p, Apply(p, s, a), t, lost + TakenBackBy(p, s, a, t))
  {
    hide Fate, Ground, Back, Apply;
    if IsWorkerAction(a) {
      WorkerKeepsFate(p, s, a, t, lost);
    } else if a.AReceiveBatch? {
      QueueSteps(p, s, a);
      hide ReceiveBatch;
      AnyReceiveKeepsFate(p, s, t, lost);
    } else if a.ACheckLoop? {
      LoopKeepsFate(p, s, t, lost);
    } else if MovesNothing(a) {
      OthersKeepPlaces(p, s, a);
      hide SamePlaces;
      SamePlacesKeepFate(p, s, Apply(p, s, a), t, lost);
    } else {
      UseGround(p, s);
      QueueSteps(p, s, a);
      hide Shape, DispatchNext, SendOverflow, DrainBatch, Enabled;
      if a.ADispatchNext? {
        DispatchKeepsFate(p, s, t, lost);
      } else if a.ASendOverflow? {
        SendOverflowKeepsFate(p, s, t, lost);
      } else {
        DrainBatchKeepsFate(p, s, t, lost);
      }
    }
  }

  // ---------- Whole runs ----------

  /**
   How often, over a run, the ordinary loop took in a batch with `t` in it although `t` had been accepted before:
   that batch can only be a worker handing `t` back.
   */
  ghost function TakenBack(p: Params, acts: seq<Action>, t: CrawlTask): nat {
    if acts == [] then 0
    else
      var before := After(p, acts[..|acts| - 1]);
      TakenBack(p, acts[..|acts| - 1], t)
      + (if before.Some? then TakenBackBy(p, before.value, acts[|acts| - 1], t) else 0)
  }

  lemma GroundAlways(p: Params, acts: seq<Action>)
    requires WellFormed(p) && FreshStart(p) && After(p, acts).Some?
    ensures Ground(p, After(p, acts).value)
  {
    SoundAlways(p, acts);
    OriginsAlways(p, acts);
    VisitedWithinBall(p, acts);
    hide Sound, Origins, Accepted, After;
  }

  lemma IdlePool(p: Params, t: CrawlTask)
    ensures var ws := Init(p).workers;
      Total(ws, Holds(t)) == Total(ws, Posts(t)) == Total(ws, LinksTo(p.web, t)) == Total(ws, Brings(p.web, t)) == 0
  {
    var ws := Init(p).workers;
    TotalZero(ws, Holds(t));
    TotalZero(ws, Posts(t));
    TotalZero(ws, LinksTo(p.web, t));
    TotalZero(ws, Brings(p.web, t));
    hide Total;
  }

  lemma NothingSent(p: Params, t: CrawlTask)
    ensures Total(Init(p).discoveredCh, InBatch(t)) == 0 && Total(Init(p).discoveredCh, Has(t)) == 0
  {}

  lemma QueueInTwo(p: Params, t: CrawlTask)
    ensures var s := Init(p);
      && multiset(s.coord.overflow)[t] + multiset(s.taskCh)[t] == multiset(p.queue0)[t]
      && Undispatched(s) == [] && s.hist.fetched == []
  {
    assert p.queue0 == Init(p).taskCh + Init(p).coord.overflow;
  }

  lemma SettledAtStart(p: Params, t: CrawlTask)
    ensures Settled(Init(p), t) == multiset(p.queue0)[t] && Underway(Init(p), t) == 0 && Bearers(p, Init(p), t) == 0
    ensures Total(Init(p).workers, LinksTo(p.web, t)) == 0
  {
    hide Total, Init, Undispatched, Holds, Posts, LinksTo, Brings;
    IdlePool(p, t);
    NothingSent(p, t);
    QueueInTwo(p, t);
  }

  lemma FateInit(p: Params, t: CrawlTask)
    requires WellFormed(p) && FreshStart(p)
    ensures Fate(p, Init(p), t, 0)
  {
    SettledAtStart(p, t);
    assert Accepted(p, Init(p)) == p.queue0;
    CountedOnce(p.queue0, t);
    CountOfMember(p.queue0, t);
    hide Init, Settled, Underway, Bearers, Accepted, Total, FreshStart;
  }

  lemma {:induction false} FateAlways(p: Params, acts: seq<Action>, t: CrawlTask)
    requires WellFormed(p) && FreshStart(p) && After(p, acts).Some?
    ensures Fate(p, After(p, acts).value, t, TakenBack(p, acts, t))
    decreases |acts|
  {
    hide Fate, Ground, Enabled, Apply, Init, TakenBackBy;
    if acts == [] {
      FateInit(p, t);
    } else {
      var n := |acts| - 1;
      FateAlways(p, acts[..n], t);
      GroundAlways(p, acts[..n]);
      FateKept(p, After(p, acts[..n]).value, acts[n], t, TakenBack(p, acts[..n], t));
    }
  }

  /** Once the coordinator is done, the saved queue is what it still had. */
  ghost predicate Saved(p: Params, s: State) {
    if p.cfg.hasDb then Returned(s) ==> s.coord.savedQueue == Some(s.coord.overflow) else s.coord.savedQueue == None
  }

  lemma LoopSaves(p: Params, s: State)
    ensures Returned(CheckLoop(p.cfg, s)) && p.cfg.hasDb && s.coord.phase.Head? ==>
      CheckLoop(p.cfg, s).coord.savedQueue == Some(CheckLoop(p.cfg, s).coord.overflow)
  {
    hide Flush;
  }

  lemma RunningSavesNothing(p: Params, s: State, a: Action)
    requires Enabled(p, s, a) && !IsWorkerAction(a) && !IsIndexerAction(a) && !a.ACheckLoop? && !a.AFinishDrain?
    ensures Returned(Apply(p, s, a)) ==> Returned(s) && Apply(p, s, a).coord.(phase := s.coord.phase) == s.coord
  {
    hide Flush, Dedup, SetAside;
    if a.ACloseResults? || a.AFinishRun? {
    } else {
      RunningStaysInside(p, s, a);
    }
  }

  lemma RunningStaysInside(p: Params, s: State, a: Action)
    requires Enabled(p, s, a) && !IsWorkerAction(a) && !IsIndexerAction(a) && !a.ACheckLoop? && !a.AFinishDrain?
    requires !a.ACloseResults? && !a.AFinishRun?
    ensures a.ACancel? || !Returned(Apply(p, s, a))
    ensures a.ACancel? ==> Apply(p, s, a).coord == s.coord
  {
    hide Flush, Dedup, SetAside, UrlSeq;
  }

  lemma SavedKept(p: Params, s: State, a: Action)
    requires Saved(p, s) && Enabled(p, s, a)
    ensures Saved(p, Apply(p, s, a))
  {
    if IsWorkerAction(a) {
      WorkerTouchesOnlyFlow(p, s, a);
      hide Apply;
    } else if IsIndexerAction(a) {
      IndexerTouchesOnlyResults(p, s, a);
      hide Apply;
    } else if a.ACheckLoop? {
      LoopSaves(p, s);
      hide CheckLoop;
    } else if !a.AFinishDrain? {
      RunningSavesNothing(p, s, a);
      hide Apply, Enabled;
    }
  }

  lemma SavedAlways(p: Params, acts: seq<Action>)
    requires WellFormed(p) && After(p, acts).Some?
    ensures Saved(p, After(p, acts).value)
  {
    hide Saved, Enabled, Apply;
    var inv := (s: State) => Saved(p, s);
    forall s, a | inv(s) && Stepper(p)(s, a).Some? ensures inv(Stepper(p)(s, a).value) {
      SavedKept(p, s, a);
    }
    assert Saved(p, Init(p)) by { SavedInit(p); }
    Invariance(Stepper(p), inv, Init(p), acts);
  }

  lemma SavedInit(p: Params)
    ensures Saved(p, Init(p))
  {}

  lemma SettledAtEnd(s: State, t: CrawlTask)
    requires Returned(s) && s.taskCh == [] && s.discoveredCh == [] && forall w :: w in s.workers ==> w.Idle? || w.Exited?
    ensures Settled(s, t) + Underway(s, t) == multiset(s.coord.overflow)[t] + multiset(s.hist.fetched)[t]
  {
    TotalZero(s.workers, Holds(t));
    TotalZero(s.workers, Posts(t));
  }

  /**
   The fate of every task a fresh crawl accepts, cancelled at any moment or not at all: exactly one of fetched to the
   end, fetched and cut short, in the queue saved for the next run, and taken back by the ordinary loop.
   */
  lemma {:induction false} EveryTaskHasOneFate(p: Params, acts: seq<Action>, t: CrawlTask)
    requires WellFormed(p) && FreshStart(p) && p.cfg.hasDb && After(p, acts).Some? && Returned(After(p, acts).value)
    requires t in Accepted(p, After(p, acts).value)
    ensures var s := After(p, acts).value;
      && s.coord.savedQueue.Some?
      && multiset(s.hist.completed)[t] + multiset(s.hist.aborted)[t] + multiset(s.coord.savedQueue.value)[t] + TakenBack(p, acts, t) == 1
  {
    FateAlways(p, acts, t);
    QuietAfterReturn(p, acts);
    SavedAlways(p, acts);
    EveryFetchEnded(p, acts, t);
    hide After, TakenBack, Accepted;
    SettledAtEnd(After(p, acts).value, t);
    hide Total, Settled, Underway, Bearers;
  }

  /** Neither a fetch cut short nor a return taken in: nothing happened to the task that would lose it. */
  ghost predicate Spared(p: Params, acts: seq<Action>, t: CrawlTask)
    requires After(p, acts).Some?
  {
    TakenBack(p, acts, t) == 0 && t !in After(p, acts).value.hist.aborted
  }

  lemma {:induction false} KeptIffSpared(p: Params, acts: seq<Action>, t: CrawlTask)
    requires WellFormed(p) && FreshStart(p) && p.cfg.hasDb && After(p, acts).Some? && Returned(After(p, acts).value)
    ensures var s := After(p, acts).value;
      && s.coord.savedQueue.Some?
      && ((t in Accepted(p, s) ==> t in s.hist.completed || t in s.coord.savedQueue.value) <==> Spared(p, acts, t))
  {
    var s := After(p, acts).value;
    SavedAlways(p, acts);
    FateAlways(p, acts, t);
    CountOfMember(s.hist.aborted, t);
    if t in Accepted(p, s) {
      EveryTaskHasOneFate(p, acts, t);
      CountOfMember(s.hist.completed, t);
      CountOfMember(s.coord.savedQueue.value, t);
    } else {
      EveryFetchEnded(p, acts, t);
      GroundAlways(p, acts);
      UnacceptedIsUnfetched(p, s, t);
    }
    hide After, TakenBack, Accepted, Total, Settled, Underway, Bearers;
  }

  lemma UnacceptedIsUnfetched(p: Params, s: State, t: CrawlTask)
    requires Ground(p, s) && t !in Accepted(p, s)
    ensures multiset(s.hist.fetched)[t] == 0
  {
    AcceptedOnce(p, s, t);
    hide Total, Ground, Accepted;
  }

  /** Everything accepted has been fetched to the end or is saved for the next run. */
  ghost predicate NothingLost(p: Params, s: State) {
    s.coord.savedQueue.Some? && forall t :: t in Accepted(p, s) ==> t in s.hist.completed || t in s.coord.savedQueue.value
  }

  ghost predicate NoneTakenBack(p: Params, acts: seq<Action>) { forall t :: TakenBack(p, acts, t) == 0 }

  /**
   A run loses nothing exactly when no fetch was cut short and the ordinary loop never took back a task a worker had
   returned.
   */
  lemma {:induction false} NothingLostIff(p: Params, acts: seq<Action>)
    requires WellFormed(p) && FreshStart(p) && p.cfg.hasDb && After(p, acts).Some? && Returned(After(p, acts).value)
    ensures var s := After(p, acts).value;
      NothingLost(p, s) <==> NoneTakenBack(p, acts) && s.hist.aborted == []
  {
    var s := After(p, acts).value;
    hide WellFormed, FreshStart, After, Returned, Accepted, TakenBack;
    if NoneTakenBack(p, acts) && s.hist.aborted == [] {
      KeptIffSpared(p, acts, CrawlTask("", "", 0));
      forall t | t in Accepted(p, s) ensures t in s.hist.completed || t in s.coord.savedQueue.value {
        KeptIffSpared(p, acts, t);
      }
    }
    if NothingLost(p, s) {
      forall t ensures TakenBack(p, acts, t) == 0 && multiset(s.hist.aborted)[t] == 0 {
        KeptIffSpared(p, acts, t);
        CountOfMember(s.hist.aborted, t);
      }
      NoneCounted(s.hist.aborted);
    }
  }

  lemma NoneCounted(ts: seq<CrawlTask>)
    requires forall t :: multiset(ts)[t] == 0
    ensures ts == []
  {
    assert multiset(ts) == multiset{};
    assert |multiset(ts)| == |ts|;
  }

  /** A run nobody cancels loses nothing. */
  lemma {:induction false} UncancelledLosesNothing(p: Params, acts: seq<Action>)
    requires WellFormed(p) && FreshStart(p) && p.cfg.hasDb && RanToEnd(p, acts)
    ensures NothingLost(p, After(p, acts).value)
  {
    var s := After(p, acts).value;
    EverythingCompleted(p, acts);
    SavedAlways(p, acts);
    hide After;
    forall t | t in Accepted(p, s) ensures t in s.hist.completed { assert t in multiset(s.hist.completed); }
  }
}
