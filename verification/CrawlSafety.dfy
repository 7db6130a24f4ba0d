/**
 What every step of the protocol keeps, under any schedule, cancelled or not: the exact meaning of
 the in-flight counter, the discipline of the channels, and the whereabouts of every task and record.
 */
module CrawlSafety {
  import opened Options
  import opened CrawlTypes
  import opened CrawlSystem
  import opened Runs
  import opened Tally

  // ---------- What one worker holds ----------

  /** A worker is busy from taking a task until its batch is sent. */
  function BusyOf(w: Worker): nat { if w.Idle? || w.Exited? then 0 else 1 }

  /** Whether a worker holds exactly this task, not yet fetched. */
  function Holds(t: CrawlTask): Worker -> nat {
    w => if w == Holding(t) then 1 else 0
  }

  /** Whether a worker has started fetching this task and not yet sent the record. */
  function IsFetching(t: CrawlTask): Worker -> nat {
    w => if w == Fetching(t) || (w.Reporting? && TaskOf(w.record) == t) then 1 else 0
  }

  function Answers(t: CrawlTask): PageRecord -> nat {
    r => if TaskOf(r) == t then 1 else 0
  }

  // ---------- Control ----------

  predicate Returned(s: State) { s.coord.phase.JoinWorkers? || s.coord.phase.JoinIndexer? || s.coord.phase.Finished? }

  /** The in-flight counter is exact, buffers respect their capacity, and channels close in order. */
  ghost predicate Shape(p: Params, s: State) {
    && !s.panicked
    && |s.workers| == p.cfg.numWorkers
    && |s.taskCh| <= p.cfg.queueSize
    && |s.discoveredCh| <= 2 * p.cfg.numWorkers && |s.resultsCh| <= 2 * p.cfg.numWorkers
    && s.coord.inFlight == |s.taskCh| + Total(s.workers, BusyOf) + |s.discoveredCh|
    && (s.taskClosed <==> s.coord.phase.Drain? || Returned(s))
    && (s.resultsClosed <==> s.coord.phase.JoinIndexer? || s.coord.phase.Finished?)
    && (forall i :: 0 <= i < |s.workers| && s.workers[i].Exited? ==> s.taskClosed && s.taskCh == [])
    && (Returned(s) ==> s.coord.inFlight == 0)
    && (s.resultsClosed ==> forall i :: 0 <= i < |s.workers| ==> s.workers[i].Exited?)
    && (s.indexer.pc.Stopped? ==> s.resultsClosed && s.resultsCh == [])
    && (s.coord.phase.Finished? ==> s.indexer.pc.Stopped?)
    && (s.coord.phase.Drain? ==> s.cancelled)
    && (Returned(s) && !s.cancelled ==> s.coord.overflow == [])
    && (s.coord.phase.Select? ==> s.coord.inFlight > 0 || s.coord.overflow != [])
    && (s.coord.phase.LimitSelect? ==> s.coord.inFlight > 0 && s.coord.overflow == [] && UrlLimitReached(p.cfg, s))
  }

  lemma {:induction false} AllIdle(n: nat)
    ensures Total(seq(n, _ => Idle), BusyOf) == 0
  {
    TotalZero(seq(n, _ => Idle), BusyOf);
  }

  lemma InitShape(p: Params)
    requires WellFormed(p)
    ensures Shape(p, Init(p))
  {
    AllIdle(p.cfg.numWorkers);
  }

  /** A worker touches nothing of the coordinator's or the indexer's. */
  lemma WorkerTouchesOnlyFlow(p: Params, s: State, a: Action)
    requires Enabled(p, s, a) && IsWorkerAction(a)
    ensures var s' := Apply(p, s, a);
      && s'.coord == s.coord && s'.indexer == s.indexer && s'.cancelled == s.cancelled && s'.stopReason == s.stopReason
      && s'.hist.found == s.hist.found && s'.hist.done == s.hist.done
  {
    hide RecordOf, FailedRecord, BatchOf, SetAside;
    match a
    case ATake(w) =>
    case ACheckCancel(w) =>
    case AEndFetch(w, cut) =>
    case ASendRecord(w) =>
    case ASendBatch(w) =>
    case AExit(w) =>
  }

  /** The indexer touches nothing but the results and its own variables. */
  lemma IndexerTouchesOnlyResults(p: Params, s: State, a: Action)
    requires Enabled(p, s, a) && IsIndexerAction(a)
    ensures var s' := Apply(p, s, a);
      && s'.coord == s.coord && s'.workers == s.workers && s'.taskCh == s.taskCh && s'.discoveredCh == s.discoveredCh
      && s'.cancelled == s.cancelled && s'.hist.(done := s.hist.done) == s.hist
  {
    match a
    case AReceiveRecord =>
    case AAddRecord =>
    case AFlushTick =>
    case AStopIndexer =>
  }

  /** The three ways out of the loop test: leave, wait in an ordinary select, wait in the URL-limit select. */
  lemma LoopCases(cfg: Config, s: State)
    ensures var s' := CheckLoop(cfg, s);
      || s' == LeaveLoop(cfg, s)
      || s' == s.(coord := s.coord.(phase := Select))
      || s' == s.(coord := s.coord.(overflow := [], phase := LimitSelect), hist := SetAside(s.hist, multiset(s.coord.overflow)))
  {
    hide LeaveLoop, SetAside, UrlLimitReached;
  }

  lemma CoordinatorNeverCancels(p: Params, s: State, a: Action)
    requires Enabled(p, s, a) && !IsWorkerAction(a) && !IsIndexerAction(a) && !a.ACancel?
    ensures Apply(p, s, a).cancelled == s.cancelled
  {
    LoopNeverCancels(p.cfg, s);
    hide CheckLoop, Flush, Accept, Dedup, SetAside, UrlLimitReached;
  }

  lemma LoopNeverCancels(cfg: Config, s: State)
    ensures CheckLoop(cfg, s).cancelled == s.cancelled
  {
    LoopCases(cfg, s);
    hide CheckLoop, Flush, SetAside;
  }

  /** Only the user cancels, and nobody takes it back. */
  lemma OnlyCancelCancels(p: Params, s: State, a: Action)
    requires Enabled(p, s, a)
    ensures Apply(p, s, a).cancelled <==> s.cancelled || a == ACancel
  {
    if a.ACancel? {
    } else if IsWorkerAction(a) {
      WorkerTouchesOnlyFlow(p, s, a);
      hide Apply;
    } else if IsIndexerAction(a) {
      IndexerTouchesOnlyResults(p, s, a);
      hide Apply;
    } else {
      CoordinatorNeverCancels(p, s, a);
      hide Apply;
    }
  }

  /** What a worker's step does to the numbers: the task or batch it moves stays counted, and channels stay within capacity. */
  lemma WorkerMoves(p: Params, s: State, a: Action)
    requires Enabled(p, s, a) && IsWorkerAction(a) && !s.resultsClosed
    ensures var s' := Apply(p, s, a);
      && a.w < |s.workers| && |s'.workers| == |s.workers| && s'.workers == s.workers[a.w := s'.workers[a.w]]
      && |s'.taskCh| + BusyOf(s'.workers[a.w]) + |s'.discoveredCh| == |s.taskCh| + BusyOf(s.workers[a.w]) + |s.discoveredCh|
      && (s'.taskCh == s.taskCh || (s.taskCh != [] && s'.taskCh == s.taskCh[1..]))
      && (|s'.discoveredCh| <= |s.discoveredCh| || |s'.discoveredCh| <= 2 * p.cfg.numWorkers)
      && (|s'.resultsCh| <= |s.resultsCh| || |s'.resultsCh| <= 2 * p.cfg.numWorkers)
      && s'.taskClosed == s.taskClosed && s'.resultsClosed == s.resultsClosed && s'.panicked == s.panicked
      && (s'.workers[a.w].Exited? ==> s.taskClosed && s.taskCh == [] && s'.taskCh == [])
  {
    hide RecordOf, FailedRecord, BatchOf, SetAside;
    match a
    case ATake(w) =>
    case ACheckCancel(w) =>
    case AEndFetch(w, cut) =>
    case ASendRecord(w) =>
    case ASendBatch(w) =>
    case AExit(w) =>
  }

  lemma WorkerKeepsShape(p: Params, s: State, a: Action)
    requires WellFormed(p) && Shape(p, s) && Enabled(p, s, a) && IsWorkerAction(a)
    ensures Shape(p, Apply(p, s, a))
  {
    NotClosedYet(p, s, a);
    var s' := Apply(p, s, a);
    WorkerMoves(p, s, a);
    WorkerTouchesOnlyFlow(p, s, a);
    TotalUpdate(s.workers, a.w, s'.workers[a.w], BusyOf);
    hide Apply, Enabled, Total, BusyOf;
  }

  lemma NotClosedYet(p: Params, s: State, a: Action)
    requires Shape(p, s) && Enabled(p, s, a) && IsWorkerAction(a)
    ensures !s.resultsClosed
  {
    hide Total;
  }

  lemma IndexerKeepsShape(p: Params, s: State, a: Action)
    requires WellFormed(p) && Shape(p, s) && Enabled(p, s, a) && IsIndexerAction(a)
    ensures Shape(p, Apply(p, s, a))
  {}

  lemma LoopKeepsShape(p: Params, s: State)
    requires WellFormed(p) && Shape(p, s) && s.coord.phase.Head?
    ensures Shape(p, CheckLoop(p.cfg, s))
  {}

  lemma TasksKeepShape(p: Params, s: State, a: Action)
    requires WellFormed(p) && Shape(p, s) && Enabled(p, s, a) && (a.ASendOverflow? || a.AReceiveBatch? || a.ADispatchNext?)
    ensures Shape(p, Apply(p, s, a))
  {
    hide Dedup, UrlSeq, Total;
  }

  lemma ShapeKept(p: Params, s: State, a: Action)
    requires WellFormed(p) && Shape(p, s) && Enabled(p, s, a)
    ensures Shape(p, Apply(p, s, a))
  {
    if IsWorkerAction(a) {
      WorkerKeepsShape(p, s, a);
    } else if IsIndexerAction(a) {
      IndexerKeepsShape(p, s, a);
    } else if a.ACheckLoop? {
      LoopKeepsShape(p, s);
    } else if a.ASendOverflow? || a.AReceiveBatch? || a.ADispatchNext? {
      TasksKeepShape(p, s, a);
    } else {
      EndingKeepsShape(p, s, a);
    }
  }

  lemma EndingKeepsShape(p: Params, s: State, a: Action)
    requires WellFormed(p) && Shape(p, s) && Enabled(p, s, a) && !IsWorkerAction(a) && !IsIndexerAction(a)
    requires !a.ACheckLoop? && !a.ASendOverflow? && !a.AReceiveBatch? && !a.ADispatchNext?
    ensures Shape(p, Apply(p, s, a))
  {}

  /** Nothing but a late cancellation can happen to a finished run, and that changes nothing. */
  lemma FinishedStands(p: Params, s: State, a: Action)
    requires Shape(p, s) && s.coord.phase.Finished? && Enabled(p, s, a)
    ensures a == ACancel && Apply(p, s, a) == s.(cancelled := true)
  {
    hide Total;
  }

  // ---------- Whereabouts of tasks ----------

  /** How often the coordinator itself still has `t` to hand out. */
  ghost function Queued(s: State, t: CrawlTask): nat {
    if s.coord.phase.Dispatch? then multiset(s.coord.overflow)[t] + multiset(s.coord.phase.rest)[t]
    else if s.coord.phase.Drain? || Returned(s) then 0
    else multiset(s.coord.overflow)[t]
  }

  /** Every accepted task is in exactly one place: queued, waiting, in a worker's hands, fetched or set aside. */
  ghost predicate TaskBooks(p: Params, s: State, t: CrawlTask) {
    Queued(s, t) + multiset(s.taskCh)[t] + Total(s.workers, Holds(t)) + multiset(s.hist.fetched)[t] + s.hist.setAside[t]
    == multiset(p.queue0)[t] + multiset(s.hist.found)[t]
  }

  lemma InitTaskBooks(p: Params, t: CrawlTask)
    ensures TaskBooks(p, Init(p), t)
  {
    var s := Init(p);
    assert p.queue0 == s.taskCh + s.coord.overflow;
    TotalZero(s.workers, Holds(t));
  }

  lemma LoopKeepsTaskBooks(p: Params, s: State, t: CrawlTask)
    requires TaskBooks(p, s, t) && s.coord.phase.Head?
    ensures TaskBooks(p, CheckLoop(p.cfg, s), t)
  {
    LoopSetsAside(p.cfg, s);
    LoopKeepsPipeline(p.cfg, s);
    AsideCount(s.hist.setAside, s.coord.overflow, t);
    hide Total, CheckLoop;
  }

  lemma AsideCount(aside: multiset<CrawlTask>, ts: seq<CrawlTask>, t: CrawlTask)
    ensures (aside + multiset(ts))[t] == aside[t] + multiset(ts)[t] && (ts == [] ==> multiset(ts)[t] == 0)
  {}

  /** Leaving the queue alone, or setting all of it aside. */
  lemma LoopSetsAside(cfg: Config, s: State)
    ensures var s' := CheckLoop(cfg, s);
      && s'.taskCh == s.taskCh && s'.hist.found == s.hist.found
      && (if s'.coord.phase.Select? then s'.coord.overflow == s.coord.overflow && s'.hist.setAside == s.hist.setAside
          else s'.coord.overflow == [] && s'.hist.setAside == s.hist.setAside + multiset(s.coord.overflow)
               && (s'.coord.phase.LimitSelect? || s'.coord.phase.JoinWorkers?))
  {
    LoopCases(cfg, s);
    hide CheckLoop, Flush;
  }

  lemma ReceiveKeepsTaskBooks(p: Params, s: State, t: CrawlTask)
    requires Shape(p, s) && TaskBooks(p, s, t) && InSelect(s) && s.discoveredCh != []
    ensures TaskBooks(p, ReceiveBatch(p.cfg, s), t)
  {
    hide Total, Dedup;
  }

  function Undispatched(s: State): seq<CrawlTask> {
    if s.coord.phase.Dispatch? then s.coord.phase.rest else []
  }

  lemma QueuedIs(s: State, t: CrawlTask)
    requires s.coord.phase.Dispatch? || s.coord.phase.Head?
    ensures Queued(s, t) == multiset(s.coord.overflow)[t] + multiset(Undispatched(s))[t]
  {}

  /** Dispatching moves the first accepted task to one end of one queue, and nothing else. */
  lemma DispatchMoves(cfg: Config, s: State, t: CrawlTask)
    requires !s.taskClosed && s.coord.phase.Dispatch?
    ensures var s' := DispatchNext(cfg, s);
      && Queued(s', t) + multiset(s'.taskCh)[t] == Queued(s, t) + multiset(s.taskCh)[t]
      && s'.workers == s.workers && s'.discoveredCh == s.discoveredCh && s'.hist == s.hist
      && (s'.coord.phase.Dispatch? || s'.coord.phase.Head?)
  {
    var rest, s' := s.coord.phase.rest, DispatchNext(cfg, s);
    QueuedIs(s, t);
    QueuedIs(s', t);
    hide Queued, Returned;
    if rest == [] {
    } else if |s.taskCh| >= cfg.queueSize {
      HeadCount(rest, t);
      LastCount(s.coord.overflow, rest[0], t);
    } else {
      HeadCount(rest, t);
      LastCount(s.taskCh, rest[0], t);
    }
  }

  lemma DispatchKeepsTaskBooks(p: Params, s: State, t: CrawlTask)
    requires Shape(p, s) && TaskBooks(p, s, t) && s.coord.phase.Dispatch?
    ensures TaskBooks(p, DispatchNext(p.cfg, s), t)
  {
    DispatchMoves(p.cfg, s, t);
    hide Total, Shape, DispatchNext, Queued;
  }

  lemma SendKeepsTaskBooks(p: Params, s: State, t: CrawlTask)
    requires Shape(p, s) && TaskBooks(p, s, t) && s.coord.phase.Select? && s.coord.overflow != []
    ensures TaskBooks(p, SendOverflow(s), t)
  {
    hide Total;
    HeadCount(s.coord.overflow, t);
  }

  predicate MovesTasks(a: Action) {
    IsWorkerAction(a) || a.ACheckLoop? || a.AReceiveBatch? || a.ADispatchNext? || a.ASendOverflow?
  }

  lemma OthersKeepTaskBooks(p: Params, s: State, a: Action, t: CrawlTask)
    requires TaskBooks(p, s, t) && Enabled(p, s, a) && !MovesTasks(a)
    ensures TaskBooks(p, Apply(p, s, a), t)
  {
    hide Total;
  }

  lemma TaskBooksKept(p: Params, s: State, a: Action, t: CrawlTask)
    requires Shape(p, s) && TaskBooks(p, s, t) && Enabled(p, s, a) && !IsWorkerAction(a)
    ensures TaskBooks(p, Apply(p, s, a), t)
  {
    hide Total, TaskBooks, Shape, CheckLoop, ReceiveBatch, DispatchNext, SendOverflow;
    if a.ACheckLoop? {
      LoopKeepsTaskBooks(p, s, t);
    } else if a.AReceiveBatch? {
      ReceiveKeepsTaskBooks(p, s, t);
    } else if a.ADispatchNext? {
      DispatchKeepsTaskBooks(p, s, t);
    } else if a.ASendOverflow? {
      SendKeepsTaskBooks(p, s, t);
    } else {
      OthersKeepTaskBooks(p, s, a, t);
    }
  }

  // ---------- Whereabouts of records ----------

  ghost function InIndexer(s: State, t: CrawlTask): nat {
    if s.indexer.pc.Adding? && TaskOf(s.indexer.pc.record) == t then 1 else 0
  }

  /** Every fetch started yields one record, which is in exactly one place. */
  ghost predicate RecordBooks(s: State, t: CrawlTask) {
    Total(s.workers, IsFetching(t)) + Total(s.resultsCh, Answers(t)) + InIndexer(s, t) + Total(s.hist.done, Answers(t))
    == multiset(s.hist.fetched)[t]
  }

  lemma InitRecordBooks(p: Params, t: CrawlTask)
    ensures RecordBooks(Init(p), t)
  {
    TotalZero(Init(p).workers, IsFetching(t));
  }

  lemma IndexerKeepsRecordBooks(p: Params, s: State, a: Action, t: CrawlTask)
    requires RecordBooks(s, t) && Enabled(p, s, a) && IsIndexerAction(a)
    ensures RecordBooks(Apply(p, s, a), t)
  {
    hide Total;
    match a
    case AReceiveRecord => TotalHead(s.resultsCh, Answers(t));
    case AAddRecord => TotalAppend(s.hist.done, s.indexer.pc.record, Answers(t));
    case AFlushTick =>
    case AStopIndexer =>
  }

  lemma RecordBooksKept(p: Params, s: State, a: Action, t: CrawlTask)
    requires RecordBooks(s, t) && Enabled(p, s, a) && !IsWorkerAction(a)
    ensures RecordBooks(Apply(p, s, a), t)
  {
    if IsIndexerAction(a) {
      hide *;
      IndexerKeepsRecordBooks(p, s, a, t);
    } else {
      OthersKeepPipeline(p, s, a);
      hide Apply, Enabled, Total;
    }
  }

  ghost predicate SamePipeline(s: State, s': State) {
    && s'.workers == s.workers && s'.resultsCh == s.resultsCh && s'.indexer == s.indexer
    && s'.hist.done == s.hist.done && s'.hist.fetched == s.hist.fetched && s'.hist.aborted == s.hist.aborted
  }

  lemma LoopKeepsPipeline(cfg: Config, s: State)
    ensures SamePipeline(s, CheckLoop(cfg, s))
  {
    LoopCases(cfg, s);
    hide CheckLoop, Flush;
  }

  lemma TasksKeepPipeline(cfg: Config, s: State)
    ensures s.discoveredCh != [] ==> SamePipeline(s, ReceiveBatch(cfg, s))
    ensures s.coord.phase.Dispatch? ==> SamePipeline(s, DispatchNext(cfg, s))
  {
    hide Accept, Dedup;
  }

  /** The coordinator touches neither the workers nor the results pipeline. */
  lemma OthersKeepPipeline(p: Params, s: State, a: Action)
    requires Enabled(p, s, a) && !IsWorkerAction(a) && !IsIndexerAction(a)
    ensures SamePipeline(s, Apply(p, s, a))
  {
    hide CheckLoop, ReceiveBatch, DispatchNext;
    LoopKeepsPipeline(p.cfg, s);
    TasksKeepPipeline(p.cfg, s);
  }

  // ---------- A worker's step keeps both books ----------

  ghost predicate Books(p: Params, s: State, t: CrawlTask) {
    TaskBooks(p, s, t) && RecordBooks(s, t)
  }

  lemma TakeKeepsBooks(p: Params, s: State, w: nat, t: CrawlTask)
    requires Books(p, s, t) && Enabled(p, s, ATake(w))
    ensures Books(p, Apply(p, s, ATake(w)), t)
  {
    hide Total;
    TotalUpdate(s.workers, w, Holding(s.taskCh[0]), Holds(t));
    TotalUpdate(s.workers, w, Holding(s.taskCh[0]), IsFetching(t));
    HeadCount(s.taskCh, t);
  }

  lemma ReturnKeepsBooks(p: Params, s: State, w: nat, t: CrawlTask)
    requires Books(p, s, t) && w < |s.workers| && s.workers[w].Holding? && s.cancelled
    ensures Books(p, CheckCancel(s, w), t)
  {
    var task := s.workers[w].task;
    TotalUpdate(s.workers, w, Posting([task]), Holds(t));
    TotalUpdate(s.workers, w, Posting([task]), IsFetching(t));
    AddedCount(s.hist.setAside, task, t);
    hide Total, SetAside;
  }

  lemma StartKeepsBooks(p: Params, s: State, w: nat, t: CrawlTask)
    requires Books(p, s, t) && w < |s.workers| && s.workers[w].Holding? && !s.cancelled
    ensures Books(p, CheckCancel(s, w), t)
  {
    var task := s.workers[w].task;
    TotalUpdate(s.workers, w, Fetching(task), Holds(t));
    TotalUpdate(s.workers, w, Fetching(task), IsFetching(t));
    LastCount(s.hist.fetched, task, t);
    hide Total, SetAside;
  }

  /** Swapping a worker for one that holds and fetches the same, with everything else that is counted unchanged. */
  lemma SwapKeepsBooks(p: Params, s: State, s': State, w: nat, x: Worker, t: CrawlTask)
    requires Books(p, s, t) && w < |s.workers| && s'.workers == s.workers[w := x]
    requires Holds(t)(x) == Holds(t)(s.workers[w]) && IsFetching(t)(x) == IsFetching(t)(s.workers[w])
    requires s'.coord == s.coord && s'.taskCh == s.taskCh && s'.resultsCh == s.resultsCh && s'.indexer == s.indexer
    requires s'.hist.(aborted := s.hist.aborted, completed := s.hist.completed) == s.hist
    ensures Books(p, s', t)
  {
    TotalUpdate(s.workers, w, x, Holds(t));
    TotalUpdate(s.workers, w, x, IsFetching(t));
    hide Total, Holds, IsFetching;
  }

  lemma EndFetchKeepsBooks(p: Params, s: State, w: nat, cut: bool, t: CrawlTask)
    requires Books(p, s, t) && w < |s.workers| && s.workers[w].Fetching?
    ensures Books(p, EndFetch(p, s, w, cut), t)
  {
    hide Books;
    var s' := EndFetch(p, s, w, cut);
    SwapKeepsBooks(p, s, s', w, s'.workers[w], t);
  }

  lemma SendRecordKeepsBooks(p: Params, s: State, w: nat, t: CrawlTask)
    requires Books(p, s, t) && w < |s.workers| && s.workers[w].Reporting?
    ensures Books(p, SendRecord(s, w), t)
  {
    hide Total, BatchOf;
    var r := s.workers[w].record;
    TotalUpdate(s.workers, w, Posting(BatchOf(r)), Holds(t));
    TotalUpdate(s.workers, w, Posting(BatchOf(r)), IsFetching(t));
    TotalAppend(s.resultsCh, r, Answers(t));
  }

  lemma FreeKeepsBooks(p: Params, s: State, w: nat, x: Worker, s': State, t: CrawlTask)
    requires Books(p, s, t) && w < |s.workers| && (s.workers[w].Posting? || s.workers[w].Idle?) && (x.Idle? || x.Exited?)
    requires s' == s.(workers := s.workers[w := x], discoveredCh := s'.discoveredCh)
    ensures Books(p, s', t)
  {
    hide Books;
    SwapKeepsBooks(p, s, s', w, x, t);
  }

  lemma WorkerKeepsBooks(p: Params, s: State, a: Action, t: CrawlTask)
    requires Books(p, s, t) && Enabled(p, s, a) && IsWorkerAction(a)
    ensures Books(p, Apply(p, s, a), t)
  {
    hide Books, CheckCancel, EndFetch, SendRecord;
    match a
    case ATake(w) => TakeKeepsBooks(p, s, w, t);
    case ACheckCancel(w) => if s.cancelled { ReturnKeepsBooks(p, s, w, t); } else { StartKeepsBooks(p, s, w, t); }
    case AEndFetch(w, cut) => EndFetchKeepsBooks(p, s, w, cut, t);
    case ASendRecord(w) => SendRecordKeepsBooks(p, s, w, t);
    case ASendBatch(w) => FreeKeepsBooks(p, s, w, Idle, SendBatch(s, w), t);
    case AExit(w) => FreeKeepsBooks(p, s, w, Exited, Apply(p, s, a), t);
  }

  lemma BooksKept(p: Params, s: State, a: Action, t: CrawlTask)
    requires Shape(p, s) && Books(p, s, t) && Enabled(p, s, a)
    ensures Books(p, Apply(p, s, a), t)
  {
    hide Shape, TaskBooks, RecordBooks, Apply, Enabled;
    if IsWorkerAction(a) {
      WorkerKeepsBooks(p, s, a, t);
    } else {
      TaskBooksKept(p, s, a, t);
      RecordBooksKept(p, s, a, t);
    }
  }
}
