/**
 The three channels: first in, first out, of the stated capacities, and nothing ever waits but on a full or an empty one.
 */
module CrawlChannels {
  import opened Options
  import opened CrawlTypes
  import opened CrawlSystem
  import opened CrawlSafety
  import opened CrawlLedger
  import opened CrawlOnce
  import opened CrawlTermination
  import opened CrawlShutdown
  import opened Runs
  import opened Tally

  /** What the steps of a schedule yield, one after the other. */
  ghost function Along<T>(p: Params, acts: seq<Action>, f: (State, Action) -> seq<T>): seq<T> {
    if acts == [] then []
    else
      var before := After(p, acts[..|acts| - 1]);
      Along(p, acts[..|acts| - 1], f) + (if before.Some? then f(before.value, acts[|acts| - 1]) else [])
  }

  // ---------- What is sent and what arrives ----------

  /** The task the coordinator sends: the first that waits, or the next of those just accepted if there is room. */
  ghost function TaskSent(p: Params): (State, Action) -> seq<CrawlTask> {
    (s: State, a: Action) =>
      if a.ASendOverflow? && s.coord.overflow != [] then [s.coord.overflow[0]]
      else if a.ADispatchNext? && Undispatched(s) != [] && |s.taskCh| < p.cfg.queueSize then [Undispatched(s)[0]]
      else []
  }

  /** The task a worker holds after taking one. */
  ghost function TaskTaken(p: Params): (State, Action) -> seq<CrawlTask> {
    (s: State, a: Action) => if a.ATake? && Enabled(p, s, a) then HeldBy(Apply(p, s, a), a.w) else []
  }

  function HeldBy(s: State, w: nat): seq<CrawlTask> {
    if w < |s.workers| && s.workers[w].Holding? then [s.workers[w].task] else []
  }

  ghost function BatchSent(): (State, Action) -> seq<seq<CrawlTask>> {
    (s: State, a: Action) => if a.ASendBatch? && a.w < |s.workers| && s.workers[a.w].Posting? then [s.workers[a.w].batch] else []
  }

  ghost function BatchReceived(): (State, Action) -> seq<seq<CrawlTask>> {
    (s: State, a: Action) => if (a.AReceiveBatch? || a.ADrainBatch?) && s.discoveredCh != [] then [s.discoveredCh[0]] else []
  }

  ghost function RecordSent(): (State, Action) -> seq<PageRecord> {
    (s: State, a: Action) => if a.ASendRecord? && a.w < |s.workers| && s.workers[a.w].Reporting? then [s.workers[a.w].record] else []
  }

  /** The record the indexer works on after receiving one. */
  ghost function RecordReceived(p: Params): (State, Action) -> seq<PageRecord> {
    (s: State, a: Action) => if a.AReceiveRecord? && Enabled(p, s, a) then InWork(Apply(p, s, a)) else []
  }

  function InWork(s: State): seq<PageRecord> { if s.indexer.pc.Adding? then [s.indexer.pc.record] else [] }

  // ---------- One step ----------

  /** What one step adds at the end of each channel and takes from its front. */
  ghost predicate MovesInOrder(p: Params, s: State, a: Action, s': State) {
    && s.taskCh + TaskSent(p)(s, a) == TaskTaken(p)(s, a) + s'.taskCh
    && s.discoveredCh + BatchSent()(s, a) == BatchReceived()(s, a) + s'.discoveredCh
    && s.resultsCh + RecordSent()(s, a) == RecordReceived(p)(s, a) + s'.resultsCh
    && s'.hist.done + InWork(s') == s.hist.done + InWork(s) + RecordReceived(p)(s, a)
  }

  lemma TakeInOrder(p: Params, s: State, w: nat)
    requires Enabled(p, s, ATake(w))
    ensures MovesInOrder(p, s, ATake(w), Apply(p, s, ATake(w)))
  {
    var s' := Apply(p, s, ATake(w));
    assert TaskTaken(p)(s, ATake(w)) == [s.taskCh[0]];
    hide TaskTaken;
    assert s.taskCh == [s.taskCh[0]] + s.taskCh[1..];
  }

  lemma SendsInOrder(p: Params, s: State, a: Action)
    requires !s.resultsClosed && Enabled(p, s, a) && (a.ASendRecord? || a.ASendBatch?)
    ensures MovesInOrder(p, s, a, Apply(p, s, a))
  {
    hide BatchOf;
  }

  lemma OtherWorkerInOrder(p: Params, s: State, a: Action)
    requires Enabled(p, s, a) && (a.ACheckCancel? || a.AEndFetch? || a.AExit?)
    ensures MovesInOrder(p, s, a, Apply(p, s, a))
  {
    FetcherSwaps(p, s, a);
    WorkerTouchesOnlyFlow(p, s, a);
    hide Apply, Enabled;
  }

  lemma WorkerInOrder(p: Params, s: State, a: Action)
    requires Shape(p, s) && Enabled(p, s, a) && IsWorkerAction(a)
    ensures MovesInOrder(p, s, a, Apply(p, s, a))
  {
    NotClosedYet(p, s, a);
    hide MovesInOrder, Apply, Enabled, Shape;
    if a.ATake? {
      TakeInOrder(p, s, a.w);
    } else if a.ASendRecord? || a.ASendBatch? {
      SendsInOrder(p, s, a);
    } else {
      OtherWorkerInOrder(p, s, a);
    }
  }

  lemma IndexerInOrder(p: Params, s: State, a: Action)
    requires Enabled(p, s, a) && IsIndexerAction(a)
    ensures MovesInOrder(p, s, a, Apply(p, s, a))
  {
    match a
    case AReceiveRecord => assert s.resultsCh == [s.resultsCh[0]] + s.resultsCh[1..];
    case AAddRecord =>
    case AFlushTick =>
    case AStopIndexer =>
  }

  lemma CoordinatorInOrder(p: Params, s: State, a: Action)
    requires Shape(p, s) && Enabled(p, s, a) && !IsWorkerAction(a) && !IsIndexerAction(a)
    ensures MovesInOrder(p, s, a, Apply(p, s, a))
  {
    OthersKeepPipeline(p, s, a);
    CoordinatorTasks(p, s, a);
    hide Apply, Enabled, Shape;
  }

  lemma CoordinatorTasks(p: Params, s: State, a: Action)
    requires Shape(p, s) && Enabled(p, s, a) && !IsWorkerAction(a) && !IsIndexerAction(a)
    ensures var s' := Apply(p, s, a);
      s'.taskCh == s.taskCh + TaskSent(p)(s, a) && s.discoveredCh == BatchReceived()(s, a) + s'.discoveredCh
  {
    LoopKeepsChannels(p.cfg, s);
    assert s.coord.phase.Select? || s.coord.phase.Dispatch? ==> !s.taskClosed;
    hide Shape, CheckLoop, Flush, Dedup, Accept, SetAside;
    if a.AReceiveBatch? || a.ADrainBatch? { assert s.discoveredCh == [s.discoveredCh[0]] + s.discoveredCh[1..]; }
  }

  lemma LoopKeepsChannels(cfg: Config, s: State)
    ensures CheckLoop(cfg, s).taskCh == s.taskCh && CheckLoop(cfg, s).discoveredCh == s.discoveredCh
  {
    hide Flush;
  }

  lemma StepInOrder(p: Params, s: State, a: Action)
    requires Shape(p, s) && Enabled(p, s, a)
    ensures MovesInOrder(p, s, a, Apply(p, s, a))
  {
    hide *;
    if IsWorkerAction(a) {
      WorkerInOrder(p, s, a);
    } else if IsIndexerAction(a) {
      IndexerInOrder(p, s, a);
    } else {
      CoordinatorInOrder(p, s, a);
    }
  }

  // ---------- Whole runs ----------

  lemma JoinOrder<T>(taken: seq<T>, ch: seq<T>, all: seq<T>, out: seq<T>, ch': seq<T>, more: seq<T>)
    requires taken + ch == all && ch + more == out + ch'
    ensures (taken + out) + ch' == all + more
  {
    assert (taken + out) + ch' == taken + (out + ch') == taken + (ch + more) == (taken + ch) + more;
  }

  /**
   Along any schedule, whatever has arrived at the other end of a channel, followed by what is still in it, is what was
   sent into it, in the same order: tasks, batches and records. And the indexer finishes the records in that order.
   */
  lemma {:induction false} ChannelsAreFifo(p: Params, acts: seq<Action>)
    requires WellFormed(p) && After(p, acts).Some?
    ensures var s := After(p, acts).value;
      && Along(p, acts, TaskTaken(p)) + s.taskCh == Init(p).taskCh + Along(p, acts, TaskSent(p))
      && Along(p, acts, BatchReceived()) + s.discoveredCh == Along(p, acts, BatchSent())
      && Along(p, acts, RecordReceived(p)) + s.resultsCh == Along(p, acts, RecordSent())
      && s.hist.done + InWork(s) == Along(p, acts, RecordReceived(p))
    decreases |acts|
  {
    hide Enabled, Apply, Shape, Sound, TaskSent, TaskTaken, BatchSent, BatchReceived, RecordSent, RecordReceived;
    if acts != [] {
      var n := |acts| - 1;
      var s, a := After(p, acts[..n]).value, acts[n];
      ChannelsAreFifo(p, acts[..n]);
      SoundAlways(p, acts[..n]);
      ShapeOf(p, s);
      StepInOrder(p, s, a);
      var s' := Apply(p, s, a);
      hide Init, InWork;
      JoinOrder(Along(p, acts[..n], TaskTaken(p)), s.taskCh, Init(p).taskCh + Along(p, acts[..n], TaskSent(p)),
                TaskTaken(p)(s, a), s'.taskCh, TaskSent(p)(s, a));
      JoinOrder(Along(p, acts[..n], BatchReceived()), s.discoveredCh, Along(p, acts[..n], BatchSent()),
                BatchReceived()(s, a), s'.discoveredCh, BatchSent()(s, a));
      JoinOrder(Along(p, acts[..n], RecordReceived(p)), s.resultsCh, Along(p, acts[..n], RecordSent()),
                RecordReceived(p)(s, a), s'.resultsCh, RecordSent()(s, a));
    }
  }

  // ---------- The drain ----------

  function Joined(bs: seq<seq<CrawlTask>>): seq<CrawlTask> {
    if bs == [] then [] else Joined(bs[..|bs| - 1]) + bs[|bs| - 1]
  }

  /** The last step of a run. */
  lemma LastStep<T>(p: Params, acts: seq<Action>, a: Action, f: (State, Action) -> seq<T>)
    requires After(p, acts + [a]).Some?
    ensures After(p, acts).Some? && Enabled(p, After(p, acts).value, a)
    ensures After(p, acts + [a]) == Some(Apply(p, After(p, acts).value, a))
    ensures Along(p, acts + [a], f) == Along(p, acts, f) + f(After(p, acts).value, a)
  {
    hide Enabled, Apply, Init;
    assert (acts + [a])[..|acts|] == acts;
  }

  lemma Draining(p: Params, acts: seq<Action>, more: seq<Action>)
    requires WellFormed(p) && After(p, acts).Some? && After(p, acts).value.coord.phase.Drain? && After(p, acts + more).Some?
    ensures Stopping(After(p, acts + more).value)
  {
    hide *;
    ShutdownContinues(p, acts, more);
    StoppingStill(p, After(p, acts).value, After(p, acts + more).value);
  }

  /**
   While it drains, the coordinator puts the batches it receives behind what waits, whole and in the order of arrival; so
   that, with a database, is the order of the queue it saves.
   */
  lemma {:induction false} DrainKeepsOrder(p: Params, acts: seq<Action>, more: seq<Action>) returns (batches: seq<seq<CrawlTask>>)
    requires WellFormed(p) && After(p, acts).Some? && After(p, acts).value.coord.phase.Drain? && After(p, acts + more).Some?
    ensures Along(p, acts + more, BatchReceived()) == Along(p, acts, BatchReceived()) + batches
    ensures var s := After(p, acts + more).value; s.coord.overflow == After(p, acts).value.coord.overflow + Joined(batches)
    decreases |more|
  {
    hide After, Along, Enabled, Apply, BatchReceived, Stopping, WellFormed;
    if more == [] {
      assert acts + more == acts;
      batches := [];
    } else {
      var n := |more| - 1;
      var a := more[n];
      assert acts + more == (acts + more[..n]) + [a];
      hide Joined;
      LastStep(p, acts + more[..n], a, BatchReceived());
      var before := DrainKeepsOrder(p, acts, more[..n]);
      Draining(p, acts, more[..n]);
      var s := After(p, acts + more[..n]).value;
      DrainStep(p, s, a);
      batches := before + BatchReceived()(s, a);
      JoinedMore(before, BatchReceived()(s, a));
    }
  }

  lemma DrainStep(p: Params, s: State, a: Action)
    requires Stopping(s) && Enabled(p, s, a)
    ensures |BatchReceived()(s, a)| <= 1 && Apply(p, s, a).coord.overflow == s.coord.overflow + Joined(BatchReceived()(s, a))
  {
    if IsWorkerAction(a) {
      WorkerTouchesOnlyFlow(p, s, a);
      hide Apply;
    } else if IsIndexerAction(a) {
      IndexerTouchesOnlyResults(p, s, a);
      hide Apply;
    } else {
      FlushMarksNothing(p.cfg, s.coord);
      hide CheckLoop, SendOverflow, ReceiveBatch, DispatchNext, BeginDrain, Flush;
      if a.ADrainBatch? { assert [s.discoveredCh[0]][..0] == []; }
    }
  }

  lemma JoinedMore(a: seq<seq<CrawlTask>>, b: seq<seq<CrawlTask>>)
    requires |b| <= 1
    ensures Joined(a + b) == Joined(a) + Joined(b)
  {
    if b == [] {
      assert a + b == a;
    } else {
      assert (a + b)[..|a|] == a && b[..0] == [];
    }
  }

  // ---------- Waiting ----------

  lemma WorkerWaits(p: Params, s: State, w: nat)
    requires Shape(p, s) && w < |s.workers|
    ensures s.workers[w].Idle? && s.taskCh != [] ==> Enabled(p, s, ATake(w))
    ensures s.workers[w].Holding? ==> Enabled(p, s, ACheckCancel(w))
    ensures s.workers[w].Fetching? ==> Enabled(p, s, AEndFetch(w, false)) && (s.cancelled ==> Enabled(p, s, AEndFetch(w, true)))
    ensures s.workers[w].Reporting? && |s.resultsCh| != 2 * p.cfg.numWorkers ==> Enabled(p, s, ASendRecord(w))
    ensures s.workers[w].Posting? && |s.discoveredCh| != 2 * p.cfg.numWorkers ==> Enabled(p, s, ASendBatch(w))
  {
    hide Total;
  }

  lemma CoordinatorWaits(p: Params, s: State)
    requires Shape(p, s)
    ensures s.coord.phase.Select? || s.coord.phase.LimitSelect? ==>
      (s.discoveredCh != [] ==> Enabled(p, s, AReceiveBatch)) && (s.cancelled ==> Enabled(p, s, ABeginDrain))
    ensures s.coord.phase.Select? && s.coord.overflow != [] && |s.taskCh| != p.cfg.queueSize ==> Enabled(p, s, ASendOverflow)
    ensures s.coord.phase.Drain? && s.coord.inFlight > 0 && s.discoveredCh != [] ==> Enabled(p, s, ADrainBatch)
    ensures s.indexer.pc.Waiting? && s.resultsCh != [] ==> Enabled(p, s, AReceiveRecord)
    ensures !s.cancelled ==> Enabled(p, s, ACancel)
  {
    hide Total;
  }

  /**
   Nothing waits but on a channel that is full, to send, or empty, to receive; the capacities are QueueSize for tasks and
   twice the number of workers for batches and records. A cancellation is seen in every select, and by every fetch.
   */
  lemma WaitsOnlyOnChannels(p: Params, acts: seq<Action>, w: nat)
    requires WellFormed(p) && After(p, acts).Some? && w < |After(p, acts).value.workers|
    ensures var s := After(p, acts).value;
      && (s.workers[w].Idle? && s.taskCh != [] ==> Enabled(p, s, ATake(w)))
      && (s.workers[w].Holding? ==> Enabled(p, s, ACheckCancel(w)))
      && (s.workers[w].Fetching? ==> Enabled(p, s, AEndFetch(w, false)) && (s.cancelled ==> Enabled(p, s, AEndFetch(w, true))))
      && (s.workers[w].Reporting? && |s.resultsCh| != 2 * p.cfg.numWorkers ==> Enabled(p, s, ASendRecord(w)))
      && (s.workers[w].Posting? && |s.discoveredCh| != 2 * p.cfg.numWorkers ==> Enabled(p, s, ASendBatch(w)))
    ensures var s := After(p, acts).value;
      && (s.coord.phase.Select? || s.coord.phase.LimitSelect? ==>
          (s.discoveredCh != [] ==> Enabled(p, s, AReceiveBatch)) && (s.cancelled ==> Enabled(p, s, ABeginDrain)))
      && (s.coord.phase.Select? && s.coord.overflow != [] && |s.taskCh| != p.cfg.queueSize ==> Enabled(p, s, ASendOverflow))
      && (s.coord.phase.Drain? && s.coord.inFlight > 0 && s.discoveredCh != [] ==> Enabled(p, s, ADrainBatch))
      && (s.indexer.pc.Waiting? && s.resultsCh != [] ==> Enabled(p, s, AReceiveRecord))
      && (!s.cancelled ==> Enabled(p, s, ACancel))
  {
    hide *;
    var s := After(p, acts).value;
    SoundAlways(p, acts);
    ShapeOf(p, s);
    WorkerWaits(p, s, w);
    CoordinatorWaits(p, s);
  }
}
