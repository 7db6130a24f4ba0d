/**
 Progress under every schedule: a run that is not over can always move without waiting for a timer or for
 cancellation, and every move but a timer's strictly lowers a weight, so every schedule ends.
 */
module CrawlProgress {
  import opened Options
  import opened CrawlTypes
  import opened CrawlSystem
  import opened CrawlSafety
  import opened CrawlLedger
  import opened Runs
  import opened Tally

  // ---------- Deadlock freedom ----------

  /** A move of the program itself: not a timer, not the user's cancellation, not a fetch cut short by it. */
  predicate IsProgress(a: Action) {
    !IsTick(a) && !a.ACancel? && !(a.AEndFetch? && a.cut)
  }

  ghost predicate CanMove(p: Params, s: State) {
    exists a :: IsProgress(a) && Enabled(p, s, a)
  }

  lemma Moves(p: Params, s: State, a: Action)
    requires IsProgress(a) && Enabled(p, s, a)
    ensures CanMove(p, s)
  {}

  /** Before the results channel closes, the indexer can always make room in it. */
  lemma IndexerMoves(p: Params, s: State)
    requires Shape(p, s) && !s.resultsClosed && s.resultsCh != []
    ensures CanMove(p, s)
  {
    Moves(p, s, if s.indexer.pc.Adding? then AAddRecord else AReceiveRecord);
  }

  /** A busy worker can move, or what it waits for can. */
  lemma BusyWorkerMoves(p: Params, s: State, w: nat)
    requires WellFormed(p) && Shape(p, s) && w < |s.workers| && s.discoveredCh == []
    requires !s.workers[w].Idle? && !s.workers[w].Exited?
    ensures CanMove(p, s)
  {
    match s.workers[w]
    case Holding(_) => Moves(p, s, ACheckCancel(w));
    case Fetching(_) => Moves(p, s, AEndFetch(w, false));
    case Reporting(_) =>
      if |s.resultsCh| < 2 * p.cfg.numWorkers { Moves(p, s, ASendRecord(w)); } else { IndexerMoves(p, s); }
    case Posting(_) => Moves(p, s, ASendBatch(w));
  }

  /** Something in flight and no batch to receive: some worker can take, work or post. */
  lemma PoolMoves(p: Params, s: State)
    requires WellFormed(p) && Shape(p, s) && s.coord.inFlight > 0 && s.discoveredCh == []
    ensures CanMove(p, s)
  {
    if Total(s.workers, BusyOf) > 0 {
      TotalZero(s.workers, BusyOf);
      var x :| x in s.workers && BusyOf(x) != 0;
      var w: nat :| w < |s.workers| && s.workers[w] == x;
      BusyWorkerMoves(p, s, w);
    } else {
      TotalZero(s.workers, BusyOf);
      assert s.workers[0] in s.workers;
      Moves(p, s, ATake(0));
    }
  }

  lemma CoordinatorMoves(p: Params, s: State)
    requires WellFormed(p) && Shape(p, s) && !Returned(s)
    ensures CanMove(p, s)
  {
    match s.coord.phase
    case Head => Moves(p, s, ACheckLoop);
    case Dispatch(_) => Moves(p, s, ADispatchNext);
    case _ =>
      if s.coord.phase.Drain? && s.coord.inFlight == 0 {
        Moves(p, s, AFinishDrain);
      } else if s.coord.phase.Select? && s.coord.overflow != [] && |s.taskCh| < p.cfg.queueSize {
        Moves(p, s, ASendOverflow);
      } else if s.discoveredCh != [] {
        Moves(p, s, if s.coord.phase.Drain? then ADrainBatch else AReceiveBatch);
      } else {
        PoolMoves(p, s);
      }
  }

  lemma ShutdownMoves(p: Params, s: State)
    requires WellFormed(p) && Shape(p, s) && Returned(s) && !s.coord.phase.Finished?
    ensures CanMove(p, s)
  {
    if s.coord.phase.JoinWorkers? {
      if w: nat :| w < |s.workers| && !s.workers[w].Exited? {
        TotalZero(s.workers, BusyOf);
        assert s.workers[w] in s.workers;
        Moves(p, s, AExit(w));
      } else {
        Moves(p, s, ACloseResults);
      }
    } else {
      match s.indexer.pc
      case Stopped => Moves(p, s, AFinishRun);
      case Adding(_) => Moves(p, s, AAddRecord);
      case Waiting => Moves(p, s, if s.resultsCh != [] then AReceiveRecord else AStopIndexer);
    }
  }

  /** No reachable state short of the end is stuck, whatever the schedule and whether or not it was cancelled. */
  lemma DeadlockFree(p: Params, acts: seq<Action>)
    requires WellFormed(p) && After(p, acts).Some? && !After(p, acts).value.coord.phase.Finished?
    ensures CanMove(p, After(p, acts).value)
  {
    var s := After(p, acts).value;
    SoundAlways(p, acts);
    if Returned(s) {
      ShutdownMoves(p, s);
    } else {
      CoordinatorMoves(p, s);
    }
  }

  /** The end is the end: a finished run has no move left. */
  lemma FinishedIsFinal(p: Params, acts: seq<Action>)
    requires WellFormed(p) && After(p, acts).Some? && After(p, acts).value.coord.phase.Finished?
    ensures !CanMove(p, After(p, acts).value)
  {
    var s := After(p, acts).value;
    SoundAlways(p, acts);
    hide After, Enabled, Apply, Ledger, TaskBooks, RecordBooks;
    forall a | Enabled(p, s, a) ensures !IsProgress(a) {
      FinishedStands(p, s, a);
    }
  }
}
