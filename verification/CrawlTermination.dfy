/**
 Every schedule ends. All URLs a run can ever accept lie in one finite ball around the initial queue, so a
 weight over the unvisited URLs of the ball and the work in the pipeline drops with every move but a timer's.
 */
module CrawlTermination {
  import opened Options
  import opened CrawlTypes
  import opened CrawlSystem
  import opened CrawlSafety
  import opened CrawlLedger
  import opened CrawlProgress
  import opened Runs
  import opened Tally

  // ---------- Where tasks can lie ----------

  function MinDepth(ts: seq<CrawlTask>): (d: int)
    ensures forall t :: t in ts ==> d <= t.depth
  {
    if ts == [] then 0
    else if |ts| == 1 || ts[0].depth <= MinDepth(ts[1..]) then ts[0].depth
    else MinDepth(ts[1..])
  }

  /** `t` lies no further from the initial queue than its depth says. */
  ghost predicate Placed(p: Params, t: CrawlTask) {
    MinDepth(p.queue0) <= t.depth && t.url in Ball(p.web, Urls(p.queue0), t.depth - MinDepth(p.queue0))
  }

  ghost predicate AllPlaced(p: Params, ts: seq<CrawlTask>) {
    forall t :: t in ts ==> Placed(p, t)
  }

  ghost predicate WorkerPlaced(p: Params, w: Worker) {
    match w
    case Holding(t) => Placed(p, t)
    case Fetching(t) => Placed(p, t)
    case Reporting(r) => Placed(p, TaskOf(r)) && (r.links == [] || r.links == LinksOf(p.web, r.url))
    case Posting(b) => AllPlaced(p, b)
    case _ => true
  }

  ghost predicate Placement(p: Params, s: State) {
    && AllPlaced(p, s.taskCh) && AllPlaced(p, s.coord.overflow) && AllPlaced(p, s.hist.found)
    && (s.coord.phase.Dispatch? ==> AllPlaced(p, s.coord.phase.rest))
    && (forall b :: b in s.discoveredCh ==> AllPlaced(p, b))
    && (forall w :: w in s.workers ==> WorkerPlaced(p, w))
  }

  lemma {:induction false} QueuePlaced(p: Params)
    ensures AllPlaced(p, p.queue0)
  {
    forall t | t in p.queue0 ensures Placed(p, t) {
      BallMonotone(p.web, Urls(p.queue0), 0, t.depth - MinDepth(p.queue0));
    }
  }

  lemma LinksPlaced(p: Params, r: PageRecord)
    requires Placed(p, TaskOf(r)) && (r.links == [] || r.links == LinksOf(p.web, r.url))
    ensures AllPlaced(p, BatchOf(r))
  {
    hide Ball, MinDepth, LinksOf;
    var d := r.depth - MinDepth(p.queue0);
    forall t | t in BatchOf(r) ensures Placed(p, t) {
      BallStep(p.web, Urls(p.queue0), r.url, t.url, d);
      assert t.depth - MinDepth(p.queue0) == d + 1;
    }
  }

  lemma InitPlacement(p: Params)
    ensures Placement(p, Init(p))
  {
    QueuePlaced(p);
  }

  lemma TakeKeepsPlacement(p: Params, s: State, w: nat)
    requires Placement(p, s) && Enabled(p, s, ATake(w))
    ensures Placement(p, Apply(p, s, ATake(w)))
  {
    hide Placed;
  }

  lemma SendBatchKeepsPlacement(p: Params, s: State, w: nat)
    requires Placement(p, s) && w < |s.workers| && s.workers[w].Posting?
    ensures Placement(p, SendBatch(s, w))
  {
    hide Placed;
    assert WorkerPlaced(p, s.workers[w]);
    hide AllPlaced;
  }

  lemma SwapKeepsPlacement(p: Params, s: State, w: nat, x: Worker, s': State)
    requires Placement(p, s) && w < |s.workers| && WorkerPlaced(p, x) && s'.workers == s.workers[w := x]
    requires s'.taskCh == s.taskCh && s'.discoveredCh == s.discoveredCh && s'.coord == s.coord && s'.hist.found == s.hist.found
    ensures Placement(p, s')
  {
    hide AllPlaced, WorkerPlaced;
  }

  lemma WorkerKeepsPlacement(p: Params, s: State, a: Action)
    requires Placement(p, s) && Enabled(p, s, a) && (a.ACheckCancel? || a.AEndFetch? || a.AExit?)
    ensures Placement(p, Apply(p, s, a))
  {
    assert WorkerPlaced(p, s.workers[a.w]);
    WorkerStaysPlaced(p, s, a);
    FetcherSwaps(p, s, a);
    WorkerTouchesOnlyFlow(p, s, a);
    hide Placed, Placement, WorkerPlaced, Apply, Enabled;
    SwapKeepsPlacement(p, s, a.w, Apply(p, s, a).workers[a.w], Apply(p, s, a));
  }

  lemma WorkerStaysPlaced(p: Params, s: State, a: Action)
    requires Enabled(p, s, a) && (a.ACheckCancel? || a.AEndFetch? || a.AExit?) && WorkerPlaced(p, s.workers[a.w])
    ensures WorkerPlaced(p, Apply(p, s, a).workers[a.w])
  {
    hide Placed, SetAside;
    match a
    case ACheckCancel(w) =>
    case AEndFetch(w, cut) =>
    case AExit(w) =>
  }

  lemma SendRecordKeepsPlacement(p: Params, s: State, w: nat)
    requires Placement(p, s) && w < |s.workers| && s.workers[w].Reporting?
    ensures Placement(p, SendRecord(s, w))
  {
    if !s.resultsClosed {
      assert WorkerPlaced(p, s.workers[w]);
      LinksPlaced(p, s.workers[w].record);
      hide Placed, Placement, BatchOf;
      SwapKeepsPlacement(p, s, w, Posting(BatchOf(s.workers[w].record)), SendRecord(s, w));
    }
  }

  lemma DedupPlaced(p: Params, batch: seq<CrawlTask>, visited: set<Url>)
    requires AllPlaced(p, batch)
    ensures AllPlaced(p, Dedup(p.cfg, batch, visited).0)
  {
    DedupAccepts(p.cfg, batch, visited);
  }

  lemma ReceiveKeepsPlacement(p: Params, s: State)
    requires Placement(p, s) && s.discoveredCh != []
    ensures Placement(p, ReceiveBatch(p.cfg, s))
  {
    hide Placed, Dedup, WorkerPlaced;
    assert s.discoveredCh[0] in s.discoveredCh;
    DedupPlaced(p, s.discoveredCh[0], s.coord.visited);
  }

  lemma LoopKeepsPlacement(p: Params, s: State)
    requires Placement(p, s)
    ensures Placement(p, CheckLoop(p.cfg, s))
  {
    LoopCases(p.cfg, s);
    hide Placed, WorkerPlaced, CheckLoop, Flush;
  }

  lemma DispatchKeepsPlacement(p: Params, s: State)
    requires Placement(p, s) && s.coord.phase.Dispatch?
    ensures Placement(p, DispatchNext(p.cfg, s))
  {
    hide Placed, WorkerPlaced;
  }

  lemma OthersKeepPlacement(p: Params, s: State, a: Action)
    requires Placement(p, s) && Enabled(p, s, a) && !IsWorkerAction(a)
    requires !a.AReceiveBatch? && !a.ACheckLoop? && !a.ADispatchNext?
    ensures Placement(p, Apply(p, s, a))
  {
    hide Placed, WorkerPlaced, CheckLoop, DispatchNext;
    if a.ADrainBatch? {
      assert s.discoveredCh[0] in s.discoveredCh;
    }
  }

  lemma PlacementKept(p: Params, s: State, a: Action)
    requires Placement(p, s) && Enabled(p, s, a)
    ensures Placement(p, Apply(p, s, a))
  {
    hide Placement, ReceiveBatch, SendBatch, SendRecord, CheckLoop, DispatchNext;
    if a.ACheckLoop? {
      LoopKeepsPlacement(p, s);
    } else if a.ADispatchNext? {
      DispatchKeepsPlacement(p, s);
    } else if a.ATake? {
      TakeKeepsPlacement(p, s, a.w);
    } else if a.ASendBatch? {
      SendBatchKeepsPlacement(p, s, a.w);
    } else if a.ASendRecord? {
      SendRecordKeepsPlacement(p, s, a.w);
    } else if IsWorkerAction(a) {
      WorkerKeepsPlacement(p, s, a);
    } else if a.AReceiveBatch? {
      ReceiveKeepsPlacement(p, s);
    } else {
      OthersKeepPlacement(p, s, a);
    }
  }

  lemma PlacementAlways(p: Params, acts: seq<Action>)
    requires After(p, acts).Some?
    ensures Placement(p, After(p, acts).value)
  {
    hide Placement, Enabled, Apply, Init;
    var inv := (s: State) => Placement(p, s);
    forall s, a | inv(s) && Stepper(p)(s, a).Some? ensures inv(Stepper(p)(s, a).value) {
      PlacementKept(p, s, a);
    }
    InitPlacement(p);
    Invariance(Stepper(p), inv, Init(p), acts);
  }

  // ---------- The weight ----------

  /** Every URL a run can accept from a batch. */
  function Universe(p: Params): set<Url> {
    if p.cfg.maxDepth < MinDepth(p.queue0) then {} else Ball(p.web, Urls(p.queue0), p.cfg.maxDepth - MinDepth(p.queue0))
  }

  lemma PlacedInUniverse(p: Params, t: CrawlTask)
    requires Placed(p, t) && t.depth <= p.cfg.maxDepth
    ensures t.url in Universe(p)
  {
    hide Ball, MinDepth, Urls;
    BallMonotone(p.web, Urls(p.queue0), t.depth - MinDepth(p.queue0), p.cfg.maxDepth - MinDepth(p.queue0));
  }

  function WorkerWeight(w: Worker): nat {
    match w
    case Exited => 0
    case Idle => 1
    case Posting(_) => 5
    case Reporting(_) => 8
    case Fetching(_) => 9
    case Holding(_) => 10
  }

  function PhaseWeight(ph: Phase): nat {
    match ph
    case Finished => 0
    case JoinIndexer => 1
    case JoinWorkers => 2
    case Drain => 3
    case Select => 4
    case LimitSelect => 4
    case Head => 5
    case Dispatch(_) => 6
  }

  function IndexerWeight(x: IndexerState): nat {
    match x
    case Stopped => 0
    case Waiting => 1
    case Adding(_) => 2
  }

  /** Queued tasks weigh nothing once the drain has begun: they will not be fetched in this run. */
  function CoordWeight(c: Coordinator): nat {
    PhaseWeight(c.phase)
    + (if PhaseWeight(c.phase) <= 3 then 0 else 12 * |c.overflow|)
    + (if c.phase.Dispatch? then 13 * |c.phase.rest| else 0)
  }

  ghost function Weight(p: Params, s: State): nat {
    13 * |Universe(p) - s.coord.visited| + CoordWeight(s.coord)
    + 10 * |s.taskCh| + Total(s.workers, WorkerWeight) + 3 * |s.discoveredCh| + 2 * |s.resultsCh|
    + IndexerWeight(s.indexer.pc) + (if s.cancelled then 0 else 1)
  }

  lemma SwapLowersWeight(p: Params, s: State, w: nat, x: Worker, s': State)
    requires w < |s.workers| && s'.workers == s.workers[w := x] && WorkerWeight(x) < WorkerWeight(s.workers[w])
    requires s' == s.(workers := s'.workers, hist := s'.hist)
    ensures Weight(p, s') < Weight(p, s)
  {
    hide Total, Universe, CoordWeight, IndexerWeight;
    TotalUpdate(s.workers, w, x, WorkerWeight);
  }

  lemma FetcherLowersWeight(p: Params, s: State, a: Action)
    requires Enabled(p, s, a) && (a.ACheckCancel? || a.AEndFetch? || a.AExit?)
    ensures Weight(p, Apply(p, s, a)) < Weight(p, s)
  {
    FetcherSwaps(p, s, a);
    hide Weight, Apply, Enabled;
    SwapLowersWeight(p, s, a.w, Apply(p, s, a).workers[a.w], Apply(p, s, a));
  }

  lemma FetcherSwaps(p: Params, s: State, a: Action)
    requires Enabled(p, s, a) && (a.ACheckCancel? || a.AEndFetch? || a.AExit?)
    ensures var s' := Apply(p, s, a);
      && a.w < |s.workers| && |s'.workers| == |s.workers| && s'.workers == s.workers[a.w := s'.workers[a.w]]
      && s' == s.(workers := s'.workers, hist := s'.hist) && WorkerWeight(s'.workers[a.w]) < WorkerWeight(s.workers[a.w])
  {
    hide RecordOf, FailedRecord, SetAside;
    match a
    case ACheckCancel(w) =>
    case AEndFetch(w, cut) =>
    case AExit(w) =>
  }

  lemma TakerLowersWeight(p: Params, s: State, w: nat)
    requires Enabled(p, s, ATake(w))
    ensures Weight(p, Apply(p, s, ATake(w))) < Weight(p, s)
  {
    hide Total, Universe, CoordWeight, IndexerWeight;
    TotalUpdate(s.workers, w, Holding(s.taskCh[0]), WorkerWeight);
  }

  lemma SenderLowersWeight(p: Params, s: State, a: Action)
    requires Shape(p, s) && Enabled(p, s, a) && (a.ASendRecord? || a.ASendBatch?)
    ensures Weight(p, Apply(p, s, a)) < Weight(p, s)
  {
    hide Total, Universe, CoordWeight, IndexerWeight;
    if !s.resultsClosed {
      TotalUpdate(s.workers, a.w, Apply(p, s, a).workers[a.w], WorkerWeight);
    }
  }

  /** Each task accepted uses up one unvisited URL of the universe. */
  lemma DedupUsesUniverse(p: Params, batch: seq<CrawlTask>, visited: set<Url>)
    requires AllPlaced(p, batch)
    ensures var (found, marked) := Dedup(p.cfg, batch, visited);
      |Universe(p) - marked| + |found| == |Universe(p) - visited|
  {
    hide Dedup, Universe;
    var (found, marked) := Dedup(p.cfg, batch, visited);
    DedupMarks(p.cfg, batch, visited);
    DedupAccepts(p.cfg, batch, visited);
    forall t | t in found ensures t.url in Universe(p) { PlacedInUniverse(p, t); }
    assert Urls(found) <= Universe(p);
    assert marked - visited == Urls(found);
    assert Universe(p) - visited == (Universe(p) - marked) + Urls(found);
    assert |marked| == |visited + Urls(found)| == |visited| + |Urls(found)|;
  }

  lemma AcceptWeighs(cfg: Config, c: Coordinator, batch: seq<CrawlTask>)
    requires c.phase.Select?
    ensures CoordWeight(Accept(cfg, c, batch)) <= CoordWeight(c) + 13 * |Dedup(cfg, batch, c.visited).0| + 2
    ensures Accept(cfg, c, batch).visited == Dedup(cfg, batch, c.visited).1
  {
    hide Dedup, UrlSeq;
  }

  lemma ReceiveLowersWeight(p: Params, s: State, a: Action)
    requires Placement(p, s) && a.AReceiveBatch? && Enabled(p, s, a)
    ensures Weight(p, Apply(p, s, a)) < Weight(p, s)
  {
    FirstBatchPlaced(p, s);
    hide Placement, Total, Universe, AllPlaced, IndexerWeight;
    if !s.coord.phase.LimitSelect? {
      AcceptWeighs(p.cfg, s.coord, s.discoveredCh[0]);
      DedupUsesUniverse(p, s.discoveredCh[0], s.coord.visited);
      hide Dedup, Accept, CoordWeight;
    }
  }

  lemma FirstBatchPlaced(p: Params, s: State)
    requires Placement(p, s) && s.discoveredCh != []
    ensures AllPlaced(p, s.discoveredCh[0])
  {
    hide AllPlaced, WorkerPlaced;
    assert s.discoveredCh[0] in s.discoveredCh;
  }

  lemma LoopLowersWeight(p: Params, s: State)
    requires s.coord.phase.Head?
    ensures Weight(p, CheckLoop(p.cfg, s)) < Weight(p, s)
  {
    LoopKeepsPipeline(p.cfg, s);
    LoopLowersCoordWeight(p.cfg, s);
    hide Total, Universe, IndexerWeight, CheckLoop, CoordWeight;
  }

  lemma LoopLowersCoordWeight(cfg: Config, s: State)
    requires s.coord.phase.Head?
    ensures var s' := CheckLoop(cfg, s);
      && CoordWeight(s'.coord) < CoordWeight(s.coord) && s'.coord.visited == s.coord.visited
      && s'.taskCh == s.taskCh && s'.discoveredCh == s.discoveredCh && s'.cancelled == s.cancelled
  {}

  lemma TasksLowerWeight(p: Params, s: State, a: Action)
    requires Shape(p, s) && Enabled(p, s, a) && (a.ASendOverflow? || a.ADispatchNext?)
    ensures Weight(p, Apply(p, s, a)) < Weight(p, s)
  {
    hide Total, Universe, IndexerWeight;
  }

  predicate EndsOrIndexes(a: Action) {
    IsIndexerAction(a) || a.ACancel? || a.ABeginDrain? || a.ADrainBatch? || a.AFinishDrain? || a.ACloseResults? || a.AFinishRun?
  }

  lemma OthersLowerWeight(p: Params, s: State, a: Action)
    requires Shape(p, s) && Enabled(p, s, a) && EndsOrIndexes(a) && !IsTick(a)
    ensures Weight(p, Apply(p, s, a)) < Weight(p, s)
  {
    if IsIndexerAction(a) {
      IndexerLowersWeight(p, s, a);
    } else {
      EndingLowersWeight(p, s, a);
    }
    hide *;
  }

  lemma IndexerLowersWeight(p: Params, s: State, a: Action)
    requires Enabled(p, s, a) && IsIndexerAction(a) && !IsTick(a)
    ensures Weight(p, Apply(p, s, a)) < Weight(p, s)
  {
    hide Total, Universe, CoordWeight;
  }

  lemma EndingLowersWeight(p: Params, s: State, a: Action)
    requires Shape(p, s) && Enabled(p, s, a) && EndsOrIndexes(a) && !IsIndexerAction(a)
    ensures Weight(p, Apply(p, s, a)) < Weight(p, s)
  {
    FlushMarksNothing(p.cfg, s.coord);
    hide Total, Universe, Flush, SetAside, IndexerWeight;
  }

  lemma FlushMarksNothing(cfg: Config, c: Coordinator)
    ensures Flush(cfg, c).visited == c.visited && Flush(cfg, c).overflow == c.overflow && Flush(cfg, c).phase == c.phase
  {}

  lemma TicksRaiseWeight(p: Params, s: State, a: Action)
    requires Enabled(p, s, a) && IsTick(a)
    ensures Weight(p, Apply(p, s, a)) <= Weight(p, s) + 1
  {
    hide Total, Universe;
  }

  /** Every step but a timer's strictly lowers the weight; a timer raises it by at most one. */
  lemma StepLowersWeight(p: Params, s: State, a: Action)
    requires Shape(p, s) && Placement(p, s) && Enabled(p, s, a)
    ensures if IsTick(a) then Weight(p, Apply(p, s, a)) <= Weight(p, s) + 1
            else Weight(p, Apply(p, s, a)) < Weight(p, s)
  {
    hide Weight, Shape, Placement, Apply, Enabled;
    if IsTick(a) {
      TicksRaiseWeight(p, s, a);
    } else if a.ATake? {
      TakerLowersWeight(p, s, a.w);
    } else if a.ACheckCancel? || a.AEndFetch? || a.AExit? {
      FetcherLowersWeight(p, s, a);
    } else if a.ASendRecord? || a.ASendBatch? {
      SenderLowersWeight(p, s, a);
    } else if a.AReceiveBatch? {
      ReceiveLowersWeight(p, s, a);
    } else if a.ACheckLoop? {
      CheckLoopIs(p, s);
      LoopLowersWeight(p, s);
    } else if EndsOrIndexes(a) {
      OthersLowerWeight(p, s, a);
    } else {
      TasksLowerWeight(p, s, a);
    }
  }

  lemma CheckLoopIs(p: Params, s: State)
    requires Enabled(p, s, ACheckLoop)
    ensures Apply(p, s, ACheckLoop) == CheckLoop(p.cfg, s) && s.coord.phase.Head?
  {}

  // ---------- Schedules ----------

  function Ticks(acts: seq<Action>): nat {
    if acts == [] then 0 else Ticks(acts[..|acts| - 1]) + (if IsTick(acts[|acts| - 1]) then 1 else 0)
  }

  /**
   Every schedule is finite but for its timers: the moves that are not timers number at most the weight
   of the start plus the number of timer moves, with or without cancellation.
   */
  lemma {:induction false} EveryScheduleEnds(p: Params, acts: seq<Action>)
    requires WellFormed(p) && After(p, acts).Some?
    ensures Ticks(acts) <= |acts|
    ensures (|acts| - Ticks(acts)) + Weight(p, After(p, acts).value) <= Weight(p, Init(p)) + Ticks(acts)
    decreases |acts|
  {
    hide Weight, Enabled, Apply, Init, Sound, Placement, Shape;
    if acts != [] {
      var before, a := acts[..|acts| - 1], acts[|acts| - 1];
      EveryScheduleEnds(p, before);
      SoundAlways(p, before);
      PlacementAlways(p, before);
      ShapeOf(p, After(p, before).value);
      StepLowersWeight(p, After(p, before).value, a);
    }
  }

  lemma ShapeOf(p: Params, s: State)
    requires Sound(p, s)
    ensures Shape(p, s)
  {}

  /** Any run can be carried on to its end, without timers and without cancelling it. */
  lemma {:induction false} CarryOn(p: Params, acts: seq<Action>) returns (all: seq<Action>)
    requires WellFormed(p) && After(p, acts).Some?
    ensures acts <= all && After(p, all).Some?
    ensures var s := After(p, all).value; s.coord.phase.Finished? && s.cancelled == After(p, acts).value.cancelled
    decreases Weight(p, After(p, acts).value)
  {
    var s := After(p, acts).value;
    all := acts;
    if !s.coord.phase.Finished? {
      DeadlockFree(p, acts);
      var a :| IsProgress(a) && Enabled(p, s, a);
      SoundAlways(p, acts);
      PlacementAlways(p, acts);
      StepLowersWeight(p, s, a);
      OneMore(p, acts, a);
      ProgressKeepsCancelled(p, s, a);
      hide *;
      all := CarryOn(p, acts + [a]);
    }
  }

  lemma OneMore(p: Params, acts: seq<Action>, a: Action)
    requires After(p, acts).Some? && Enabled(p, After(p, acts).value, a)
    ensures After(p, acts + [a]) == Some(Apply(p, After(p, acts).value, a))
  {
    hide Enabled, Apply, Init;
    assert (acts + [a])[..|acts|] == acts;
  }

  lemma ProgressKeepsCancelled(p: Params, s: State, a: Action)
    requires Enabled(p, s, a) && IsProgress(a)
    ensures Apply(p, s, a).cancelled == s.cancelled
  {
    hide Apply, Enabled;
    OnlyCancelCancels(p, s, a);
  }
}
