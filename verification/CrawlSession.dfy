/**
 The crawl as the program keeps it: one object whose fields the coordinator, the workers and the indexer update
 in place. Every method is one uninterrupted stretch of one goroutine, and is proved to do exactly what the
 step system says of it, so everything proved about runs of the step system holds of this object.
 */
module CrawlSession {
  import opened Options
  import opened CrawlTypes
  import opened CrawlSystem
  import opened Runs

  /** Marking and queueing the seeds of a fresh crawl. */
  method SeedQueue(seeds: seq<Url>) returns (queue: seq<CrawlTask>, visited: set<Url>)
    ensures queue == SeedTasks(seeds) && visited == set u | u in seeds
  {
    queue, visited := [], {};
    for i := 0 to |seeds|
      invariant queue == SeedTasks(seeds[..i]) && visited == set u | u in seeds[..i]
    {
      queue := queue + [CrawlTask(seeds[i], "", 0)];
      visited := visited + {seeds[i]};
      assert seeds[..i + 1] == seeds[..i] + [seeds[i]];
    }
    assert seeds[..|seeds|] == seeds;
  }

  /** The initial sends: none of them blocks, and what does not fit is kept. */
  method EnqueueInitial(queue: seq<CrawlTask>, capacity: nat) returns (taskCh: seq<CrawlTask>, overflow: seq<CrawlTask>, enqueued: nat)
    ensures enqueued == if |queue| <= capacity then |queue| else capacity
    ensures taskCh == queue[..enqueued] && overflow == queue[enqueued..]
  {
    taskCh, overflow, enqueued := [], [], 0;
    for i := 0 to |queue|
      invariant enqueued == |taskCh| == if i <= capacity then i else capacity
      invariant taskCh == queue[..enqueued] && overflow == queue[enqueued..i]
    {
      if |taskCh| < capacity {
        taskCh := taskCh + [queue[i]];
        enqueued := enqueued + 1;
      } else {
        overflow := overflow + [queue[i]];
      }
    }
  }

  /** The batch a worker sends: one task per link of the page it fetched. */
  method BuildBatch(record: PageRecord) returns (newTasks: seq<CrawlTask>)
    ensures newTasks == BatchOf(record)
  {
    newTasks := [];
    for i := 0 to |record.links|
      invariant newTasks == LinkTasks(TaskOf(record), record.links[..i])
    {
      newTasks := newTasks + [CrawlTask(record.links[i], record.url, record.depth + 1)];
    }
    assert record.links[..|record.links|] == record.links;
  }

  class Session {
    const cfg: Config
    const web: Web
    ghost const params: Params

    var cancelled: bool
    var panicked: bool

    var taskCh: seq<CrawlTask>
    var taskClosed: bool
    var discoveredCh: seq<seq<CrawlTask>>
    var resultsCh: seq<PageRecord>
    var resultsClosed: bool

    var phase: Phase
    var visited: set<Url>
    var overflow: seq<CrawlTask>
    var inFlight: int
    var newVisited: seq<Url>
    var pagesQueued: int
    var stored: set<Url>
    var savedQueue: Option<seq<CrawlTask>>

    var workers: seq<Worker>      // where each worker is in its loop

    var indexerPc: IndexerState
    var docs: seq<PageRecord>
    var indexedDocs: int
    var pagesProcessed: int
    var pagesErrored: int

    var stopReason: StopReason
    ghost var hist: History

    ghost predicate Valid() reads this { params.cfg == cfg && params.web == web }

    ghost function CoordView(): Coordinator reads this {
      Coordinator(phase, visited, overflow, inFlight, newVisited, pagesQueued, stored, savedQueue)
    }

    ghost function View(): State reads this {
      State(cancelled, panicked, taskCh, taskClosed, discoveredCh, resultsCh, resultsClosed,
            CoordView(), workers, Indexer(indexerPc, docs, indexedDocs, pagesProcessed, pagesErrored), stopReason, hist)
    }

    /** `Start` up to the launch of the goroutines. */
    constructor (cfg: Config, web: Web, seeds: seq<Url>, resume: Option<ResumeState>, counts: Counts)
      ensures Valid() && params == StartParams(cfg, web, seeds, resume, counts)
      ensures View() == Init(StartParams(cfg, web, seeds, resume, counts))
    {
      var queue, marked, rows;
      if resume.Some? && |resume.value.visited| > 0 {
        queue, marked, rows := resume.value.queue, resume.value.visited, resume.value.visited;
      } else {
        queue, marked := SeedQueue(seeds);
        rows := {};
      }
      var ch, rest, enqueued := EnqueueInitial(queue, cfg.queueSize);
      this.cfg, this.web, params := cfg, web, StartParams(cfg, web, seeds, resume, counts);
      cancelled, panicked := false, false;
      taskCh, taskClosed, discoveredCh, resultsCh, resultsClosed := ch, false, [], [], false;
      phase, visited, overflow, inFlight, newVisited := Head, marked, rest, enqueued, [];
      pagesQueued, stored, savedQueue := counts.queued + |queue|, rows, None;
      workers := seq(cfg.numWorkers, _ => Idle);
      indexerPc, docs, indexedDocs, pagesProcessed, pagesErrored := Waiting, [], counts.indexed, counts.processed, counts.errored;
      stopReason := Unset;
      hist := History([], [], multiset{}, [], [], []);
    }

    // ---------- Coordinator ----------

    /** Filters a batch against depth, the visited set and the URL cap, marking what it lets through. */
    method DeduplicateAndMark(tasks: seq<CrawlTask>) returns (result: seq<CrawlTask>)
      modifies this`visited, this`pagesQueued
      ensures (result, visited) == Dedup(cfg, tasks, old(visited))
      ensures pagesQueued == old(pagesQueued) + |result|
    {
      result := [];
      var i := 0;
      assert tasks[0..] == tasks;
      while i < |tasks|
        invariant 0 <= i <= |tasks|
        invariant pagesQueued == old(pagesQueued) + |result|
        invariant Dedup(cfg, tasks, old(visited)).0 == result + Dedup(cfg, tasks[i..], visited).0
        invariant Dedup(cfg, tasks, old(visited)).1 == Dedup(cfg, tasks[i..], visited).1
      {
        var t := tasks[i];
        assert tasks[i..][0] == t && tasks[i..][1..] == tasks[i + 1..];
        ghost var more := Dedup(cfg, tasks[i + 1..], visited + {t.url}).0;
        assert result + ([t] + more) == (result + [t]) + more;
        assert result + [] == result;
        i := i + 1;
        if t.depth > cfg.maxDepth {
          continue;
        }
        if t.url in visited {
          continue;
        }
        if cfg.maxURLs > 0 && |visited| >= cfg.maxURLs {
          return;
        }
        visited := visited + {t.url};
        result := result + [t];
        pagesQueued := pagesQueued + 1;
      }
      assert result + [] == result;
    }

    /** Persists the URLs marked since the last flush. */
    method FlushVisited()
      modifies this`stored, this`newVisited
      ensures CoordView() == Flush(cfg, old(CoordView()))
    {
      if cfg.hasDb && |newVisited| > 0 {
        stored := stored + (set u | u in newVisited);
        newVisited := [];
      }
    }

    method NoteVisited(tasks: seq<CrawlTask>)
      modifies this`newVisited
      ensures newVisited == old(newVisited) + UrlSeq(tasks)
    {
      for i := 0 to |tasks|
        invariant newVisited == old(newVisited) + UrlSeq(tasks[..i])
      {
        newVisited := newVisited + [tasks[i].url];
        assert UrlSeq(tasks[..i + 1]) == UrlSeq(tasks[..i]) + [tasks[i].url];
      }
      assert tasks[..|tasks|] == tasks;
    }

    /** Normal completion: flush, clear the stored queue, close the task channel. */
    method ClearQueue()
      modifies this`overflow, this`stored, this`newVisited, this`savedQueue, this`phase, this`taskClosed, this`hist
      ensures CoordView() == Flush(cfg, old(CoordView())).(overflow := [], phase := JoinWorkers,
                               savedQueue := if cfg.hasDb then Some([]) else old(savedQueue))
      ensures taskClosed && hist == SetAside(old(hist), multiset(old(overflow)))
    {
      hist := SetAside(hist, multiset(overflow));
      FlushVisited();
      if cfg.hasDb {
        savedQueue := Some([]);
      }
      overflow, phase, taskClosed := [], JoinWorkers, true;
    }

    method Complete()
      modifies this`overflow, this`stored, this`newVisited, this`savedQueue, this`phase, this`taskClosed, this`hist
      ensures View() == LeaveLoop(cfg, old(View()))
    {
      hide Flush, SetAside;
      ClearQueue();
    }

    /** The loop condition and the URL-limit test. */
    method EvaluateLoop()
      requires phase.Head?
      modifies this
      ensures View() == CheckLoop(cfg, old(View()))
    {
      hide LeaveLoop, Flush, SetAside;
      if inFlight <= 0 && |overflow| == 0 {
        Complete();
      } else if !(cfg.maxURLs > 0 && pagesProcessed >= cfg.maxURLs) {
        phase := Select;
      } else if inFlight == 0 {
        Complete();
      } else {
        DropQueue();
      }
    }

    /** Under the URL limit whatever is still queued is given up. */
    method DropQueue()
      modifies this`overflow, this`phase, this`hist
      ensures overflow == [] && phase == LimitSelect && hist == SetAside(old(hist), multiset(old(overflow)))
    {
      hist := SetAside(hist, multiset(overflow));
      overflow, phase := [], LimitSelect;
    }

    /** The head of the overflow leaves for the task channel. */
    method PopOverflow()
      requires overflow != [] && !taskClosed
      modifies this`taskCh, this`overflow, this`inFlight, this`phase
      ensures taskCh == old(taskCh) + [old(overflow)[0]]
      ensures CoordView() == old(CoordView()).(overflow := old(overflow)[1..], inFlight := old(inFlight) + 1, phase := Head)
    {
      taskCh, overflow := taskCh + [overflow[0]], overflow[1..];
      inFlight, phase := inFlight + 1, Head;
    }

    method SendFirstOverflow()
      requires phase.Select? && overflow != []
      modifies this`panicked, this`taskCh, this`overflow, this`inFlight, this`phase
      ensures View() == SendOverflow(old(View()))
    {
      ghost var c := CoordView();
      assert c.overflow == overflow && c.inFlight == inFlight;
      hide CoordView;
      if taskClosed {
        panicked := true;
      } else {
        PopOverflow();
      }
    }

    /** Under the URL limit a batch is only counted. */
    method DropBatch()
      requires phase.LimitSelect? && discoveredCh != []
      modifies this`discoveredCh, this`inFlight, this`phase
      ensures View() == ReceiveBatch(cfg, old(View()))
    {
      hide Accept, Dedup;
      discoveredCh, inFlight, phase := discoveredCh[1..], inFlight - 1, Head;
    }

    /** What dedup accepts of the oldest batch is queued, or dispatched when nothing waits. */
    method AcceptBatch()
      requires discoveredCh != []
      modifies this`discoveredCh, this`visited, this`pagesQueued, this`newVisited, this`inFlight, this`overflow, this`phase, this`hist
      ensures discoveredCh == old(discoveredCh)[1..] && CoordView() == Accept(cfg, old(CoordView()), old(discoveredCh)[0])
      ensures hist == old(hist).(found := old(hist).found + Dedup(cfg, old(discoveredCh)[0], old(visited)).0)
    {
      hide Dedup, UrlSeq;
      var batch := discoveredCh[0];
      discoveredCh, inFlight := discoveredCh[1..], inFlight - 1;
      var newTasks := DeduplicateAndMark(batch);
      NoteVisited(newTasks);
      hist := hist.(found := hist.found + newTasks);
      if |overflow| > 0 {
        overflow, phase := overflow + newTasks, Head;
      } else {
        phase := Dispatch(newTasks);
      }
    }

    /** An ordinary select takes in the oldest batch. */
    method TakeInBatch()
      requires phase.Select? && discoveredCh != []
      modifies this`discoveredCh, this`visited, this`pagesQueued, this`newVisited, this`inFlight, this`overflow, this`phase, this`hist
      ensures View() == ReceiveBatch(cfg, old(View()))
    {
      hide Accept, Dedup;
      AcceptBatch();
    }

    /** A non-blocking send of one accepted task: to the channel when there is room, to the overflow when not. */
    method TrySend(t: CrawlTask, rest: seq<CrawlTask>)
      modifies this`taskCh, this`overflow, this`inFlight, this`phase
      ensures if |old(taskCh)| < cfg.queueSize
        then taskCh == old(taskCh) + [t] && CoordView() == old(CoordView()).(inFlight := old(inFlight) + 1, phase := Dispatch(rest))
        else taskCh == old(taskCh) && CoordView() == old(CoordView()).(overflow := old(overflow) + [t], phase := Dispatch(rest))
    {
      if |taskCh| < cfg.queueSize {
        taskCh, inFlight := taskCh + [t], inFlight + 1;
      } else {
        overflow := overflow + [t];
      }
      phase := Dispatch(rest);
    }

    method DispatchOne()
      requires phase.Dispatch?
      modifies this`panicked, this`taskCh, this`overflow, this`inFlight, this`phase
      ensures View() == DispatchNext(cfg, old(View()))
    {
      var rest := phase.rest;
      if rest == [] {
        SetPhase(Head);
      } else {
        ghost var c := CoordView();
        assert c.overflow == overflow && c.inFlight == inFlight && c.phase == phase;
        hide CoordView;
        if taskClosed {
          panicked := true;
        } else {
          TrySend(rest[0], rest[1..]);
        }
      }
    }

    method SetPhase(next: Phase)
      modifies this`phase
      ensures phase == next && CoordView() == old(CoordView()).(phase := next)
    {
      phase := next;
    }

    /** One turn of the drain: a batch comes in and all its tasks are kept. */
    method CollectBatch()
      requires discoveredCh != []
      modifies this`discoveredCh, this`inFlight, this`overflow
      ensures discoveredCh == old(discoveredCh)[1..] && inFlight == old(inFlight) - 1 && overflow == old(overflow) + old(discoveredCh)[0]
    {
      var batch := discoveredCh[0];
      discoveredCh, inFlight := discoveredCh[1..], inFlight - 1;
      for i := 0 to |batch|
        invariant overflow == old(overflow) + batch[..i]
        invariant discoveredCh == old(discoveredCh)[1..] && inFlight == old(inFlight) - 1
      {
        overflow := overflow + [batch[i]];
        assert batch[..i + 1] == batch[..i] + [batch[i]];
        assert old(overflow) + batch[..i] + [batch[i]] == old(overflow) + batch[..i + 1];
      }
      assert batch[..|batch|] == batch;
    }

    method DrainOne()
      requires phase.Drain? && inFlight > 0 && discoveredCh != []
      modifies this`discoveredCh, this`inFlight, this`overflow
      ensures View() == DrainBatch(old(View()))
    {
      CollectBatch();
    }

    /** Saves the queue and the visited rows at the end of the drain. */
    method SaveQueue()
      requires phase.Drain? && inFlight <= 0
      modifies this`savedQueue, this`stored, this`newVisited, this`phase
      ensures View() == FinishDrain(cfg, old(View()))
    {
      WriteQueue();
      hide Flush;
      phase := JoinWorkers;
    }

    method WriteQueue()
      modifies this`savedQueue, this`stored, this`newVisited
      ensures CoordView() == Flush(cfg, old(CoordView())).(savedQueue := if cfg.hasDb then Some(overflow) else old(savedQueue))
    {
      if !cfg.hasDb {
        return;
      }
      var remaining: seq<CrawlTask> := [];
      for i := 0 to |overflow|
        invariant remaining == overflow[..i]
        invariant CoordView() == old(CoordView())
      {
        remaining := remaining + [overflow[i]];
      }
      assert remaining == overflow;
      savedQueue := Some(remaining);
      FlushVisited();
    }

    method RunCoordinator(a: Action)
      requires Valid() && Enabled(params, View(), a) && !IsWorkerAction(a) && !IsIndexerAction(a)
      modifies this
      ensures View() == Apply(params, old(View()), a)
    {
      hide CheckLoop, SendOverflow, ReceiveBatch, DispatchNext, BeginDrain, DrainBatch, FinishDrain, CloseResults, FinishRun, Flush;
      match a
      case ACancel => cancelled := true;
      case ACheckLoop => EvaluateLoop();
      case ASendOverflow => SendFirstOverflow();
      case AReceiveBatch => if phase.LimitSelect? { DropBatch(); } else { TakeInBatch(); }
      case ADispatchNext => DispatchOne();
      case APersistTick => PersistTick();
      case ABeginDrain => StartDrain();
      case ADrainBatch => DrainOne();
      case AFinishDrain => SaveQueue();
      case ACloseResults => CloseResultsCh();
      case AFinishRun => SetStopReason();
    }

    method PersistTick()
      modifies this`stored, this`newVisited, this`phase
      ensures View() == old(View()).(coord := Flush(cfg, old(CoordView())).(phase := Head))
    {
      FlushVisited();
      hide Flush;
      SetPhase(Head);
    }

    /** Closes the task channel and begins to collect what is in flight. */
    method StartDrain()
      modifies this`hist, this`taskClosed, this`phase
      ensures View() == BeginDrain(old(View()))
    {
      hist := SetAside(hist, multiset(overflow));
      taskClosed, phase := true, Drain;
    }

    method CloseResultsCh()
      modifies this`panicked, this`resultsClosed, this`phase
      ensures View() == CloseResults(old(View()))
    {
      if resultsClosed { panicked := true; } else { resultsClosed, phase := true, JoinIndexer; }
    }

    method SetStopReason()
      modifies this`stopReason, this`phase
      ensures View() == FinishRun(cfg, old(View()))
    {
      stopReason := if cancelled then StoppedEarly
                    else if cfg.maxURLs > 0 && pagesProcessed >= cfg.maxURLs then UrlLimit else Completed;
      phase := Finished;
    }

    // ---------- Workers ----------

    /** A worker takes the oldest task. */
    method Take(w: nat)
      requires w < |workers| && taskCh != []
      modifies this`taskCh, this`workers
      ensures View() == SetWorker(old(View()), w, Holding(old(taskCh)[0])).(taskCh := old(taskCh)[1..])
    {
      workers := workers[w := Holding(taskCh[0])];
      taskCh := taskCh[1..];
    }

    /** Returns the task when the crawl has been cancelled, and starts fetching it otherwise. */
    method CheckTask(w: nat)
      requires w < |workers| && workers[w].Holding?
      modifies this`hist, this`workers
      ensures View() == CheckCancel(old(View()), w)
    {
      var task := workers[w].task;
      if cancelled {
        workers := workers[w := Posting([task])];
        hist := SetAside(hist, multiset{task});
      } else {
        workers := workers[w := Fetching(task)];
        hist := hist.(fetched := hist.fetched + [task]);
      }
    }

    /** The fetch ends, by itself or cut short. */
    method ProcessPage(w: nat, cut: bool)
      requires Valid() && w < |workers| && workers[w].Fetching?
      modifies this`hist, this`workers
      ensures View() == EndFetch(params, old(View()), w, cut)
    {
      var task := workers[w].task;
      if cut {
        workers := workers[w := Reporting(FailedRecord(task))];
        hist := hist.(aborted := hist.aborted + [task]);
      } else {
        workers := workers[w := Reporting(RecordOf(web, task))];
        hist := hist.(completed := hist.completed + [task]);
      }
    }

    /** Sends the record and builds the batch of its links. */
    method ReportPage(w: nat)
      requires w < |workers| && workers[w].Reporting?
      modifies this`resultsCh, this`panicked, this`workers
      ensures View() == SendRecord(old(View()), w)
    {
      var record := workers[w].record;
      if resultsClosed {
        panicked := true;
      } else {
        var newTasks := BuildBatch(record);
        resultsCh := resultsCh + [record];
        workers := workers[w := Posting(newTasks)];
      }
    }

    method PostBatch(w: nat)
      requires w < |workers| && workers[w].Posting?
      modifies this`discoveredCh, this`workers
      ensures View() == SendBatch(old(View()), w)
    {
      discoveredCh := discoveredCh + [workers[w].batch];
      workers := workers[w := Idle];
    }

    method Leave(w: nat)
      requires w < |workers|
      modifies this`workers
      ensures View() == SetWorker(old(View()), w, Exited)
    {
      workers := workers[w := Exited];
    }

    method RunWorker(a: Action)
      requires Valid() && Enabled(params, View(), a) && IsWorkerAction(a)
      modifies this
      ensures View() == Apply(params, old(View()), a)
    {
      hide CheckCancel, EndFetch, SendRecord, SendBatch, SetWorker;
      match a
      case ATake(w) => Take(w);
      case ACheckCancel(w) => CheckTask(w);
      case AEndFetch(w, cut) => ProcessPage(w, cut);
      case ASendRecord(w) => ReportPage(w);
      case ASendBatch(w) => PostBatch(w);
      case AExit(w) => Leave(w);
    }

    // ---------- Indexer ----------

    method ReceiveRecord()
      requires resultsCh != []
      modifies this`indexerPc, this`resultsCh
      ensures View() == old(View()).(indexer := old(View()).indexer.(pc := Adding(old(resultsCh)[0])), resultsCh := old(resultsCh)[1..])
    {
      indexerPc := Adding(resultsCh[0]);
      resultsCh := resultsCh[1..];
    }

    /** Indexes a page, or counts an error, and counts it as processed. */
    method IndexRecord()
      requires indexerPc.Adding?
      modifies this`docs, this`indexedDocs, this`pagesErrored, this`pagesProcessed, this`indexerPc, this`hist
      ensures View() == AddRecord(old(View()))
    {
      CountRecord(indexerPc.record);
    }

    method CountRecord(record: PageRecord)
      modifies this`docs, this`indexedDocs, this`pagesErrored, this`pagesProcessed, this`indexerPc, this`hist
      ensures docs == (if record.failed then old(docs) else old(docs) + [record])
      ensures indexedDocs == old(indexedDocs) + (if record.failed then 0 else 1)
      ensures pagesErrored == old(pagesErrored) + (if record.failed then 1 else 0)
      ensures pagesProcessed == old(pagesProcessed) + 1 && indexerPc == Waiting
      ensures hist == old(hist).(done := old(hist).done + [record])
    {
      if record.failed {
        pagesErrored := pagesErrored + 1;
      } else {
        docs, indexedDocs := docs + [record], indexedDocs + 1;
      }
      pagesProcessed, indexerPc := pagesProcessed + 1, Waiting;
      hist := hist.(done := hist.done + [record]);
    }

    method StopIndexer()
      modifies this`indexerPc
      ensures View() == old(View()).(indexer := old(View()).indexer.(pc := Stopped))
    {
      indexerPc := Stopped;
    }

    method RunIndexer(a: Action)
      requires Valid() && Enabled(params, View(), a) && IsIndexerAction(a)
      modifies this
      ensures View() == Apply(params, old(View()), a)
    {
      hide AddRecord;
      match a
      case AReceiveRecord => ReceiveRecord();
      case AAddRecord => IndexRecord();
      case AFlushTick =>
      case AStopIndexer => StopIndexer();
    }

    // ---------- Schedules ----------

    /** Running a schedule on the object reaches the state the step system reaches. */
    method RunSchedule(schedule: seq<Action>)
      requires Valid() && Exec(Stepper(params), View(), schedule).Some?
      modifies this
      ensures Some(View()) == Exec(Stepper(params), old(View()), schedule)
    {
      assert schedule[..0] == [];
      ghost var start := View();
      for i := 0 to |schedule|
        invariant Exec(Stepper(params), start, schedule[..i]) == Some(View())
      {
        var a := schedule[i];
        PrefixRuns(params, start, schedule, i + 1);
        assert schedule[..i + 1][..i] == schedule[..i];
        if IsWorkerAction(a) {
          RunWorker(a);
        } else if IsIndexerAction(a) {
          RunIndexer(a);
        } else {
          RunCoordinator(a);
        }
        hide Apply, Enabled;
      }
      assert schedule[..|schedule|] == schedule;
    }
  }

  /** Every prefix of a schedule that can be followed can be followed. */
  lemma {:induction false} PrefixRuns(p: Params, s: State, schedule: seq<Action>, n: nat)
    requires n <= |schedule| && Exec(Stepper(p), s, schedule).Some?
    ensures Exec(Stepper(p), s, schedule[..n]).Some?
    decreases |schedule|
  {
    hide Enabled, Apply;
    if n == |schedule| {
      assert schedule[..n] == schedule;
    } else {
      var shorter := schedule[..|schedule| - 1];
      assert shorter[..n] == schedule[..n];
      PrefixRuns(p, s, shorter, n);
    }
  }
}
