/**
 The crawl protocol as a step system: one coordinator, a pool of workers and one indexer,
 joined by three bounded FIFO channels. An `Action` names who moves next; `Enabled` says when
 it can, and `Apply` what it does. Everything between two communications of one goroutine is one
 action, so every interleaving of the program is a sequence of actions.
 */
module CrawlSystem {
  import opened Options
  import opened CrawlTypes
  import opened Runs

  /** `maxURLs` is unlimited when it is not positive; `hasDb` says a database is attached. */
  datatype Config = Config(maxDepth: int, maxURLs: int, numWorkers: nat, queueSize: nat, hasDb: bool)

  /** The counters a run is handed; a resumed session hands over those it stopped with. */
  datatype Counts = Counts(queued: int, processed: int, indexed: int, errored: int)

  const NO_COUNTS := Counts(0, 0, 0, 0)

  /** What one run starts from: configuration, web, initial visited set, queue, stored rows and counters. */
  datatype Params = Params(cfg: Config, web: Web, visited0: set<Url>, queue0: seq<CrawlTask>, stored0: set<Url>, counts0: Counts)

  ghost predicate WellFormed(p: Params) {
    p.cfg.numWorkers >= 1 && p.cfg.queueSize >= 1 && p.stored0 <= p.visited0
  }

  /** A fresh crawl marks and queues every seed at depth 0, duplicates included. */
  function FreshParams(cfg: Config, web: Web, seeds: seq<Url>): Params {
    Params(cfg, web, (set u | u in seeds), SeedTasks(seeds), {}, NO_COUNTS)
  }

  /** What a stopped crawl left behind. */
  datatype ResumeState = ResumeState(visited: set<Url>, queue: seq<CrawlTask>)

  /** A resume state that knows no visited URL is ignored, as if the crawl were fresh; the counters are kept. */
  function StartParams(cfg: Config, web: Web, seeds: seq<Url>, resume: Option<ResumeState>, counts: Counts): Params {
    if resume.Some? && |resume.value.visited| > 0
    then Params(cfg, web, resume.value.visited, resume.value.queue, resume.value.visited, counts)
    else FreshParams(cfg, web, seeds).(counts0 := counts)
  }

  function SeedTasks(seeds: seq<Url>): (ts: seq<CrawlTask>)
    ensures |ts| == |seeds| && forall i :: 0 <= i < |ts| ==> ts[i] == CrawlTask(seeds[i], "", 0)
  {
    seq(|seeds|, i requires 0 <= i < |seeds| => CrawlTask(seeds[i], "", 0))
  }

  // ---------- State ----------

  datatype Phase =
    | Head                         // about to evaluate the loop condition
    | Select                       // blocked in an ordinary select
    | LimitSelect                  // blocked in the URL-limit select
    | Dispatch(rest: seq<CrawlTask>) // pushing accepted tasks with non-blocking sends
    | Drain                        // collecting what is in flight after cancellation
    | JoinWorkers                  // coordinator returned, waiting for the workers
    | JoinIndexer                  // results channel closed, waiting for the indexer
    | Finished

  datatype Worker =
    | Idle
    | Holding(task: CrawlTask)     // task taken, cancellation not yet checked
    | Fetching(task: CrawlTask)
    | Reporting(record: PageRecord)
    | Posting(batch: seq<CrawlTask>)
    | Exited

  datatype IndexerState = Waiting | Adding(record: PageRecord) | Stopped

  datatype StopReason = Unset | StoppedEarly | UrlLimit | Completed

  /** What the run has done so far; nothing in the protocol reads it. */
  datatype History = History(
    found: seq<CrawlTask>,         // tasks accepted from batches, in order, after the initial queue
    fetched: seq<CrawlTask>,       // every task whose fetch was started
    setAside: multiset<CrawlTask>, // accepted tasks given up unfetched
    completed: seq<CrawlTask>,     // fetches that ran to their end
    aborted: seq<CrawlTask>,       // fetches cut short by cancellation
    done: seq<PageRecord>)         // records the indexer has finished, in order

  /** The coordinator's variables, with the counter only it advances and the tables only it writes. */
  datatype Coordinator = Coordinator(
    phase: Phase, visited: set<Url>, overflow: seq<CrawlTask>, inFlight: int, newVisited: seq<Url>,
    pagesQueued: int, stored: set<Url>, savedQueue: Option<seq<CrawlTask>>)

  datatype Indexer = Indexer(pc: IndexerState, docs: seq<PageRecord>, indexedDocs: int, pagesProcessed: int, pagesErrored: int)

  datatype State = State(
    cancelled: bool,
    panicked: bool,                // a send on, or a second close of, a closed channel
    taskCh: seq<CrawlTask>, taskClosed: bool,
    discoveredCh: seq<seq<CrawlTask>>,
    resultsCh: seq<PageRecord>, resultsClosed: bool,
    coord: Coordinator, workers: seq<Worker>, indexer: Indexer,
    stopReason: StopReason,
    hist: History)

  /** The initial non-blocking sends: they fill `taskCh` first and spill the rest. */
  function InitiallyEnqueued(p: Params): nat {
    if |p.queue0| <= p.cfg.queueSize then |p.queue0| else p.cfg.queueSize
  }

  function Init(p: Params): State {
    var n := InitiallyEnqueued(p);
    State(false, false, p.queue0[..n], false, [], [], false,
          Coordinator(Head, p.visited0, p.queue0[n..], n, [], p.counts0.queued + |p.queue0|, p.stored0, None),
          seq(p.cfg.numWorkers, _ => Idle),
          Indexer(Waiting, [], p.counts0.indexed, p.counts0.processed, p.counts0.errored),
          Unset,
          History([], [], multiset{}, [], [], []))
  }

  // ---------- Coordinator ----------

  /** The tasks of a batch that pass the depth, visited and MaxURLs checks, and the visited set after. */
  function Dedup(cfg: Config, batch: seq<CrawlTask>, visited: set<Url>): (seq<CrawlTask>, set<Url>) {
    if batch == [] then ([], visited)
    else if batch[0].depth > cfg.maxDepth || batch[0].url in visited then Dedup(cfg, batch[1..], visited)
    else if AtUrlCap(cfg, visited) then ([], visited)
    else
      var (rest, marked) := Dedup(cfg, batch[1..], visited + {batch[0].url});
      ([batch[0]] + rest, marked)
  }

  predicate AtUrlCap(cfg: Config, visited: set<Url>) {
    cfg.maxURLs > 0 && |visited| >= cfg.maxURLs
  }

  predicate UrlLimitReached(cfg: Config, s: State) {
    cfg.maxURLs > 0 && s.indexer.pagesProcessed >= cfg.maxURLs
  }

  function UrlSeq(ts: seq<CrawlTask>): (us: seq<Url>)
    ensures |us| == |ts| && forall i :: 0 <= i < |us| ==> us[i] == ts[i].url
  {
    seq(|ts|, i requires 0 <= i < |ts| => ts[i].url)
  }

  /** Persisting the URLs marked since the last flush; without a database they just pile up. */
  function Flush(cfg: Config, c: Coordinator): Coordinator {
    c.(stored := if cfg.hasDb then c.stored + (set u | u in c.newVisited) else c.stored,
       newVisited := if cfg.hasDb then [] else c.newVisited)
  }

  /** Leaving the loop: flush, clear the stored queue, and close `taskCh` on return. */
  function LeaveLoop(cfg: Config, s: State): State {
    s.(coord := Flush(cfg, s.coord).(overflow := [], phase := JoinWorkers,
                                     savedQueue := if cfg.hasDb then Some([]) else s.coord.savedQueue),
       taskClosed := true,
       hist := SetAside(s.hist, multiset(s.coord.overflow)))
  }

  function SetAside(h: History, ts: multiset<CrawlTask>): History {
    h.(setAside := h.setAside + ts)
  }

  /** The loop condition, then the URL-limit test; the limit drops whatever is still queued. */
  function CheckLoop(cfg: Config, s: State): State {
    if s.coord.inFlight <= 0 && s.coord.overflow == [] then LeaveLoop(cfg, s)
    else if !UrlLimitReached(cfg, s) then s.(coord := s.coord.(phase := Select))
    else if s.coord.inFlight == 0 then LeaveLoop(cfg, s)
    else s.(coord := s.coord.(overflow := [], phase := LimitSelect), hist := SetAside(s.hist, multiset(s.coord.overflow)))
  }

  function SendOverflow(s: State): State
    requires s.coord.overflow != []
  {
    if s.taskClosed then s.(panicked := true)
    else s.(taskCh := s.taskCh + [s.coord.overflow[0]],
            coord := s.coord.(overflow := s.coord.overflow[1..], inFlight := s.coord.inFlight + 1, phase := Head))
  }

  /** Taking in one batch in an ordinary select: the accepted tasks are queued, or dispatched when nothing waits. */
  function Accept(cfg: Config, c: Coordinator, batch: seq<CrawlTask>): Coordinator {
    var (found, marked) := Dedup(cfg, batch, c.visited);
    Coordinator(if c.overflow != [] then Head else Dispatch(found), marked,
                if c.overflow != [] then c.overflow + found else c.overflow,
                c.inFlight - 1, c.newVisited + UrlSeq(found), c.pagesQueued + |found|, c.stored, c.savedQueue)
  }

  function ReceiveBatch(cfg: Config, s: State): State
    requires s.discoveredCh != []
  {
    if s.coord.phase.LimitSelect?
    then s.(discoveredCh := s.discoveredCh[1..], coord := s.coord.(inFlight := s.coord.inFlight - 1, phase := Head))
    else s.(discoveredCh := s.discoveredCh[1..], coord := Accept(cfg, s.coord, s.discoveredCh[0]),
            hist := s.hist.(found := s.hist.found + Dedup(cfg, s.discoveredCh[0], s.coord.visited).0))
  }

  /** The next accepted task: onto `taskCh` if there is room, into the overflow if not. */
  function DispatchNext(cfg: Config, s: State): State
    requires s.coord.phase.Dispatch?
  {
    var rest := s.coord.phase.rest;
    if rest == [] then s.(coord := s.coord.(phase := Head))
    else if |s.taskCh| >= cfg.queueSize && !s.taskClosed
    then s.(coord := s.coord.(overflow := s.coord.overflow + [rest[0]], phase := Dispatch(rest[1..])))
    else if s.taskClosed then s.(panicked := true)
    else s.(taskCh := s.taskCh + [rest[0]], coord := s.coord.(inFlight := s.coord.inFlight + 1, phase := Dispatch(rest[1..])))
  }

  function BeginDrain(s: State): State {
    s.(taskClosed := true, coord := s.coord.(phase := Drain), hist := SetAside(s.hist, multiset(s.coord.overflow)))
  }

  function DrainBatch(s: State): State
    requires s.discoveredCh != []
  {
    s.(discoveredCh := s.discoveredCh[1..],
       coord := s.coord.(inFlight := s.coord.inFlight - 1, overflow := s.coord.overflow + s.discoveredCh[0]))
  }

  /** Saving the queue and the visited rows, then returning. */
  function FinishDrain(cfg: Config, s: State): State {
    s.(coord := Flush(cfg, s.coord).(phase := JoinWorkers,
                                     savedQueue := if cfg.hasDb then Some(s.coord.overflow) else s.coord.savedQueue))
  }

  // ---------- Start, after the coordinator has returned ----------

  function CloseResults(s: State): State {
    if s.resultsClosed then s.(panicked := true) else s.(resultsClosed := true, coord := s.coord.(phase := JoinIndexer))
  }

  function FinishRun(cfg: Config, s: State): State {
    s.(coord := s.coord.(phase := Finished),
       stopReason := if s.cancelled then StoppedEarly else if UrlLimitReached(cfg, s) then UrlLimit else Completed)
  }

  // ---------- Workers ----------

  function SetWorker(s: State, w: nat, x: Worker): State
    requires w < |s.workers|
  {
    s.(workers := s.workers[w := x])
  }

  function CheckCancel(s: State, w: nat): State
    requires w < |s.workers| && s.workers[w].Holding?
  {
    var t := s.workers[w].task;
    if s.cancelled
    then SetWorker(s, w, Posting([t])).(hist := s.hist.(setAside := s.hist.setAside + multiset{t}))
    else SetWorker(s, w, Fetching(t)).(hist := s.hist.(fetched := s.hist.fetched + [t]))
  }

  /** A fetch runs to its end unless cancellation cuts it short. */
  function EndFetch(p: Params, s: State, w: nat, cut: bool): State
    requires w < |s.workers| && s.workers[w].Fetching?
  {
    var t := s.workers[w].task;
    if cut
    then SetWorker(s, w, Reporting(FailedRecord(t))).(hist := s.hist.(aborted := s.hist.aborted + [t]))
    else SetWorker(s, w, Reporting(RecordOf(p.web, t))).(hist := s.hist.(completed := s.hist.completed + [t]))
  }

  function SendRecord(s: State, w: nat): State
    requires w < |s.workers| && s.workers[w].Reporting?
  {
    var r := s.workers[w].record;
    if s.resultsClosed then s.(panicked := true)
    else SetWorker(s, w, Posting(BatchOf(r))).(resultsCh := s.resultsCh + [r])
  }

  function SendBatch(s: State, w: nat): State
    requires w < |s.workers| && s.workers[w].Posting?
  {
    SetWorker(s, w, Idle).(discoveredCh := s.discoveredCh + [s.workers[w].batch])
  }

  // ---------- Indexer ----------

  function AddRecord(s: State): State
    requires s.indexer.pc.Adding?
  {
    var r := s.indexer.pc.record;
    s.(indexer := Indexer(Waiting, if r.failed then s.indexer.docs else s.indexer.docs + [r],
                          if r.failed then s.indexer.indexedDocs else s.indexer.indexedDocs + 1,
                          s.indexer.pagesProcessed + 1,
                          if r.failed then s.indexer.pagesErrored + 1 else s.indexer.pagesErrored),
       hist := s.hist.(done := s.hist.done + [r]))
  }

  // ---------- Actions ----------

  datatype Action =
    | ACancel
    | ACheckLoop | ASendOverflow | AReceiveBatch | ADispatchNext | APersistTick
    | ABeginDrain | ADrainBatch | AFinishDrain | ACloseResults | AFinishRun
    | ATake(w: nat) | ACheckCancel(w: nat) | AEndFetch(w: nat, cut: bool) | ASendRecord(w: nat) | ASendBatch(w: nat) | AExit(w: nat)
    | AReceiveRecord | AAddRecord | AFlushTick | AStopIndexer

  /** The two tickers fire with real time, not with progress. */
  predicate IsTick(a: Action) { a.APersistTick? || a.AFlushTick? }

  predicate IsWorkerAction(a: Action) {
    a.ATake? || a.ACheckCancel? || a.AEndFetch? || a.ASendRecord? || a.ASendBatch? || a.AExit?
  }

  predicate IsIndexerAction(a: Action) {
    a.AReceiveRecord? || a.AAddRecord? || a.AFlushTick? || a.AStopIndexer?
  }

  predicate InSelect(s: State) { s.coord.phase.Select? || s.coord.phase.LimitSelect? }

  predicate Enabled(p: Params, s: State, a: Action) {
    match a
    case ACancel => !s.cancelled
    case ACheckLoop => s.coord.phase.Head?
    case ASendOverflow => s.coord.phase.Select? && s.coord.overflow != [] && (s.taskClosed || |s.taskCh| < p.cfg.queueSize)
    case AReceiveBatch => InSelect(s) && s.discoveredCh != []
    case ADispatchNext => s.coord.phase.Dispatch?
    case APersistTick => s.coord.phase.Select?
    case ABeginDrain => InSelect(s) && s.cancelled
    case ADrainBatch => s.coord.phase.Drain? && s.coord.inFlight > 0 && s.discoveredCh != []
    case AFinishDrain => s.coord.phase.Drain? && s.coord.inFlight <= 0
    case ACloseResults => s.coord.phase.JoinWorkers? && forall i :: 0 <= i < |s.workers| ==> s.workers[i].Exited?
    case AFinishRun => s.coord.phase.JoinIndexer? && s.indexer.pc.Stopped?
    case ATake(w) => w < |s.workers| && s.workers[w].Idle? && s.taskCh != []
    case ACheckCancel(w) => w < |s.workers| && s.workers[w].Holding?
    case AEndFetch(w, cut) => w < |s.workers| && s.workers[w].Fetching? && (cut ==> s.cancelled)
    case ASendRecord(w) => w < |s.workers| && s.workers[w].Reporting? && (s.resultsClosed || |s.resultsCh| < 2 * p.cfg.numWorkers)
    case ASendBatch(w) => w < |s.workers| && s.workers[w].Posting? && |s.discoveredCh| < 2 * p.cfg.numWorkers
    case AExit(w) => w < |s.workers| && s.workers[w].Idle? && s.taskCh == [] && s.taskClosed
    case AReceiveRecord => s.indexer.pc.Waiting? && s.resultsCh != []
    case AAddRecord => s.indexer.pc.Adding?
    case AFlushTick => s.indexer.pc.Waiting?
    case AStopIndexer => s.indexer.pc.Waiting? && s.resultsCh == [] && s.resultsClosed
  }

  function Apply(p: Params, s: State, a: Action): State
    requires Enabled(p, s, a)
  {
    match a
    case ACancel => s.(cancelled := true)
    case ACheckLoop => CheckLoop(p.cfg, s)
    case ASendOverflow => SendOverflow(s)
    case AReceiveBatch => ReceiveBatch(p.cfg, s)
    case ADispatchNext => DispatchNext(p.cfg, s)
    case APersistTick => s.(coord := Flush(p.cfg, s.coord).(phase := Head))
    case ABeginDrain => BeginDrain(s)
    case ADrainBatch => DrainBatch(s)
    case AFinishDrain => FinishDrain(p.cfg, s)
    case ACloseResults => CloseResults(s)
    case AFinishRun => FinishRun(p.cfg, s)
    case ATake(w) => SetWorker(s, w, Holding(s.taskCh[0])).(taskCh := s.taskCh[1..])
    case ACheckCancel(w) => CheckCancel(s, w)
    case AEndFetch(w, cut) => EndFetch(p, s, w, cut)
    case ASendRecord(w) => SendRecord(s, w)
    case ASendBatch(w) => SendBatch(s, w)
    case AExit(w) => SetWorker(s, w, Exited)
    case AReceiveRecord => s.(indexer := s.indexer.(pc := Adding(s.resultsCh[0])), resultsCh := s.resultsCh[1..])
    case AAddRecord => AddRecord(s)
    case AFlushTick => s
    case AStopIndexer => s.(indexer := s.indexer.(pc := Stopped))
  }

  // ---------- Runs ----------

  function Step(p: Params, s: State, a: Action): Option<State> {
    if Enabled(p, s, a) then Some(Apply(p, s, a)) else None
  }

  function Stepper(p: Params): (State, Action) -> Option<State> {
    (s, a) => Step(p, s, a)
  }

  /** The state a schedule leads to from the start, or None when the schedule cannot be followed. */
  function After(p: Params, acts: seq<Action>): Option<State> {
    Exec(Stepper(p), Init(p), acts)
  }
}
