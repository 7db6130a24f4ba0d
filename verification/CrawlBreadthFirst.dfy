/**
 With one worker the crawl is breadth first: each accepted task's depth is its shortest link distance, everything
 nearer than a visited page has been visited, and an uncancelled run that stays below the URL limit visits exactly
 the ball of radius MaxDepth, although the non-blocking sends may reorder the tasks of one batch between the channel
 and the overflow.
 */
module CrawlBreadthFirst {
  import opened Options
  import opened CrawlTypes
  import opened CrawlSystem
  import opened CrawlSafety
  import opened CrawlLedger
  import opened CrawlOnce
  import opened CrawlTrace
  import opened CrawlTermination
  import opened CrawlCoverage
  import opened CrawlOutcome
  import opened Runs
  import opened Tally

  ghost predicate OneWorker(p: Params) {
    p.cfg.numWorkers == 1
  }

  // ---------- The pipeline, read as depths ----------

  function Depths(ts: seq<CrawlTask>): (ks: seq<int>)
    ensures |ks| == |ts| && forall i :: 0 <= i < |ks| ==> ks[i] == ts[i].depth
  {
    seq(|ts|, i requires 0 <= i < |ts| => ts[i].depth)
  }

  /** The depth of the page a batch came from, once per task in it. */
  function Parents(ts: seq<CrawlTask>): (ks: seq<int>)
    ensures |ks| == |ts| && forall i :: 0 <= i < |ks| ==> ks[i] == ts[i].depth - 1
  {
    seq(|ts|, i requires 0 <= i < |ts| => ts[i].depth - 1)
  }

  function AllParents(bs: seq<seq<CrawlTask>>): seq<int> {
    if bs == [] then [] else Parents(bs[0]) + AllParents(bs[1..])
  }

  function WorkerDepths(w: Worker): seq<int> {
    match w
    case Holding(t) => [t.depth]
    case Fetching(t) => [t.depth]
    case Reporting(r) => Parents(BatchOf(r))
    case Posting(b) => Parents(b)
    case _ => []
  }

  function RestOf(c: Coordinator): seq<CrawlTask> {
    if c.phase.Dispatch? then c.phase.rest else []
  }

  /** Depths of the pages still to be expanded, from the oldest batch to the youngest queued task. */
  function Pipeline(s: State): seq<int>
    requires |s.workers| == 1
  {
    Line(AllParents(s.discoveredCh), WorkerDepths(s.workers[0]), Depths(s.taskCh), Depths(s.coord.overflow), Depths(RestOf(s.coord)))
  }

  function Line(batches: seq<int>, worker: seq<int>, waiting: seq<int>, overflow: seq<int>, rest: seq<int>): seq<int> {
    batches + worker + waiting + overflow + rest
  }

  lemma LineTake(a: seq<int>, x: int, c: seq<int>, d: seq<int>, e: seq<int>)
    ensures Line(a, [x], c, d, e) == Line(a, [], [x] + c, d, e)
  {
    assert a + [] + ([x] + c) == a + [x] + c;
  }

  lemma LineSend(a: seq<int>, b: seq<int>, c: seq<int>, x: int, d: seq<int>, e: seq<int>)
    ensures Line(a, b, c + [x], d, e) == Line(a, b, c, [x] + d, e)
  {
    assert a + b + (c + [x]) + d == a + b + c + ([x] + d);
  }

  /** Tasks of one batch may trade places: moving one past others of its own depth changes nothing. */
  lemma LineDispatch(a: seq<int>, b: seq<int>, c: seq<int>, x: int, d: seq<int>, e: seq<int>)
    requires forall k :: k in d ==> k == x
    ensures Line(a, b, c + [x], d, e) == Line(a, b, c, d, [x] + e)
    ensures Line(a, b, c, d + [x], e) == Line(a, b, c, d, [x] + e)
  {
    assert [x] + d == d + [x] by {
      forall i | 0 <= i < |d| + 1 ensures ([x] + d)[i] == x && (d + [x])[i] == x {
        assert 0 < i ==> d[i - 1] in d;
        assert i < |d| ==> d[i] in d;
      }
    }
    assert a + b + (c + [x]) + d == a + b + c + ([x] + d);
    assert a + b + c + (d + [x]) + e == a + b + c + d + ([x] + e);
  }

  /** Ordered by depth, and never spanning more than two levels. */
  ghost predicate Window(ks: seq<int>) {
    forall i, j :: 0 <= i < j < |ks| ==> ks[i] <= ks[j] <= ks[i] + 1
  }

  ghost predicate SameDepth(ts: seq<CrawlTask>) {
    forall x, y :: x in ts && y in ts ==> x.depth == y.depth
  }

  // ---------- Windows ----------

  lemma WindowExpand(a: seq<int>, d: int, b: seq<int>, ds: seq<int>)
    requires Window(a + [d] + b) && forall k :: k in ds ==> k == d
    ensures Window(a + ds + b)
  {
    var was, now := a + [d] + b, a + ds + b;
    forall i, j | 0 <= i < j < |now| ensures now[i] <= now[j] <= now[i] + 1 {
      var i' := if i < |a| then i else if i < |a| + |ds| then |a| else i - |ds| + 1;
      var j' := if j < |a| then j else if j < |a| + |ds| then |a| else j - |ds| + 1;
      assert |a| <= i < |a| + |ds| ==> ds[i - |a|] in ds;
      assert |a| <= j < |a| + |ds| ==> ds[j - |a|] in ds;
      assert was[i'] == now[i] && was[j'] == now[j];
    }
  }

  lemma WindowRotate(front: seq<int>, d: int, rest: seq<int>, back: seq<int>)
    requires Window(front + rest) && (forall k :: k in front ==> k == d) && (forall k :: k in back ==> k == d + 1)
    requires back != [] ==> front != []
    ensures Window(rest + back)
  {
    var was, now := front + rest, rest + back;
    forall i, j | 0 <= i < j < |now| ensures now[i] <= now[j] <= now[i] + 1 {
      if j < |rest| {
        assert was[|front| + i] == now[i] && was[|front| + j] == now[j];
      } else if i < |rest| {
        assert now[j] in back && front[0] in front;
        assert was[0] == front[0] && was[|front| + i] == now[i];
      } else {
        assert now[i] in back && now[j] in back;
      }
    }
  }

  lemma DepthsConcat(a: seq<CrawlTask>, b: seq<CrawlTask>)
    ensures Depths(a + b) == Depths(a) + Depths(b)
  {}

  lemma {:induction false} ParentsAppend(bs: seq<seq<CrawlTask>>, b: seq<CrawlTask>)
    ensures AllParents(bs + [b]) == AllParents(bs) + Parents(b)
  {
    if bs == [] {
      assert bs + [b] == [b];
      assert AllParents([b]) == Parents(b) + AllParents([]);
    } else {
      assert (bs + [b])[1..] == bs[1..] + [b];
      ParentsAppend(bs[1..], b);
    }
  }

  // ---------- The invariant ----------

  ghost predicate Uniform(s: State) {
    && (forall b :: b in s.discoveredCh ==> SameDepth(b))
    && (forall w :: w in s.workers && w.Posting? ==> SameDepth(w.batch))
    && (s.coord.phase.Dispatch? ==> SameDepth(s.coord.overflow + s.coord.phase.rest))
  }

  /** No accepted URL lies nearer to a seed than its task's depth. */
  ghost predicate NoShortcut(p: Params, t: CrawlTask) {
    t.depth > 0 ==> t.url !in Ball(p.web, p.visited0, t.depth - 1)
  }

  /** Everything nearer than an accepted task's depth has been visited. */
  ghost predicate Nearest(p: Params, visited: set<Url>, t: CrawlTask) {
    t.depth > 0 ==> Ball(p.web, p.visited0, t.depth - 1) <= visited
  }

  ghost predicate AllFirst(p: Params, visited: set<Url>, found: seq<CrawlTask>) {
    forall t :: t in found ==> NoShortcut(p, t) && Nearest(p, visited, t)
  }

  ghost predicate Layered(p: Params, s: State) {
    && |s.workers| == 1
    && Window(Pipeline(s)) && Uniform(s)
    && AllFirst(p, s.coord.visited, s.hist.found)
  }

  // ---------- Workers ----------

  lemma TakeKeepsPipeline(p: Params, s: State, w: nat)
    requires |s.workers| == 1 && Enabled(p, s, ATake(w))
    ensures Pipeline(Apply(p, s, ATake(w))) == Pipeline(s)
  {
    hide Line, AllParents;
    var t := s.taskCh[0];
    assert Depths(s.taskCh) == [t.depth] + Depths(s.taskCh[1..]);
    LineTake(AllParents(s.discoveredCh), t.depth, Depths(s.taskCh[1..]), Depths(s.coord.overflow), Depths(RestOf(s.coord)));
  }

  lemma EndFetchKeepsWindow(p: Params, s: State, w: nat)
    requires |s.workers| == 1 && Window(Pipeline(s)) && w < 1 && s.workers[w].Fetching?
    ensures Window(Pipeline(EndFetch(p, s, w, false)))
  {
    var t := s.workers[0].task;
    var ds := Parents(BatchOf(RecordOf(p.web, t)));
    hide Window, AllParents;
    LineExpand(AllParents(s.discoveredCh), t.depth, Depths(s.taskCh), Depths(s.coord.overflow), Depths(RestOf(s.coord)), ds);
  }

  lemma LineExpand(a: seq<int>, x: int, c: seq<int>, d: seq<int>, e: seq<int>, ds: seq<int>)
    requires Window(Line(a, [x], c, d, e)) && forall k :: k in ds ==> k == x
    ensures Window(Line(a, ds, c, d, e))
  {
    assert Line(a, [x], c, d, e) == a + [x] + (c + d + e);
    assert Line(a, ds, c, d, e) == a + ds + (c + d + e);
    WindowExpand(a, x, c + d + e, ds);
  }

  lemma SendBatchKeepsPipeline(p: Params, s: State, w: nat)
    requires |s.workers| == 1 && w < 1 && s.workers[w].Posting?
    ensures Pipeline(SendBatch(s, w)) == Pipeline(s)
  {
    hide AllParents;
    ParentsAppend(s.discoveredCh, s.workers[0].batch);
  }

  lemma WorkerKeepsWindow(p: Params, s: State, a: Action)
    requires |s.workers| == 1 && Window(Pipeline(s)) && !s.resultsClosed
    requires Enabled(p, s, a) && IsWorkerAction(a) && !s.cancelled
    ensures Window(Pipeline(Apply(p, s, a)))
  {
    hide Window, Line, AllParents, Depths, RecordOf, EndFetch, SendBatch, RestOf;
    if a.ATake? {
      TakeKeepsPipeline(p, s, a.w);
    } else if a.AEndFetch? {
      EndFetchKeepsWindow(p, s, a.w);
    } else if a.ASendBatch? {
      SendBatchKeepsPipeline(p, s, a.w);
    }
  }

  lemma WorkerKeepsUniform(p: Params, s: State, a: Action)
    requires Uniform(s) && Enabled(p, s, a) && IsWorkerAction(a) && !s.cancelled && !s.resultsClosed
    ensures Uniform(Apply(p, s, a))
  {
    assert s.workers[a.w] in s.workers;
  }

  // ---------- Levels ----------

  lemma InLine(a: seq<int>, b: seq<int>, c: seq<int>, d: seq<int>, e: seq<int>, k: int)
    requires k in a || k in b || k in c || k in d || k in e
    ensures k in Line(a, b, c, d, e)
  {}

  lemma {:induction false} InAllParents(bs: seq<seq<CrawlTask>>, b: seq<CrawlTask>, k: int)
    requires b in bs && k in Parents(b)
    ensures k in AllParents(bs)
  {
    if b != bs[0] {
      InAllParents(bs[1..], b, k);
    }
  }

  lemma InDepths(ts: seq<CrawlTask>, t: CrawlTask)
    requires t in ts
    ensures t.depth in Depths(ts)
  {
    var i :| 0 <= i < |ts| && ts[i] == t;
    assert Depths(ts)[i] == t.depth;
  }

  /** A task still to be fetched shows in the pipeline. */
  lemma UnfetchedInPipeline(s: State, t: CrawlTask)
    requires |s.workers| == 1 && (t in StillQueued(s) || t in s.taskCh || t in HeldTasks(s.workers) || Fetching(t) in s.workers)
    ensures t.depth in Pipeline(s)
  {
    hide Line;
    assert t in s.coord.overflow || t in RestOf(s.coord) || t in s.taskCh || Holding(t) in s.workers || Fetching(t) in s.workers;
    if t in s.coord.overflow {
      InDepths(s.coord.overflow, t);
    } else if t in RestOf(s.coord) {
      InDepths(RestOf(s.coord), t);
    } else if t in s.taskCh {
      InDepths(s.taskCh, t);
    }
    InLine(AllParents(s.discoveredCh), WorkerDepths(s.workers[0]), Depths(s.taskCh), Depths(s.coord.overflow), Depths(RestOf(s.coord)), t.depth);
  }

  /** So does a fetched page whose non-empty batch is still on its way. */
  lemma PendingInPipeline(p: Params, s: State, t: CrawlTask)
    requires |s.workers| == 1 && Pending(p, s, t) && LinksOf(p.web, t.url) != []
    ensures t.depth in Pipeline(s)
  {
    hide Line;
    var batch := LinkTasks(t, LinksOf(p.web, t.url));
    assert Parents(batch)[0] == t.depth;
    if batch in s.discoveredCh {
      InAllParents(s.discoveredCh, batch, t.depth);
    } else if Reporting(RecordOf(p.web, t)) in s.workers {
      assert BatchOf(RecordOf(p.web, t)) == batch;
    }
    InLine(AllParents(s.discoveredCh), WorkerDepths(s.workers[0]), Depths(s.taskCh), Depths(s.coord.overflow), Depths(RestOf(s.coord)), t.depth);
  }

  ghost predicate Regular(p: Params, s: State) {
    FreshStart(p) && OneWorker(p) && Sound(p, s) && Undisturbed(p, s) && AllExpanded(p, s) && Layered(p, s)
  }

  /** An accepted task shallower than all of the pipeline has been fetched, and its links visited. */
  lemma ShallowIsExpanded(p: Params, s: State, t: CrawlTask, m: nat)
    requires Regular(p, s) && !AtUrlCap(p.cfg, s.coord.visited) && t in Accepted(p, s) && t.depth < m <= p.cfg.maxDepth
    requires forall k :: k in Pipeline(s) ==> m <= k
    ensures LinksVisited(p, s.coord.visited, t)
  {
    InHandCount(p, s);
    hide Pipeline, Accepted, Layered, Sound;
    assert Layered(p, s) ==> |s.workers| == 1 by { LayeredHasOne(p, s); }
    assert t in multiset(Accepted(p, s));
    assert t in InHandOrFetched(s);
    if t in StillQueued(s) || t in s.taskCh || t in HeldTasks(s.workers) {
      UnfetchedInPipeline(s, t);
    }
    assert t in s.hist.fetched;
    assert Expanded(p, s, t);
    if LinksOf(p.web, t.url) != [] && Pending(p, s, t) {
      PendingInPipeline(p, s, t);
    }
  }

  lemma LayeredHasOne(p: Params, s: State)
    requires Layered(p, s)
    ensures |s.workers| == 1
  {}

  /** When nothing shallower than `m` is left in the pipeline, the ball of radius `m` has been visited. */
  lemma {:induction false} LevelsComplete(p: Params, s: State, j: nat, m: nat)
    requires Regular(p, s) && !AtUrlCap(p.cfg, s.coord.visited) && j <= m && (j > 0 ==> m <= p.cfg.maxDepth)
    requires forall k :: k in Pipeline(s) ==> m <= k
    ensures Ball(p.web, p.visited0, j) <= s.coord.visited
    decreases j
  {
    hide Pipeline, Regular;
    if j > 0 {
      LevelsComplete(p, s, j - 1, m);
      RegularHasOne(p, s);
      forall v | v in Neighbours(p.web, Ball(p.web, p.visited0, j - 1)) ensures v in s.coord.visited {
        var u := LinkInto(p.web, Ball(p.web, p.visited0, j - 1), v);
        NextLevel(p, s, u, v, j - 1, m);
      }
    } else {
      SeedsVisited(p, s);
    }
  }

  lemma RegularHasOne(p: Params, s: State)
    requires Regular(p, s)
    ensures |s.workers| == 1
  {}

  lemma SeedsVisited(p: Params, s: State)
    requires Regular(p, s)
    ensures p.visited0 <= s.coord.visited
  {}

  lemma NextLevel(p: Params, s: State, u: Url, v: Url, j: nat, m: nat)
    requires Regular(p, s) && !AtUrlCap(p.cfg, s.coord.visited) && j < m <= p.cfg.maxDepth && u in s.coord.visited
    requires u in Ball(p.web, p.visited0, j) && v in LinksOf(p.web, u)
    requires forall k :: k in Pipeline(s) ==> m <= k
    ensures v in s.coord.visited
  {
    VisitedIsAccepted(p, s, u);
    var t :| t in Accepted(p, s) && t.url == u;
    DepthAtMost(p, s, t, j);
    ShallowIsExpanded(p, s, t, m);
    hide Regular;
  }

  lemma DepthAtMost(p: Params, s: State, t: CrawlTask, j: nat)
    requires FreshStart(p) && Layered(p, s) && t in Accepted(p, s) && t.url in Ball(p.web, p.visited0, j)
    ensures t.depth <= j
  {
    hide Ball, Nearest, Window, Pipeline, Uniform;
    if t.depth > j {
      assert NoShortcut(p, t);
      BallMonotone(p.web, p.visited0, j, t.depth - 1);
    }
  }

  // ---------- The coordinator ----------

  lemma LineReceive(b: seq<int>, a: seq<int>, w: seq<int>, c: seq<int>, d: seq<int>, x: seq<int>)
    ensures Line(b + a, w, c, d, []) == b + Line(a, w, c, d, [])
    ensures Line(a, w, c, d + x, []) == Line(a, w, c, d, []) + x
    ensures Line(a, w, c, d, x) == Line(a, w, c, d, []) + x
  {
    assert a + w + c + (d + x) == a + w + c + d + x;
  }

  lemma ReceiveKeepsWindow(p: Params, s: State)
    requires |s.workers| == 1 && Window(Pipeline(s)) && Uniform(s) && s.coord.phase.Select? && s.discoveredCh != []
    ensures Window(Pipeline(ReceiveBatch(p.cfg, s)))
  {
    hide Line, Window;
    var batch, rest := s.discoveredCh[0], s.discoveredCh[1..];
    var found := Dedup(p.cfg, batch, s.coord.visited).0;
    DedupAccepts(p.cfg, batch, s.coord.visited);
    hide Dedup;
    assert AllParents(s.discoveredCh) == Parents(batch) + AllParents(rest);
    LineReceive(Parents(batch), AllParents(rest), WorkerDepths(s.workers[0]), Depths(s.taskCh), Depths(s.coord.overflow), Depths(found));
    DepthsConcat(s.coord.overflow, found);
    assert batch in s.discoveredCh;
    var d := if batch == [] then 0 else batch[0].depth - 1;
    WindowRotate(Parents(batch), d, Line(AllParents(rest), WorkerDepths(s.workers[0]), Depths(s.taskCh), Depths(s.coord.overflow), []), Depths(found));
  }

  lemma ReceiveKeepsUniform(p: Params, s: State)
    requires Uniform(s) && s.coord.phase.Select? && s.discoveredCh != []
    ensures Uniform(ReceiveBatch(p.cfg, s))
  {
    DedupAccepts(p.cfg, s.discoveredCh[0], s.coord.visited);
    hide Dedup;
    assert s.discoveredCh[0] in s.discoveredCh;
  }

  /** A page is accepted only when everything nearer has been visited, and so only at its own distance. */
  lemma ReceiveFindsNearest(p: Params, s: State, x: CrawlTask)
    requires Regular(p, s) && s.coord.phase.Select? && s.discoveredCh != []
    requires x in Dedup(p.cfg, s.discoveredCh[0], s.coord.visited).0
    ensures NoShortcut(p, x) && Nearest(p, s.coord.visited, x)
  {
    var batch := s.discoveredCh[0];
    if AtUrlCap(p.cfg, s.coord.visited) {
      DedupNothingNew(p.cfg, batch, s.coord.visited);
    }
    DedupAccepts(p.cfg, batch, s.coord.visited);
    DedupMarks(p.cfg, batch, s.coord.visited);
    assert x.url in Urls(Dedup(p.cfg, batch, s.coord.visited).0);
    hide Dedup, Sound, Undisturbed, AllExpanded, FreshStart;
    if x.depth > 0 {
      BatchIsFirst(s, batch, x);
      LevelsComplete(p, s, x.depth - 1, x.depth - 1);
    }
  }

  lemma BatchIsFirst(s: State, batch: seq<CrawlTask>, x: CrawlTask)
    requires |s.workers| == 1 && Window(Pipeline(s)) && s.discoveredCh != [] && batch == s.discoveredCh[0] && x in batch && Uniform(s)
    ensures forall k :: k in Pipeline(s) ==> x.depth - 1 <= k
  {
    assert batch in s.discoveredCh;
    assert Parents(batch)[0] == x.depth - 1;
    LineFirst(Parents(batch), AllParents(s.discoveredCh[1..]), WorkerDepths(s.workers[0]), Depths(s.taskCh), Depths(s.coord.overflow), Depths(RestOf(s.coord)));
  }

  lemma LineFirst(b: seq<int>, a: seq<int>, w: seq<int>, c: seq<int>, d: seq<int>, e: seq<int>)
    requires b != [] && Window(Line(b + a, w, c, d, e))
    ensures forall k :: k in Line(b + a, w, c, d, e) ==> b[0] <= k
  {
    var ks := Line(b + a, w, c, d, e);
    assert ks[0] == b[0];
  }

  lemma ReceiveKeepsLayered(p: Params, s: State)
    requires Regular(p, s) && s.coord.phase.Select? && s.discoveredCh != []
    ensures Layered(p, ReceiveBatch(p.cfg, s))
  {
    ReceiveKeepsWindow(p, s);
    ReceiveKeepsUniform(p, s);
    DedupMarks(p.cfg, s.discoveredCh[0], s.coord.visited);
    hide Window, Uniform, Dedup, NoShortcut, Pipeline;
    forall x | x in Dedup(p.cfg, s.discoveredCh[0], s.coord.visited).0 ensures NoShortcut(p, x) && Nearest(p, s.coord.visited, x) {
      ReceiveFindsNearest(p, s, x);
    }
  }

  lemma LineDrop(b: seq<int>, a: seq<int>, w: seq<int>, c: seq<int>, d: seq<int>, e: seq<int>)
    requires Window(Line(b + a, w, c, d, e))
    ensures Window(Line(a, w, c, d, e))
  {
    assert Line(b + a, w, c, d, e) == b + Line(a, w, c, d, e);
    WindowTail(b, Line(a, w, c, d, e));
  }

  lemma WindowTail(a: seq<int>, b: seq<int>)
    requires Window(a + b)
    ensures Window(b)
  {
    forall i, j | 0 <= i < j < |b| ensures b[i] <= b[j] <= b[i] + 1 {
      assert (a + b)[|a| + i] == b[i] && (a + b)[|a| + j] == b[j];
    }
  }

  lemma DropKeepsLayered(p: Params, s: State)
    requires Layered(p, s) && s.coord.phase.LimitSelect? && s.discoveredCh != []
    ensures Layered(p, ReceiveBatch(p.cfg, s))
  {
    hide Window, Line, AllFirst, SameDepth;
    assert AllParents(s.discoveredCh) == Parents(s.discoveredCh[0]) + AllParents(s.discoveredCh[1..]);
    LineDrop(Parents(s.discoveredCh[0]), AllParents(s.discoveredCh[1..]), WorkerDepths(s.workers[0]),
             Depths(s.taskCh), Depths(s.coord.overflow), Depths(RestOf(s.coord)));
  }

  /** The loop test drops a queue only when it is empty. */
  lemma LoopKeepsLayered(p: Params, s: State)
    requires FreshStart(p) && Sound(p, s) && Layered(p, s) && s.coord.phase.Head?
    ensures Layered(p, CheckLoop(p.cfg, s))
  {
    if UrlLimitReached(p.cfg, s) {
      LimitHarmless(p, s, []);
      assert StillQueued(s) == s.coord.overflow;
    }
    LoopKeepsPipeline(p.cfg, s);
    LoopSetsAside(p.cfg, s);
    LoopSendsNothing(p.cfg, s);
    LoopVisitsNothing(p.cfg, s);
    hide CheckLoop, Sound, FreshStart, Window, AllFirst, SameDepth, Line, AllParents, Depths;
  }

  lemma LoopVisitsNothing(cfg: Config, s: State)
    ensures var s' := CheckLoop(cfg, s);
      s'.coord.visited == s.coord.visited && !s'.coord.phase.Dispatch? && (s'.coord.overflow == s.coord.overflow || s'.coord.overflow == [])
  {
    LoopCases(cfg, s);
    hide CheckLoop;
  }

  lemma SendKeepsPipeline(s: State)
    requires |s.workers| == 1 && s.coord.phase.Select? && s.coord.overflow != [] && !s.taskClosed
    ensures Pipeline(SendOverflow(s)) == Pipeline(s)
  {
    hide Line, AllParents;
    var t := s.coord.overflow[0];
    DepthsConcat(s.taskCh, [t]);
    assert Depths([t]) == [t.depth];
    assert Depths(s.coord.overflow) == [t.depth] + Depths(s.coord.overflow[1..]);
    LineSend(AllParents(s.discoveredCh), WorkerDepths(s.workers[0]), Depths(s.taskCh), t.depth, Depths(s.coord.overflow[1..]), []);
  }

  lemma DispatchKeepsPipeline(p: Params, s: State)
    requires |s.workers| == 1 && s.coord.phase.Dispatch? && Uniform(s) && !s.taskClosed
    ensures Pipeline(DispatchNext(p.cfg, s)) == Pipeline(s)
  {
    hide Line, AllParents;
    var rest := s.coord.phase.rest;
    if rest != [] {
      var t := rest[0];
      DepthsConcat(s.taskCh, [t]);
      DepthsConcat(s.coord.overflow, [t]);
      assert Depths([t]) == [t.depth];
      assert Depths(rest) == [t.depth] + Depths(rest[1..]);
      forall k | k in Depths(s.coord.overflow) ensures k == t.depth {
        var i :| 0 <= i < |s.coord.overflow| && Depths(s.coord.overflow)[i] == k;
        assert s.coord.overflow[i] in s.coord.overflow + rest && t in s.coord.overflow + rest;
      }
      LineDispatch(AllParents(s.discoveredCh), WorkerDepths(s.workers[0]), Depths(s.taskCh), t.depth, Depths(s.coord.overflow), Depths(rest[1..]));
    }
  }

  lemma DispatchKeepsUniform(p: Params, s: State)
    requires s.coord.phase.Dispatch? && Uniform(s)
    ensures Uniform(DispatchNext(p.cfg, s))
  {
    var rest := s.coord.phase.rest;
    if rest != [] {
      assert rest == [rest[0]] + rest[1..];
      assert forall x :: x in s.coord.overflow + [rest[0]] + rest[1..] <==> x in s.coord.overflow + rest;
    }
  }

  predicate HandlesTasks(a: Action) { a.AReceiveBatch? || a.ADispatchNext? || a.ASendOverflow? || a.ACheckLoop? }

  lemma OthersKeepLayered(p: Params, s: State, a: Action)
    requires Shape(p, s) && Layered(p, s) && OneWorker(p) && Enabled(p, s, a) && !s.cancelled && !IsWorkerAction(a) && !HandlesTasks(a)
    ensures Layered(p, Apply(p, s, a))
  {
    hide Window, AllFirst, SameDepth, Line, AllParents, Depths, Total;
  }

  lemma WorkerKeepsLayered(p: Params, s: State, a: Action)
    requires Shape(p, s) && OneWorker(p) && Layered(p, s) && Enabled(p, s, a) && IsWorkerAction(a) && !s.cancelled
    ensures Layered(p, Apply(p, s, a))
  {
    if !s.resultsClosed {
      WorkerKeepsWindow(p, s, a);
      WorkerKeepsUniform(p, s, a);
    }
    WorkerKeepsFound(p, s, a);
    hide Window, Uniform, Pipeline, NoShortcut, Apply, Enabled, Shape;
    assert !s.resultsClosed by { NotClosedYet(p, s, a); }
  }

  lemma WorkerKeepsFound(p: Params, s: State, a: Action)
    requires Enabled(p, s, a) && IsWorkerAction(a)
    ensures Apply(p, s, a).hist.found == s.hist.found && |Apply(p, s, a).workers| == |s.workers|
  {
    hide RecordOf, FailedRecord, BatchOf;
    match a
    case ACheckCancel(w) => assert CheckCancel(s, w).hist.found == s.hist.found;
    case AEndFetch(w, cut) => assert EndFetch(p, s, w, cut).hist.found == s.hist.found;
    case ASendRecord(w) => assert SendRecord(s, w).hist.found == s.hist.found;
    case _ =>
  }

  lemma LayeredKept(p: Params, s: State, a: Action)
    requires Regular(p, s) && Enabled(p, s, a) && !s.cancelled
    ensures Layered(p, Apply(p, s, a))
  {
    hide Window, Uniform, Pipeline, NoShortcut, AllFirst, Sound, CheckLoop, ReceiveBatch, DispatchNext, SendOverflow, Undisturbed, AllExpanded, FreshStart;
    ShapeOf(p, s);
    if IsWorkerAction(a) {
      WorkerKeepsLayered(p, s, a);
    } else if a.AReceiveBatch? {
      if s.coord.phase.LimitSelect? { DropKeepsLayered(p, s); } else { ReceiveKeepsLayered(p, s); }
    } else if a.ACheckLoop? {
      LoopKeepsLayered(p, s);
    } else if a.ADispatchNext? {
      DispatchKeepsLayered(p, s);
    } else if a.ASendOverflow? {
      SendKeepsLayered(p, s);
    } else {
      OthersKeepLayered(p, s, a);
    }
  }

  lemma DispatchKeepsLayered(p: Params, s: State)
    requires Shape(p, s) && Layered(p, s) && s.coord.phase.Dispatch?
    ensures Layered(p, DispatchNext(p.cfg, s))
  {
    DispatchKeepsPipeline(p, s);
    DispatchKeepsUniform(p, s);
    hide Window, Uniform, Pipeline, NoShortcut;
  }

  lemma SendKeepsLayered(p: Params, s: State)
    requires Shape(p, s) && Layered(p, s) && s.coord.phase.Select? && s.coord.overflow != []
    ensures Layered(p, SendOverflow(s))
  {
    SendKeepsPipeline(s);
    hide Window, Pipeline, NoShortcut, SameDepth;
  }

  // ---------- Whole runs ----------

  ghost predicate SteadyLayered(p: Params, s: State) {
    Sound(p, s) && (!s.cancelled ==> Undisturbed(p, s) && AllExpanded(p, s) && Layered(p, s))
  }

  lemma LayeredInit(p: Params)
    requires OneWorker(p) && FreshStart(p)
    ensures Layered(p, Init(p))
  {
    var s := Init(p);
    forall k | k in Pipeline(s) ensures k == 0 {
      assert k in Depths(s.taskCh) || k in Depths(s.coord.overflow);
    }
    assert forall i :: 0 <= i < |Pipeline(s)| ==> Pipeline(s)[i] in Pipeline(s);
  }

  lemma LayeredAlways(p: Params, acts: seq<Action>)
    requires WellFormed(p) && FreshStart(p) && OneWorker(p) && After(p, acts).Some?
    ensures SteadyLayered(p, After(p, acts).value)
  {
    hide Sound, Undisturbed, AllExpanded, Layered, Enabled, Apply, FreshStart;
    var inv := (s: State) => SteadyLayered(p, s);
    forall s, a | inv(s) && Stepper(p)(s, a).Some? ensures inv(Stepper(p)(s, a).value) {
      SoundKept(p, s, a);
      if s.cancelled {
        OnlyCancelCancels(p, s, a);
      } else {
        UncancelledKept(p, s, a);
        LayeredKept(p, s, a);
      }
    }
    SoundInit(p);
    SteadyInit(p);
    LayeredInit(p);
    Invariance(Stepper(p), inv, Init(p), acts);
  }

  /**
   At any point of an uncancelled one-worker run, limited or not, each accepted task's depth is its exact link distance.
   */
  lemma DepthIsDistance(p: Params, acts: seq<Action>, t: CrawlTask)
    requires WellFormed(p) && FreshStart(p) && OneWorker(p) && After(p, acts).Some? && !After(p, acts).value.cancelled
    requires t in Accepted(p, After(p, acts).value)
    ensures t.depth >= 0 && AtDistance(p.web, p.visited0, t.url, t.depth)
  {
    LayeredAlways(p, acts);
    VisitedWithinBall(p, acts);
  }

  /** And nearest pages come first: when a page at distance d has been visited, so has every page nearer than d. */
  lemma NearestFirst(p: Params, acts: seq<Action>, u: Url, d: nat)
    requires WellFormed(p) && FreshStart(p) && OneWorker(p) && After(p, acts).Some? && !After(p, acts).value.cancelled
    requires u in After(p, acts).value.coord.visited && AtDistance(p.web, p.visited0, u, d) && d > 0
    ensures Ball(p.web, p.visited0, d - 1) <= After(p, acts).value.coord.visited
  {
    hide *;
    var s := After(p, acts).value;
    LayeredAlways(p, acts);
    var t := AcceptedAs(p, s, u);
    DepthIsDistance(p, acts, t);
    SameDistance(p.web, p.visited0, u, t.depth, d);
    DeepIsNearest(p, s, t);
  }

  lemma AcceptedAs(p: Params, s: State, u: Url) returns (t: CrawlTask)
    requires FreshStart(p) && SteadyLayered(p, s) && u in s.coord.visited
    ensures t in Accepted(p, s) && t.url == u
  {
    VisitedIsAccepted(p, s, u);
    t :| t in Accepted(p, s) && t.url == u;
  }

  lemma DeepIsNearest(p: Params, s: State, t: CrawlTask)
    requires FreshStart(p) && SteadyLayered(p, s) && !s.cancelled && t in Accepted(p, s) && t.depth > 0
    ensures Ball(p.web, p.visited0, t.depth - 1) <= s.coord.visited
  {
    hide Ball, Sound, Undisturbed, AllExpanded, Window, Pipeline, Uniform;
    assert t in s.hist.found;
    assert Nearest(p, s.coord.visited, t);
  }

  lemma SameDistance(web: Web, roots: set<Url>, u: Url, c: nat, d: nat)
    requires AtDistance(web, roots, u, c) && AtDistance(web, roots, u, d)
    ensures c == d
  {
    if c < d {
      BallMonotone(web, roots, c, d - 1);
    } else if d < c {
      BallMonotone(web, roots, d, c - 1);
    }
  }

  /**
   A one-worker run that is not cancelled and ends below the URL limit has visited exactly the ball of radius MaxDepth.
   */
  lemma OneWorkerVisitsBall(p: Params, acts: seq<Action>)
    requires WellFormed(p) && FreshStart(p) && OneWorker(p) && RanToEnd(p, acts) && p.cfg.maxDepth >= 0
    requires !AtUrlCap(p.cfg, After(p, acts).value.coord.visited)
    ensures After(p, acts).value.coord.visited == Ball(p.web, p.visited0, p.cfg.maxDepth)
  {
    var s := After(p, acts).value;
    LayeredAlways(p, acts);
    VisitedWithinBall(p, acts);
    QuietAfterReturn(p, acts);
    assert Pipeline(s) == [] by {
      assert s.coord.overflow == [] by { ShapeOf(p, s); }
      assert s.workers[0] in s.workers;
    }
    LevelsComplete(p, s, p.cfg.maxDepth, p.cfg.maxDepth);
  }
}
