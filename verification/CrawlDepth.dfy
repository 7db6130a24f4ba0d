/**
 "Every page within MaxDepth links of a seed" is not what several workers deliver: a recorded depth is the depth
 of the first discovery, which need not be the shortest. The claim holds for every web and every schedule exactly
 when there is one worker or MaxDepth is at most one.
 */
module CrawlDepth {
  import opened Options
  import opened CrawlTypes
  import opened CrawlSystem
  import opened CrawlSafety
  import opened CrawlLedger
  import opened CrawlOnce
  import opened CrawlTrace
  import opened CrawlProgress
  import opened CrawlTermination
  import opened CrawlCoverage
  import opened CrawlOutcome
  import opened CrawlBreadthFirst
  import opened Runs
  import opened Tally

  function Radius(cfg: Config): nat { if cfg.maxDepth < 0 then 0 else cfg.maxDepth }

  /** Every uncancelled schedule of this crawl visits the whole ball. */
  ghost predicate VisitsBall(p: Params) {
    forall acts :: RanToEnd(p, acts) ==> After(p, acts).value.coord.visited == Ball(p.web, p.visited0, Radius(p.cfg))
  }

  ghost predicate AlwaysVisitsBall(cfg: Config) {
    forall web: Web, seeds: seq<Url> :: DistinctSeeds(seeds) ==> VisitsBall(FreshParams(cfg, web, seeds))
  }

  // ---------- Where the claim holds ----------

  /** Links of seeds are always followed when MaxDepth is one. */
  lemma ShallowVisitsBall(p: Params, acts: seq<Action>)
    requires WellFormed(p) && FreshStart(p) && p.cfg.maxURLs <= 0 && p.cfg.maxDepth <= 1 && RanToEnd(p, acts)
    ensures After(p, acts).value.coord.visited == Ball(p.web, p.visited0, Radius(p.cfg))
  {
    var s := After(p, acts).value;
    VisitedWithinBall(p, acts);
    SoundAlways(p, acts);
    ClosedAtEnd(p, acts);
    hide After, RanToEnd;
    if p.cfg.maxDepth == 1 {
      assert Ball(p.web, p.visited0, 0) == p.visited0;
      forall v | v in Neighbours(p.web, p.visited0) ensures v in s.coord.visited {
        var u := LinkInto(p.web, p.visited0, v);
        var t :| t in p.queue0 && t.url == u;
        assert t in Accepted(p, s) && LinksVisited(p, s.coord.visited, t);
      }
    }
  }

  lemma HoldsForOneWorkerOrShallow(cfg: Config, web: Web, seeds: seq<Url>)
    requires cfg.numWorkers >= 1 && cfg.queueSize >= 1 && cfg.maxURLs <= 0 && DistinctSeeds(seeds)
    requires cfg.numWorkers == 1 || cfg.maxDepth <= 1
    ensures VisitsBall(FreshParams(cfg, web, seeds))
  {
    var p := FreshParams(cfg, web, seeds);
    SeedsMakeFreshStart(cfg, web, seeds);
    forall acts | RanToEnd(p, acts)
      ensures After(p, acts).value.coord.visited == Ball(p.web, p.visited0, Radius(p.cfg))
    {
      if cfg.maxDepth <= 1 { ShallowVisitsBall(p, acts); } else { OneWorkerVisitsBall(p, acts); }
    }
  }

  // ---------- The trap: one long way and one short way to the same page ----------

  function Link(k: nat): Url { if k == 0 then "" else Link(k - 1) + "c" }

  lemma {:induction false} LinkShape(k: nat)
    ensures |Link(k)| == k && forall i :: 0 <= i < k ==> Link(k)[i] == 'c'
  {
    if k > 0 { LinkShape(k - 1); }
  }

  /** Seed "a" starts a chain of `d` links to a page that seed "b" links to at once; "y" hangs off that page. */
  function TrapLinks(d: nat, u: Url): seq<Url> {
    if u == "a" then [Link(1)]
    else if u == "b" then [Link(d)]
    else if u == Link(|u|) && 1 <= |u| < d then [Link(|u| + 1)]
    else if u == Link(|u|) && |u| == d then ["y"]
    else []
  }

  function TrapWeb(d: nat): Web { u => Fetched("", "", TrapLinks(d, u)) }

  lemma TrapParents(d: nat, u: Url, v: Url)
    requires d >= 2 && v in TrapLinks(d, u)
    ensures v == "y" ==> u == Link(d)
    ensures forall k: nat :: 1 <= k <= d && v == Link(k) ==> (if k == 1 then u == "a" else u == Link(k - 1) || (k == d && u == "b"))
  {
    LinkShape(1);
    LinkShape(d);
    LinkShape(|u| + 1);
    assert Link(1)[0] == Link(d)[0] == Link(|u| + 1)[0] == 'c';
    forall k: nat | 1 <= k <= d && v == Link(k)
      ensures if k == 1 then u == "a" else u == Link(k - 1) || (k == d && u == "b")
    {
      LinkShape(k);
      assert v[0] == 'c';
      if u == "a" {
        assert |v| == |Link(1)|;
      } else if u == "b" {
        assert |v| == |Link(d)|;
      } else {
        assert |v| == |u| + 1;
      }
    }
  }

  function TrapParams(cfg: Config): Params
    requires cfg.maxDepth >= 2
  {
    FreshParams(cfg, TrapWeb(cfg.maxDepth), ["b", "a"])
  }

  const SEED_A := CrawlTask("a", "", 0)
  const SEED_B := CrawlTask("b", "", 0)

  ghost predicate Trap(p: Params) {
    && WellFormed(p) && FreshStart(p) && p.cfg.numWorkers >= 2 && p.cfg.maxURLs <= 0 && p.cfg.maxDepth >= 2
    && p.web == TrapWeb(p.cfg.maxDepth) && p.queue0 == [SEED_B, SEED_A] && p.visited0 == {"a", "b"}
  }

  lemma TrapIsTrap(cfg: Config)
    requires cfg.numWorkers >= 2 && cfg.queueSize >= 1 && cfg.maxURLs <= 0 && cfg.maxDepth >= 2
    ensures DistinctSeeds(["b", "a"]) && Trap(TrapParams(cfg))
  {
    SeedsMakeFreshStart(cfg, TrapWeb(cfg.maxDepth), ["b", "a"]);
    var p := TrapParams(cfg);
    assert p.queue0 == [SEED_B, SEED_A];
    assert p.visited0 == {"a", "b"};
  }

  // ---------- A schedule that keeps worker 0 fetching "b" ----------

  predicate ActsOnZero(a: Action) { IsWorkerAction(a) && a.w == 0 }

  /** Worker 0 is fetching "b", and nothing anywhere comes from "b" yet. */
  ghost predicate Parked(s: State) {
    && !s.cancelled && |s.workers| >= 2 && s.workers[0] == Fetching(SEED_B) && SEED_B in s.hist.fetched
    && (forall x :: x in s.hist.found ==> x.originUrl != "b")
    && (forall b, x :: b in s.discoveredCh && x in b ==> x.originUrl != "b")
    && (forall i, x :: 1 <= i < |s.workers| && s.workers[i].Posting? && x in s.workers[i].batch ==> x.originUrl != "b")
    && (forall i :: 1 <= i < |s.workers| && s.workers[i].Reporting? ==> s.workers[i].record.url != "b")
    && (forall i :: 1 <= i < |s.workers| && s.workers[i].Fetching? ==> s.workers[i].task.url != "b")
  }

  /** Everybody but worker 0 has run out of work. */
  ghost predicate Quiet(s: State) {
    && s.taskCh == [] && s.discoveredCh == [] && s.coord.overflow == [] && s.coord.phase.Select?
    && forall i :: 1 <= i < |s.workers| ==> s.workers[i].Idle?
  }

  ghost predicate OthersCanMove(p: Params, s: State) {
    exists a :: IsProgress(a) && !ActsOnZero(a) && Enabled(p, s, a)
  }

  lemma OtherMoves(p: Params, s: State, a: Action)
    requires IsProgress(a) && !ActsOnZero(a) && Enabled(p, s, a)
    ensures OthersCanMove(p, s)
  {}

  lemma OtherWorkerMoves(p: Params, s: State, w: nat)
    requires WellFormed(p) && Shape(p, s) && 1 <= w < |s.workers| && s.discoveredCh == [] && !s.resultsClosed
    requires !s.workers[w].Idle? && !s.workers[w].Exited?
    ensures OthersCanMove(p, s)
  {
    match s.workers[w]
    case Holding(_) => OtherMoves(p, s, ACheckCancel(w));
    case Fetching(_) => OtherMoves(p, s, AEndFetch(w, false));
    case Reporting(_) =>
      if |s.resultsCh| < 2 * p.cfg.numWorkers { OtherMoves(p, s, ASendRecord(w)); }
      else { OtherMoves(p, s, if s.indexer.pc.Adding? then AAddRecord else AReceiveRecord); }
    case Posting(_) => OtherMoves(p, s, ASendBatch(w));
  }

  lemma ZeroIsBusy(p: Params, s: State)
    requires Shape(p, s) && Parked(s)
    ensures s.coord.inFlight > 0 && !Returned(s) && !s.resultsClosed && !s.taskClosed
  {
    assert s.workers[0] in s.workers;
    TotalZero(s.workers, BusyOf);
  }

  lemma OthersMoveUntilQuiet(p: Params, s: State)
    requires WellFormed(p) && p.cfg.maxURLs <= 0 && Shape(p, s) && Parked(s) && !Quiet(s)
    ensures OthersCanMove(p, s)
  {
    ZeroIsBusy(p, s);
    hide Parked;
    if s.coord.phase.Head? {
      OtherMoves(p, s, ACheckLoop);
    } else if s.coord.phase.Dispatch? {
      OtherMoves(p, s, ADispatchNext);
    } else if s.discoveredCh != [] {
      OtherMoves(p, s, AReceiveBatch);
    } else if w: nat :| 1 <= w < |s.workers| && !s.workers[w].Idle? {
      OtherWorkerMoves(p, s, w);
    } else if s.taskCh != [] {
      OtherMoves(p, s, ATake(1));
    } else {
      OtherMoves(p, s, ASendOverflow);
    }
  }

  /** Nobody else holds a task for "b": it would be held twice. */
  lemma OnlyZeroHasB(p: Params, acts: seq<Action>, i: nat)
    requires Trap(p) && After(p, acts).Some? && Parked(After(p, acts).value)
    requires i < |After(p, acts).value.workers| && After(p, acts).value.workers[i].Holding?
    ensures After(p, acts).value.workers[i].task.url != "b"
  {
    var s := After(p, acts).value;
    AtMostOneFetch(p, acts);
    hide After, Trap;
    HeldIn(s.workers, i);
    assert SEED_B in s.hist.fetched;
    hide Parked, HeldTasks;
    var before := StillQueued(s) + s.taskCh + HeldTasks(s.workers);
    assert InHandOrFetched(s) == before + s.hist.fetched;
    ApartInConcat(before, s.hist.fetched, s.workers[i].task, SEED_B);
  }

  lemma {:induction false} HeldIn(ws: seq<Worker>, i: nat)
    requires i < |ws| && ws[i].Holding?
    ensures ws[i].task in HeldTasks(ws)
  {
    if i > 0 { HeldIn(ws[1..], i - 1); }
  }

  lemma WorkerKeepsParked(p: Params, s: State, a: Action)
    requires Shape(p, s) && Parked(s) && Enabled(p, s, a) && IsWorkerAction(a) && !ActsOnZero(a) && IsProgress(a)
    requires a.w < |s.workers| && s.workers[a.w].Holding? ==> s.workers[a.w].task.url != "b"
    ensures Parked(Apply(p, s, a))
  {
    ZeroIsBusy(p, s);
  }

  lemma ReceiveKeepsParked(p: Params, s: State)
    requires Parked(s) && s.discoveredCh != []
    ensures Parked(ReceiveBatch(p.cfg, s))
  {
    DedupAccepts(p.cfg, s.discoveredCh[0], s.coord.visited);
    hide Dedup;
    assert s.discoveredCh[0] in s.discoveredCh;
  }

  lemma OthersKeepParked(p: Params, s: State, a: Action)
    requires Parked(s) && Enabled(p, s, a) && !IsWorkerAction(a) && !a.AReceiveBatch? && IsProgress(a)
    ensures Parked(Apply(p, s, a))
  {
    ProgressKeepsCancelled(p, s, a);
    OthersKeepFlow(p, s, a);
    hide Apply, Enabled;
  }

  lemma ParkedKept(p: Params, acts: seq<Action>, a: Action)
    requires Trap(p) && After(p, acts).Some? && Parked(After(p, acts).value)
    requires IsProgress(a) && !ActsOnZero(a) && Enabled(p, After(p, acts).value, a)
    ensures Parked(Apply(p, After(p, acts).value, a))
  {
    var s := After(p, acts).value;
    TrapBasics(p);
    hide *;
    if IsWorkerAction(a) {
      SoundAlways(p, acts);
      ShapeOf(p, s);
      OnlyZeroHoldsB(p, acts, a);
      WorkerKeepsParked(p, s, a);
    } else if a.AReceiveBatch? {
      ReceiveIsApplied(p, s);
      ReceiveKeepsParked(p, s);
    } else {
      OthersKeepParked(p, s, a);
    }
  }

  lemma OnlyZeroHoldsB(p: Params, acts: seq<Action>, a: Action)
    requires Trap(p) && After(p, acts).Some? && Parked(After(p, acts).value)
    requires Enabled(p, After(p, acts).value, a) && IsWorkerAction(a) && !ActsOnZero(a)
    ensures var s := After(p, acts).value; a.w < |s.workers| && (s.workers[a.w].Holding? ==> s.workers[a.w].task.url != "b")
  {
    hide After, Trap, Parked;
    if After(p, acts).value.workers[a.w].Holding? {
      OnlyZeroHasB(p, acts, a.w);
    }
  }

  lemma ReceiveIsApplied(p: Params, s: State)
    requires Enabled(p, s, AReceiveBatch)
    ensures s.discoveredCh != [] && Apply(p, s, AReceiveBatch) == ReceiveBatch(p.cfg, s)
  {
    hide ReceiveBatch;
  }

  /** The others can be run until they have nothing left to do, with worker 0 still fetching. */
  lemma {:induction false} RunOthers(p: Params, acts: seq<Action>) returns (all: seq<Action>)
    requires Trap(p) && After(p, acts).Some? && Parked(After(p, acts).value)
    ensures After(p, all).Some? && Parked(After(p, all).value) && Quiet(After(p, all).value)
    decreases Weight(p, After(p, acts).value)
  {
    var s := After(p, acts).value;
    all := acts;
    if !Quiet(s) {
      SoundAlways(p, acts);
      ShapeOf(p, s);
      PlacementAlways(p, acts);
      OthersMoveUntilQuiet(p, s);
      var a :| IsProgress(a) && !ActsOnZero(a) && Enabled(p, s, a);
      ParkedKept(p, acts, a);
      StepLowersWeight(p, s, a);
      OneMore(p, acts, a);
      hide Parked, Quiet, Apply, Enabled, Weight, After, Sound, Shape, Placement;
      all := RunOthers(p, acts + [a]);
    }
  }

  // ---------- What the trap leaves unvisited ----------

  lemma QuietFetchedAll(p: Params, s: State, t: CrawlTask)
    requires FreshStart(p) && Sound(p, s) && Undisturbed(p, s) && Parked(s) && Quiet(s) && t in Accepted(p, s)
    ensures t in s.hist.fetched
  {
    InHandCount(p, s);
    NoneHeld(s.workers);
    hide Accepted, Sound, Parked, FreshStart, Undisturbed;
    assert t in multiset(Accepted(p, s)) && s.hist.setAside == multiset{} by { hide *; NothingAside(p, s); }
    assert InHandOrFetched(s) == s.hist.fetched by { hide HeldTasks; }
  }

  lemma NothingAside(p: Params, s: State)
    requires Undisturbed(p, s)
    ensures s.hist.setAside == multiset{}
  {}

  lemma QuietPendsOnlyB(p: Params, s: State, t: CrawlTask)
    requires Parked(s) && Quiet(s) && t.url != "b"
    ensures !Pending(p, s, t)
  {}

  /** In a quiet state everything accepted but "b" has been expanded. */
  lemma QuietExpands(p: Params, acts: seq<Action>, t: CrawlTask)
    requires Trap(p) && After(p, acts).Some? && Parked(After(p, acts).value) && Quiet(After(p, acts).value)
    requires t in Accepted(p, After(p, acts).value) && t.url != "b" && t.depth < p.cfg.maxDepth
    ensures LinksVisited(p, After(p, acts).value.coord.visited, t)
  {
    var s := After(p, acts).value;
    SteadyAlways(p, acts);
    assert !s.cancelled;
    hide After, Accepted, Sound, Parked, Quiet, Undisturbed, Pending, LinksVisited;
    QuietFetchedAll(p, s, t);
    QuietPendsOnlyB(p, s, t);
    assert Expanded(p, s, t);
  }

  lemma QuietVisits(p: Params, acts: seq<Action>, t: CrawlTask, v: Url) returns (x: CrawlTask, parent: CrawlTask)
    requires Trap(p) && After(p, acts).Some? && Parked(After(p, acts).value) && Quiet(After(p, acts).value)
    requires t in Accepted(p, After(p, acts).value) && t.url != "b" && t.depth < p.cfg.maxDepth
    requires v in TrapLinks(p.cfg.maxDepth, t.url) && v !in p.visited0
    ensures var s := After(p, acts).value;
      && x in s.hist.found && x.url == v && parent in Accepted(p, s)
      && v in TrapLinks(p.cfg.maxDepth, parent.url) && x.depth == parent.depth + 1 && parent.url != "b"
  {
    var s := After(p, acts).value;
    QuietExpands(p, acts, t);
    SoundAlways(p, acts);
    OriginsAlways(p, acts);
    hide After, Sound, TrapLinks;
    assert v in LinksOf(p.web, t.url);
    x, parent := FoundVia(p, s, v);
  }

  lemma FoundVia(p: Params, s: State, v: Url) returns (x: CrawlTask, parent: CrawlTask)
    requires Sound(p, s) && Origins(p, s) && v in s.coord.visited && v !in p.visited0
    ensures x in s.hist.found && x.url == v && parent in Accepted(p, s) && LinkedFrom(p.web, parent, x)
  {
    x :| x in s.hist.found && x.url == v;
    parent :| parent in s.hist.fetched && LinkedFrom(p.web, parent, x);
  }

  /** The k-th page of the chain is found at depth k, the page that "b" links to included. */
  lemma {:induction false} ChainDepth(p: Params, acts: seq<Action>, k: nat) returns (x: CrawlTask)
    requires Trap(p) && After(p, acts).Some? && Parked(After(p, acts).value) && Quiet(After(p, acts).value)
    requires 1 <= k <= p.cfg.maxDepth
    ensures x in After(p, acts).value.hist.found && x.url == Link(k) && x.depth == k
    decreases k
  {
    hide *;
    if k == 1 {
      SeedAccepted(p, After(p, acts).value);
      x := ChainStep(p, acts, SEED_A, k);
    } else {
      var before := ChainDepth(p, acts, k - 1);
      FoundIsAccepted(p, After(p, acts).value, before);
      x := ChainStep(p, acts, before, k);
    }
  }

  lemma FoundIsAccepted(p: Params, s: State, t: CrawlTask)
    requires t in s.hist.found
    ensures t in Accepted(p, s)
  {}

  /** From one page of the chain to the next. */
  lemma ChainStep(p: Params, acts: seq<Action>, before: CrawlTask, k: nat) returns (x: CrawlTask)
    requires Trap(p) && After(p, acts).Some? && Parked(After(p, acts).value) && Quiet(After(p, acts).value)
    requires 1 <= k <= p.cfg.maxDepth && before in Accepted(p, After(p, acts).value)
    requires before.url == (if k == 1 then "a" else Link(k - 1)) && before.depth == k - 1
    ensures x in After(p, acts).value.hist.found && x.url == Link(k) && x.depth == k
  {
    var s := After(p, acts).value;
    TrapBasics(p);
    ChainLink(p.cfg.maxDepth, before.url, k);
    hide *;
    OnlySeedsMarked(p, Link(k));
    var parent;
    x, parent := QuietVisits(p, acts, before, Link(k));
    TrapParents(p.cfg.maxDepth, parent.url, Link(k));
    SoundAlways(p, acts);
    AcceptedApart(p, s);
    SameUrl(Accepted(p, s), before, parent);
  }

  lemma SeedAccepted(p: Params, s: State)
    requires Trap(p)
    ensures SEED_A in Accepted(p, s) && SEED_A.url == "a" && SEED_A.depth == 0
  {}

  /** The link that leads to the k-th page of the chain. */
  lemma ChainLink(d: nat, u: Url, k: nat)
    requires 1 <= k <= d && u == if k == 1 then "a" else Link(k - 1)
    ensures Link(k) in TrapLinks(d, u) && u != "b" && Link(k) != "a" && Link(k) != "b"
  {
    LinkShape(k);
    LinkShape(k - 1);
    assert Link(k)[0] == 'c';
  }

  /** Found tasks stay found. */
  lemma FoundGrows(p: Params, s: State, a: Action)
    requires Enabled(p, s, a)
    ensures s.hist.found <= Apply(p, s, a).hist.found
  {
    if IsWorkerAction(a) {
      WorkerKeepsFound(p, s, a);
    } else if !a.AReceiveBatch? {
      OthersKeepFlow(p, s, a);
    }
    hide CheckLoop, DispatchNext, CheckCancel, EndFetch, SendRecord, Dedup, Accept;
  }

  lemma FoundStays(p: Params, acts: seq<Action>, all: seq<Action>)
    requires acts <= all && After(p, acts).Some? && After(p, all).Some?
    ensures After(p, acts).value.hist.found <= After(p, all).value.hist.found
  {
    var s0 := After(p, acts).value;
    assert all == acts + all[|acts|..];
    ExecConcat(Stepper(p), Init(p), acts, all[|acts|..]);
    var inv := (s: State) => s0.hist.found <= s.hist.found;
    forall s, a | inv(s) && Stepper(p)(s, a).Some? ensures inv(Stepper(p)(s, a).value) {
      FoundGrows(p, s, a);
    }
    hide Enabled, Apply;
    Invariance(Stepper(p), inv, s0, all[|acts|..]);
  }

  /** Once the shared page has been found the long way, "y" is never visited. */
  lemma YNeverVisited(p: Params, all: seq<Action>, x: CrawlTask)
    requires Trap(p) && After(p, all).Some?
    requires x in After(p, all).value.hist.found && x.url == Link(p.cfg.maxDepth) && x.depth == p.cfg.maxDepth
    ensures "y" !in After(p, all).value.coord.visited
  {
    var s := After(p, all).value;
    TrapBasics(p);
    hide After, Trap, WellFormed, FreshStart, Sound, Origins;
    OnlySeedsMarked(p, "y");
    SoundAlways(p, all);
    OriginsAlways(p, all);
    AcceptedApart(p, s);
    if "y" in s.coord.visited {
      var y, parent := FoundVia(p, s, "y");
      TrapParents(p.cfg.maxDepth, parent.url, "y");
      SameUrl(Accepted(p, s), x, parent);
    }
  }

  lemma OnlySeedsMarked(p: Params, v: Url)
    requires Trap(p) && v != "a" && v != "b"
    ensures v !in p.visited0
  {
    hide FreshStart;
  }

  lemma TrapBasics(p: Params)
    requires Trap(p)
    ensures WellFormed(p) && FreshStart(p) && Urls(p.queue0) <= p.visited0 && p.cfg.maxDepth >= 2
    ensures forall u :: LinksOf(p.web, u) == TrapLinks(p.cfg.maxDepth, u)
  {
    hide FreshStart, TrapLinks;
  }

  lemma AcceptedApart(p: Params, s: State)
    requires FreshStart(p) && Sound(p, s)
    ensures DistinctUrls(Accepted(p, s)) && forall t :: t in s.hist.found ==> t in Accepted(p, s) && t.depth <= p.cfg.maxDepth
  {
    AcceptedDistinct(p, s);
  }

  lemma YInBall(p: Params)
    requires Trap(p)
    ensures "y" in Ball(p.web, p.visited0, Radius(p.cfg))
  {
    var d := p.cfg.maxDepth;
    LinkShape(d);
    BallStep(p.web, p.visited0, "b", Link(d), 0);
    assert Link(d)[0] == 'c';
    assert "y" in LinksOf(p.web, Link(d));
    BallStep(p.web, p.visited0, Link(d), "y", 1);
    BallMonotone(p.web, p.visited0, 2, d);
  }

  /** The start of the trap: worker 0 takes "b" and begins to fetch it. */
  lemma TrapStart(p: Params) returns (acts: seq<Action>)
    requires Trap(p)
    ensures After(p, acts).Some? && Parked(After(p, acts).value)
  {
    var s0 := Init(p);
    TrapInit(p);
    hide *;
    WorkerZeroStarts(p, s0);
    OneMore(p, [], ATake(0));
    var s1 := Apply(p, s0, ATake(0));
    OneMore(p, [] + [ATake(0)], ACheckCancel(0));
    acts := [] + [ATake(0)] + [ACheckCancel(0)];
    NobodyElse(p, s0, s1, Apply(p, s1, ACheckCancel(0)));
  }

  ghost predicate AllIdleAtB(s: State) {
    && s.taskCh != [] && s.taskCh[0] == SEED_B && |s.workers| >= 2 && !s.cancelled
    && (forall i :: 0 <= i < |s.workers| ==> s.workers[i] == Idle) && s.hist.found == [] && s.discoveredCh == []
  }

  lemma WorkerZeroStarts(p: Params, s: State)
    requires AllIdleAtB(s)
    ensures Enabled(p, s, ATake(0)) && var s1 := Apply(p, s, ATake(0));
      s1 == SetWorker(s, 0, Holding(SEED_B)).(taskCh := s.taskCh[1..])
      && Enabled(p, s1, ACheckCancel(0)) && Apply(p, s1, ACheckCancel(0)) == CheckCancel(s1, 0)
  {
    hide CheckCancel;
  }

  lemma TrapInit(p: Params)
    requires Trap(p)
    ensures After(p, []) == Some(Init(p)) && AllIdleAtB(Init(p))
  {}

  lemma NobodyElse(p: Params, s0: State, s1: State, s2: State)
    requires AllIdleAtB(s0)
    requires s1 == SetWorker(s0, 0, Holding(SEED_B)).(taskCh := s0.taskCh[1..]) && s2 == CheckCancel(s1, 0)
    ensures Parked(s2)
  {}

  /** With two workers and MaxDepth at least two, some schedule leaves a page within MaxDepth links unvisited. */
  lemma FailsForTheTrap(p: Params)
    requires Trap(p)
    ensures !VisitsBall(p)
  {
    var start := TrapStart(p);
    var quiet := RunOthers(p, start);
    var x := ChainDepth(p, quiet, p.cfg.maxDepth);
    var all := CarryOn(p, quiet);
    FoundStays(p, quiet, all);
    YNeverVisited(p, all, x);
    YInBall(p);
    assert RanToEnd(p, all);
  }

  /**
   Every page within MaxDepth links of a seed is visited, for every web, every choice of distinct seeds and every
   uncancelled schedule, exactly when there is one worker or MaxDepth is at most one.
   */
  lemma BallCoverageIff(cfg: Config)
    requires cfg.numWorkers >= 1 && cfg.queueSize >= 1 && cfg.maxURLs <= 0
    ensures AlwaysVisitsBall(cfg) <==> cfg.numWorkers == 1 || cfg.maxDepth <= 1
  {
    hide VisitsBall;
    if cfg.numWorkers == 1 || cfg.maxDepth <= 1 {
      forall web: Web, seeds: seq<Url> | DistinctSeeds(seeds) ensures VisitsBall(FreshParams(cfg, web, seeds)) {
        HoldsForOneWorkerOrShallow(cfg, web, seeds);
      }
    } else {
      TrapIsTrap(cfg);
      FailsForTheTrap(TrapParams(cfg));
      var web, seeds := TrapWeb(cfg.maxDepth), ["b", "a"];
      assert DistinctSeeds(seeds) && !VisitsBall(FreshParams(cfg, web, seeds));
    }
  }
}
