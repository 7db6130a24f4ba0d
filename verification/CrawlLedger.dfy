/**
 What deduplication accepts and marks, and what the visited set, the accepted tasks, the counters and the stored rows
 have to do with each other in every reachable state. What follows for fetches and channels is in CrawlOnce.
 */
module CrawlLedger {
  import opened Options
  import opened CrawlTypes
  import opened CrawlSystem
  import opened CrawlSafety
  import opened Runs
  import opened Tally

  // ---------- deduplicateAndMark ----------

  /** Exactly the accepted URLs get marked, and each of them was new. */
  lemma {:induction false} DedupMarks(cfg: Config, batch: seq<CrawlTask>, visited: set<Url>)
    ensures var (found, marked) := Dedup(cfg, batch, visited);
      marked == visited + Urls(found) && Urls(found) !! visited && |marked| == |visited| + |found|
    decreases |batch|
  {
    if batch != [] {
      var t := batch[0];
      if t.depth > cfg.maxDepth || t.url in visited {
        DedupMarks(cfg, batch[1..], visited);
      } else if !AtUrlCap(cfg, visited) {
        DedupMarks(cfg, batch[1..], visited + {t.url});
        UrlsCons(t, Dedup(cfg, batch[1..], visited + {t.url}).0);
      }
    }
  }

  /** Accepted tasks come from the batch, within depth, one per URL. */
  lemma {:induction false} DedupAccepts(cfg: Config, batch: seq<CrawlTask>, visited: set<Url>)
    ensures var found := Dedup(cfg, batch, visited).0;
      DistinctUrls(found) && forall t :: t in found ==> t in batch && t.depth <= cfg.maxDepth
    decreases |batch|
  {
    if batch != [] {
      var t := batch[0];
      if t.depth > cfg.maxDepth || t.url in visited {
        DedupAccepts(cfg, batch[1..], visited);
      } else if !AtUrlCap(cfg, visited) {
        DedupAccepts(cfg, batch[1..], visited + {t.url});
        DedupMarks(cfg, batch[1..], visited + {t.url});
        DistinctCons(t, Dedup(cfg, batch[1..], visited + {t.url}).0);
        hide DistinctUrls, Urls;
      }
    }
  }

  lemma UrlsCons(t: CrawlTask, ts: seq<CrawlTask>)
    ensures Urls([t] + ts) == {t.url} + Urls(ts)
  {
    assert forall x :: x in [t] + ts <==> x == t || x in ts;
  }

  lemma UrlsConcat(a: seq<CrawlTask>, b: seq<CrawlTask>)
    ensures Urls(a + b) == Urls(a) + Urls(b)
  {
    assert forall x :: x in a + b <==> x in a || x in b;
  }

  lemma DistinctConcat(a: seq<CrawlTask>, b: seq<CrawlTask>)
    requires DistinctUrls(a) && DistinctUrls(b) && Urls(a) !! Urls(b)
    ensures DistinctUrls(a + b)
  {
    forall i, j | 0 <= i < j < |a + b| ensures (a + b)[i].url != (a + b)[j].url {
      if i < |a| <= j {
        assert a[i].url in Urls(a) && b[j - |a|].url in Urls(b);
      }
    }
  }

  lemma DistinctCons(t: CrawlTask, ts: seq<CrawlTask>)
    requires DistinctUrls(ts) && t.url !in Urls(ts)
    ensures DistinctUrls([t] + ts)
  {
    assert Urls([t]) == {t.url} by { UrlsCons(t, []); }
    DistinctConcat([t], ts);
  }

  /** Tasks picked from a batch, in its order, each the first within depth of its URL. */
  ghost predicate Picked(cfg: Config, batch: seq<CrawlTask>, picks: seq<nat>, found: seq<CrawlTask>) {
    && |picks| == |found| && (forall k :: 0 <= k < |picks| ==> picks[k] < |batch| && found[k] == batch[picks[k]])
    && (forall k, m :: 0 <= k < m < |picks| ==> picks[k] < picks[m])
    && (forall k, j :: 0 <= k < |picks| && 0 <= j < picks[k] && batch[j].depth <= cfg.maxDepth ==> batch[j].url != found[k].url)
  }

  /** Dedup keeps the order of the batch, and of several tasks for one URL the first within depth. */
  lemma {:induction false} DedupPicks(cfg: Config, batch: seq<CrawlTask>, visited: set<Url>) returns (picks: seq<nat>)
    ensures Picked(cfg, batch, picks, Dedup(cfg, batch, visited).0)
    decreases |batch|
  {
    picks := [];
    if batch != [] {
      var t := batch[0];
      if t.depth > cfg.maxDepth || t.url in visited {
        DedupMarks(cfg, batch[1..], visited);
        picks := DedupPicks(cfg, batch[1..], visited);
        hide Picked, Urls;
        picks := PickLater(cfg, batch, visited, picks, Dedup(cfg, batch[1..], visited).0);
      } else if !AtUrlCap(cfg, visited) {
        var found := Dedup(cfg, batch[1..], visited + {t.url}).0;
        DedupMarks(cfg, batch[1..], visited + {t.url});
        picks := DedupPicks(cfg, batch[1..], visited + {t.url});
        hide Picked, Urls;
        picks := PickLater(cfg, batch, visited + {t.url}, picks, found);
        PickFirst(cfg, batch, picks, found);
        picks := [0] + picks;
      }
    }
  }

  lemma PickFirst(cfg: Config, batch: seq<CrawlTask>, picks: seq<nat>, found: seq<CrawlTask>)
    requires batch != [] && Picked(cfg, batch, picks, found) && forall k :: 0 <= k < |picks| ==> picks[k] >= 1
    ensures Picked(cfg, batch, [0] + picks, [batch[0]] + found)
  {}

  lemma PickLater(cfg: Config, batch: seq<CrawlTask>, visited: set<Url>, rest: seq<nat>, found: seq<CrawlTask>)
    returns (picks: seq<nat>)
    requires batch != [] && Picked(cfg, batch[1..], rest, found) && Urls(found) !! visited
    requires batch[0].depth > cfg.maxDepth || batch[0].url in visited
    ensures Picked(cfg, batch, picks, found) && forall k :: 0 <= k < |picks| ==> picks[k] >= 1
  {
    picks := seq(|rest|, k requires 0 <= k < |rest| => rest[k] + 1);
    forall k, j | 0 <= k < |picks| && 0 <= j < picks[k] && batch[j].depth <= cfg.maxDepth ensures batch[j].url != found[k].url {
      if j == 0 {
        assert found[k] in found;
      } else {
        assert batch[1..][j - 1] == batch[j];
      }
    }
  }

  /** Nothing acceptable is refused: a task within depth ends up visited, unless the URL cap has been reached. */
  lemma {:induction false} DedupComplete(cfg: Config, batch: seq<CrawlTask>, visited: set<Url>)
    ensures var marked := Dedup(cfg, batch, visited).1;
      AtUrlCap(cfg, marked) || forall t :: t in batch && t.depth <= cfg.maxDepth ==> t.url in marked
    decreases |batch|
  {
    if batch != [] {
      var t := batch[0];
      if t.depth > cfg.maxDepth || t.url in visited {
        DedupComplete(cfg, batch[1..], visited);
        DedupMarks(cfg, batch[1..], visited);
      } else if !AtUrlCap(cfg, visited) {
        DedupComplete(cfg, batch[1..], visited + {t.url});
        DedupMarks(cfg, batch[1..], visited + {t.url});
      }
      assert batch == [t] + batch[1..];
    }
  }

  /** The cap is never overrun. */
  lemma {:induction false} DedupCapped(cfg: Config, batch: seq<CrawlTask>, visited: set<Url>)
    requires cfg.maxURLs > 0 && |visited| <= cfg.maxURLs
    ensures |Dedup(cfg, batch, visited).1| <= cfg.maxURLs
    decreases |batch|
  {
    if batch != [] {
      if batch[0].depth > cfg.maxDepth || batch[0].url in visited {
        DedupCapped(cfg, batch[1..], visited);
      } else if !AtUrlCap(cfg, visited) {
        DedupCapped(cfg, batch[1..], visited + {batch[0].url});
      }
    }
  }

  /** At the cap, or when everything is already visited, nothing is accepted. */
  lemma {:induction false} DedupNothingNew(cfg: Config, batch: seq<CrawlTask>, visited: set<Url>)
    requires AtUrlCap(cfg, visited) || Urls(batch) <= visited
    ensures Dedup(cfg, batch, visited) == ([], visited)
    decreases |batch|
  {
    if batch != [] {
      if batch[0].depth > cfg.maxDepth || batch[0].url in visited {
        assert forall t :: t in batch[1..] ==> t in batch;
        DedupNothingNew(cfg, batch[1..], visited);
      }
    }
  }

  // ---------- The books of the coordinator and the indexer ----------

  /** Everything accepted in this run: the initial queue, then what the batches brought. */
  function Accepted(p: Params, s: State): seq<CrawlTask> { p.queue0 + s.hist.found }

  function Succeeded(rs: seq<PageRecord>): seq<PageRecord> {
    if rs == [] then []
    else if rs[|rs| - 1].failed then Succeeded(rs[..|rs| - 1])
    else Succeeded(rs[..|rs| - 1]) + [rs[|rs| - 1]]
  }

  /** The visited set is the initial one plus what was found, each URL found once and within depth. */
  ghost predicate VisitedBooks(p: Params, visited: set<Url>, found: seq<CrawlTask>) {
    && visited == p.visited0 + Urls(found)
    && |visited| == |p.visited0| + |found|
    && Urls(found) !! p.visited0
    && DistinctUrls(found)
    && (forall t :: t in found ==> t.depth <= p.cfg.maxDepth)
    && (p.cfg.maxURLs > 0 && |p.visited0| <= p.cfg.maxURLs ==> |visited| <= p.cfg.maxURLs)
  }

  ghost predicate Counters(p: Params, x: Indexer, done: seq<PageRecord>) {
    && x.pagesProcessed == p.counts0.processed + |done|
    && x.docs == Succeeded(done)
    && x.indexedDocs == p.counts0.indexed + |x.docs|
    && x.pagesErrored == p.counts0.errored + |done| - |x.docs|
  }

  /** Stored rows and unflushed rows together are the initial rows plus what was found; without a database nothing is stored. */
  ghost predicate StoredBooks(p: Params, stored: set<Url>, newVisited: seq<Url>, found: seq<CrawlTask>) {
    if p.cfg.hasDb then stored + (set u | u in newVisited) == p.stored0 + Urls(found)
    else stored == p.stored0 && newVisited == UrlSeq(found)
  }

  ghost predicate Ledger(p: Params, s: State) {
    && VisitedBooks(p, s.coord.visited, s.hist.found)
    && s.coord.pagesQueued == p.counts0.queued + |p.queue0| + |s.hist.found|
    && StoredBooks(p, s.coord.stored, s.coord.newVisited, s.hist.found)
    && (Returned(s) && p.cfg.hasDb ==> s.coord.newVisited == [])
    && Counters(p, s.indexer, s.hist.done)
  }

  lemma InitLedger(p: Params)
    ensures Ledger(p, Init(p))
  {}

  lemma DedupKeepsFound(cfg: Config, visited: set<Url>, found: seq<CrawlTask>, batch: seq<CrawlTask>)
    requires DistinctUrls(found) && Urls(found) <= visited && forall t :: t in found ==> t.depth <= cfg.maxDepth
    ensures var more := Dedup(cfg, batch, visited).0;
      DistinctUrls(found + more) && forall t :: t in found + more ==> t.depth <= cfg.maxDepth
  {
    hide Dedup, DistinctUrls, Urls;
    var more := Dedup(cfg, batch, visited).0;
    DedupMarks(cfg, batch, visited);
    DedupAccepts(cfg, batch, visited);
    DistinctConcat(found, more);
  }

  lemma DedupKeepsVisited(p: Params, visited: set<Url>, found: seq<CrawlTask>, batch: seq<CrawlTask>)
    requires VisitedBooks(p, visited, found)
    ensures var (more, marked) := Dedup(p.cfg, batch, visited); VisitedBooks(p, marked, found + more)
  {
    var more, marked := Dedup(p.cfg, batch, visited).0, Dedup(p.cfg, batch, visited).1;
    hide Dedup, DistinctUrls, Urls;
    DedupMarks(p.cfg, batch, visited);
    DedupKeepsFound(p.cfg, visited, found, batch);
    if p.cfg.maxURLs > 0 && |p.visited0| <= p.cfg.maxURLs {
      DedupCapped(p.cfg, batch, visited);
    }
    UrlsConcat(found, more);
    assert marked == p.visited0 + Urls(found + more) && Urls(found + more) !! p.visited0;
  }

  lemma UrlSeqIs(ts: seq<CrawlTask>)
    ensures (set u | u in UrlSeq(ts)) == Urls(ts)
  {
    assert forall i :: 0 <= i < |ts| ==> UrlSeq(ts)[i] in UrlSeq(ts) && ts[i] in ts;
  }

  lemma DedupKeepsStored(p: Params, stored: set<Url>, newVisited: seq<Url>, found: seq<CrawlTask>, more: seq<CrawlTask>)
    requires StoredBooks(p, stored, newVisited, found)
    ensures StoredBooks(p, stored, newVisited + UrlSeq(more), found + more)
  {
    UrlsConcat(found, more);
    UrlSeqIs(more);
    var us := UrlSeq(more);
    assert UrlSeq(found + more) == UrlSeq(found) + us;
    hide UrlSeq, Urls;
    assert (set u | u in newVisited + us) == (set u | u in newVisited) + (set u | u in us);
  }

  lemma SucceededStep(rs: seq<PageRecord>, r: PageRecord)
    ensures Succeeded(rs + [r]) == Succeeded(rs) + (if r.failed then [] else [r])
  {
    assert (rs + [r])[..|rs|] == rs;
  }

  lemma ReceiveKeepsLedger(p: Params, s: State)
    requires Ledger(p, s) && s.discoveredCh != [] && !Returned(s)
    ensures Ledger(p, ReceiveBatch(p.cfg, s))
  {
    hide VisitedBooks, StoredBooks, Counters, Dedup, UrlSeq;
    DedupKeepsVisited(p, s.coord.visited, s.hist.found, s.discoveredCh[0]);
    DedupKeepsStored(p, s.coord.stored, s.coord.newVisited, s.hist.found, Dedup(p.cfg, s.discoveredCh[0], s.coord.visited).0);
  }

  lemma AddKeepsLedger(p: Params, s: State)
    requires Ledger(p, s) && s.indexer.pc.Adding?
    ensures Ledger(p, AddRecord(s))
  {
    hide VisitedBooks, StoredBooks, Succeeded;
    SucceededStep(s.hist.done, s.indexer.pc.record);
  }

  lemma FlushKeepsStored(p: Params, c: Coordinator, found: seq<CrawlTask>)
    requires StoredBooks(p, c.stored, c.newVisited, found)
    ensures var f := Flush(p.cfg, c);
      && StoredBooks(p, f.stored, f.newVisited, found) && (p.cfg.hasDb ==> f.newVisited == [])
      && f.visited == c.visited && f.pagesQueued == c.pagesQueued
  {
    var f := Flush(p.cfg, c);
    if p.cfg.hasDb {
      assert f.stored + (set u | u in f.newVisited) == c.stored + (set u | u in c.newVisited);
    }
  }

  lemma OthersKeepLedger(p: Params, s: State, a: Action)
    requires Ledger(p, s) && Enabled(p, s, a) && !a.AReceiveBatch? && !a.AAddRecord?
    ensures Ledger(p, Apply(p, s, a))
  {
    if IsWorkerAction(a) {
      WorkerTouchesOnlyFlow(p, s, a);
      hide Apply, Enabled, Counters, VisitedBooks, StoredBooks;
    } else if a.ACheckLoop? {
      LoopKeepsLedger(p, s);
      hide Ledger, CheckLoop;
    } else if IsIndexerAction(a) {
      hide Ledger, Apply, Enabled;
      IndexerKeepsLedger(p, s, a);
    } else {
      hide Ledger, Apply, Enabled;
      CoordinatorKeepsLedger(p, s, a);
    }
  }

  /** The same books: visited set, queue counter, stored and unflushed rows. */
  ghost predicate SameBooks(c: Coordinator, d: Coordinator) {
    c.visited == d.visited && c.pagesQueued == d.pagesQueued && c.stored == d.stored && c.newVisited == d.newVisited
  }

  lemma QueueingKeepsBooks(cfg: Config, s: State)
    ensures s.coord.overflow != [] ==> var s' := SendOverflow(s);
      s'.hist == s.hist && s'.indexer == s.indexer && SameBooks(s'.coord, s.coord) && (Returned(s') ==> Returned(s))
    ensures s.coord.phase.Dispatch? ==> var s' := DispatchNext(cfg, s);
      s'.hist == s.hist && s'.indexer == s.indexer && SameBooks(s'.coord, s.coord) && !Returned(s')
  {}

  lemma CoordinatorOnlyFlushes(p: Params, s: State, a: Action)
    requires Enabled(p, s, a) && !IsWorkerAction(a) && !IsIndexerAction(a) && !a.ACheckLoop? && !a.AReceiveBatch?
    ensures var s' := Apply(p, s, a);
      && s'.hist.found == s.hist.found && s'.hist.done == s.hist.done && s'.indexer == s.indexer
      && (SameBooks(s'.coord, Flush(p.cfg, s.coord)) || (SameBooks(s'.coord, s.coord) && (Returned(s') ==> Returned(s))))
  {
    QueueingKeepsBooks(p.cfg, s);
    hide Flush, SendOverflow, DispatchNext, CheckLoop, ReceiveBatch, CheckCancel, EndFetch, SendRecord, AddRecord;
  }

  lemma CoordinatorKeepsLedger(p: Params, s: State, a: Action)
    requires Ledger(p, s) && Enabled(p, s, a) && !IsWorkerAction(a) && !IsIndexerAction(a) && !a.ACheckLoop? && !a.AReceiveBatch?
    ensures Ledger(p, Apply(p, s, a))
  {
    FlushKeepsStored(p, s.coord, s.hist.found);
    CoordinatorOnlyFlushes(p, s, a);
    hide VisitedBooks, Counters, StoredBooks, Flush, Apply, Enabled, Returned;
  }

  lemma IndexerKeepsLedger(p: Params, s: State, a: Action)
    requires Ledger(p, s) && Enabled(p, s, a) && IsIndexerAction(a) && !a.AAddRecord?
    ensures Ledger(p, Apply(p, s, a))
  {
    hide VisitedBooks, StoredBooks;
  }

  /** The loop test leaves the coordinator's books alone, or flushes them on the way out. */
  lemma LeavingFlushes(cfg: Config, s: State)
    ensures var s', c := LeaveLoop(cfg, s), Flush(cfg, s.coord);
      && s'.indexer == s.indexer && s'.hist.found == s.hist.found && s'.hist.done == s.hist.done && Returned(s')
      && s'.coord.visited == c.visited && s'.coord.pagesQueued == c.pagesQueued
      && s'.coord.stored == c.stored && s'.coord.newVisited == c.newVisited
  {
    hide Flush;
  }

  /** The loop test leaves the coordinator's books alone, or flushes them on the way out. */
  lemma LoopCoord(cfg: Config, s: State)
    ensures var s', c := CheckLoop(cfg, s), Flush(cfg, s.coord);
      && s'.indexer == s.indexer && s'.hist.found == s.hist.found && s'.hist.done == s.hist.done
      && (if Returned(s') then s'.coord.visited == c.visited && s'.coord.pagesQueued == c.pagesQueued
                               && s'.coord.stored == c.stored && s'.coord.newVisited == c.newVisited
          else s'.coord.visited == s.coord.visited && s'.coord.pagesQueued == s.coord.pagesQueued
               && s'.coord.stored == s.coord.stored && s'.coord.newVisited == s.coord.newVisited)
  {
    LeavingFlushes(cfg, s);
    LoopCases(cfg, s);
    hide CheckLoop, LeaveLoop, Flush;
  }

  lemma LoopKeepsLedger(p: Params, s: State)
    requires Ledger(p, s)
    ensures s.coord.phase.Head? ==> Ledger(p, CheckLoop(p.cfg, s))
  {
    hide VisitedBooks, Counters, StoredBooks, Flush, CheckLoop, Returned;
    LoopCoord(p.cfg, s);
    FlushKeepsStored(p, s.coord, s.hist.found);
  }

  lemma {:induction false} LedgerKept(p: Params, s: State, a: Action)
    requires Shape(p, s) && Ledger(p, s) && Enabled(p, s, a)
    ensures Ledger(p, Apply(p, s, a))
  {
    hide Shape, Ledger, ReceiveBatch, AddRecord;
    if a.AReceiveBatch? {
      ReceiveKeepsLedger(p, s);
    } else if a.AAddRecord? {
      AddKeepsLedger(p, s);
    } else {
      OthersKeepLedger(p, s, a);
    }
  }

  // ---------- Every reachable state ----------

  ghost predicate Sound(p: Params, s: State) {
    && Shape(p, s) && Ledger(p, s)
    && (forall t :: TaskBooks(p, s, t))
    && (forall t :: RecordBooks(s, t))
  }

  lemma SoundKept(p: Params, s: State, a: Action)
    requires WellFormed(p) && Sound(p, s) && Enabled(p, s, a)
    ensures Sound(p, Apply(p, s, a))
  {
    hide Shape, Ledger, TaskBooks, RecordBooks, Enabled, Apply;
    ShapeKept(p, s, a);
    LedgerKept(p, s, a);
    forall t ensures TaskBooks(p, Apply(p, s, a), t) && RecordBooks(Apply(p, s, a), t) { BooksKept(p, s, a, t); }
  }

  lemma SoundInit(p: Params)
    requires WellFormed(p)
    ensures Sound(p, Init(p))
  {
    hide Shape, Ledger, TaskBooks, RecordBooks;
    InitShape(p);
    InitLedger(p);
    forall t ensures TaskBooks(p, Init(p), t) { InitTaskBooks(p, t); }
    forall t ensures RecordBooks(Init(p), t) { InitRecordBooks(p, t); }
  }

  /** Whatever the schedule, the books balance in every state it reaches. */
  lemma SoundAlways(p: Params, acts: seq<Action>)
    requires WellFormed(p) && After(p, acts).Some?
    ensures Sound(p, After(p, acts).value)
  {
    hide Sound, Enabled, Apply, Init;
    var inv := (s: State) => Sound(p, s);
    forall s, a | inv(s) && Stepper(p)(s, a).Some? ensures inv(Stepper(p)(s, a).value) {
      SoundKept(p, s, a);
    }
    SoundInit(p);
    Invariance(Stepper(p), inv, Init(p), acts);
  }
}
