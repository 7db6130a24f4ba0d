/**
 Crawl, index, persist, restart, search: what the pieces give together. The index is fed exactly the pages a crawl
 fetched, and it answers the same after a restart.
 */
module Pipeline {
  import opened Options
  import opened CrawlTypes
  import opened CrawlSystem
  import opened CrawlSafety
  import opened CrawlLedger
  import opened CrawlOnce
  import opened CrawlCoverage
  import opened CrawlOutcome
  import opened CrawlFetches
  import opened Text
  import opened Index
  import opened Search
  import opened PData
  import opened Restore
  import opened IndexerLoop

  /** A finished, uncancelled fresh crawl. */
  ghost predicate CompleteCrawl(p: Params, acts: seq<Action>) {
    WellFormed(p) && FreshStart(p) && RanToEnd(p, acts) && After(p, acts).value.coord.phase.Finished?
  }

  /** The pages indexed by a crawl, as index documents in the order of indexing. */
  ghost function IndexedDocs(p: Params, acts: seq<Action>): seq<Document>
    requires After(p, acts).Some?
  {
    DocsOf(After(p, acts).value.indexer.docs)
  }

  lemma DocComesFromPage(p: Params, acts: seq<Action>, r: PageRecord)
    requires CompleteCrawl(p, acts) && r in After(p, acts).value.indexer.docs
    ensures TaskOf(r) in Accepted(p, After(p, acts).value) && r == RecordOf(p.web, TaskOf(r)) && p.web(r.url).Fetched?
  {
    var s := After(p, acts).value;
    FinalAccounting(p, acts);
    hide After, Accepted;
    SucceededAre(s.hist.done, r);
    var i :| 0 <= i < |s.hist.done| && s.hist.done[i] == r;
    assert TasksOf(s.hist.done)[i] == TaskOf(r);
    assert TaskOf(r) in multiset(TasksOf(s.hist.done));
  }

  /** `u` was accepted, its page could be fetched, and the words of its body or title include one of the tokens. */
  ghost predicate Matches(p: Params, s: State, al: Alphabet, tokens: seq<string>, u: Url) {
    && (exists t :: t in Accepted(p, s) && t.url == u) && p.web(u).Fetched?
    && exists k :: 0 <= k < |tokens| && tokens[k] in Tokens(al, p.web(u).bodyText) + Tokens(al, p.web(u).title)
  }

  /** A token occurs in the document of a page exactly when it is a word of the page. */
  lemma PageOccurrences(web: Web, t: CrawlTask, al: Alphabet, token: string)
    requires web(t.url).Fetched?
    ensures Occurrences(al, DocOf(RecordOf(web, t)), token) > 0 <==>
      token in Tokens(al, web(t.url).bodyText) + Tokens(al, web(t.url).title)
  {
    hide Tokens, RecordOf;
    var words := Tokens(al, web(t.url).bodyText) + Tokens(al, web(t.url).title);
    assert token in multiset(words) <==> token in words;
  }

  lemma FoundMatches(p: Params, acts: seq<Action>, al: Alphabet, tokens: seq<string>, u: Url)
    requires CompleteCrawl(p, acts) && u in HitUrls(Hits(Lists(al, IndexedDocs(p, acts), tokens)))
    ensures Matches(p, After(p, acts).value, al, tokens, u)
  {
    var s := After(p, acts).value;
    var docs := IndexedDocs(p, acts);
    hide After, Accepted, Occurrences, HitUrls, CompleteCrawl, Tokens, RecordOf, Hits;
    var k, d := FoundIsContaining(al, docs, tokens, u);
    var i :| 0 <= i < |docs| && docs[i] == d;
    var r := s.indexer.docs[i];
    DocComesFromPage(p, acts, r);
    PageOccurrences(p.web, TaskOf(r), al, tokens[k]);
    assert TaskOf(r) in Accepted(p, s) && TaskOf(r).url == u;
  }

  lemma MatchingIsFound(p: Params, acts: seq<Action>, al: Alphabet, tokens: seq<string>, u: Url)
    requires CompleteCrawl(p, acts) && Matches(p, After(p, acts).value, al, tokens, u)
    ensures u in HitUrls(Hits(Lists(al, IndexedDocs(p, acts), tokens)))
  {
    hide After, Accepted, Occurrences, HitUrls, Tokens, RecordOf, Hits;
    var t :| t in Accepted(p, After(p, acts).value) && t.url == u;
    var k :| 0 <= k < |tokens| && tokens[k] in Tokens(al, p.web(u).bodyText) + Tokens(al, p.web(u).title);
    PageOccurrences(p.web, t, al, tokens[k]);
    PageIsIndexed(p, acts, t);
    ContainingIsFound(al, IndexedDocs(p, acts), tokens, k, DocOf(RecordOf(p.web, t)));
  }

  /**
   After a complete crawl a search finds a URL exactly when the crawl accepted it, its page could be fetched, and
   the words of its body or title include one of the query's tokens.
   */
  lemma SearchFindsCrawledPages(p: Params, acts: seq<Action>, al: Alphabet, tokens: seq<string>, u: Url)
    requires CompleteCrawl(p, acts)
    ensures u in HitUrls(Hits(Lists(al, IndexedDocs(p, acts), tokens))) <==> Matches(p, After(p, acts).value, al, tokens, u)
  {
    hide After, Accepted, HitUrls, Tokens, Hits, Matches, FreshStart;
    if u in HitUrls(Hits(Lists(al, IndexedDocs(p, acts), tokens))) { FoundMatches(p, acts, al, tokens, u); }
    if Matches(p, After(p, acts).value, al, tokens, u) { MatchingIsFound(p, acts, al, tokens, u); }
  }

  lemma PageIsIndexed(p: Params, acts: seq<Action>, t: CrawlTask)
    requires CompleteCrawl(p, acts) && t in Accepted(p, After(p, acts).value) && p.web(t.url).Fetched?
    ensures DocOf(RecordOf(p.web, t)) in IndexedDocs(p, acts)
  {
    OneDocumentPerPage(p, acts, t);
    var rs := After(p, acts).value.indexer.docs;
    hide After;
    var i :| 0 <= i < |rs| && rs[i] == RecordOf(p.web, t);
    assert DocsOf(rs)[i] == DocOf(RecordOf(p.web, t));
  }

  /** No page is indexed twice in any run from distinct marked URLs, so each posting list names a URL at most once. */
  lemma IndexedOnce(p: Params, acts: seq<Action>)
    requires WellFormed(p) && After(p, acts).Some? && DistinctUrls(p.queue0) && Urls(p.queue0) <= p.visited0
    ensures DistinctPages(After(p, acts).value.indexer.docs)
  {
    SoundAlways(p, acts);
    AtMostOneRecord(p, acts);
    var s := After(p, acts).value;
    SoundHasDocs(p, s);
    hide After, Sound;
    SucceededDistinct(s.hist.done);
    assert forall i :: 0 <= i < |s.indexer.docs| ==> TasksOf(s.indexer.docs)[i].url == s.indexer.docs[i].url;
  }

  /** The pages whose rows an indexer has written by now. */
  ghost function WrittenDocs(indexer: PostingIndexer): seq<Document>
    reads indexer
    requires indexer.written <= |indexer.records|
  {
    DocsOf(indexer.records[..indexer.written])
  }

  /** `results` is an answer over these documents, titles aside. */
  ghost predicate AnswersOver(al: Alphabet, docs: seq<Document>, query: string, topK: int, mode: SortBy, results: seq<SearchResult>) {
    exists live :: Answer(Hits(Lists(al, docs, Tokens(al, query))), topK, mode, live) && results == UntitledAll(live)
  }

  /**
   A restart at any moment: what comes back from the file, or from the database when the file is empty, answers as a live
   index of the pages written by then.
   */
  method RestartSearch(indexer: PostingIndexer, query: string, topK: int, mode: SortBy) returns (results: seq<SearchResult>)
    requires indexer.Valid() && indexer.docs0 == [] && indexer.text0 == "" && indexer.hasDir
    requires Sane(indexer.idx.al) && forall r :: r in indexer.records ==> AsciiPage(r) && Storable(r)
    ensures AnswersOver(indexer.idx.al, WrittenDocs(indexer), query, topK, mode, results)
  {
    var table := if indexer.hasDb then Rows(indexer.table) else NoTable;
    ghost var n := indexer.written;
    ghost var records, chunks := indexer.records[..n], indexer.chunks[..n];
    assert "" + Print(indexer.persisted) == Print(indexer.persisted);
    assert ChunksOf(indexer.idx.al, records, chunks);
    assert forall r :: r in records ==> r in indexer.records;
    hide *;
    results := SearchAfterRestart(indexer.idx.al, records, chunks, indexer.file, table, query, topK, mode);
  }

  /**
   A restart without p.data: the database returns the rows handed to it, in any order, and the restored index answers as
   a live index of the pages written by then, titles included.
   */
  method RestartFromTable(indexer: PostingIndexer, file: FileRead, rows: seq<PostingRow>, query: string, topK: int, mode: SortBy)
    returns (results: seq<SearchResult>)
    requires indexer.Valid() && indexer.docs0 == [] && indexer.hasDb && (file.Read? ==> file.rows == [])
    requires Sane(indexer.idx.al) && DistinctPages(indexer.records) && forall r :: r in indexer.records ==> AsciiPage(r)
    requires HoldsRows(rows, indexer.table)
    ensures Answer(Hits(Lists(indexer.idx.al, WrittenDocs(indexer), Tokens(indexer.idx.al, query))), topK, mode, results)
  {
    ghost var n := indexer.written;
    ghost var records, chunks := indexer.records[..n], indexer.chunks[..n];
    assert ChunksOf(indexer.idx.al, records, chunks);
    assert forall r :: r in records ==> r in indexer.records;
    assert DistinctPages(records);
    hide *;
    results := SearchAfterTableRestart(indexer.idx.al, records, chunks, file, rows, query, topK, mode);
  }

  /**
   One life and the next: an indexer takes in the records of a crawl in any mix with its flush timer, and ends; after a
   restart a search of the restored index answers as the live index would, titles aside.
   */
  method IndexRestartSearch(al: Alphabet, events: seq<Event>, hasDb: bool, query: string, topK: int, mode: SortBy)
    returns (results: seq<SearchResult>)
    requires Sane(al) && forall r :: r in Succeeded(Arrived(events)) ==> AsciiPage(r) && Storable(r)
    ensures AnswersOver(al, DocsOf(Succeeded(Arrived(events))), query, topK, mode, results)
  {
    var indexer := FreshIndexer(al, hasDb, true);
    indexer.Run(events);
    hide *;
    assert indexer.records[..indexer.written] == indexer.records;
    results := RestartSearch(indexer, query, topK, mode);
  }

  method FreshIndexer(al: Alphabet, hasDb: bool, hasDir: bool) returns (indexer: PostingIndexer)
    ensures fresh(indexer) && indexer.Valid() && indexer.docs0 == [] && indexer.text0 == "" && indexer.hasDir == hasDir
    ensures indexer.idx.al == al && indexer.hasDb == hasDb && indexer.records == [] && !indexer.closed
    ensures fresh(indexer.idx) && fresh(indexer.pending) && fresh(indexer.pending.data) && fresh(indexer.file)
  {
    hide *;
    var idx := new InvertedIndex(al);
    var file := new PDataFile();
    EmptyScan(al);
    indexer := new PostingIndexer(idx, file, hasDb, hasDir, []);
  }

  /** The same with a database only: the answer is the live index's own. */
  method TableRestartSearch(al: Alphabet, events: seq<Event>, query: string, topK: int, mode: SortBy)
    returns (results: seq<SearchResult>)
    requires Sane(al) && DistinctPages(Succeeded(Arrived(events)))
    requires forall r :: r in Succeeded(Arrived(events)) ==> AsciiPage(r)
    ensures Answer(Hits(Lists(al, DocsOf(Succeeded(Arrived(events))), Tokens(al, query))), topK, mode, results)
  {
    var indexer := FreshIndexer(al, true, false);
    indexer.Run(events);
    hide *;
    HandedRowsHold(al, indexer.records, indexer.chunks);
    assert indexer.records[..indexer.written] == indexer.records;
    results := RestartFromTable(indexer, NoDirectory, indexer.table, query, topK, mode);
  }

  /**
   A life cut off before its end, without the closing flush: the restored index answers over the first pages only, those
   whose rows were written, and these are at least all that arrived before the timer last fired.
   */
  method CutOffRestartSearch(al: Alphabet, events: seq<Event>, hasDb: bool, query: string, topK: int, mode: SortBy)
    returns (results: seq<SearchResult>)
    requires Sane(al) && forall r :: r in Succeeded(Arrived(events)) ==> AsciiPage(r) && Storable(r)
    ensures exists written: nat :: WrittenSince(events, written) && written <= |Succeeded(Arrived(events))|
              && AnswersOver(al, DocsOf(Succeeded(Arrived(events))[..written]), query, topK, mode, results)
  {
    var indexer := FreshIndexer(al, hasDb, true);
    indexer.Take(events);
    hide *;
    results := RestartSearch(indexer, query, topK, mode);
    assert WrittenSince(events, indexer.written);
  }

  // ---------- The indexer of a crawl ----------

  /** What the indexer of a schedule receives: each record it finishes, and each firing of its flush timer. */
  ghost function EventsOf(p: Params, acts: seq<Action>): seq<Event> {
    if acts == [] then []
    else
      var before := After(p, acts[..|acts| - 1]);
      EventsOf(p, acts[..|acts| - 1])
      + (if before.Some? then EventAt(before.value, acts[|acts| - 1]) else [])
  }

  ghost function EventAt(s: State, a: Action): seq<Event> {
    if a.AAddRecord? && s.indexer.pc.Adding? then [Arrives(s.indexer.pc.record)]
    else if a.AFlushTick? then [Ticks]
    else []
  }

  lemma {:induction false} ArrivedConcat(a: seq<Event>, b: seq<Event>)
    ensures Arrived(a + b) == Arrived(a) + Arrived(b)
    decreases |b|
  {
    if b == [] {
      assert a + b == a;
    } else {
      var n := |b| - 1;
      assert (a + b)[..|a + b| - 1] == a + b[..n];
      ArrivedConcat(a, b[..n]);
    }
  }

  lemma DoneByStep(p: Params, s: State, a: Action)
    requires Enabled(p, s, a)
    ensures Apply(p, s, a).hist.done == s.hist.done + Arrived(EventAt(s, a))
  {
    if IsWorkerAction(a) {
      WorkerTouchesOnlyFlow(p, s, a);
      hide Apply, Enabled;
    } else if !IsIndexerAction(a) {
      OthersKeepPipeline(p, s, a);
      hide Apply, Enabled;
    } else if a.AAddRecord? {
      assert [Arrives(s.indexer.pc.record)][..0] == [];
    } else if a.AFlushTick? {
      assert [Ticks][..0] == [];
    }
  }

  /** The records the posting indexer gets along a schedule are the ones the crawl's indexer has finished, in order. */
  lemma {:induction false} ArrivedIsDone(p: Params, acts: seq<Action>)
    requires After(p, acts).Some?
    ensures Arrived(EventsOf(p, acts)) == After(p, acts).value.hist.done
    decreases |acts|
  {
    hide Enabled, Apply, EventAt, Arrived;
    if acts == [] {
      assert Arrived([]) == [] by { NothingArrived(); }
    } else {
      var n := |acts| - 1;
      ArrivedIsDone(p, acts[..n]);
      DoneByStep(p, After(p, acts[..n]).value, acts[n]);
      ArrivedConcat(EventsOf(p, acts[..n]), EventAt(After(p, acts[..n]).value, acts[n]));
    }
  }

  /** An answer that is not cut names every URL hit. */
  lemma UncutAnswerNamesAll(hits: seq<Posting>, topK: int, mode: SortBy, rs: seq<SearchResult>)
    requires Answer(hits, topK, mode, rs) && topK <= 0
    ensures ResultUrls(rs) == HitUrls(hits)
  {
    AnswerLength(hits, topK, mode, rs);
    hide DistinctResults, HitUrls, ResultFor, Before;
    forall u | u in HitUrls(hits) ensures u in ResultUrls(rs) { assert !Omitted(rs, u); }
  }

  lemma UntitledUrls(rs: seq<SearchResult>)
    ensures ResultUrls(UntitledAll(rs)) == ResultUrls(rs)
  {
    var us := UntitledAll(rs);
    forall u | u in ResultUrls(rs) ensures u in ResultUrls(us) {
      var i :| 0 <= i < |rs| && rs[i].url == u;
      assert us[i] in us;
    }
    forall u | u in ResultUrls(us) ensures u in ResultUrls(rs) {
      var i :| 0 <= i < |us| && us[i].url == u;
      assert rs[i] in rs;
    }
  }

  /**
   A crawl run to its end, a restart, a search: the restored index answers from the pages indexed, titles aside; and after
   a complete crawl an uncut search finds exactly the accepted, fetchable pages that match the query.
   */
  method CrawlRestartSearch(ghost p: Params, ghost acts: seq<Action>, al: Alphabet, events: seq<Event>, hasDb: bool,
                            query: string, topK: int, mode: SortBy)
    returns (results: seq<SearchResult>)
    requires WellFormed(p) && Over(p, acts) && events == EventsOf(p, acts)
    requires Sane(al) && forall r :: r in After(p, acts).value.indexer.docs ==> AsciiPage(r) && Storable(r)
    ensures AnswersOver(al, IndexedDocs(p, acts), query, topK, mode, results)
    ensures CompleteCrawl(p, acts) && topK <= 0 ==>
              forall u :: u in ResultUrls(results) <==> Matches(p, After(p, acts).value, al, Tokens(al, query), u)
  {
    IndexedArrived(p, acts);
    hide *;
    results := IndexRestartSearch(al, events, hasDb, query, topK, mode);
    if CompleteCrawl(p, acts) && topK <= 0 {
      forall u ensures u in ResultUrls(results) <==> Matches(p, After(p, acts).value, al, Tokens(al, query), u) {
        UncutAnswerUrls(al, IndexedDocs(p, acts), query, topK, mode, results);
        SearchFindsCrawledPages(p, acts, al, Tokens(al, query), u);
      }
    }
  }

  /**
   A crawl cut off at any moment, a restart, a search: an answer from the first pages indexed, as many as had their rows
   written, and among them all that were indexed before the timer last fired.
   */
  method CutOffCrawlSearch(ghost p: Params, ghost acts: seq<Action>, al: Alphabet, events: seq<Event>, hasDb: bool,
                           query: string, topK: int, mode: SortBy)
    returns (results: seq<SearchResult>)
    requires WellFormed(p) && After(p, acts).Some? && events == EventsOf(p, acts)
    requires Sane(al) && forall r :: r in After(p, acts).value.indexer.docs ==> AsciiPage(r) && Storable(r)
    ensures exists written: nat :: WrittenSince(events, written) && written <= |After(p, acts).value.indexer.docs|
              && AnswersOver(al, DocsOf(After(p, acts).value.indexer.docs[..written]), query, topK, mode, results)
  {
    IndexedArrived(p, acts);
    hide *;
    results := CutOffRestartSearch(al, events, hasDb, query, topK, mode);
  }

  /**
   A crawl kept in the database only: the run ends, cancelled or not, and a restart answers exactly as the live index would,
   titles included.
   */
  method CrawlTableRestartSearch(ghost p: Params, ghost acts: seq<Action>, al: Alphabet, events: seq<Event>,
                                 query: string, topK: int, mode: SortBy)
    returns (results: seq<SearchResult>)
    requires WellFormed(p) && DistinctUrls(p.queue0) && Urls(p.queue0) <= p.visited0
    requires Over(p, acts) && events == EventsOf(p, acts)
    requires Sane(al) && forall r :: r in After(p, acts).value.indexer.docs ==> AsciiPage(r)
    ensures Answer(Hits(Lists(al, IndexedDocs(p, acts), Tokens(al, query))), topK, mode, results)
  {
    IndexedArrived(p, acts);
    IndexedOnce(p, acts);
    hide *;
    results := TableRestartSearch(al, events, query, topK, mode);
  }

  /** What the posting indexer indexes is what the crawl's indexer indexed. */
  lemma IndexedArrived(p: Params, acts: seq<Action>)
    requires WellFormed(p) && After(p, acts).Some?
    ensures After(p, acts).value.indexer.docs == Succeeded(Arrived(EventsOf(p, acts)))
    ensures IndexedDocs(p, acts) == DocsOf(After(p, acts).value.indexer.docs)
  {
    ArrivedIsDone(p, acts);
    SoundAlways(p, acts);
    SoundHasDocs(p, After(p, acts).value);
    hide After, Arrived, EventsOf;
  }

  lemma UncutAnswerUrls(al: Alphabet, docs: seq<Document>, query: string, topK: int, mode: SortBy, results: seq<SearchResult>)
    requires AnswersOver(al, docs, query, topK, mode, results) && topK <= 0
    ensures ResultUrls(results) == HitUrls(Hits(Lists(al, docs, Tokens(al, query))))
  {
    hide Answer, ResultUrls, HitUrls, Hits, Lists, UntitledAll;
    var hits := Hits(Lists(al, docs, Tokens(al, query)));
    var live :| Answer(hits, topK, mode, live) && results == UntitledAll(live);
    UncutAnswerNamesAll(hits, topK, mode, live);
    UntitledUrls(live);
  }
}
