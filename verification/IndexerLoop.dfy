/**
 The indexer goroutine: every record goes into the live index at once, while its posting rows wait in a slice that
 is reused in place and written out in batches, by size, by timer and at the end.
 */
module IndexerLoop {
  import opened CrawlTypes
  import opened Text
  import opened Index
  import opened PData
  import opened Restore
  import opened CrawlLedger

  const FLUSH_AT: nat := 500

  /** A growable slice of rows whose storage is kept when it is emptied. */
  class RowBuffer {
    var data: array<PostingRow>
    var len: nat

    ghost predicate Valid() reads this { len <= data.Length }

    ghost function Contents(): seq<PostingRow>
      reads this, data
      requires Valid()
    {
      data[..len]
    }

    constructor ()
      ensures Valid() && Contents() == [] && fresh(data)
    {
      data, len := new PostingRow[0], 0;
    }

    method Append(row: PostingRow)
      requires Valid()
      modifies this, data
      ensures Valid() && Contents() == old(Contents()) + [row] && (data == old(data) || fresh(data))
    {
      if len == data.Length {
        var bigger := new PostingRow[2 * len + 1];
        forall i | 0 <= i < len { bigger[i] := data[i]; }
        assert bigger[..len] == data[..len];
        data := bigger;
      }
      data[len] := row;
      len := len + 1;
    }

    /** Empties the slice, keeping its storage. */
    method Reset()
      requires Valid()
      modifies this`len
      ensures Valid() && Contents() == []
    {
      len := 0;
    }
  }

  /** Appends the rows of a page, in whatever order the map of counts yields them. */
  method CollectPostings(al: Alphabet, buf: RowBuffer, record: PageRecord) returns (ghost rows: seq<PostingRow>)
    requires buf.Valid()
    modifies buf, buf.data
    ensures buf.Valid() && (buf.data == old(buf.data) || fresh(buf.data))
    ensures buf.Contents() == old(buf.Contents()) + rows && RowsOf(al, record, rows)
    ensures Sane(al) ==> TokensOfPage(al, record, rows)
  {
    var words := RowWords(al, record.title, record.bodyText);
    var freq := CountLongWords(words);
    ghost var start := buf.Contents();
    rows := [];
    assert start + [] == start;
    hide ByteLen, RowWords, Contains, Lower;
    var todo := freq.Keys;
    while todo != {}
      invariant todo <= freq.Keys
      invariant buf.Valid() && (buf.data == old(buf.data) || fresh(buf.data)) && buf.Contents() == start + rows
      invariant RowsSoFar(al, record, freq, todo, rows)
    {
      var token :| token in todo;
      todo := todo - {token};
      var row := RowFor(al, record, token, freq[token]);
      buf.Append(row);
      RowAdded(al, record, freq, todo, rows, token);
      assert start + rows + [row] == start + (rows + [row]);
      rows := rows + [row];
      hide RowsSoFar, RowFor;
    }
    RowsComplete(al, record, freq, rows);
    if Sane(al) { RowTokensAreRuns(al, record, rows); }
    hide Sane, TokensOfPage;
  }

  ghost predicate RowsSoFar(al: Alphabet, r: PageRecord, freq: map<string, nat>, todo: set<string>, rows: seq<PostingRow>) {
    && (forall i, j :: 0 <= i < j < |rows| ==> rows[i].token != rows[j].token)
    && (forall row :: row in rows ==> row.token in freq && row.token !in todo && row == RowFor(al, r, row.token, freq[row.token]))
    && (forall w :: w in freq && w !in todo ==> exists row :: row in rows && row.token == w)
  }

  lemma RowAdded(al: Alphabet, r: PageRecord, freq: map<string, nat>, todo: set<string>, rows: seq<PostingRow>, token: string)
    requires RowsSoFar(al, r, freq, todo + {token}, rows) && token in freq && token !in todo
    ensures RowsSoFar(al, r, freq, todo, rows + [RowFor(al, r, token, freq[token])])
  {
    var row := RowFor(al, r, token, freq[token]);
    hide Contains, Lower;
    forall i | 0 <= i < |rows| ensures rows[i].token != token { assert rows[i] in rows; }
    assert row in rows + [row] && forall x :: x in rows ==> x in rows + [row];
    hide RowFor;
  }

  lemma RowsComplete(al: Alphabet, r: PageRecord, freq: map<string, nat>, rows: seq<PostingRow>)
    requires CountsLong(freq, WordsOf(al, r)) && RowsSoFar(al, r, freq, {}, rows)
    ensures RowsOf(al, r, rows)
  {
    hide ByteLen, RowFor, WordsOf;
    forall row | row in rows ensures row.token in WordsOf(al, r) { assert freq[row.token] == multiset(WordsOf(al, r))[row.token]; }
    forall w | w in WordsOf(al, r) && ByteLen(w) >= 2 ensures w in freq { assert multiset(WordsOf(al, r))[w] > 0; }
  }

  /** What the indexer waits for: a record, or the flush timer. */
  datatype Event = Arrives(record: PageRecord) | Ticks

  function Arrived(events: seq<Event>): seq<PageRecord> {
    if events == [] then []
    else Arrived(events[..|events| - 1]) + (if events[|events| - 1].Arrives? then [events[|events| - 1].record] else [])
  }

  class PostingIndexer {
    const idx: InvertedIndex
    const pending: RowBuffer
    const file: PDataFile
    const hasDb: bool
    const hasDir: bool
    var table: seq<PostingRow>     // what the database has been handed, in order
    var pagesProcessed: int
    var pagesErrored: int
    var indexedDocs: int
    var closed: bool

    ghost const docs0: seq<Document>
    ghost const text0: string
    ghost var records: seq<PageRecord>        // the error-free records so far
    ghost var chunks: seq<seq<PostingRow>>    // the rows of each of them
    ghost var persisted: seq<PostingRow>
    ghost var written: nat                    // how many of those records have all their rows written

    /** Index, file and database agree with the records indexed and the rows written so far. */
    ghost predicate Books()
      reads this, idx, pending, file
    {
      && pending.Valid() && file.Consistent()
      && ChunksOf(idx.al, records, chunks) && |chunks| == |records|
      && written <= |records| && persisted == Flatten(chunks[..written])
      && file.text == text0 + (if hasDir then Print(persisted) else "")
      && table == (if hasDb then persisted else [])
      && (forall t :: idx.At(t) == Scan(idx.al, docs0 + DocsOf(records), t))
      && indexedDocs == |records|
    }

    /** Written rows followed by waiting ones are the rows of all error-free records, each exactly once, in order. */
    ghost predicate NothingLost()
      reads this, pending, pending.data
      requires pending.Valid()
    {
      persisted + pending.Contents() == Flatten(chunks)
    }

    ghost predicate Valid()
      reads this, idx, pending, pending.data, file
    {
      && Books() && pagesProcessed == indexedDocs + pagesErrored
      && if closed then written == |records| else NothingLost() && pending.len < FLUSH_AT
    }

    constructor (idx: InvertedIndex, file: PDataFile, hasDb: bool, hasDir: bool, ghost docs0: seq<Document>)
      requires file.Consistent() && forall t :: idx.At(t) == Scan(idx.al, docs0, t)
      ensures Valid() && fresh(pending) && fresh(pending.data)
      ensures this.idx == idx && this.file == file && this.hasDb == hasDb && this.hasDir == hasDir
      ensures this.docs0 == docs0 && text0 == file.text && records == [] && !closed
    {
      this.idx, this.file, this.hasDb, this.hasDir := idx, file, hasDb, hasDir;
      pending := new RowBuffer();
      table, pagesProcessed, pagesErrored, indexedDocs, closed := [], 0, 0, 0, false;
      this.docs0, text0 := docs0, file.text;
      records, chunks, persisted, written := [], [], [], 0;
      new;
      assert docs0 + DocsOf([]) == docs0;
      assert text0 + "" == text0;
    }

    /** Hands the waiting rows to the database and the file. */
    method Persist()
      requires pending.Valid() && file.Consistent()
      requires file.text == text0 + (if hasDir then Print(persisted) else "")
      requires table == (if hasDb then persisted else [])
      modifies this`table, this`persisted, file
      ensures persisted == old(persisted) + pending.Contents() && file.Consistent()
      ensures file.text == text0 + (if hasDir then Print(persisted) else "")
      ensures table == (if hasDb then persisted else [])
    {
      hide Print;
      var rows := pending.data[..pending.len];
      ghost var before := persisted;
      if hasDb {
        table := table + rows;
      }
      if hasDir {
        file.AppendPostings(rows);
        PrintedAfter(text0, before, rows);
      }
      persisted := persisted + rows;
    }

    /** Writes the waiting rows and empties the slice. */
    method Flush()
      requires Books() && NothingLost()
      modifies this`table, this`persisted, this`written, pending`len, file
      ensures Books() && NothingLost() && pending.len == 0 && written == |records|
      ensures persisted == old(persisted) + old(pending.Contents())
    {
      hide Scan, Flatten, Print, ChunksOf;
      Persist();
      pending.Reset();
      AllWritten();
      assert persisted + [] == persisted;
    }

    /** Every row has been written, so every record has. */
    ghost method AllWritten()
      requires persisted == Flatten(chunks)
      modifies this`written
      ensures written == |chunks| && persisted == Flatten(chunks[..written])
    {
      written := |chunks|;
      assert chunks[..written] == chunks;
    }

    /** A record arrives: a failed page is only counted; any other is indexed and its rows queued. */
    method HandleRecord(record: PageRecord)
      requires Valid() && !closed
      modifies this, idx, pending, pending.data, file
      ensures Valid() && !closed && (pending.data == old(pending.data) || fresh(pending.data))
      ensures records == if record.failed then old(records) else old(records) + [record]
      ensures pagesErrored == old(pagesErrored) + (if record.failed then 1 else 0)
      ensures pagesProcessed == old(pagesProcessed) + 1 && written >= old(written) && pending.len < 500
      ensures record.failed ==> chunks == old(chunks) && persisted == old(persisted)
      ensures !record.failed ==> |chunks| == old(|chunks|) + 1
      ensures !record.failed && old(pending.len) + |chunks[|chunks| - 1]| < 500 ==> persisted == old(persisted)
      ensures !record.failed && old(pending.len) + |chunks[|chunks| - 1]| >= 500 ==>
                persisted == old(persisted) + old(pending.Contents()) + chunks[|chunks| - 1]
    {
      hide Scan, Flatten, Print, ChunksOf;
      if record.failed {
        pagesErrored := pagesErrored + 1;
      } else {
        IndexPage(record);
        if pending.len >= FLUSH_AT {
          Flush();
        }
      }
      pagesProcessed := pagesProcessed + 1;
    }

    /** Adds an error-free page to the live index and queues its rows. */
    method IndexPage(record: PageRecord)
      requires Valid() && !closed
      modifies this`indexedDocs, this`records, this`chunks, idx, pending, pending.data
      ensures Books() && NothingLost() && (pending.data == old(pending.data) || fresh(pending.data))
      ensures records == old(records) + [record] && indexedDocs == old(indexedDocs) + 1
      ensures |chunks| == old(|chunks|) + 1 && pending.Contents() == old(pending.Contents()) + chunks[|chunks| - 1]
    {
      hide Scan, Flatten, Print, RowsOf, TokensOfPage, Sane, Tokens, PostingsOf, DocsOf, InvertedIndex.At;
      idx.AddDocument(Document(record.url, record.originUrl, record.depth, record.title, record.bodyText));
      indexedDocs := indexedDocs + 1;
      AddedToScan(idx.al, docs0, records, record);
      ghost var rows := CollectPostings(idx.al, pending, record);
      FlattenStep(chunks, rows);
      assert persisted + old(pending.Contents()) + rows == persisted + (old(pending.Contents()) + rows);
      assert (chunks + [rows])[..written] == chunks[..written] && (chunks + [rows])[|chunks|] == rows;
      records, chunks := records + [record], chunks + [rows];
    }

    /** The timer fires: whatever waits is written. */
    method HandleTick()
      requires Valid() && !closed
      modifies this`table, this`persisted, this`written, pending`len, file
      ensures Valid() && pending.len == 0 && old(written) <= written == |records|
    {
      if pending.len > 0 {
        Flush();
      } else {
        assert persisted + pending.Contents() == persisted;
        AllWritten();
      }
    }

    /** The results channel is closed: the rest is written and the loop ends. */
    method HandleClose()
      requires Valid() && !closed
      modifies this`table, this`persisted, this`written, this`closed, file
      ensures Valid() && closed && written == |records| && persisted == Flatten(chunks)
    {
      hide Scan, Flatten, Print, RowsOf;
      if pending.len > 0 {
        Persist();
      } else {
        assert persisted + pending.Contents() == persisted;
      }
      AllWritten();
      closed := true;
    }

    /** Events in any mix: nothing that arrived before a firing of the timer is still to be written. */
    method Take(events: seq<Event>)
      requires Valid() && !closed && records == []
      modifies this, idx, pending, pending.data, file
      ensures Valid() && !closed && records == Succeeded(Arrived(events))
      ensures pagesProcessed == old(pagesProcessed) + |Arrived(events)|
      ensures WrittenSince(events, written)
    {
      hide *;
      NothingArrived();
      assert events[..0] == [];
      assert WrittenSince([], written) by { NoTimerYet(written); }
      for i := 0 to |events|
        invariant Valid() && !closed && (pending.data == old(pending.data) || fresh(pending.data))
        invariant records == Succeeded(Arrived(events[..i]))
        invariant pagesProcessed == old(pagesProcessed) + |Arrived(events[..i])|
        invariant WrittenSince(events[..i], written)
      {
        ArrivedStep(events, i);
        ghost var before := written;
        match events[i] {
          case Arrives(record) =>
            SucceededStep(Arrived(events[..i]), record);
            assert records + [] == records;
            HandleRecord(record);
          case Ticks =>
            HandleTick();
        }
        WrittenStep(events, i, before, written);
      }
      assert events[..|events|] == events;
    }

    /**
     A whole life: events in any mix, then the close. The index holds the scan of every error-free record, and
     database and file hold the rows of exactly those records, each once, page after page.
     */
    method Run(events: seq<Event>)
      requires Valid() && !closed && records == []
      modifies this, idx, pending, pending.data, file
      ensures Valid() && closed && written == |records|
      ensures records == Succeeded(Arrived(events)) && ChunksOf(idx.al, records, chunks)
      ensures forall t :: idx.At(t) == Scan(idx.al, docs0 + DocsOf(records), t)
      ensures file.text == text0 + (if hasDir then Print(Flatten(chunks)) else "") && file.Consistent()
      ensures table == (if hasDb then Flatten(chunks) else [])
      ensures pagesProcessed == old(pagesProcessed) + |Arrived(events)|
      ensures indexedDocs == |records| && pagesProcessed == indexedDocs + pagesErrored
    {
      hide *;
      Take(events);
      HandleClose();
      Closed();
    }

    /** What is left when the loop has ended. */
    lemma Closed()
      requires Valid() && closed && persisted == Flatten(chunks)
      ensures ChunksOf(idx.al, records, chunks) && forall t :: idx.At(t) == Scan(idx.al, docs0 + DocsOf(records), t)
      ensures file.text == text0 + (if hasDir then Print(Flatten(chunks)) else "") && file.Consistent()
      ensures table == (if hasDb then Flatten(chunks) else [])
      ensures indexedDocs == |records| && pagesProcessed == indexedDocs + pagesErrored
    {}
  }

  /** All error-free records that arrived before some firing of the timer are among the first `written`. */
  ghost predicate WrittenSince(events: seq<Event>, written: nat) {
    forall i {:trigger events[i]} :: 0 <= i < |events| && events[i].Ticks? ==> |Succeeded(Arrived(events[..i]))| <= written
  }

  lemma NoTimerYet(written: nat)
    ensures WrittenSince([], written)
  {}

  lemma WrittenStep(events: seq<Event>, i: nat, before: nat, written: nat)
    requires i < |events| && WrittenSince(events[..i], before) && before <= written
    requires events[i].Ticks? ==> written >= |Succeeded(Arrived(events[..i]))|
    ensures WrittenSince(events[..i + 1], written)
  {
    hide Succeeded, Arrived;
    var longer := events[..i + 1];
    forall j {:trigger longer[j]} | 0 <= j < |longer| && longer[j].Ticks? ensures |Succeeded(Arrived(longer[..j]))| <= written {
      assert longer[..j] == events[..j];
      if j < i { assert events[..i][j].Ticks? && events[..i][..j] == events[..j]; }
    }
  }

  lemma NothingArrived()
    ensures Arrived([]) == [] && Succeeded([]) == []
  {}

  lemma ArrivedStep(events: seq<Event>, i: nat)
    requires i < |events|
    ensures Arrived(events[..i + 1]) == if events[i].Arrives? then Arrived(events[..i]) + [events[i].record] else Arrived(events[..i])
  {
    assert events[..i + 1][..i] == events[..i];
  }

  lemma PrintedAfter(text0: string, a: seq<PostingRow>, b: seq<PostingRow>)
    ensures text0 + Print(a) + Print(b) == text0 + Print(a + b)
  {
    PrintConcat(a, b);
    hide Print;
  }

  lemma AddedToScan(al: Alphabet, docs0: seq<Document>, records: seq<PageRecord>, record: PageRecord)
    ensures forall t :: Scan(al, docs0 + DocsOf(records + [record]), t) == Scan(al, docs0 + DocsOf(records), t) + PostingsOf(al, DocOf(record), t)
  {
    hide Scan, PostingsOf;
    assert docs0 + DocsOf(records + [record]) == docs0 + DocsOf(records) + [DocOf(record)];
    forall t ensures Scan(al, docs0 + DocsOf(records + [record]), t) == Scan(al, docs0 + DocsOf(records), t) + PostingsOf(al, DocOf(record), t) {
      ScanStep(al, docs0 + DocsOf(records), DocOf(record), t);
    }
  }
}
