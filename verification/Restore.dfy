/**
 From a crawled page to posting rows, and from stored rows back to an index. The rows come from a tokenizer of
 their own and the file keeps neither titles nor flags; on ASCII pages the restored index still answers searches
 as the live one did, titles aside.
 */
module Restore {
  import opened CrawlTypes
  import opened Text
  import opened Index
  import opened Search
  import opened PData

  // ---------- Rows of a page ----------

  /** The index document of a record. */
  function DocOf(r: PageRecord): Document { Document(r.url, r.originUrl, r.depth, r.title, r.bodyText) }

  function DocsOf(rs: seq<PageRecord>): (ds: seq<Document>)
    ensures |ds| == |rs| && forall i :: 0 <= i < |ds| ==> ds[i] == DocOf(rs[i])
  {
    seq(|rs|, i requires 0 <= i < |rs| => DocOf(rs[i]))
  }

  function WordsOf(al: Alphabet, r: PageRecord): seq<string> { RowWords(al, r.title, r.bodyText) }

  predicate Contains(text: string, w: string) {
    exists i :: 0 <= i <= |text| && IsAt(text, w, i)
  }

  predicate IsAt(text: string, w: string, i: int) { 0 <= i <= |text| - |w| && text[i..i + |w|] == w }

  function RowFor(al: Alphabet, r: PageRecord, w: string, n: int): PostingRow {
    PostingRow(w, r.url, r.originUrl, r.depth, r.title, n, Contains(Lower(al, r.title), w), Contains(Lower(al, r.url), w))
  }

  /** The rows of one page, in any order: one for each word of two bytes or more, with its count. */
  ghost predicate RowsOf(al: Alphabet, r: PageRecord, rows: seq<PostingRow>) {
    && (forall i, j :: 0 <= i < j < |rows| ==> rows[i].token != rows[j].token)
    && (forall row :: row in rows ==> row.token in WordsOf(al, r) && ByteLen(row.token) >= 2
                                      && row == RowFor(al, r, row.token, multiset(WordsOf(al, r))[row.token]))
    && (forall w :: w in WordsOf(al, r) && ByteLen(w) >= 2 ==> exists row :: row in rows && row.token == w)
  }

  /**
   In characters: the tokens of the rows are the maximal runs of at least two of a to z and 0 to 9 in the lower-cased body
   or title.
   */
  ghost predicate TokensOfPage(al: Alphabet, r: PageRecord, rows: seq<PostingRow>) {
    forall w :: (exists row :: row in rows && row.token == w) <==>
      |w| >= 2 && (HasAsciiRun(Lower(al, r.bodyText), w) || HasAsciiRun(Lower(al, r.title), w))
  }

  lemma RowTokensAreRuns(al: Alphabet, r: PageRecord, rows: seq<PostingRow>)
    requires Sane(al) && RowsOf(al, r, rows)
    ensures TokensOfPage(al, r, rows)
  {
    hide ByteLen, RowWords, RowFor, HasAsciiRun, Lower, Sane;
    forall w ensures (exists row :: row in rows && row.token == w) <==>
      |w| >= 2 && (HasAsciiRun(Lower(al, r.bodyText), w) || HasAsciiRun(Lower(al, r.title), w))
    {
      RowWordsAreRuns(al, r.title, r.bodyText, w);
    }
  }

  /** The counts of the words of two bytes or more. */
  ghost predicate CountsLong(freq: map<string, nat>, words: seq<string>) {
    forall w :: if w in freq then ByteLen(w) >= 2 && freq[w] == multiset(words)[w] && freq[w] > 0
                else ByteLen(w) < 2 || multiset(words)[w] == 0
  }

  method CountLongWords(words: seq<string>) returns (freq: map<string, nat>)
    ensures CountsLong(freq, words)
  {
    hide ByteLen;
    freq := map[];
    for i := 0 to |words|
      invariant CountsLong(freq, words[..i])
    {
      assert words[..i + 1] == words[..i] + [words[i]];
      if ByteLen(words[i]) >= 2 {
        freq := freq[words[i] := if words[i] in freq then freq[words[i]] + 1 else 1];
      }
    }
    assert words[..|words|] == words;
  }

  // ---------- Replaying rows into an index ----------

  function PostingOf(row: PostingRow): Posting {
    Posting(row.url, row.originUrl, row.depth, row.title, row.termFreq, row.inTitle, row.inUrl)
  }

  /** The postings a token gets from a list of rows. */
  function Replay(rows: seq<PostingRow>, t: string): seq<Posting> {
    if rows == [] then []
    else Replay(rows[..|rows| - 1], t) + (if rows[|rows| - 1].token == t then [PostingOf(rows[|rows| - 1])] else [])
  }

  function RowUrls(rows: seq<PostingRow>): set<string> { set row | row in rows :: row.url }

  /** What a database has to offer: nothing attached, a failing read, or its rows. */
  datatype Table = NoTable | Failing | Rows(rows: seq<PostingRow>)

  /** What reading p.data gives: no data directory, a failing read, or the rows read. */
  datatype FileRead = NoDirectory | Unreadable | Read(rows: seq<PostingRow>)

  lemma ReplayStep(rows: seq<PostingRow>, i: nat)
    requires i < |rows|
    ensures RowUrls(rows[..i + 1]) == RowUrls(rows[..i]) + {rows[i].url}
    ensures forall t :: Replay(rows[..i + 1], t) == Replay(rows[..i], t) + if rows[i].token == t then [PostingOf(rows[i])] else []
  {
    hide PostingOf;
    assert rows[..i + 1][..i] == rows[..i];
    assert forall x :: x in rows[..i + 1] <==> x in rows[..i] || x == rows[i];
  }

  lemma AppendAfter(a: seq<Posting>, b: seq<Posting>, c: seq<Posting>)
    ensures a + b + c == a + (b + c)
  {}

  method ReplayRows(idx: InvertedIndex, rows: seq<PostingRow>)
    modifies idx
    ensures forall t :: idx.At(t) == old(idx.At(t)) + Replay(rows, t)
    ensures idx.docCount == |RowUrls(rows)|
  {
    var urls: set<string> := {};
    for i := 0 to |rows|
      invariant urls == RowUrls(rows[..i])
      invariant forall t :: idx.At(t) == old(idx.At(t)) + Replay(rows[..i], t)
    {
      var p := rows[i];
      ReplayStep(rows, i);
      hide PostingOf, Replay, RowUrls, InvertedIndex.At;
      idx.AddPosting(p.token, PostingOf(p));
      urls := urls + {p.url};
      forall t ensures idx.At(t) == old(idx.At(t)) + Replay(rows[..i + 1], t) {
        AppendAfter(old(idx.At(t)), Replay(rows[..i], t), if p.token == t then [PostingOf(p)] else []);
      }
    }
    assert rows[..|rows|] == rows;
    idx.SetDocCount(|urls|);
  }

  /**
   Loads the persisted rows into the index: those of p.data if it can be read and has any, and otherwise, whether it is
   missing, unreadable or empty, those of the database. Where there are none the index stays as it was.
   */
  method RestoreIndex(idx: InvertedIndex, file: FileRead, table: Table) returns (ok: bool)
    modifies idx
    ensures file.Read? && file.rows != [] ==>
              ok && idx.docCount == |RowUrls(file.rows)| && forall t :: idx.At(t) == old(idx.At(t)) + Replay(file.rows, t)
    ensures (file.Read? ==> file.rows == []) && table.Rows? && table.rows != [] ==>
              ok && idx.docCount == |RowUrls(table.rows)| && forall t :: idx.At(t) == old(idx.At(t)) + Replay(table.rows, t)
    ensures (file.Read? ==> file.rows == []) && (table.Rows? ==> table.rows == []) ==>
              (ok <==> !table.Failing?) && idx.docCount == old(idx.docCount) && forall t :: idx.At(t) == old(idx.At(t))
  {
    if file.Read? && |file.rows| > 0 {
      ReplayRows(idx, file.rows);
      return true;
    }
    match table
    case NoTable => return true;
    case Failing => return false;
    case Rows(rows) =>
      if |rows| > 0 {
        ReplayRows(idx, rows);
      }
      return true;
  }

  lemma {:induction false} ReplayConcat(a: seq<PostingRow>, b: seq<PostingRow>, t: string)
    ensures Replay(a + b, t) == Replay(a, t) + Replay(b, t)
    decreases |b|
  {
    hide PostingOf;
    if b == [] {
      assert a + b == a;
    } else {
      var n := |b| - 1;
      assert (a + b)[..|a + b| - 1] == a + b[..n];
      ReplayConcat(a, b[..n], t);
    }
  }

  lemma {:induction false} ReplayNone(rows: seq<PostingRow>, t: string)
    requires forall row :: row in rows ==> row.token != t
    ensures Replay(rows, t) == []
    decreases |rows|
  {
    if rows != [] {
      var n := |rows| - 1;
      assert rows[n] in rows && forall x :: x in rows[..n] ==> x in rows;
      ReplayNone(rows[..n], t);
    }
  }

  lemma ReplaySingle(row: PostingRow)
    ensures Replay([row], row.token) == [PostingOf(row)]
  {
    assert [row][..0] == [];
  }

  lemma ReplayOne(rows: seq<PostingRow>, i: nat)
    requires i < |rows| && forall k, j :: 0 <= k < j < |rows| ==> rows[k].token != rows[j].token
    ensures Replay(rows, rows[i].token) == [PostingOf(rows[i])]
  {
    hide PostingOf, Replay;
    var row, a, b := rows[i], rows[..i], rows[i + 1..];
    ReplayNone(a, row.token);
    ReplaySingle(row);
    ReplayNone(b, row.token);
    ReplayConcat([row], b, row.token);
    ReplayConcat(a, [row] + b, row.token);
    assert rows == a + ([row] + b);
  }

  // ---------- A page's rows against its posting ----------

  /** What p.data keeps of a posting. */
  function Bare(p: Posting): Posting { p.(title := "", inTitle := false, inUrl := false) }

  function BareAll(ps: seq<Posting>): (bs: seq<Posting>)
    ensures |bs| == |ps| && forall i :: 0 <= i < |bs| ==> bs[i] == Bare(ps[i])
  {
    seq(|ps|, i requires 0 <= i < |ps| => Bare(ps[i]))
  }

  ghost predicate AsciiPage(r: PageRecord) { IsAscii(r.title) && IsAscii(r.bodyText) }

  /** The token counts of the two tokenizers, for a word the index keeps. */
  lemma WordCount(al: Alphabet, r: PageRecord, t: string)
    requires Sane(al) && AsciiPage(r) && IsKept(t)
    ensures multiset(WordsOf(al, r))[t] == Occurrences(al, DocOf(r), t)
  {
    RowCountIsTokenCount(al, r.title, r.bodyText, t);
  }

  /** A posting without the two flags, which no search looks at. */
  function Flagless(p: Posting): Posting { p.(inTitle := false, inUrl := false) }

  function FlaglessAll(ps: seq<Posting>): (fs: seq<Posting>)
    ensures |fs| == |ps| && forall i :: 0 <= i < |fs| ==> fs[i] == Flagless(ps[i])
  {
    seq(|ps|, i requires 0 <= i < |ps| => Flagless(ps[i]))
  }

  /** The replay of a token's row when there is one. */
  lemma RowReplayed(al: Alphabet, r: PageRecord, rows: seq<PostingRow>, t: string)
    requires RowsOf(al, r, rows) && t in WordsOf(al, r) && ByteLen(t) >= 2
    ensures Replay(rows, t) == [Posting(r.url, r.originUrl, r.depth, r.title, multiset(WordsOf(al, r))[t],
                                        Contains(Lower(al, r.title), t), Contains(Lower(al, r.url), t))]
  {
    hide ByteLen, WordsOf, Contains, Lower;
    var row :| row in rows && row.token == t;
    var i :| 0 <= i < |rows| && rows[i] == row;
    hide Replay;
    ReplayOne(rows, i);
  }

  /** And when there is none. */
  lemma NoRowReplayed(al: Alphabet, r: PageRecord, rows: seq<PostingRow>, t: string)
    requires RowsOf(al, r, rows) && !(t in WordsOf(al, r) && ByteLen(t) >= 2)
    ensures Replay(rows, t) == []
  {
    hide ByteLen, WordsOf, RowFor, Replay;
    ReplayNone(rows, t);
  }

  /** What the file drops is dropped from the postings replayed. */
  lemma {:induction false} StoredReplaysBare(rows: seq<PostingRow>, t: string)
    ensures Replay(StoredAll(rows), t) == BareAll(Replay(rows, t))
    decreases |rows|
  {
    if rows != [] {
      var n := |rows| - 1;
      StoredReplaysBare(rows[..n], t);
      assert StoredAll(rows)[..n] == StoredAll(rows[..n]);
    }
  }

  lemma BareFlagless(ps: seq<Posting>, qs: seq<Posting>)
    requires FlaglessAll(ps) == FlaglessAll(qs)
    ensures BareAll(ps) == BareAll(qs)
  {
    forall i | 0 <= i < |ps| ensures |qs| == |ps| && Bare(ps[i]) == Bare(qs[i]) {
      assert |FlaglessAll(ps)| == |FlaglessAll(qs)|;
      assert FlaglessAll(ps)[i] == FlaglessAll(qs)[i];
    }
    assert |FlaglessAll(ps)| == |FlaglessAll(qs)|;
  }

  /** Replayed, the rows of a page give a kept token the page's posting, flags aside, if it has one. */
  lemma {:induction false} PageRows(al: Alphabet, r: PageRecord, rows: seq<PostingRow>, t: string)
    requires Sane(al) && AsciiPage(r) && RowsOf(al, r, rows) && IsKept(t)
    ensures FlaglessAll(Replay(rows, t)) == FlaglessAll(PostingsOf(al, DocOf(r), t))
  {
    WordCount(al, r, t);
    assert ByteLen(t) >= 2;
    hide IsKept, ByteLen, WordsOf, Occurrences, Tokens, RowsOf, Replay, Contains;
    CountIsMembership(WordsOf(al, r), t);
    if t in WordsOf(al, r) {
      RowReplayed(al, r, rows, t);
    } else {
      NoRowReplayed(al, r, rows, t);
    }
  }

  lemma ContainsIff(text: string, w: string)
    ensures Contains(text, w) <==> exists a, b :: text == a + w + b
  {
    if i :| 0 <= i <= |text| && IsAt(text, w, i) {
      assert text == text[..i] + w + text[i + |w|..];
    }
    if a, b :| text == a + w + b {
      assert IsAt(text, w, |a|);
    }
  }

  lemma RunIsContained(s: string, isWord: char -> bool, w: string)
    requires HasRun(s, isWord, w)
    ensures exists a, b :: s == a + w + b
  {
    var i, j :| IsRun(s, isWord, i, j) && s[i..j] == w;
    assert s == s[..i] + w + s[j..];
  }

  /**
   The flags come from a plain search of title and address for the word, so a restored flag is set wherever the live one
   is, and also where the word is only part of a longer one.
   */
  lemma {:induction false} RestoredFlags(al: Alphabet, r: PageRecord, rows: seq<PostingRow>, t: string)
    requires Sane(al) && AsciiPage(r) && RowsOf(al, r, rows) && IsKept(t) && t in WordsOf(al, r)
    ensures |Replay(rows, t)| == |PostingsOf(al, DocOf(r), t)| == 1
    ensures var restored, live := Replay(rows, t)[0], PostingsOf(al, DocOf(r), t)[0];
      && (restored.inTitle <==> exists a, b :: Lower(al, r.title) == a + t + b)
      && (restored.inUrl <==> exists a, b :: Lower(al, r.url) == a + t + b)
      && (live.inTitle ==> restored.inTitle) && (live.inUrl ==> restored.inUrl)
  {
    assert ByteLen(t) >= 2;
    WordCount(al, r, t);
    CountIsMembership(WordsOf(al, r), t);
    hide IsKept, ByteLen, WordsOf, Occurrences, Tokens, RowsOf, Replay, Contains, Lower, HasRun;
    RowReplayed(al, r, rows, t);
    ContainsIff(Lower(al, r.title), t);
    ContainsIff(Lower(al, r.url), t);
    TokensAreRuns(al, r.title, t);
    TokensAreRuns(al, r.url, t);
    if t in Tokens(al, r.title) { RunIsContained(Lower(al, r.title), al.isLetterOrDigit, t); }
    if t in Tokens(al, r.url) { RunIsContained(Lower(al, r.url), al.isLetterOrDigit, t); }
  }

  /** Stored and replayed, the rows of a page give a kept token the page's posting, if it has one. */
  lemma {:induction false} PageReplayed(al: Alphabet, r: PageRecord, rows: seq<PostingRow>, t: string)
    requires Sane(al) && AsciiPage(r) && RowsOf(al, r, rows) && IsKept(t)
    ensures Replay(StoredAll(rows), t) == BareAll(PostingsOf(al, DocOf(r), t))
  {
    hide *;
    PageRows(al, r, rows, t);
    StoredReplaysBare(rows, t);
    BareFlagless(Replay(rows, t), PostingsOf(al, DocOf(r), t));
  }

  lemma CountIsMembership(words: seq<string>, t: string)
    ensures multiset(words)[t] == 0 <==> t !in words
  {
    assert t in multiset(words) <==> t in words;
  }

  lemma NeverKeptNeverOccurs(al: Alphabet, d: Document, t: string)
    requires !IsKept(t)
    ensures PostingsOf(al, d, t) == []
  {
    hide IsKept, Fields;
    KeptCount(Fields(Lower(al, d.bodyText), al.isLetterOrDigit), t);
    KeptCount(Fields(Lower(al, d.title), al.isLetterOrDigit), t);
  }

  /** The replayed rows differ from the live posting for exactly the stop words of the page, which no query asks for. */
  lemma {:induction false} StopWordsComeBack(al: Alphabet, r: PageRecord, rows: seq<PostingRow>, t: string)
    requires Sane(al) && AsciiPage(r) && RowsOf(al, r, rows)
    ensures Replay(StoredAll(rows), t) == BareAll(PostingsOf(al, DocOf(r), t))
       <==> !(t in WordsOf(al, r) && ByteLen(t) >= 2 && IsStopWord(t))
  {
    assert IsKept(t) <==> ByteLen(t) >= 2 && !IsStopWord(t) by { hide IsStopWord; }
    hide IsStopWord, IsKept, ByteLen, WordsOf, PostingsOf, RowsOf, Replay;
    if IsKept(t) {
      PageReplayed(al, r, rows, t);
    } else {
      NeverKeptNeverOccurs(al, DocOf(r), t);
      StoredReplaysBare(rows, t);
      if t in WordsOf(al, r) && ByteLen(t) >= 2 {
        RowReplayed(al, r, rows, t);
      } else {
        NoRowReplayed(al, r, rows, t);
      }
    }
  }

  // ---------- All pages ----------

  function Flatten(chunks: seq<seq<PostingRow>>): seq<PostingRow> {
    if chunks == [] then [] else Flatten(chunks[..|chunks| - 1]) + chunks[|chunks| - 1]
  }

  lemma FlattenStep(chunks: seq<seq<PostingRow>>, rows: seq<PostingRow>)
    ensures Flatten(chunks + [rows]) == Flatten(chunks) + rows
  {
    assert (chunks + [rows])[..|chunks|] == chunks;
  }

  /** `chunks` holds the rows of each page, page after page. */
  ghost predicate ChunksOf(al: Alphabet, records: seq<PageRecord>, chunks: seq<seq<PostingRow>>) {
    |chunks| == |records| && forall i :: 0 <= i < |chunks| ==> RowsOf(al, records[i], chunks[i])
  }

  lemma StoredConcat(a: seq<PostingRow>, b: seq<PostingRow>)
    ensures StoredAll(a + b) == StoredAll(a) + StoredAll(b)
  {
    hide Stored;
  }

  /** The rows of all pages, as the database gets them, give every kept token its live postings in order, flags aside. */
  lemma {:induction false} TableRestoresPostings(al: Alphabet, records: seq<PageRecord>, chunks: seq<seq<PostingRow>>, t: string)
    requires Sane(al) && ChunksOf(al, records, chunks) && IsKept(t) && forall r :: r in records ==> AsciiPage(r)
    ensures FlaglessAll(Replay(Flatten(chunks), t)) == FlaglessAll(Scan(al, DocsOf(records), t))
    decreases |records|
  {
    hide *;
    if records == [] {
      NothingRestored(al, chunks, t);
    } else {
      var n := |records| - 1;
      ChunksSplit(al, records, chunks);
      var last, rows := records[n], chunks[n];
      assert last in records && forall r :: r in records[..n] ==> r in records;
      TableRestoresPostings(al, records[..n], chunks[..n], t);
      FlattenStep(chunks[..n], rows);
      ScanStep(al, DocsOf(records[..n]), DocOf(last), t);
      ReplayConcat(Flatten(chunks[..n]), rows, t);
      PageRows(al, last, rows, t);
      FlaglessConcat(Replay(Flatten(chunks[..n]), t), Replay(rows, t));
      FlaglessConcat(Scan(al, DocsOf(records[..n]), t), PostingsOf(al, DocOf(last), t));
    }
  }

  lemma NothingRestored(al: Alphabet, chunks: seq<seq<PostingRow>>, t: string)
    requires ChunksOf(al, [], chunks)
    ensures Replay(Flatten(chunks), t) == [] && Scan(al, DocsOf([]), t) == []
  {}

  lemma FlaglessConcat(a: seq<Posting>, b: seq<Posting>)
    ensures FlaglessAll(a + b) == FlaglessAll(a) + FlaglessAll(b)
  {
    hide Flagless;
  }

  /** Every kept token gets back the postings a scan of the pages gives, in the same order, less what the file drops. */
  lemma {:induction false} RestoredPostings(al: Alphabet, records: seq<PageRecord>, chunks: seq<seq<PostingRow>>, t: string)
    requires Sane(al) && ChunksOf(al, records, chunks) && IsKept(t) && forall r :: r in records ==> AsciiPage(r)
    ensures Replay(StoredAll(Flatten(chunks)), t) == BareAll(Scan(al, DocsOf(records), t))
  {
    hide *;
    TableRestoresPostings(al, records, chunks, t);
    StoredReplaysBare(Flatten(chunks), t);
    BareFlagless(Replay(Flatten(chunks), t), Scan(al, DocsOf(records), t));
  }

  lemma ChunksSplit(al: Alphabet, records: seq<PageRecord>, chunks: seq<seq<PostingRow>>)
    requires ChunksOf(al, records, chunks) && records != []
    ensures var n := |records| - 1;
      && |chunks| == n + 1 && ChunksOf(al, records[..n], chunks[..n]) && RowsOf(al, records[n], chunks[n])
      && chunks == chunks[..n] + [chunks[n]] && DocsOf(records) == DocsOf(records[..n]) + [DocOf(records[n])]
  {
    hide RowsOf;
  }

  // ---------- The file holds the rows ----------

  /** What a page must look like for its lines to be read back: plain addresses, and numbers of integer size. */
  predicate Storable(r: PageRecord) {
    Plain(r.url) && Plain(r.originUrl) && r.originUrl != "-" && IsInt(r.depth) && |r.bodyText| + |r.title| + 2 <= MAX_INT
  }

  lemma {:induction false} FewFields(cur: string, s: string, isWord: char -> bool)
    ensures |FieldsFrom(cur, s, isWord)| <= |s| + 1
    decreases |s|
  {
    if s != [] {
      FewFields(if isWord(s[0]) then cur + [s[0]] else [], s[1..], isWord);
    }
  }

  lemma RowPrintable(al: Alphabet, r: PageRecord, rows: seq<PostingRow>, row: PostingRow)
    requires Storable(r) && RowsOf(al, r, rows) && row in rows
    ensures Printable(row)
  {
    var lowered := Lower(al, r.bodyText + " " + r.title);
    FieldsAreWords([], lowered);
    FewFields([], lowered, IsLowerOrDigit);
    assert IsWord(row.token);
    MultiplicityBound(WordsOf(al, r), row.token);
    hide FieldsFrom, ByteLen, Contains, Lower;
  }

  lemma MultiplicityBound(words: seq<string>, w: string)
    ensures multiset(words)[w] <= |words|
  {
    assert |multiset(words)| == |words|;
    assert multiset(words)[w] <= |multiset(words)| by {
      var rest := multiset(words)[w := 0];
      assert multiset(words) == rest + multiset{}[w := multiset(words)[w]];
    }
  }

  lemma {:induction false} AllPrintable(al: Alphabet, records: seq<PageRecord>, chunks: seq<seq<PostingRow>>)
    requires ChunksOf(al, records, chunks) && forall r :: r in records ==> Storable(r)
    ensures forall row :: row in Flatten(chunks) ==> Printable(row)
    decreases |records|
  {
    hide Storable, RowsOf, Printable;
    if records != [] {
      var n := |records| - 1;
      assert records[n] in records && forall r :: r in records[..n] ==> r in records;
      AllPrintable(al, records[..n], chunks[..n]);
      forall row | row in chunks[n] ensures Printable(row) {
        RowPrintable(al, records[n], chunks[n], row);
      }
    }
  }

  /** A fresh crawl's rows, written to an empty p.data and read back, give every kept token its live postings, bare. */
  lemma {:induction false} FileRestoresPostings(al: Alphabet, records: seq<PageRecord>, chunks: seq<seq<PostingRow>>, t: string)
    requires Sane(al) && ChunksOf(al, records, chunks) && IsKept(t)
    requires forall r :: r in records ==> AsciiPage(r) && Storable(r)
    ensures Replay(Load(Print(Flatten(chunks))), t) == BareAll(Scan(al, DocsOf(records), t))
  {
    AllPrintable(al, records, chunks);
    LoadPrint(Flatten(chunks));
    hide Load, Print, Storable;
    RestoredPostings(al, records, chunks, t);
  }

  // ---------- The restored document count ----------

  ghost predicate DistinctPages(records: seq<PageRecord>) {
    forall i, j :: 0 <= i < j < |records| ==> records[i].url != records[j].url
  }

  ghost predicate HasRowWord(al: Alphabet, r: PageRecord) { exists w :: w in WordsOf(al, r) && ByteLen(w) >= 2 }

  lemma PageUrls(al: Alphabet, r: PageRecord, rows: seq<PostingRow>)
    requires RowsOf(al, r, rows)
    ensures RowUrls(StoredAll(rows)) == if HasRowWord(al, r) then {r.url} else {}
  {
    hide ByteLen, WordsOf, Contains, Lower;
    var stored := StoredAll(rows);
    if HasRowWord(al, r) {
      var w :| w in WordsOf(al, r) && ByteLen(w) >= 2;
      var row :| row in rows && row.token == w;
      var i :| 0 <= i < |rows| && rows[i] == row;
      assert stored[i] in stored && stored[i].url == r.url;
    }
    forall row | row in stored ensures row.url == r.url && HasRowWord(al, r) {
      var i :| 0 <= i < |stored| && stored[i] == row;
      assert rows[i] in rows;
    }
  }

  lemma RowUrlsConcat(a: seq<PostingRow>, b: seq<PostingRow>)
    ensures RowUrls(a + b) == RowUrls(a) + RowUrls(b)
  {
    forall u ensures u in RowUrls(a + b) <==> u in RowUrls(a) || u in RowUrls(b) {
      if row :| row in a + b && row.url == u { assert row in a || row in b; }
      if row :| row in a && row.url == u { assert row in a + b; }
      if row :| row in b && row.url == u { assert row in a + b; }
    }
  }

  /**
   The restored count is one per page that left a row. So it falls short of the live count, one per page, exactly
   when some page has no word of two letters or digits.
   */
  lemma {:induction false} RestoredCount(al: Alphabet, records: seq<PageRecord>, chunks: seq<seq<PostingRow>>)
    requires ChunksOf(al, records, chunks) && DistinctPages(records)
    ensures var urls := RowUrls(StoredAll(Flatten(chunks)));
      && (forall u :: u in urls ==> exists r :: r in records && r.url == u)
      && |urls| <= |records| && (|urls| == |records| <==> forall r :: r in records ==> HasRowWord(al, r))
    decreases |records|
  {
    hide RowsOf, HasRowWord, Stored, RowUrls;
    if records == [] {
      assert RowUrls([]) == {} by { NoRowsNoUrls(); }
    } else {
      var n := |records| - 1;
      var last := records[n];
      assert records == records[..n] + [last];
      RestoredCount(al, records[..n], chunks[..n]);
      StoredConcat(Flatten(chunks[..n]), chunks[n]);
      RowUrlsConcat(StoredAll(Flatten(chunks[..n])), StoredAll(chunks[n]));
      PageUrls(al, last, chunks[n]);
      assert last.url !in RowUrls(StoredAll(Flatten(chunks[..n])));
    }
  }

  lemma NoRowsNoUrls()
    ensures RowUrls([]) == {}
  {}

  // ---------- Searching the restored index ----------

  function Untitled(r: SearchResult): SearchResult { r.(title := "") }

  function UntitledAll(rs: seq<SearchResult>): (us: seq<SearchResult>)
    ensures |us| == |rs| && forall i :: 0 <= i < |us| ==> us[i] == Untitled(rs[i])
  {
    seq(|rs|, i requires 0 <= i < |rs| => Untitled(rs[i]))
  }

  lemma BareUrls(hits: seq<Posting>)
    ensures HitUrls(BareAll(hits)) == HitUrls(hits)
  {
    var bare := BareAll(hits);
    forall u | u in HitUrls(hits) ensures u in HitUrls(bare) {
      var i :| 0 <= i < |hits| && hits[i].url == u;
      assert bare[i] in bare;
    }
    forall u | u in HitUrls(bare) ensures u in HitUrls(hits) {
      var i :| 0 <= i < |bare| && bare[i].url == u;
      assert hits[i] in hits;
    }
  }

  lemma {:induction false} BareScore(hits: seq<Posting>, u: string)
    ensures Score(BareAll(hits), u) == Score(hits, u) && Frequency(BareAll(hits), u) == Frequency(hits, u)
    decreases |hits|
  {
    if hits != [] {
      var n := |hits| - 1;
      assert BareAll(hits)[..n] == BareAll(hits[..n]);
      BareScore(hits[..n], u);
    }
  }

  lemma {:induction false} BareFirst(hits: seq<Posting>, u: string)
    requires u in HitUrls(hits) && u in HitUrls(BareAll(hits))
    ensures First(BareAll(hits), u) == Bare(First(hits, u))
    decreases |hits|
  {
    if hits[0].url != u {
      assert hits == [hits[0]] + hits[1..];
      assert BareAll(hits)[1..] == BareAll(hits[1..]);
      BareUrls(hits[1..]);
      assert u in HitUrls(hits[1..]);
      BareFirst(hits[1..], u);
    }
  }

  /** Without titles and flags every URL still gets the same result, title aside. */
  lemma BareResult(hits: seq<Posting>, u: string)
    requires u in HitUrls(hits)
    ensures u in HitUrls(BareAll(hits)) && ResultFor(BareAll(hits), u) == Untitled(ResultFor(hits, u))
  {
    BareUrls(hits);
    BareScore(hits, u);
    BareFirst(hits, u);
    hide First, Score, Frequency, HitUrls;
  }

  /** Two result lists that agree on everything but titles. */
  ghost predicate SameButTitles(qs: seq<SearchResult>, rs: seq<SearchResult>) {
    |qs| == |rs| && forall i :: 0 <= i < |rs| ==> qs[i] == Untitled(rs[i])
  }

  lemma TitlesDoNotOrder(qs: seq<SearchResult>, rs: seq<SearchResult>, mode: SortBy)
    requires SameButTitles(qs, rs)
    ensures DistinctResults(qs) <==> DistinctResults(rs)
    ensures Ordered(mode, qs) <==> Ordered(mode, rs)
  {}

  /** `full` gives the result of each URL, and `bare` the same one without its title. */
  ghost predicate BareOf(bare: seq<Posting>, full: seq<Posting>) {
    HitUrls(bare) == HitUrls(full) && forall u :: u in HitUrls(full) ==> ResultFor(bare, u) == Untitled(ResultFor(full, u))
  }

  lemma BareHitsAreBare(hits: seq<Posting>)
    ensures BareOf(BareAll(hits), hits)
  {
    BareUrls(hits);
    hide ResultFor, HitUrls, BareAll;
    forall u | u in HitUrls(hits) ensures ResultFor(BareAll(hits), u) == Untitled(ResultFor(hits, u)) { BareResult(hits, u); }
  }

  ghost predicate RightResults(hits: seq<Posting>, rs: seq<SearchResult>) {
    forall i :: 0 <= i < |rs| ==> rs[i].url in HitUrls(hits) && rs[i] == ResultFor(hits, rs[i].url)
  }

  lemma SameMembers(bare: seq<Posting>, full: seq<Posting>, qs: seq<SearchResult>, rs: seq<SearchResult>, u: string)
    requires BareOf(bare, full) && SameButTitles(qs, rs) && u in HitUrls(full)
    requires RightResults(full, rs)
    ensures ResultFor(bare, u) in qs <==> ResultFor(full, u) in rs
  {
    hide ResultFor, HitUrls;
    if ResultFor(bare, u) in qs {
      var i :| 0 <= i < |qs| && qs[i] == ResultFor(bare, u);
      assert rs[i] in rs && rs[i].url == qs[i].url == ResultFor(bare, u).url;
      assert rs[i] == ResultFor(full, rs[i].url);
    }
    if ResultFor(full, u) in rs {
      var i :| 0 <= i < |rs| && rs[i] == ResultFor(full, u);
      assert qs[i] in qs;
    }
  }

  lemma NothingBetterOmitted(bare: seq<Posting>, full: seq<Posting>, qs: seq<SearchResult>, rs: seq<SearchResult>, mode: SortBy)
    requires BareOf(bare, full) && SameButTitles(qs, rs) && RightResults(full, rs)
    ensures (forall u, q :: u in HitUrls(bare) && ResultFor(bare, u) !in qs && q in qs ==> !Before(mode, ResultFor(bare, u), q))
       <==> (forall u, r :: u in HitUrls(full) && ResultFor(full, u) !in rs && r in rs ==> !Before(mode, ResultFor(full, u), r))
  {
    forall u | u in HitUrls(full) ensures ResultFor(bare, u) in qs <==> ResultFor(full, u) in rs {
      SameMembers(bare, full, qs, rs, u);
    }
    hide ResultFor, HitUrls, RightResults;
    forall q | q in qs ensures exists r :: r in rs && q == Untitled(r) {
      var i :| 0 <= i < |qs| && qs[i] == q;
      assert rs[i] in rs;
    }
    forall r | r in rs ensures Untitled(r) in qs {
      var i :| 0 <= i < |rs| && rs[i] == r;
      assert qs[i] in qs;
    }
  }

  /** Every answer over bare hits is an answer over the full ones, titles aside. */
  lemma BareAnswer(hits: seq<Posting>, topK: int, mode: SortBy, qs: seq<SearchResult>) returns (rs: seq<SearchResult>)
    requires Answer(BareAll(hits), topK, mode, qs)
    ensures Answer(hits, topK, mode, rs) && qs == UntitledAll(rs)
  {
    BareHitsAreBare(hits);
    hide ResultFor, HitUrls, BareAll, Before;
    assert forall i :: 0 <= i < |qs| ==> qs[i] in qs;
    rs := seq(|qs|, i requires 0 <= i < |qs| => ResultFor(hits, qs[i].url));
    TitlesDoNotOrder(qs, rs, mode);
    NothingBetterOmitted(BareAll(hits), hits, qs, rs, mode);
  }

  /** And the other way round. */
  lemma AnswerBare(hits: seq<Posting>, topK: int, mode: SortBy, rs: seq<SearchResult>)
    requires Answer(hits, topK, mode, rs)
    ensures Answer(BareAll(hits), topK, mode, UntitledAll(rs))
  {
    BareHitsAreBare(hits);
    hide ResultFor, HitUrls, BareAll, Before;
    assert forall i :: 0 <= i < |rs| ==> rs[i] in rs;
    var qs := UntitledAll(rs);
    TitlesDoNotOrder(qs, rs, mode);
    NothingBetterOmitted(BareAll(hits), hits, qs, rs, mode);
    forall q | q in qs ensures q.url in HitUrls(BareAll(hits)) && q == ResultFor(BareAll(hits), q.url) {
      var i :| 0 <= i < |qs| && qs[i] == q;
      assert q == Untitled(rs[i]);
    }
  }

  lemma {:induction false} TokensAreKept(words: seq<string>)
    ensures forall t :: t in Kept(words) ==> IsKept(t)
  {
    hide IsKept;
    if words != [] {
      TokensAreKept(words[..|words| - 1]);
    }
  }

  function BareLists(ls: seq<seq<Posting>>): (bs: seq<seq<Posting>>)
    ensures |bs| == |ls| && forall i :: 0 <= i < |bs| ==> bs[i] == BareAll(ls[i])
  {
    seq(|ls|, i requires 0 <= i < |ls| => BareAll(ls[i]))
  }

  lemma {:induction false} BareHits(ls: seq<seq<Posting>>)
    ensures Hits(BareLists(ls)) == BareAll(Hits(ls))
    decreases |ls|
  {
    if ls != [] {
      var n := |ls| - 1;
      assert BareLists(ls)[..n] == BareLists(ls[..n]);
      BareHits(ls[..n]);
      hide Bare;
    }
  }

  function ReplayLists(rows: seq<PostingRow>, tokens: seq<string>): (ls: seq<seq<Posting>>)
    ensures |ls| == |tokens| && forall i :: 0 <= i < |ls| ==> ls[i] == Replay(rows, tokens[i])
  {
    seq(|tokens|, i requires 0 <= i < |tokens| => Replay(rows, tokens[i]))
  }

  /**
   The answers a restored index can give to a query are the answers the live index can give, titles aside: the same
   URLs, origins, depths, scores and frequencies, in the same orders and under the same cuts.
   */
  lemma {:induction false} RestoredSearchIsLiveSearch(al: Alphabet, records: seq<PageRecord>, chunks: seq<seq<PostingRow>>,
                                   query: string, topK: int, mode: SortBy, qs: seq<SearchResult>)
    requires Sane(al) && ChunksOf(al, records, chunks) && forall r :: r in records ==> AsciiPage(r) && Storable(r)
    ensures var restored := ReplayLists(Load(Print(Flatten(chunks))), Tokens(al, query));
      Answer(Hits(restored), topK, mode, qs) <==>
      exists live :: Answer(Hits(Lists(al, DocsOf(records), Tokens(al, query))), topK, mode, live) && qs == UntitledAll(live)
  {
    hide *;
    var tokens := Tokens(al, query);
    var restored := ReplayLists(Load(Print(Flatten(chunks))), tokens);
    RestoredLists(al, records, chunks, tokens, restored, query);
    var hits := Hits(Lists(al, DocsOf(records), tokens));
    if Answer(BareAll(hits), topK, mode, qs) {
      var live := BareAnswer(hits, topK, mode, qs);
    }
    forall live | Answer(hits, topK, mode, live) && qs == UntitledAll(live) ensures Answer(BareAll(hits), topK, mode, qs) {
      AnswerBare(hits, topK, mode, live);
    }
  }

  /**
   Restart and search: an empty index restored from the p.data of a fresh crawl gives, for any query, sort order
   and cut, an answer the live index could have given, titles aside.
   */
  method SearchAfterRestart(al: Alphabet, ghost records: seq<PageRecord>, ghost chunks: seq<seq<PostingRow>>, file: PDataFile,
                            table: Table, query: string, topK: int, mode: SortBy)
    returns (results: seq<SearchResult>)
    requires Sane(al) && ChunksOf(al, records, chunks) && forall r :: r in records ==> AsciiPage(r) && Storable(r)
    requires file.Consistent() && file.text == Print(Flatten(chunks))
    requires Flatten(chunks) == [] && table.Rows? ==> table.rows == []
    ensures exists live :: Answer(Hits(Lists(al, DocsOf(records), Tokens(al, query))), topK, mode, live) && results == UntitledAll(live)
  {
    hide *;
    var idx := new InvertedIndex(al);
    var rows := file.LoadPostings();
    StoredRowsRead(al, records, chunks, table, file);
    NothingReplayed();
    var ok := RestoreIndex(idx, Read(rows), table);
    results := Search.Search(query, idx, topK, mode);
    var tokens := Tokens(al, query);
    RestoredLists(al, records, chunks, tokens, Lookups(idx, tokens), query);
    ghost var live := BareAnswer(Hits(Lists(al, DocsOf(records), tokens)), topK, mode, results);
  }

  /** Whether or not there is a file, what is read from it is restored, unless the database steps in for an empty one. */
  lemma StoredRowsRead(al: Alphabet, records: seq<PageRecord>, chunks: seq<seq<PostingRow>>, table: Table, file: PDataFile)
    requires ChunksOf(al, records, chunks) && forall r :: r in records ==> Storable(r)
    requires file.Consistent() && file.text == Print(Flatten(chunks))
    requires Flatten(chunks) == [] && table.Rows? ==> table.rows == []
    ensures var rows := if file.present then Load(file.text) else [];
      rows == Load(Print(Flatten(chunks))) && (rows == [] && table.Rows? ==> table.rows == [])
  {
    AllPrintable(al, records, chunks);
    LoadPrint(Flatten(chunks));
    LoadNothing();
    hide Load, Print;
  }

  lemma RestoredLists(al: Alphabet, records: seq<PageRecord>, chunks: seq<seq<PostingRow>>, tokens: seq<string>, ls: seq<seq<Posting>>, query: string)
    requires Sane(al) && ChunksOf(al, records, chunks) && tokens == Tokens(al, query)
    requires forall r :: r in records ==> AsciiPage(r) && Storable(r)
    requires |ls| == |tokens| && forall i :: 0 <= i < |ls| ==> ls[i] == Replay(Load(Print(Flatten(chunks))), tokens[i])
    ensures Hits(ls) == BareAll(Hits(Lists(al, DocsOf(records), tokens)))
  {
    TokensAreKept(Fields(Lower(al, query), al.isLetterOrDigit));
    assert forall i :: 0 <= i < |tokens| ==> tokens[i] in tokens && IsKept(tokens[i]);
    hide *;
    var live := Lists(al, DocsOf(records), tokens);
    forall i | 0 <= i < |ls| ensures ls[i] == BareAll(live[i]) {
      FileRestoresPostings(al, records, chunks, tokens[i]);
    }
    assert ls == BareLists(live);
    BareHits(live);
  }

  lemma NothingReplayed()
    ensures forall t :: Replay([], t) == []
  {}

  // ---------- Restoring from the database ----------

  /** A table: at most one row per token and address, the key of the postings table. */
  ghost predicate Keyed(rows: seq<PostingRow>) {
    forall i, j :: 0 <= i < j < |rows| ==> rows[i].token != rows[j].token || rows[i].url != rows[j].url
  }

  /** The database holds the rows handed to it, and returns them in any order. */
  ghost predicate HoldsRows(rows: seq<PostingRow>, handed: seq<PostingRow>) {
    Keyed(rows) && forall row :: row in rows <==> row in handed
  }

  ghost predicate OnePerUrl(ps: seq<Posting>) { forall i, j :: 0 <= i < j < |ps| ==> ps[i].url != ps[j].url }

  /** Each address once, with the same posting, flags aside, in whatever order. */
  ghost predicate SamePostings(a: seq<Posting>, b: seq<Posting>) {
    && OnePerUrl(a) && OnePerUrl(b)
    && (forall p :: p in a ==> exists q :: q in b && Flagless(p) == Flagless(q))
    && (forall q :: q in b ==> exists p :: p in a && Flagless(p) == Flagless(q))
  }

  lemma {:induction false} ReplayHolds(rows: seq<PostingRow>, t: string, p: Posting)
    ensures p in Replay(rows, t) <==> exists row :: row in rows && row.token == t && PostingOf(row) == p
    decreases |rows|
  {
    hide PostingOf;
    if rows != [] {
      var n := |rows| - 1;
      ReplayHolds(rows[..n], t, p);
      assert rows == rows[..n] + [rows[n]];
      assert forall row :: row in rows <==> row in rows[..n] || row == rows[n];
    }
  }

  lemma {:induction false} ReplayOnePerUrl(rows: seq<PostingRow>, t: string)
    requires Keyed(rows)
    ensures OnePerUrl(Replay(rows, t))
    decreases |rows|
  {
    if rows != [] {
      var n := |rows| - 1;
      ReplayOnePerUrl(rows[..n], t);
      if rows[n].token == t {
        var ps := Replay(rows[..n], t);
        hide Replay;
        forall i | 0 <= i < |ps| ensures ps[i].url != rows[n].url {
          ReplayHolds(rows[..n], t, ps[i]);
          var row :| row in rows[..n] && row.token == t && PostingOf(row) == ps[i];
          var k :| 0 <= k < n && rows[k] == row;
        }
      }
    }
  }

  lemma {:induction false} ScanOnePerUrl(al: Alphabet, records: seq<PageRecord>, t: string)
    requires DistinctPages(records)
    ensures OnePerUrl(Scan(al, DocsOf(records), t))
    decreases |records|
  {
    hide Occurrences, Scan, PostingsOf;
    if records == [] {
      EmptyScan(al);
      assert DocsOf(records) == [];
    } else {
      var n := |records| - 1;
      var ps := Scan(al, DocsOf(records[..n]), t);
      ScanOnePerUrl(al, records[..n], t);
      assert DocsOf(records) == DocsOf(records[..n]) + [DocOf(records[n])];
      ScanStep(al, DocsOf(records[..n]), DocOf(records[n]), t);
      AtMostOnePosting(al, DocOf(records[n]), t);
      forall i | 0 <= i < |ps| ensures ps[i].url != records[n].url {
        var k := ScannedPage(al, records[..n], t, ps[i]);
      }
    }
  }

  lemma AtMostOnePosting(al: Alphabet, d: Document, t: string)
    ensures |PostingsOf(al, d, t)| <= 1 && forall p :: p in PostingsOf(al, d, t) ==> p.url == d.url
  {
    hide Occurrences;
  }

  lemma ScannedPage(al: Alphabet, records: seq<PageRecord>, t: string, p: Posting) returns (k: nat)
    requires p in Scan(al, DocsOf(records), t)
    ensures k < |records| && records[k].url == p.url
  {
    hide Occurrences, Scan, PostingsOf;
    ScanFromDocs(al, DocsOf(records), t, p);
    var d :| d in DocsOf(records) && d.url == p.url;
    k :| 0 <= k < |records| && DocsOf(records)[k] == d;
  }

  lemma FlaglessMembers(a: seq<Posting>, b: seq<Posting>, p: Posting)
    requires FlaglessAll(a) == FlaglessAll(b) && p in a
    ensures exists q :: q in b && Flagless(p) == Flagless(q)
  {
    var i :| 0 <= i < |a| && a[i] == p;
    assert |FlaglessAll(a)| == |FlaglessAll(b)| && FlaglessAll(a)[i] == FlaglessAll(b)[i];
    assert b[i] in b && Flagless(p) == Flagless(b[i]);
  }

  /** For each kept token, whatever the order of the table. */
  lemma TableGivesPostings(al: Alphabet, records: seq<PageRecord>, chunks: seq<seq<PostingRow>>, rows: seq<PostingRow>, t: string)
    requires Sane(al) && ChunksOf(al, records, chunks) && IsKept(t) && forall r :: r in records ==> AsciiPage(r)
    requires DistinctPages(records) && HoldsRows(rows, Flatten(chunks))
    ensures SamePostings(Replay(rows, t), Scan(al, DocsOf(records), t))
  {
    var handed, live := Replay(Flatten(chunks), t), Scan(al, DocsOf(records), t);
    TableRestoresPostings(al, records, chunks, t);
    ReplayOnePerUrl(rows, t);
    ScanOnePerUrl(al, records, t);
    hide ChunksOf, Scan, OnePerUrl, Keyed, Replay, Flatten, PostingOf, Flagless, IsKept;
    forall p ensures p in Replay(rows, t) <==> p in handed {
      ReplayHolds(rows, t, p);
      ReplayHolds(Flatten(chunks), t, p);
    }
    forall p | p in Replay(rows, t) ensures exists q :: q in live && Flagless(p) == Flagless(q) { FlaglessMembers(handed, live, p); }
    forall q | q in live ensures exists p :: p in Replay(rows, t) && Flagless(p) == Flagless(q) { FlaglessMembers(live, handed, q); }
  }

  /** In a list with one posting per address, that posting alone makes the result. */
  lemma {:induction false} OneHit(ps: seq<Posting>, p: Posting)
    requires OnePerUrl(ps) && p in ps
    ensures p.url in HitUrls(ps) && First(ps, p.url) == p && Score(ps, p.url) == Points(p) && Frequency(ps, p.url) == p.termFreq
    decreases |ps|
  {
    var n := |ps| - 1;
    var init, last := ps[..n], ps[n];
    assert ps == init + [last];
    HitUrlsStep(init, last);
    ScoreStep(init, last, p.url);
    if p in init {
      OneHit(init, p);
      FirstStep(init, last, p.url);
      var i :| 0 <= i < n && ps[i] == p;
    } else {
      forall x | x in init ensures x.url != p.url { var i :| 0 <= i < n && ps[i] == x; }
      NoHitNoScore(init, p.url);
      FirstNew(init, p);
    }
  }

  /** The same result for an address, in two lists of hits. */
  ghost predicate SameResult(a: seq<Posting>, b: seq<Posting>, u: string) {
    && (u in HitUrls(a) <==> u in HitUrls(b)) && Score(a, u) == Score(b, u) && Frequency(a, u) == Frequency(b, u)
    && (u in HitUrls(a) ==> Flagless(First(a, u)) == Flagless(First(b, u)))
  }

  lemma SamePostingsSameResult(a: seq<Posting>, b: seq<Posting>, u: string)
    requires SamePostings(a, b)
    ensures SameResult(a, b, u)
  {
    hide First, Score, Frequency, OnePerUrl, Flagless, HitUrls, Points;
    if p :| p in a && p.url == u {
      var q :| q in b && Flagless(p) == Flagless(q);
      SameButFlags(p, q);
      OneHit(a, p);
      OneHit(b, q);
    } else {
      forall q | q in b ensures q.url != u {
        var p :| p in a && Flagless(p) == Flagless(q);
        SameButFlags(p, q);
      }
      NotHit(a, u);
      NotHit(b, u);
    }
  }

  lemma NotHit(ps: seq<Posting>, u: string)
    requires forall p :: p in ps ==> p.url != u
    ensures u !in HitUrls(ps) && Score(ps, u) == 0 && Frequency(ps, u) == 0
  {
    NoHitNoScore(ps, u);
  }

  lemma SameButFlags(p: Posting, q: Posting)
    requires Flagless(p) == Flagless(q)
    ensures q.url == p.url && q.termFreq == p.termFreq && Points(q) == Points(p)
  {}

  lemma SameResultConcat(a: seq<Posting>, b: seq<Posting>, c: seq<Posting>, d: seq<Posting>, u: string)
    requires SameResult(a, c, u) && SameResult(b, d, u)
    ensures SameResult(a + b, c + d, u)
  {
    ScoreConcat(a, b, u);
    ScoreConcat(c, d, u);
    HitUrlsConcat(a, b);
    HitUrlsConcat(c, d);
    hide First, Score, Frequency, HitUrls;
    if u in HitUrls(a + b) {
      FirstConcat(a, b, u);
      FirstConcat(c, d, u);
    }
  }

  lemma HitUrlsConcat(a: seq<Posting>, b: seq<Posting>)
    ensures HitUrls(a + b) == HitUrls(a) + HitUrls(b)
  {
    assert forall p :: p in a + b <==> p in a || p in b;
  }

  lemma {:induction false} SameListsSameResult(ls: seq<seq<Posting>>, ms: seq<seq<Posting>>, u: string)
    requires |ls| == |ms| && forall i :: 0 <= i < |ls| ==> SamePostings(ls[i], ms[i])
    ensures SameResult(Hits(ls), Hits(ms), u)
    decreases |ls|
  {
    hide SamePostings, SameResult;
    if ls == [] {
      assert SameResult([], [], u) by { NoHits(u); }
    } else {
      var n := |ls| - 1;
      SameListsSameResult(ls[..n], ms[..n], u);
      SamePostingsSameResult(ls[n], ms[n], u);
      SameResultConcat(Hits(ls[..n]), ls[n], Hits(ms[..n]), ms[n], u);
    }
  }

  lemma NoHits(u: string)
    ensures SameResult([], [], u)
  {}

  lemma SameResultsSameAnswers(a: seq<Posting>, b: seq<Posting>, topK: int, mode: SortBy, rs: seq<SearchResult>)
    requires forall u :: SameResult(a, b, u)
    ensures Answer(a, topK, mode, rs) <==> Answer(b, topK, mode, rs)
  {
    assert HitUrls(a) == HitUrls(b) by {
      forall u ensures u in HitUrls(a) <==> u in HitUrls(b) { assert SameResult(a, b, u); }
    }
    forall u | u in HitUrls(a) ensures ResultFor(a, u) == ResultFor(b, u) { assert SameResult(a, b, u); }
    hide ResultFor, HitUrls, SameResult, Before;
  }

  /**
   Restored from the database, for pages of distinct addresses and whatever order the rows come in, the index has exactly
   the answers of the live one: titles included, and with nothing asked of the addresses.
   */
  lemma {:induction false} TableSearchIsLiveSearch(al: Alphabet, records: seq<PageRecord>, chunks: seq<seq<PostingRow>>, rows: seq<PostingRow>,
                                                   query: string, topK: int, mode: SortBy, rs: seq<SearchResult>)
    requires Sane(al) && ChunksOf(al, records, chunks) && forall r :: r in records ==> AsciiPage(r)
    requires DistinctPages(records) && HoldsRows(rows, Flatten(chunks))
    ensures Answer(Hits(ReplayLists(rows, Tokens(al, query))), topK, mode, rs) <==>
            Answer(Hits(Lists(al, DocsOf(records), Tokens(al, query))), topK, mode, rs)
  {
    TokensAreKept(Fields(Lower(al, query), al.isLetterOrDigit));
    var tokens := Tokens(al, query);
    assert forall i :: 0 <= i < |tokens| ==> tokens[i] in tokens && IsKept(tokens[i]);
    hide *;
    var ls, ms := ReplayLists(rows, tokens), Lists(al, DocsOf(records), tokens);
    forall i | 0 <= i < |ls| ensures SamePostings(ls[i], ms[i]) {
      TableGivesPostings(al, records, chunks, rows, tokens[i]);
    }
    forall u ensures SameResult(Hits(ls), Hits(ms), u) { SameListsSameResult(ls, ms, u); }
    SameResultsSameAnswers(Hits(ls), Hits(ms), topK, mode, rs);
  }

  /** The rows handed over for pages of distinct addresses are themselves such a table. */
  lemma {:induction false} HandedRowsHold(al: Alphabet, records: seq<PageRecord>, chunks: seq<seq<PostingRow>>)
    requires ChunksOf(al, records, chunks) && DistinctPages(records)
    ensures HoldsRows(Flatten(chunks), Flatten(chunks))
    ensures forall row :: row in Flatten(chunks) ==> exists r :: r in records && row.url == r.url
    decreases |records|
  {
    hide RowsOf;
    if records != [] {
      var n := |records| - 1;
      var before, last := Flatten(chunks[..n]), chunks[n];
      assert records == records[..n] + [records[n]];
      HandedRowsHold(al, records[..n], chunks[..n]);
      ChunkKeyed(al, records[n], last);
      forall i, j | 0 <= i < |before| && 0 <= j < |last| ensures before[i].url != last[j].url {
        assert before[i] in before && last[j] in last;
        var r :| r in records[..n] && before[i].url == r.url;
        var k :| 0 <= k < n && records[k] == r;
      }
    }
  }

  lemma ChunkKeyed(al: Alphabet, r: PageRecord, rows: seq<PostingRow>)
    requires RowsOf(al, r, rows)
    ensures Keyed(rows) && forall row :: row in rows ==> row.url == r.url
  {}

  /** Restart and search without a usable p.data: an empty index restored from the database answers as the live one. */
  method SearchAfterTableRestart(al: Alphabet, ghost records: seq<PageRecord>, ghost chunks: seq<seq<PostingRow>>, file: FileRead,
                                 rows: seq<PostingRow>, query: string, topK: int, mode: SortBy)
    returns (results: seq<SearchResult>)
    requires Sane(al) && ChunksOf(al, records, chunks) && forall r :: r in records ==> AsciiPage(r)
    requires DistinctPages(records) && HoldsRows(rows, Flatten(chunks)) && (file.Read? ==> file.rows == [])
    ensures Answer(Hits(Lists(al, DocsOf(records), Tokens(al, query))), topK, mode, results)
  {
    hide *;
    var idx := new InvertedIndex(al);
    NothingReplayed();
    var ok := RestoreIndex(idx, file, Rows(rows));
    results := Search.Search(query, idx, topK, mode);
    var tokens := Tokens(al, query);
    forall i | 0 <= i < |tokens| ensures idx.At(tokens[i]) == Replay(rows, tokens[i]) {
      assert [] + Replay(rows, tokens[i]) == Replay(rows, tokens[i]);
    }
    assert Lookups(idx, tokens) == ReplayLists(rows, tokens);
    TableSearchIsLiveSearch(al, records, chunks, rows, query, topK, mode, results);
  }
}
