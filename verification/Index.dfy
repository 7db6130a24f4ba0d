/**
 The inverted index, updated in place, against a plain scan of the documents added to it.
 */
module Index {
  import opened Text

  datatype Posting = Posting(url: string, originUrl: string, depth: int, title: string,
                             termFreq: int, inTitle: bool, inUrl: bool)

  datatype Document = Document(url: string, originUrl: string, depth: int, title: string, bodyText: string)

  // ---------- The scan ----------

  /** Title-plus-body occurrences of a token. */
  function Occurrences(al: Alphabet, d: Document, t: string): nat {
    multiset(Tokens(al, d.bodyText) + Tokens(al, d.title))[t]
  }

  /** The posting of `d` under `t`, if `d` contains `t`. */
  function PostingsOf(al: Alphabet, d: Document, t: string): seq<Posting> {
    if Occurrences(al, d, t) == 0 then []
    else [Posting(d.url, d.originUrl, d.depth, d.title, Occurrences(al, d, t), t in Tokens(al, d.title), t in Tokens(al, d.url))]
  }

  /** The documents containing `t`, in order, each with its count. */
  function Scan(al: Alphabet, docs: seq<Document>, t: string): seq<Posting> {
    if docs == [] then [] else Scan(al, docs[..|docs| - 1], t) + PostingsOf(al, docs[|docs| - 1], t)
  }

  lemma EmptyScan(al: Alphabet)
    ensures forall t :: Scan(al, [], t) == []
  {}

  lemma ScanStep(al: Alphabet, docs: seq<Document>, d: Document, t: string)
    ensures Scan(al, docs + [d], t) == Scan(al, docs, t) + PostingsOf(al, d, t)
  {
    assert (docs + [d])[..|docs|] == docs;
  }

  lemma {:induction false} ScanConcat(al: Alphabet, a: seq<Document>, b: seq<Document>, t: string)
    ensures Scan(al, a + b, t) == Scan(al, a, t) + Scan(al, b, t)
    decreases |b|
  {
    hide PostingsOf;
    if b == [] {
      assert a + b == a;
    } else {
      var n := |b| - 1;
      assert (a + b)[..|a + b| - 1] == a + b[..n];
      ScanConcat(al, a, b[..n], t);
    }
  }

  /** Later documents only lengthen a posting list. */
  lemma {:induction false} ScanGrows(al: Alphabet, docs: seq<Document>, n: nat, m: nat, t: string)
    requires n <= m <= |docs|
    ensures Scan(al, docs[..n], t) <= Scan(al, docs[..m], t)
  {
    hide *;
    assert docs[..m] == docs[..n] + docs[n..m];
    ScanConcat(al, docs[..n], docs[n..m], t);
  }

  /** A posting comes from one of the documents and carries its count. */
  lemma {:induction false} ScanFromDocs(al: Alphabet, docs: seq<Document>, t: string, p: Posting)
    requires p in Scan(al, docs, t)
    ensures p.termFreq >= 1 && exists d :: d in docs && p in PostingsOf(al, d, t) && p.depth == d.depth && p.url == d.url
  {
    var n := |docs| - 1;
    if p in PostingsOf(al, docs[n], t) {
      assert docs[n] in docs;
    } else {
      ScanFromDocs(al, docs[..n], t, p);
      var d :| d in docs[..n] && p in PostingsOf(al, d, t) && p.depth == d.depth && p.url == d.url;
      assert d in docs;
    }
  }

  // ---------- Token sets and counts ----------

  method ToSet(tokens: seq<string>) returns (s: set<string>)
    ensures s == set t | t in tokens
  {
    s := {};
    for i := 0 to |tokens|
      invariant s == set t | t in tokens[..i]
    {
      s := s + {tokens[i]};
      assert tokens[..i + 1] == tokens[..i] + [tokens[i]];
    }
    assert tokens[..|tokens|] == tokens;
  }

  ghost predicate Counts(freq: map<string, nat>, tokens: seq<string>) {
    forall t :: if t in freq then freq[t] == multiset(tokens)[t] && freq[t] > 0 else multiset(tokens)[t] == 0
  }

  lemma CountsStep(freq: map<string, nat>, tokens: seq<string>, x: string)
    requires Counts(freq, tokens)
    ensures Counts(freq[x := if x in freq then freq[x] + 1 else 1], tokens + [x])
  {}

  /** Adds one list of tokens to a frequency table. */
  method CountTokens(freq0: map<string, nat>, ghost before: seq<string>, tokens: seq<string>) returns (freq: map<string, nat>)
    requires Counts(freq0, before)
    ensures Counts(freq, before + tokens)
  {
    hide Counts;
    freq := freq0;
    assert before + tokens[..0] == before;
    for i := 0 to |tokens|
      invariant Counts(freq, before + tokens[..i])
    {
      CountsStep(freq, before + tokens[..i], tokens[i]);
      assert before + tokens[..i + 1] == before + tokens[..i] + [tokens[i]];
      freq := freq[tokens[i] := if tokens[i] in freq then freq[tokens[i]] + 1 else 1];
    }
    assert before + tokens[..|tokens|] == before + tokens;
  }

  /** The counts of a document over body and title, and the token sets of its title and address. */
  method CountDocument(al: Alphabet, doc: Document) returns (freq: map<string, nat>, titleSet: set<string>, urlSet: set<string>)
    ensures Counts(freq, Tokens(al, doc.bodyText) + Tokens(al, doc.title))
    ensures titleSet == (set t | t in Tokens(al, doc.title)) && urlSet == (set t | t in Tokens(al, doc.url))
  {
    hide *;
    var titleTokens := Tokenize(al, doc.title);
    var bodyTokens := Tokenize(al, doc.bodyText);
    var urlTokens := Tokenize(al, doc.url);
    titleSet := ToSet(titleTokens);
    urlSet := ToSet(urlTokens);
    NothingCounted();
    freq := CountTokens(map[], [], bodyTokens);
    freq := CountTokens(freq, [] + bodyTokens, titleTokens);
    assert [] + bodyTokens + titleTokens == bodyTokens + titleTokens;
  }

  lemma NothingCounted()
    ensures Counts(map[], [])
  {}

  function ListAt(postings: map<string, seq<Posting>>, t: string): seq<Posting> {
    if t in postings then postings[t] else []
  }

  /** Appends one posting to the list of each token of a document, in whatever order the map yields them. */
  method PostTokens(doc: Document, freq: map<string, nat>, titleSet: set<string>, urlSet: set<string>, before: map<string, seq<Posting>>)
    returns (after: map<string, seq<Posting>>)
    ensures forall t :: ListAt(after, t) == ListAt(before, t) +
              if t in freq then [Posting(doc.url, doc.originUrl, doc.depth, doc.title, freq[t], t in titleSet, t in urlSet)] else []
  {
    after := before;
    var todo := freq.Keys;
    while todo != {}
      invariant todo <= freq.Keys
      invariant forall t :: ListAt(after, t) == ListAt(before, t) +
                  if t in freq && t !in todo then [Posting(doc.url, doc.originUrl, doc.depth, doc.title, freq[t], t in titleSet, t in urlSet)] else []
    {
      var token :| token in todo;
      todo := todo - {token};
      var p := Posting(doc.url, doc.originUrl, doc.depth, doc.title, freq[token], token in titleSet, token in urlSet);
      after := after[token := ListAt(after, token) + [p]];
    }
  }

  class InvertedIndex {
    const al: Alphabet
    var postings: map<string, seq<Posting>>
    var docCount: int

    constructor (al: Alphabet)
      ensures this.al == al && docCount == 0 && forall t :: At(t) == []
    {
      this.al, postings, docCount := al, map[], 0;
    }

    function At(token: string): seq<Posting>
      reads this
    {
      ListAt(postings, token)
    }

    /** A copy of the posting list of a token. */
    method Lookup(token: string) returns (result: seq<Posting>)
      ensures result == At(token)
    {
      result := if token in postings then postings[token] else [];
    }

    /** Indexing a document appends its posting to the list of each token it contains, and to no other. */
    method AddDocument(doc: Document)
      modifies this
      ensures forall t :: At(t) == old(At(t)) + PostingsOf(al, doc, t)
      ensures docCount == old(docCount) + 1
    {
      hide Tokens, Counts, PostingsOf;
      var freq, titleSet, urlSet := CountDocument(al, doc);
      ghost var before := postings;
      postings := PostTokens(doc, freq, titleSet, urlSet, postings);
      AddedPostings(al, doc, freq, titleSet, urlSet, before, postings);
      docCount := docCount + 1;
    }

    /** Appends a ready-made posting, when restoring. */
    method AddPosting(token: string, p: Posting)
      modifies this`postings
      ensures forall t :: At(t) == old(At(t)) + if t == token then [p] else []
    {
      postings := postings[token := At(token) + [p]];
    }

    method SetDocCount(n: int)
      modifies this`docCount
      ensures docCount == n
    {
      docCount := n;
    }
  }

  lemma AddedPostings(al: Alphabet, doc: Document, freq: map<string, nat>, titleSet: set<string>, urlSet: set<string>,
                      before: map<string, seq<Posting>>, after: map<string, seq<Posting>>)
    requires Counts(freq, Tokens(al, doc.bodyText) + Tokens(al, doc.title))
    requires titleSet == (set t | t in Tokens(al, doc.title)) && urlSet == (set t | t in Tokens(al, doc.url))
    requires forall t :: ListAt(after, t) == ListAt(before, t) +
               if t in freq then [Posting(doc.url, doc.originUrl, doc.depth, doc.title, freq[t], t in titleSet, t in urlSet)] else []
    ensures forall t :: ListAt(after, t) == ListAt(before, t) + PostingsOf(al, doc, t)
  {
    hide Tokens, ListAt;
    forall t ensures PostingsOf(al, doc, t) ==
      if t in freq then [Posting(doc.url, doc.originUrl, doc.depth, doc.title, freq[t], t in titleSet, t in urlSet)] else []
    {
    }
    hide PostingsOf;
  }

  /** After any sequence of documents, every posting list is what a scan of them gives. */
  method IndexAll(al: Alphabet, docs: seq<Document>) returns (idx: InvertedIndex)
    ensures idx.al == al && idx.docCount == |docs| && forall t :: idx.At(t) == Scan(al, docs, t)
  {
    hide *;
    idx := new InvertedIndex(al);
    EmptyScan(al);
    assert docs[..0] == [];
    for i := 0 to |docs|
      invariant idx.al == al && idx.docCount == i && fresh(idx)
      invariant forall t :: idx.At(t) == Scan(al, docs[..i], t)
    {
      idx.AddDocument(docs[i]);
      assert docs[..i + 1] == docs[..i] + [docs[i]];
      forall t ensures idx.At(t) == Scan(al, docs[..i + 1], t) {
        ScanStep(al, docs[..i], docs[i], t);
      }
    }
    assert docs[..|docs|] == docs;
  }
}
