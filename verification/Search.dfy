/**
 Search: scores accumulated per URL over the posting lists of the query's tokens, three sort orders and a
 top-K cut, against the definition of each result as a sum over matching documents.
 */
module Search {
  import opened Text
  import opened Index

  datatype SortBy = Relevance | ByDepth | ByFrequency

  datatype SearchResult = SearchResult(url: string, originUrl: string, depth: int, title: string, score: int, frequency: int)

  // ---------- What a result is ----------

  /** The hits of a query: the posting lists looked up for its tokens, one after the other. */
  function Hits(lists: seq<seq<Posting>>): seq<Posting> {
    if lists == [] then [] else Hits(lists[..|lists| - 1]) + lists[|lists| - 1]
  }

  /** What an atomic search looks up: one list per query token, repeated tokens repeated. */
  function Lists(al: Alphabet, docs: seq<Document>, tokens: seq<string>): (ls: seq<seq<Posting>>)
    ensures |ls| == |tokens| && forall i :: 0 <= i < |ls| ==> ls[i] == Scan(al, docs, tokens[i])
  {
    seq(|tokens|, i requires 0 <= i < |tokens| => Scan(al, docs, tokens[i]))
  }

  function HitUrls(hits: seq<Posting>): set<string> { set p | p in hits :: p.url }

  /** Frequency times ten, a bonus of a thousand, less five per level. */
  function Points(p: Posting): int { p.termFreq * 10 + 1000 - p.depth * 5 }

  function Score(hits: seq<Posting>, u: string): int {
    if hits == [] then 0
    else Score(hits[..|hits| - 1], u) + (if hits[|hits| - 1].url == u then Points(hits[|hits| - 1]) else 0)
  }

  function Frequency(hits: seq<Posting>, u: string): int {
    if hits == [] then 0
    else Frequency(hits[..|hits| - 1], u) + (if hits[|hits| - 1].url == u then hits[|hits| - 1].termFreq else 0)
  }

  /** The first hit of a URL, whose origin, depth and title the result shows. */
  function First(hits: seq<Posting>, u: string): Posting
    requires u in HitUrls(hits)
    decreases |hits|
  {
    if hits[0].url == u then hits[0] else assert u in HitUrls(hits[1..]); First(hits[1..], u)
  }

  function ResultFor(hits: seq<Posting>, u: string): (r: SearchResult)
    requires u in HitUrls(hits)
    ensures r.url == u && r.score == Score(hits, u) && r.frequency == Frequency(hits, u)
  {
    var p := First(hits, u);
    SearchResult(u, p.originUrl, p.depth, p.title, Score(hits, u), Frequency(hits, u))
  }

  // ---------- Ranking ----------

  /** The comparison handed to the sort: whether `a` goes strictly before `b`. */
  predicate Before(mode: SortBy, a: SearchResult, b: SearchResult) {
    match mode
    case Relevance => a.score > b.score
    case ByDepth => if a.depth != b.depth then a.depth < b.depth else a.score > b.score
    case ByFrequency => if a.frequency != b.frequency then a.frequency > b.frequency else a.score > b.score
  }

  ghost predicate Ordered(mode: SortBy, rs: seq<SearchResult>) {
    forall i, j :: 0 <= i < j < |rs| ==> !Before(mode, rs[j], rs[i])
  }

  ghost predicate DistinctResults(rs: seq<SearchResult>) {
    forall i, j :: 0 <= i < j < |rs| ==> rs[i].url != rs[j].url
  }

  /** How many results a cut keeps; a non-positive `topK` keeps all. */
  function CutLength(n: nat, topK: int): nat { if topK > 0 && n > topK then topK else n }

  /** Each hit URL once, with its own result. */
  ghost predicate AllResults(hits: seq<Posting>, rs: seq<SearchResult>) {
    && DistinctResults(rs)
    && (forall r :: r in rs ==> r.url in HitUrls(hits) && r == ResultFor(hits, r.url))
    && (forall u :: u in HitUrls(hits) ==> ResultFor(hits, u) in rs)
    && |rs| == |HitUrls(hits)|
  }

  /**
   The answer to a search: distinct, ordered, each result right, as many as the cut allows, and no result left
   out goes strictly before one kept.
   */
  ghost predicate Answer(hits: seq<Posting>, topK: int, mode: SortBy, rs: seq<SearchResult>) {
    && DistinctResults(rs) && Ordered(mode, rs)
    && (forall r :: r in rs ==> r.url in HitUrls(hits) && r == ResultFor(hits, r.url))
    && |rs| == CutLength(|HitUrls(hits)|, topK)
    && (forall u, r :: u in HitUrls(hits) && ResultFor(hits, u) !in rs && r in rs ==> !Before(mode, ResultFor(hits, u), r))
  }

  /** The orders are strict and total up to ties, so any sort by them, stable or not, yields an ordered list. */
  lemma BeforeIsStrictWeakOrder(mode: SortBy, a: SearchResult, b: SearchResult, c: SearchResult)
    ensures !Before(mode, a, a)
    ensures Before(mode, a, b) ==> !Before(mode, b, a)
    ensures !Before(mode, b, a) && !Before(mode, c, b) ==> !Before(mode, c, a)
  {}

  /** The first number is the larger, or they are equal and the scores do not rise. */
  ghost predicate Falling(a: int, aScore: int, b: int, bScore: int) { a > b || (a == b && aScore >= bScore) }

  /** No result of this URL is in the list. */
  ghost predicate Omitted(rs: seq<SearchResult>, u: string) { forall r :: r in rs ==> r.url != u }

  function ResultUrls(rs: seq<SearchResult>): set<string> { set r | r in rs :: r.url }

  lemma {:induction false} DistinctCount(rs: seq<SearchResult>)
    requires DistinctResults(rs)
    ensures |ResultUrls(rs)| == |rs|
    decreases |rs|
  {
    if rs == [] {
      assert ResultUrls(rs) == {};
    } else {
      var init, last := rs[..|rs| - 1], rs[|rs| - 1];
      DistinctCount(init);
      forall r | r in init ensures r.url != last.url {
        var i :| 0 <= i < |init| && rs[i] == r;
      }
      assert rs == init + [last];
      assert ResultUrls(rs) == ResultUrls(init) + {last.url};
    }
  }

  /** As many results as asked for, if there are so many, and all of them when none or fewer are asked for. */
  lemma AnswerLength(hits: seq<Posting>, topK: int, mode: SortBy, rs: seq<SearchResult>)
    requires Answer(hits, topK, mode, rs)
    ensures topK <= 0 || |HitUrls(hits)| <= topK ==> |rs| == |HitUrls(hits)| && forall u :: u in HitUrls(hits) ==> !Omitted(rs, u)
    ensures 0 < topK < |HitUrls(hits)| ==> |rs| == topK
  {
    hide ResultFor, Before, HitUrls;
    if |rs| == |HitUrls(hits)| {
      EachNamed(hits, rs);
    }
  }

  lemma {:induction false} EachNamed(hits: seq<Posting>, rs: seq<SearchResult>)
    requires DistinctResults(rs) && |rs| == |HitUrls(hits)| && forall r :: r in rs ==> r.url in HitUrls(hits)
    ensures forall u :: u in HitUrls(hits) ==> !Omitted(rs, u)
  {
    hide HitUrls;
    var named := ResultUrls(rs);
    DistinctCount(rs);
    assert named <= HitUrls(hits);
    assert HitUrls(hits) == named + (HitUrls(hits) - named);
    assert |HitUrls(hits) - named| == 0;
    assert HitUrls(hits) == named;
    forall u | u in HitUrls(hits) ensures !Omitted(rs, u) {
      var r :| r in rs && r.url == u;
    }
  }

  /** In relevance order scores fall, and a page left out by the cut scores no more than any page kept. */
  lemma RelevanceRanks(hits: seq<Posting>, topK: int, rs: seq<SearchResult>)
    requires Answer(hits, topK, Relevance, rs)
    ensures forall i, j :: 0 <= i < j < |rs| ==> rs[i].score >= rs[j].score
    ensures forall u, r :: u in HitUrls(hits) && Omitted(rs, u) && r in rs ==> Score(hits, u) <= r.score
  {
    forall u | u in HitUrls(hits) && Omitted(rs, u) ensures ResultFor(hits, u) !in rs { assert ResultFor(hits, u).url == u; }
  }

  /** In depth order depths rise, with falling scores at equal depth, and a page left out comes after every page kept. */
  lemma DepthRanks(hits: seq<Posting>, topK: int, rs: seq<SearchResult>)
    requires Answer(hits, topK, ByDepth, rs)
    ensures forall i, j :: 0 <= i < j < |rs| ==> Falling(-rs[i].depth, rs[i].score, -rs[j].depth, rs[j].score)
    ensures forall u, r :: u in HitUrls(hits) && Omitted(rs, u) && r in rs ==>
              Falling(-r.depth, r.score, -ResultFor(hits, u).depth, Score(hits, u))
  {
    forall u | u in HitUrls(hits) && Omitted(rs, u) ensures ResultFor(hits, u) !in rs { assert ResultFor(hits, u).url == u; }
  }

  /** In frequency order frequencies fall, with falling scores at equal frequency, and a page left out comes last. */
  lemma FrequencyRanks(hits: seq<Posting>, topK: int, rs: seq<SearchResult>)
    requires Answer(hits, topK, ByFrequency, rs)
    ensures forall i, j :: 0 <= i < j < |rs| ==> Falling(rs[i].frequency, rs[i].score, rs[j].frequency, rs[j].score)
    ensures forall u, r :: u in HitUrls(hits) && Omitted(rs, u) && r in rs ==>
              Falling(r.frequency, r.score, Frequency(hits, u), Score(hits, u))
  {
    forall u | u in HitUrls(hits) && Omitted(rs, u) ensures ResultFor(hits, u) !in rs { assert ResultFor(hits, u).url == u; }
  }

  /** Cutting any ordered arrangement of all results gives an answer. */
  lemma CutIsAnswer(hits: seq<Posting>, topK: int, mode: SortBy, all: seq<SearchResult>)
    requires AllResults(hits, all) && Ordered(mode, all)
    ensures Answer(hits, topK, mode, all[..CutLength(|all|, topK)])
  {
    var k := CutLength(|all|, topK);
    var kept := all[..k];
    forall u, r | u in HitUrls(hits) && ResultFor(hits, u) !in kept && r in kept ensures !Before(mode, ResultFor(hits, u), r) {
      var x := ResultFor(hits, u);
      var j :| 0 <= j < |all| && all[j] == x;
      var i :| 0 <= i < |kept| && kept[i] == r;
      forall m | 0 <= m < k ensures all[m] != x { assert kept[m] in kept; }
      assert i < j && !Before(mode, all[j], all[i]);
    }
    forall r | r in kept ensures r.url in HitUrls(hits) && r == ResultFor(hits, r.url) {
      assert r in all;
    }
    hide ResultFor;
  }

  // ---------- Accumulating ----------

  datatype DocInfo = DocInfo(url: string, originUrl: string, depth: int, title: string, score: int, frequency: int)

  function InfoFor(hits: seq<Posting>, u: string): DocInfo
    requires u in HitUrls(hits)
  {
    var r := ResultFor(hits, u);
    DocInfo(r.url, r.originUrl, r.depth, r.title, r.score, r.frequency)
  }

  ghost predicate Tallied(scores: map<string, DocInfo>, hits: seq<Posting>) {
    scores.Keys == HitUrls(hits) && forall u :: u in scores ==> scores[u] == InfoFor(hits, u)
  }

  lemma HitUrlsStep(hits: seq<Posting>, p: Posting)
    ensures HitUrls(hits + [p]) == HitUrls(hits) + {p.url}
  {
    assert forall x :: x in hits + [p] <==> x in hits || x == p;
  }

  lemma {:induction false} FirstStep(hits: seq<Posting>, p: Posting, u: string)
    requires u in HitUrls(hits)
    ensures u in HitUrls(hits + [p]) && First(hits + [p], u) == First(hits, u)
    decreases |hits|
  {
    HitUrlsStep(hits, p);
    if hits[0].url != u {
      assert hits == [hits[0]] + hits[1..];
      assert u in HitUrls(hits[1..]);
      assert (hits + [p])[1..] == hits[1..] + [p];
      FirstStep(hits[1..], p, u);
    }
  }

  lemma {:induction false} FirstNew(hits: seq<Posting>, p: Posting)
    requires p.url !in HitUrls(hits)
    ensures p.url in HitUrls(hits + [p]) && First(hits + [p], p.url) == p
    decreases |hits|
  {
    HitUrlsStep(hits, p);
    if hits != [] {
      assert hits[0].url in HitUrls(hits);
      assert (hits + [p])[1..] == hits[1..] + [p];
      assert forall x :: x in hits[1..] ==> x in hits;
      FirstNew(hits[1..], p);
    } else {
      assert hits + [p] == [p];
    }
  }

  lemma {:induction false} NoHitNoScore(hits: seq<Posting>, u: string)
    requires u !in HitUrls(hits)
    ensures Score(hits, u) == 0 && Frequency(hits, u) == 0
    decreases |hits|
  {
    if hits != [] {
      var n := |hits| - 1;
      assert hits[n].url in HitUrls(hits);
      assert forall x :: x in hits[..n] ==> x in hits;
      NoHitNoScore(hits[..n], u);
    }
  }

  lemma ScoreStep(hits: seq<Posting>, p: Posting, u: string)
    ensures Score(hits + [p], u) == Score(hits, u) + (if p.url == u then Points(p) else 0)
    ensures Frequency(hits + [p], u) == Frequency(hits, u) + (if p.url == u then p.termFreq else 0)
  {
    assert (hits + [p])[..|hits|] == hits;
  }

  /** One hit counted: a new URL gets a fresh entry, a known one has its totals raised. */
  function CountHit(scores: map<string, DocInfo>, p: Posting): map<string, DocInfo> {
    var info := if p.url in scores then scores[p.url] else DocInfo(p.url, p.originUrl, p.depth, p.title, 0, 0);
    scores[p.url := info.(score := info.score + Points(p), frequency := info.frequency + p.termFreq)]
  }

  lemma CountHitTallies(scores: map<string, DocInfo>, hits: seq<Posting>, p: Posting)
    requires Tallied(scores, hits)
    ensures Tallied(CountHit(scores, p), hits + [p])
  {
    var next := CountHit(scores, p);
    HitUrlsStep(hits, p);
    hide HitUrls, First, Score, Frequency, Points;
    forall u | u in next ensures next[u] == InfoFor(hits + [p], u) {
      ScoreStep(hits, p, u);
      if u in scores {
        FirstStep(hits, p, u);
      } else {
        FirstNew(hits, p);
        NoHitNoScore(hits, u);
      }
    }
  }

  /** Adds the hits of one token to the running scores. */
  method Accumulate(scores0: map<string, DocInfo>, ghost hits: seq<Posting>, postings: seq<Posting>) returns (scores: map<string, DocInfo>)
    requires Tallied(scores0, hits)
    ensures Tallied(scores, hits + postings)
  {
    scores := scores0;
    assert hits + postings[..0] == hits;
    for i := 0 to |postings|
      invariant Tallied(scores, hits + postings[..i])
    {
      CountHitTallies(scores, hits + postings[..i], postings[i]);
      assert hits + postings[..i + 1] == hits + postings[..i] + [postings[i]];
      scores := CountHit(scores, postings[i]);
      hide Tallied;
    }
    assert postings[..|postings|] == postings;
  }

  /** The entries as results, in whatever order the map yields them. */
  method Collect(scores: map<string, DocInfo>, ghost hits: seq<Posting>) returns (results: seq<SearchResult>)
    requires Tallied(scores, hits)
    ensures AllResults(hits, results)
  {
    results := [];
    var todo := scores.Keys;
    while todo != {}
      invariant todo <= scores.Keys
      invariant DistinctResults(results)
      invariant forall r :: r in results ==> r.url in scores && r.url !in todo && r == ResultFor(hits, r.url)
      invariant forall u :: u in scores && u !in todo ==> ResultFor(hits, u) in results
      invariant |results| + |todo| == |scores.Keys|
    {
      var u :| u in todo;
      todo := todo - {u};
      var info := scores[u];
      var r := SearchResult(info.url, info.originUrl, info.depth, info.title, info.score, info.frequency);
      assert r == ResultFor(hits, u);
      forall i | 0 <= i < |results| ensures results[i].url != u { assert results[i] in results; }
      results := results + [r];
      hide ResultFor;
    }
  }

  // ---------- Sorting in place ----------

  method Swap(a: array<SearchResult>, i: nat, j: nat)
    requires i < a.Length && j < a.Length
    modifies a
    ensures a[..] == old(a[..])[i := old(a[j])][j := old(a[i])]
    ensures multiset(a[..]) == old(multiset(a[..]))
  {
    a[i], a[j] := a[j], a[i];
  }

  /** Sorts by the given order; ties may end up in any order. */
  method SortSlice(a: array<SearchResult>, mode: SortBy)
    modifies a
    ensures Ordered(mode, a[..]) && multiset(a[..]) == old(multiset(a[..]))
  {
    for n := 0 to a.Length
      invariant Ordered(mode, a[..n]) && multiset(a[..]) == old(multiset(a[..]))
    {
      var m := n;
      while m > 0 && Before(mode, a[m], a[m - 1])
        invariant 0 <= m <= n
        invariant forall i, j :: 0 <= i < j <= n && j != m ==> !Before(mode, a[j], a[i])
        invariant multiset(a[..]) == old(multiset(a[..]))
      {
        Swap(a, m - 1, m);
        m := m - 1;
      }
    }
  }

  lemma PermutedAllResults(hits: seq<Posting>, rs: seq<SearchResult>, qs: seq<SearchResult>)
    requires AllResults(hits, rs) && multiset(rs) == multiset(qs)
    ensures AllResults(hits, qs)
  {
    forall r ensures r in qs <==> r in rs { assert r in multiset(qs) <==> r in multiset(rs); }
    assert |multiset(qs)| == |multiset(rs)|;
    hide ResultFor, HitUrls;
    forall i, j | 0 <= i < j < |qs| ensures qs[i].url != qs[j].url {
      if qs[i].url == qs[j].url {
        assert qs[i] in rs && qs[j] in rs;
        assert qs[i] == qs[j];
        TwiceIn(qs, i, j);
        OnceIn(rs, qs[i]);
      }
    }
  }

  lemma TwiceIn(xs: seq<SearchResult>, i: nat, j: nat)
    requires i < j < |xs| && xs[i] == xs[j]
    ensures multiset(xs)[xs[i]] >= 2
  {
    assert xs == xs[..j] + [xs[j]] + xs[j + 1..];
    assert xs[..j][i] in multiset(xs[..j]);
  }

  lemma {:induction false} OnceIn(xs: seq<SearchResult>, x: SearchResult)
    requires DistinctResults(xs)
    ensures multiset(xs)[x] <= 1
  {
    if xs != [] {
      var n := |xs| - 1;
      assert xs == xs[..n] + [xs[n]];
      OnceIn(xs[..n], x);
      forall i | 0 <= i < n ensures xs[..n][i] != xs[n] { assert xs[i].url != xs[n].url; }
    }
  }

  /** Sorting and cutting the collected results. */
  method Rank(results: seq<SearchResult>, ghost hits: seq<Posting>, topK: int, mode: SortBy) returns (answer: seq<SearchResult>)
    requires AllResults(hits, results)
    ensures Answer(hits, topK, mode, answer)
  {
    var a := new SearchResult[|results|](i requires 0 <= i < |results| => results[i]);
    assert a[..] == results;
    SortSlice(a, mode);
    answer := a[..];
    PermutedAllResults(hits, results, answer);
    CutIsAnswer(hits, topK, mode, answer);
    if topK > 0 && |answer| > topK {
      answer := answer[..topK];
    } else {
      assert answer[..|answer|] == answer;
    }
  }

  // ---------- The search ----------

  function Lookups(idx: InvertedIndex, tokens: seq<string>): (ls: seq<seq<Posting>>)
    reads idx
    ensures |ls| == |tokens| && forall i :: 0 <= i < |ls| ==> ls[i] == idx.At(tokens[i])
  {
    seq(|tokens|, i requires 0 <= i < |tokens| reads idx => idx.At(tokens[i]))
  }

  /** A search of an index that is not written meanwhile; a query without tokens finds nothing. */
  method Search(query: string, idx: InvertedIndex, topK: int, mode: SortBy) returns (results: seq<SearchResult>)
    ensures Answer(Hits(Lookups(idx, Tokens(idx.al, query))), topK, mode, results)
    ensures Tokens(idx.al, query) == [] ==> results == []
  {
    hide *;
    var tokens := Tokenize(idx.al, query);
    ghost var lists := Lookups(idx, tokens);
    assert lists[..0] == [];
    if |tokens| == 0 {
      assert lists == [];
      NothingFound(topK, mode);
      return [];
    }
    var scores: map<string, DocInfo> := map[];
    NothingTallied();
    for i := 0 to |tokens|
      invariant Tallied(scores, Hits(lists[..i]))
    {
      var postings := idx.Lookup(tokens[i]);
      assert lists[..i + 1] == lists[..i] + [postings];
      HitsStep(lists[..i], postings);
      scores := Accumulate(scores, Hits(lists[..i]), postings);
    }
    assert lists[..|tokens|] == lists;
    var collected := Collect(scores, Hits(lists));
    results := Rank(collected, Hits(lists), topK, mode);
  }

  lemma NothingFound(topK: int, mode: SortBy)
    ensures Answer(Hits([]), topK, mode, [])
  {
    assert HitUrls(Hits([])) == {};
  }

  /** Over an index of `docs`, a search answers from the scans of the query's tokens. */
  method SearchDocuments(al: Alphabet, docs: seq<Document>, query: string, topK: int, mode: SortBy) returns (results: seq<SearchResult>)
    ensures Answer(Hits(Lists(al, docs, Tokens(al, query))), topK, mode, results)
  {
    var idx := IndexAll(al, docs);
    results := Search(query, idx, topK, mode);
    assert Lookups(idx, Tokens(al, query)) == Lists(al, docs, Tokens(al, query));
  }

  // ---------- The score as a sum over documents ----------

  /** What the documents with URL `u` contribute for one query token. */
  function TokenScore(al: Alphabet, docs: seq<Document>, t: string, u: string): int {
    if docs == [] then 0
    else
      var d := docs[|docs| - 1];
      TokenScore(al, docs[..|docs| - 1], t, u)
      + (if d.url == u && Occurrences(al, d, t) > 0 then 10 * Occurrences(al, d, t) + 1000 - 5 * d.depth else 0)
  }

  function QueryScore(al: Alphabet, docs: seq<Document>, tokens: seq<string>, u: string): int {
    if tokens == [] then 0
    else QueryScore(al, docs, tokens[..|tokens| - 1], u) + TokenScore(al, docs, tokens[|tokens| - 1], u)
  }

  lemma {:induction false} ScoreConcat(a: seq<Posting>, b: seq<Posting>, u: string)
    ensures Score(a + b, u) == Score(a, u) + Score(b, u) && Frequency(a + b, u) == Frequency(a, u) + Frequency(b, u)
    decreases |b|
  {
    if b == [] {
      assert a + b == a;
    } else {
      var n := |b| - 1;
      assert (a + b)[..|a + b| - 1] == a + b[..n];
      ScoreConcat(a, b[..n], u);
    }
  }

  lemma {:induction false} ScanScore(al: Alphabet, docs: seq<Document>, t: string, u: string)
    ensures Score(Scan(al, docs, t), u) == TokenScore(al, docs, t, u)
    decreases |docs|
  {
    if docs != [] {
      var n := |docs| - 1;
      ScanScore(al, docs[..n], t, u);
      ScoreConcat(Scan(al, docs[..n], t), PostingsOf(al, docs[n], t), u);
      OnePostingScore(al, docs[n], t, u);
      hide PostingsOf, Occurrences;
    }
  }

  lemma OnePostingScore(al: Alphabet, d: Document, t: string, u: string)
    ensures Score(PostingsOf(al, d, t), u) ==
      if d.url == u && Occurrences(al, d, t) > 0 then 10 * Occurrences(al, d, t) + 1000 - 5 * d.depth else 0
  {
    hide Occurrences;
    var ps := PostingsOf(al, d, t);
    if ps != [] {
      assert ps[..0] == [];
    }
  }

  /** A result's score is the sum, over query tokens and documents of its URL containing them, of 10·count + 1000 − 5·depth. */
  lemma {:induction false} ScoreIsSumOverDocuments(al: Alphabet, docs: seq<Document>, tokens: seq<string>, u: string)
    ensures Score(Hits(Lists(al, docs, tokens)), u) == QueryScore(al, docs, tokens, u)
    decreases |tokens|
  {
    if tokens != [] {
      var n := |tokens| - 1;
      var lists := Lists(al, docs, tokens);
      assert lists[..n] == Lists(al, docs, tokens[..n]);
      ScoreIsSumOverDocuments(al, docs, tokens[..n], u);
      ScoreConcat(Hits(lists[..n]), lists[n], u);
      ScanScore(al, docs, tokens[n], u);
    }
  }

  /** How often the documents with URL `u` hold one query token. */
  function TokenCount(al: Alphabet, docs: seq<Document>, t: string, u: string): int {
    if docs == [] then 0
    else TokenCount(al, docs[..|docs| - 1], t, u)
         + (if docs[|docs| - 1].url == u then Occurrences(al, docs[|docs| - 1], t) else 0)
  }

  function QueryCount(al: Alphabet, docs: seq<Document>, tokens: seq<string>, u: string): int {
    if tokens == [] then 0
    else QueryCount(al, docs, tokens[..|tokens| - 1], u) + TokenCount(al, docs, tokens[|tokens| - 1], u)
  }

  lemma OnePostingCount(al: Alphabet, d: Document, t: string, u: string)
    ensures Frequency(PostingsOf(al, d, t), u) == if d.url == u then Occurrences(al, d, t) else 0
  {
    hide Occurrences;
    var ps := PostingsOf(al, d, t);
    if ps != [] {
      assert ps[..0] == [];
    }
  }

  lemma {:induction false} ScanCount(al: Alphabet, docs: seq<Document>, t: string, u: string)
    ensures Frequency(Scan(al, docs, t), u) == TokenCount(al, docs, t, u)
    decreases |docs|
  {
    if docs != [] {
      var n := |docs| - 1;
      ScanCount(al, docs[..n], t, u);
      ScoreConcat(Scan(al, docs[..n], t), PostingsOf(al, docs[n], t), u);
      OnePostingCount(al, docs[n], t, u);
      hide PostingsOf, Occurrences;
    }
  }

  /** And its frequency is the number of occurrences of the query's tokens in the documents of its URL. */
  lemma {:induction false} FrequencyIsSumOverDocuments(al: Alphabet, docs: seq<Document>, tokens: seq<string>, u: string)
    ensures Frequency(Hits(Lists(al, docs, tokens)), u) == QueryCount(al, docs, tokens, u)
    decreases |tokens|
  {
    if tokens != [] {
      var n := |tokens| - 1;
      var lists := Lists(al, docs, tokens);
      assert lists[..n] == Lists(al, docs, tokens[..n]);
      FrequencyIsSumOverDocuments(al, docs, tokens[..n], u);
      ScoreConcat(Hits(lists[..n]), lists[n], u);
      ScanCount(al, docs, tokens[n], u);
    }
  }

  lemma {:induction false} HitsHold(lists: seq<seq<Posting>>, i: nat, p: Posting)
    requires i < |lists| && p in lists[i]
    ensures p in Hits(lists)
    decreases |lists|
  {
    if i < |lists| - 1 { HitsHold(lists[..|lists| - 1], i, p); }
  }

  lemma {:induction false} HitsComeFrom(lists: seq<seq<Posting>>, p: Posting) returns (i: nat)
    requires p in Hits(lists)
    ensures i < |lists| && p in lists[i]
    decreases |lists|
  {
    var n := |lists| - 1;
    if p in lists[n] { i := n; } else { i := HitsComeFrom(lists[..n], p); }
  }

  lemma {:induction false} ScanHolds(al: Alphabet, docs: seq<Document>, t: string, d: Document, p: Posting)
    requires d in docs && p in PostingsOf(al, d, t)
    ensures p in Scan(al, docs, t)
    decreases |docs|
  {
    hide PostingsOf;
    var n := |docs| - 1;
    if d != docs[n] { ScanHolds(al, docs[..n], t, d, p); }
  }

  /** Every document containing a query token is found. */
  lemma {:induction false} ContainingIsFound(al: Alphabet, docs: seq<Document>, tokens: seq<string>, i: nat, d: Document)
    requires i < |tokens| && d in docs && Occurrences(al, d, tokens[i]) > 0
    ensures d.url in HitUrls(Hits(Lists(al, docs, tokens)))
  {
    hide Occurrences;
    var p := PostingsOf(al, d, tokens[i])[0];
    ScanHolds(al, docs, tokens[i], d, p);
    HitsHold(Lists(al, docs, tokens), i, p);
  }

  /** And nothing else is found: each URL found belongs to a document containing a query token. */
  lemma {:induction false} FoundIsContaining(al: Alphabet, docs: seq<Document>, tokens: seq<string>, u: string) returns (i: nat, d: Document)
    requires u in HitUrls(Hits(Lists(al, docs, tokens)))
    ensures i < |tokens| && d in docs && d.url == u && Occurrences(al, d, tokens[i]) > 0
  {
    var p :| p in Hits(Lists(al, docs, tokens)) && p.url == u;
    i := HitsComeFrom(Lists(al, docs, tokens), p);
    ScanFromDocs(al, docs, tokens[i], p);
    hide Occurrences, Scan;
    d :| d in docs && p in PostingsOf(al, d, tokens[i]) && p.depth == d.depth && p.url == d.url;
  }

  // ---------- What a result shows ----------

  lemma {:induction false} FirstConcat(a: seq<Posting>, b: seq<Posting>, u: string)
    requires u in HitUrls(a + b)
    ensures if u in HitUrls(a) then First(a + b, u) == First(a, u) else u in HitUrls(b) && First(a + b, u) == First(b, u)
    decreases |a|
  {
    assert forall p :: p in a + b <==> p in a || p in b;
    if a == [] {
      assert a + b == b;
    } else if a[0].url != u {
      assert (a + b)[1..] == a[1..] + b && a == [a[0]] + a[1..];
      assert u in HitUrls(a) <==> u in HitUrls(a[1..]);
      FirstConcat(a[1..], b, u);
    } else {
      assert a[0] in a;
    }
  }

  /** `docs[k]` is the first document of URL `u` that contains `t`. */
  ghost predicate FirstWith(al: Alphabet, docs: seq<Document>, t: string, u: string, k: nat) {
    && k < |docs| && docs[k].url == u && Occurrences(al, docs[k], t) > 0
    && forall m :: 0 <= m < k && docs[m].url == u ==> Occurrences(al, docs[m], t) == 0
  }

  lemma {:induction false} ScanFirst(al: Alphabet, docs: seq<Document>, t: string, u: string) returns (k: nat)
    requires u in HitUrls(Scan(al, docs, t))
    ensures FirstWith(al, docs, t, u, k) && var p := First(Scan(al, docs, t), u);
      p.originUrl == docs[k].originUrl && p.depth == docs[k].depth && p.title == docs[k].title
    decreases |docs|
  {
    hide Occurrences, Scan, HitUrls, First, PostingsOf;
    var n := ScannedLast(al, docs, t, u);
    FirstConcat(Scan(al, docs[..n], t), PostingsOf(al, docs[n], t), u);
    if u in HitUrls(Scan(al, docs[..n], t)) {
      k := ScanFirst(al, docs[..n], t, u);
    } else {
      k := n;
      OnlyPosting(al, docs[n], t, u);
      forall m | 0 <= m < n && docs[m].url == u ensures Occurrences(al, docs[m], t) == 0 {
        NotScanned(al, docs[..n], t, m);
      }
    }
  }

  lemma ScannedLast(al: Alphabet, docs: seq<Document>, t: string, u: string) returns (n: nat)
    requires u in HitUrls(Scan(al, docs, t))
    ensures n == |docs| - 1 && Scan(al, docs, t) == Scan(al, docs[..n], t) + PostingsOf(al, docs[n], t)
  {
    hide PostingsOf;
    n := |docs| - 1;
  }

  lemma OnlyPosting(al: Alphabet, d: Document, t: string, u: string)
    requires u in HitUrls(PostingsOf(al, d, t))
    ensures d.url == u && Occurrences(al, d, t) > 0 && var p := First(PostingsOf(al, d, t), u);
      p.originUrl == d.originUrl && p.depth == d.depth && p.title == d.title
  {
    hide Occurrences;
  }

  lemma NotScanned(al: Alphabet, docs: seq<Document>, t: string, m: nat)
    requires m < |docs| && docs[m].url !in HitUrls(Scan(al, docs, t))
    ensures Occurrences(al, docs[m], t) == 0
  {
    hide Occurrences, Scan;
    if Occurrences(al, docs[m], t) > 0 {
      ScanHolds(al, docs, t, docs[m], PostingsOf(al, docs[m], t)[0]);
    }
  }

  /**
   A result shows origin, depth and title of one document of its URL: of those containing the first query token that any
   of them contains, the one indexed first.
   */
  lemma {:induction false} ResultShowsFirst(al: Alphabet, docs: seq<Document>, tokens: seq<string>, u: string) returns (i: nat, k: nat)
    requires u in HitUrls(Hits(Lists(al, docs, tokens)))
    ensures i < |tokens| && FirstWith(al, docs, tokens[i], u, k)
    ensures forall j, d :: 0 <= j < i && d in docs && d.url == u ==> Occurrences(al, d, tokens[j]) == 0
    ensures var r := ResultFor(Hits(Lists(al, docs, tokens)), u);
      r.originUrl == docs[k].originUrl && r.depth == docs[k].depth && r.title == docs[k].title
    decreases |tokens|
  {
    hide Occurrences, Scan, Score, Frequency;
    var n := |tokens| - 1;
    var lists := Lists(al, docs, tokens);
    assert lists[..n] == Lists(al, docs, tokens[..n]);
    FirstConcat(Hits(lists[..n]), lists[n], u);
    if u in HitUrls(Hits(lists[..n])) {
      i, k := ResultShowsFirst(al, docs, tokens[..n], u);
    } else {
      i := n;
      k := ScanFirst(al, docs, tokens[n], u);
      forall j, d | 0 <= j < n && d in docs && d.url == u ensures Occurrences(al, d, tokens[j]) == 0 {
        if Occurrences(al, d, tokens[j]) > 0 { ContainingIsFound(al, docs, tokens[..n], j, d); }
      }
    }
  }

  // ---------- Searching while documents are being added ----------

  /** What a search looks up when its i-th lookup sees the first `cuts[i]` documents. */
  function ListsAcross(al: Alphabet, docs: seq<Document>, tokens: seq<string>, cuts: seq<nat>): (ls: seq<seq<Posting>>)
    requires |cuts| == |tokens| && forall i :: 0 <= i < |cuts| ==> cuts[i] <= |docs|
    ensures |ls| == |tokens| && forall i :: 0 <= i < |ls| ==> ls[i] == Scan(al, docs[..cuts[i]], tokens[i])
  {
    seq(|tokens|, i requires 0 <= i < |tokens| => Scan(al, docs[..cuts[i]], tokens[i]))
  }

  /** Each list of `a` is an initial part of that of `b`. */
  ghost predicate Within(a: seq<seq<Posting>>, b: seq<seq<Posting>>) {
    |a| == |b| && forall i :: 0 <= i < |a| ==> a[i] <= b[i]
  }

  lemma {:induction false} ShorterListsScoreLess(a: seq<Posting>, b: seq<Posting>, u: string)
    requires a <= b && forall p :: p in b ==> p.termFreq >= 0
    ensures Frequency(a, u) <= Frequency(b, u)
    ensures (forall p :: p in b ==> Points(p) >= 0) ==> Score(a, u) <= Score(b, u)
    decreases |b|
  {
    if a != b {
      var n := |b| - 1;
      assert a <= b[..n];
      ShorterListsScoreLess(a, b[..n], u);
      assert b[n] in b;
    }
  }

  /** Longer posting lists find no fewer URLs, count no fewer occurrences and, if no hit costs points, score no less. */
  lemma {:induction false} WithinScoresLess(a: seq<seq<Posting>>, b: seq<seq<Posting>>, u: string)
    requires Within(a, b) && forall i, p :: 0 <= i < |b| && p in b[i] ==> p.termFreq >= 0
    ensures Frequency(Hits(a), u) <= Frequency(Hits(b), u)
    ensures (forall i, p :: 0 <= i < |b| && p in b[i] ==> Points(p) >= 0) ==> Score(Hits(a), u) <= Score(Hits(b), u)
    decreases |a|
  {
    if a != [] {
      var n := |a| - 1;
      WithinScoresLess(a[..n], b[..n], u);
      ScoreConcat(Hits(a[..n]), a[n], u);
      ScoreConcat(Hits(b[..n]), b[n], u);
      ShorterListsScoreLess(a[n], b[n], u);
      hide Score, Frequency, Points;
    }
  }

  lemma WithinFindsLess(a: seq<seq<Posting>>, b: seq<seq<Posting>>)
    requires Within(a, b)
    ensures HitUrls(Hits(a)) <= HitUrls(Hits(b))
  {
    forall u | u in HitUrls(Hits(a)) ensures u in HitUrls(Hits(b)) {
      var p :| p in Hits(a) && p.url == u;
      var i := HitsComeFrom(a, p);
      HitsHold(b, i, p);
    }
  }

  /** No document costs points under any token it contains. */
  ghost predicate NoPenalty(al: Alphabet, docs: seq<Document>) {
    forall d, t :: d in docs && Occurrences(al, d, t) > 0 ==> 10 * Occurrences(al, d, t) + 1000 >= 5 * d.depth
  }

  /** Down to depth 202 even a single occurrence earns points. */
  lemma ShallowIsFree(al: Alphabet, docs: seq<Document>)
    requires forall d :: d in docs ==> d.depth <= 202
    ensures NoPenalty(al, docs)
  {
    hide Occurrences;
  }

  lemma ScanPointsPositive(al: Alphabet, docs: seq<Document>, t: string, p: Posting)
    requires p in Scan(al, docs, t)
    ensures p.termFreq >= 1 && (NoPenalty(al, docs) ==> Points(p) >= 0)
  {
    ScanFromDocs(al, docs, t, p);
    hide Scan, Occurrences;
  }

  lemma AcrossPointsPositive(al: Alphabet, docs: seq<Document>, tokens: seq<string>, e: seq<nat>, i: nat, p: Posting)
    requires |e| == |tokens| && (forall k :: 0 <= k < |e| ==> e[k] <= |docs|) && i < |tokens|
    requires p in ListsAcross(al, docs, tokens, e)[i]
    ensures p.termFreq >= 1 && (NoPenalty(al, docs) ==> Points(p) >= 0)
  {
    hide Points, Occurrences;
    ScanPointsPositive(al, docs[..e[i]], tokens[i], p);
    assert forall d :: d in docs[..e[i]] ==> d in docs;
    hide Scan;
  }

  lemma CutsWithin(al: Alphabet, docs: seq<Document>, tokens: seq<string>, c: seq<nat>, e: seq<nat>)
    requires |c| == |e| == |tokens| && forall i :: 0 <= i < |c| ==> c[i] <= e[i] <= |docs|
    ensures Within(ListsAcross(al, docs, tokens, c), ListsAcross(al, docs, tokens, e))
  {
    forall i | 0 <= i < |tokens| ensures ListsAcross(al, docs, tokens, c)[i] <= ListsAcross(al, docs, tokens, e)[i] {
      ScanGrows(al, docs, c[i], e[i], tokens[i]);
    }
  }

  lemma CutsOrdered(al: Alphabet, docs: seq<Document>, tokens: seq<string>, c: seq<nat>, e: seq<nat>, u: string)
    requires |c| == |e| == |tokens| && forall i :: 0 <= i < |c| ==> c[i] <= e[i] <= |docs|
    ensures var a, b := Hits(ListsAcross(al, docs, tokens, c)), Hits(ListsAcross(al, docs, tokens, e));
      && HitUrls(a) <= HitUrls(b) && Frequency(a, u) <= Frequency(b, u) && (NoPenalty(al, docs) ==> Score(a, u) <= Score(b, u))
  {
    hide Points, NoPenalty, Hits, HitUrls, Frequency, Score, Scan;
    var a, b := ListsAcross(al, docs, tokens, c), ListsAcross(al, docs, tokens, e);
    CutsWithin(al, docs, tokens, c, e);
    WithinFindsLess(a, b);
    forall i: int, p: Posting | 0 <= i < |b| && p in b[i] ensures p.termFreq >= 1 && (NoPenalty(al, docs) ==> Points(p) >= 0) {
      AcrossPointsPositive(al, docs, tokens, e, i, p);
    }
    hide Within;
    WithinScoresLess(a, b, u);
  }

  /**
   A search that runs while documents are being added lies between two atomic ones, at its first and at its last
   lookup: its URLs, each URL's frequency, and each score too when no document costs points.
   */
  lemma {:induction false} SearchIsSandwiched(al: Alphabet, docs: seq<Document>, tokens: seq<string>, cuts: seq<nat>, lo: nat, hi: nat, u: string)
    requires |cuts| == |tokens| && hi <= |docs| && forall i :: 0 <= i < |cuts| ==> lo <= cuts[i] <= hi
    requires lo <= hi
    ensures var first, across, last := Hits(Lists(al, docs[..lo], tokens)), Hits(ListsAcross(al, docs, tokens, cuts)), Hits(Lists(al, docs[..hi], tokens));
      && HitUrls(first) <= HitUrls(across) <= HitUrls(last)
      && Frequency(first, u) <= Frequency(across, u) <= Frequency(last, u)
      && (NoPenalty(al, docs) ==> Score(first, u) <= Score(across, u) <= Score(last, u))
  {
    var los, his := seq(|tokens|, _ => lo), seq(|tokens|, _ => hi);
    assert ListsAcross(al, docs, tokens, los) == Lists(al, docs[..lo], tokens);
    assert ListsAcross(al, docs, tokens, his) == Lists(al, docs[..hi], tokens);
    CutsOrdered(al, docs, tokens, los, cuts, u);
    CutsOrdered(al, docs, tokens, cuts, his, u);
  }

  /** Lookups that see at least `lo` and at most `hi` documents. */
  ghost predicate CutsBetween(docs: seq<Document>, tokens: seq<string>, cuts: seq<nat>, lo: nat, hi: nat) {
    |cuts| == |tokens| && lo <= hi <= |docs| && forall i :: 0 <= i < |cuts| ==> lo <= cuts[i] <= hi
  }

  ghost predicate ScoreSandwiched(al: Alphabet, docs: seq<Document>, tokens: seq<string>, cuts: seq<nat>, lo: nat, hi: nat, u: string)
    requires CutsBetween(docs, tokens, cuts, lo, hi)
  {
    Score(Hits(Lists(al, docs[..lo], tokens)), u) <= Score(Hits(ListsAcross(al, docs, tokens, cuts)), u)
      <= Score(Hits(Lists(al, docs[..hi], tokens)), u)
  }

  /** Every score of every search across additions to `docs` lies between the two atomic ones. */
  ghost predicate ScoresSandwiched(al: Alphabet, docs: seq<Document>) {
    forall tokens: seq<string>, cuts: seq<nat>, lo: nat, hi: nat, u: string ::
      CutsBetween(docs, tokens, cuts, lo, hi) ==> ScoreSandwiched(al, docs, tokens, cuts, lo, hi, u)
  }

  /** Indexing a page lowers the score of its URL exactly when the page is too deep for its count. */
  lemma DeepPageLowersScore(al: Alphabet, docs: seq<Document>, d: Document, t: string)
    ensures Score(Scan(al, docs + [d], t), d.url) < Score(Scan(al, docs, t), d.url) <==>
      Occurrences(al, d, t) > 0 && 10 * Occurrences(al, d, t) + 1000 < 5 * d.depth
  {
    ScanStep(al, docs, d, t);
    ScoreConcat(Scan(al, docs, t), PostingsOf(al, d, t), d.url);
    OnePostingScore(al, d, t, d.url);
    hide Scan, PostingsOf, Occurrences;
  }

  lemma OneList(al: Alphabet, docs: seq<Document>, t: string)
    ensures Hits(Lists(al, docs, [t])) == Scan(al, docs, t)
  {
    hide Scan;
    assert Lists(al, docs, [t])[..0] == [];
  }

  /** Scores are sandwiched under every interleaving exactly when no document costs points. */
  lemma ScoresSandwichedIff(al: Alphabet, docs: seq<Document>)
    ensures ScoresSandwiched(al, docs) <==> NoPenalty(al, docs)
  {
    hide NoPenalty, ScoreSandwiched;
    if NoPenalty(al, docs) {
      forall tokens: seq<string>, cuts: seq<nat>, lo: nat, hi: nat, u: string | CutsBetween(docs, tokens, cuts, lo, hi)
        ensures ScoreSandwiched(al, docs, tokens, cuts, lo, hi, u)
      {
        FreeIsSandwiched(al, docs, tokens, cuts, lo, hi, u);
      }
    }
    if ScoresSandwiched(al, docs) {
      PenaltyShows(al, docs);
    }
  }

  lemma FreeIsSandwiched(al: Alphabet, docs: seq<Document>, tokens: seq<string>, cuts: seq<nat>, lo: nat, hi: nat, u: string)
    requires CutsBetween(docs, tokens, cuts, lo, hi) && NoPenalty(al, docs)
    ensures ScoreSandwiched(al, docs, tokens, cuts, lo, hi, u)
  {
    hide NoPenalty, Score, Hits, HitUrls, Frequency;
    SearchIsSandwiched(al, docs, tokens, cuts, lo, hi, u);
  }

  lemma PenaltyShows(al: Alphabet, docs: seq<Document>)
    requires ScoresSandwiched(al, docs)
    ensures NoPenalty(al, docs)
  {
    hide Occurrences, ScoreSandwiched;
    forall n, t | 0 <= n < |docs| && Occurrences(al, docs[n], t) > 0
      ensures 10 * Occurrences(al, docs[n], t) + 1000 >= 5 * docs[n].depth
    {
      var cuts: seq<nat> := [n];
      assert CutsBetween(docs, [t], cuts, n, n + 1);
      PenaltyShowsAt(al, docs, n, t);
    }
  }

  lemma PenaltyShowsAt(al: Alphabet, docs: seq<Document>, n: nat, t: string)
    requires n < |docs| && Occurrences(al, docs[n], t) > 0
    requires CutsBetween(docs, [t], [n], n, n + 1) && ScoreSandwiched(al, docs, [t], [n], n, n + 1, docs[n].url)
    ensures 10 * Occurrences(al, docs[n], t) + 1000 >= 5 * docs[n].depth
  {
    hide Occurrences, Score, Hits, Scan;
    var d := docs[n];
    assert docs[..n + 1] == docs[..n] + [d];
    OneList(al, docs[..n], t);
    OneList(al, docs[..n + 1], t);
    DeepPageLowersScore(al, docs[..n], d, t);
  }

  /** Each list looked up so far is the scan of the documents its lookup saw; later lookups see no fewer. */
  ghost predicate LookedUp(al: Alphabet, floor: nat, docs: seq<Document>, tokens: seq<string>, cuts: seq<nat>, lists: seq<seq<Posting>>) {
    && |cuts| == |lists| <= |tokens|
    && (forall k :: 0 <= k < |cuts| ==> floor <= cuts[k] <= |docs| && lists[k] == Scan(al, docs[..cuts[k]], tokens[k]))
    && (forall k, j :: 0 <= k < j < |cuts| ==> cuts[k] <= cuts[j])
  }

  lemma LookedUpStep(al: Alphabet, floor: nat, docs: seq<Document>, more: seq<Document>, tokens: seq<string>, cuts: seq<nat>, lists: seq<seq<Posting>>)
    requires LookedUp(al, floor, docs, tokens, cuts, lists) && |cuts| < |tokens| && floor <= |docs|
    ensures LookedUp(al, floor, docs + more, tokens, cuts + [|docs + more|], lists + [Scan(al, docs + more, tokens[|cuts|])])
  {
    hide Scan;
    var all, cuts', lists' := docs + more, cuts + [|docs + more|], lists + [Scan(al, docs + more, tokens[|cuts|])];
    assert all[..|all|] == all;
    forall k | 0 <= k < |cuts'| ensures floor <= cuts'[k] <= |all| && lists'[k] == Scan(al, all[..cuts'[k]], tokens[k]) {
      if k < |cuts| { assert all[..cuts[k]] == docs[..cuts[k]]; }
    }
  }

  lemma LookedUpAll(al: Alphabet, floor: nat, docs: seq<Document>, tokens: seq<string>, cuts: seq<nat>, lists: seq<seq<Posting>>)
    requires LookedUp(al, floor, docs, tokens, cuts, lists) && |cuts| == |tokens|
    ensures lists == ListsAcross(al, docs, tokens, cuts)
  {
    hide Scan;
  }

  lemma HitsStep(lists: seq<seq<Posting>>, l: seq<Posting>)
    ensures Hits(lists + [l]) == Hits(lists) + l
  {
    assert (lists + [l])[..|lists|] == lists;
  }

  /**
   A search during which the indexer adds documents: `arrivals[i]` come in just before the i-th lookup. The answer
   is one over lists of which the i-th is the scan of the first `cuts[i]` documents, and the cuts only grow.
   */
  method SearchWhileIndexing(query: string, idx: InvertedIndex, ghost docs0: seq<Document>, arrivals: seq<seq<Document>>, topK: int, mode: SortBy)
    returns (results: seq<SearchResult>, ghost docs: seq<Document>, ghost cuts: seq<nat>)
    requires |arrivals| == |Tokens(idx.al, query)| && forall t :: idx.At(t) == Scan(idx.al, docs0, t)
    modifies idx
    ensures docs0 <= docs && forall t :: idx.At(t) == Scan(idx.al, docs, t)
    ensures |cuts| == |Tokens(idx.al, query)|
    ensures forall i :: 0 <= i < |cuts| ==> |docs0| <= cuts[i] <= |docs|
    ensures forall i, j :: 0 <= i < j < |cuts| ==> cuts[i] <= cuts[j]
    ensures Answer(Hits(ListsAcross(idx.al, docs, Tokens(idx.al, query), cuts)), topK, mode, results)
  {
    hide *;
    var tokens := Tokenize(idx.al, query);
    var scores: map<string, DocInfo> := map[];
    ghost var lists: seq<seq<Posting>> := [];
    docs, cuts := docs0, [];
    NothingTallied();
    LookedUpNone(idx.al, |docs0|, docs, tokens);
    for i := 0 to |tokens|
      invariant docs0 <= docs && forall t :: idx.At(t) == Scan(idx.al, docs, t)
      invariant |cuts| == i && LookedUp(idx.al, |docs0|, docs, tokens, cuts, lists)
      invariant Tallied(scores, Hits(lists))
    {
      ghost var before := docs;
      docs := AddAll(idx, docs, arrivals[i]);
      LookedUpStep(idx.al, |docs0|, before, arrivals[i], tokens, cuts, lists);
      var postings := idx.Lookup(tokens[i]);
      scores := Accumulate(scores, Hits(lists), postings);
      HitsStep(lists, postings);
      lists, cuts := lists + [postings], cuts + [|docs|];
    }
    LookedUpAll(idx.al, |docs0|, docs, tokens, cuts, lists);
    LookedUpCuts(idx.al, |docs0|, docs, tokens, cuts, lists);
    var collected := Collect(scores, Hits(lists));
    results := Rank(collected, Hits(lists), topK, mode);
  }

  lemma NothingTallied()
    ensures Tallied(map[], Hits([]))
  {}

  lemma LookedUpNone(al: Alphabet, floor: nat, docs: seq<Document>, tokens: seq<string>)
    ensures LookedUp(al, floor, docs, tokens, [], [])
  {}

  lemma LookedUpCuts(al: Alphabet, floor: nat, docs: seq<Document>, tokens: seq<string>, cuts: seq<nat>, lists: seq<seq<Posting>>)
    requires LookedUp(al, floor, docs, tokens, cuts, lists)
    ensures forall i :: 0 <= i < |cuts| ==> floor <= cuts[i] <= |docs|
    ensures forall i, j :: 0 <= i < j < |cuts| ==> cuts[i] <= cuts[j]
  {}

  method AddAll(idx: InvertedIndex, ghost docs0: seq<Document>, more: seq<Document>) returns (ghost docs: seq<Document>)
    requires forall t :: idx.At(t) == Scan(idx.al, docs0, t)
    modifies idx
    ensures docs == docs0 + more && forall t :: idx.At(t) == Scan(idx.al, docs, t)
  {
    docs := docs0;
    for i := 0 to |more|
      invariant docs == docs0 + more[..i] && forall t :: idx.At(t) == Scan(idx.al, docs, t)
    {
      idx.AddDocument(more[i]);
      forall t ensures idx.At(t) == Scan(idx.al, docs + [more[i]], t) {
        ScanStep(idx.al, docs, more[i], t);
      }
      docs := docs + [more[i]];
    }
  }
}
