/**
 The values that travel through a crawl, and the link graph they walk on.
 A web is a fixed function from URLs to pages; a page that cannot be fetched has no links.
 */
module CrawlTypes {

  type Url = string

  datatype CrawlTask = CrawlTask(url: Url, originUrl: Url, depth: int)

  datatype Page = Unfetchable | Fetched(title: string, bodyText: string, links: seq<Url>)

  type Web = Url -> Page

  /** What a worker reports about one page; `failed` stands for a non-empty error text. */
  datatype PageRecord = PageRecord(url: Url, originUrl: Url, depth: int,
                                   title: string, bodyText: string, links: seq<Url>, failed: bool)

  function LinksOf(web: Web, u: Url): seq<Url> {
    if web(u).Fetched? then web(u).links else []
  }

  /** The task a record answers. */
  function TaskOf(r: PageRecord): CrawlTask {
    CrawlTask(r.url, r.originUrl, r.depth)
  }

  /** The record of a fetch that runs to its end. */
  function RecordOf(web: Web, t: CrawlTask): (r: PageRecord)
    ensures TaskOf(r) == t && r.links == LinksOf(web, t.url) && (r.failed <==> web(t.url).Unfetchable?)
    ensures web(t.url).Fetched? ==> r.title == web(t.url).title && r.bodyText == web(t.url).bodyText
  {
    match web(t.url)
    case Unfetchable => FailedRecord(t)
    case Fetched(title, body, links) => PageRecord(t.url, t.originUrl, t.depth, title, body, links, false)
  }

  /** The record of a fetch that ends in an error. */
  function FailedRecord(t: CrawlTask): (r: PageRecord)
    ensures TaskOf(r) == t && r.links == [] && r.failed && r.title == r.bodyText == ""
  {
    PageRecord(t.url, t.originUrl, t.depth, "", "", [], true)
  }

  /** One new task per link, one level deeper, in link order. */
  function LinkTasks(t: CrawlTask, links: seq<Url>): (b: seq<CrawlTask>)
    ensures |b| == |links|
    ensures forall i :: 0 <= i < |b| ==> b[i] == CrawlTask(links[i], t.url, t.depth + 1)
  {
    seq(|links|, i requires 0 <= i < |links| => CrawlTask(links[i], t.url, t.depth + 1))
  }

  /** The batch a worker sends after reporting `r`. */
  function BatchOf(r: PageRecord): seq<CrawlTask> {
    LinkTasks(TaskOf(r), r.links)
  }

  function Urls(ts: seq<CrawlTask>): (us: set<Url>)
    ensures forall t :: t in ts ==> t.url in us
  {
    set t | t in ts :: t.url
  }

  ghost predicate DistinctUrls(ts: seq<CrawlTask>) {
    forall i, j :: 0 <= i < j < |ts| ==> ts[i].url != ts[j].url
  }

  // ---------- Link distance ----------

  function Neighbours(web: Web, us: set<Url>): set<Url> {
    set u, v | u in us && v in LinksOf(web, u) :: v
  }

  /** The URLs at most `d` links away from a root. */
  function Ball(web: Web, roots: set<Url>, d: nat): set<Url> {
    if d == 0 then roots else Ball(web, roots, d - 1) + Neighbours(web, Ball(web, roots, d - 1))
  }

  /** `u` is exactly `d` links away from the nearest root. */
  ghost predicate AtDistance(web: Web, roots: set<Url>, u: Url, d: nat) {
    u in Ball(web, roots, d) && (d > 0 ==> u !in Ball(web, roots, d - 1))
  }

  lemma {:induction false} BallMonotone(web: Web, roots: set<Url>, d: nat, e: nat)
    requires d <= e
    ensures Ball(web, roots, d) <= Ball(web, roots, e)
    decreases e - d
  {
    if d < e {
      BallMonotone(web, roots, d, e - 1);
    }
  }

  lemma BallStep(web: Web, roots: set<Url>, u: Url, v: Url, d: nat)
    requires u in Ball(web, roots, d) && v in LinksOf(web, u)
    ensures v in Ball(web, roots, d + 1)
  {}

  ghost predicate IsPath(web: Web, roots: set<Url>, path: seq<Url>, u: Url) {
    && path != [] && path[0] in roots && path[|path| - 1] == u
    && forall i, j :: 0 <= i < j == i + 1 < |path| ==> path[j] in LinksOf(web, path[i])
  }

  /** A ball is what paths of bounded length reach: the distance above is the usual one. */
  lemma {:induction false} BallIsPaths(web: Web, roots: set<Url>, u: Url, d: nat)
    ensures u in Ball(web, roots, d) <==> exists path :: IsPath(web, roots, path, u) && |path| - 1 <= d
  {
    if u in Ball(web, roots, d) {
      var path := PathInto(web, roots, u, d);
    }
    if path :| IsPath(web, roots, path, u) && |path| - 1 <= d {
      PathStaysInside(web, roots, path, u);
      BallMonotone(web, roots, |path| - 1, d);
    }
  }

  lemma {:induction false} PathInto(web: Web, roots: set<Url>, u: Url, d: nat) returns (path: seq<Url>)
    requires u in Ball(web, roots, d)
    ensures IsPath(web, roots, path, u) && |path| - 1 <= d
    decreases d, 1
  {
    if d == 0 {
      path := [u];
    } else if u in Ball(web, roots, d - 1) {
      path := PathInto(web, roots, u, d - 1);
    } else {
      path := PathThroughLink(web, roots, u, d);
    }
  }

  lemma {:induction false} PathThroughLink(web: Web, roots: set<Url>, u: Url, d: nat) returns (path: seq<Url>)
    requires d > 0 && u in Neighbours(web, Ball(web, roots, d - 1))
    ensures IsPath(web, roots, path, u) && |path| - 1 <= d
    decreases d, 0
  {
    var v := LinkInto(web, Ball(web, roots, d - 1), u);
    var prefix := PathInto(web, roots, v, d - 1);
    path := prefix + [u];
    PathExtends(web, roots, prefix, v, u);
  }

  lemma LinkInto(web: Web, us: set<Url>, u: Url) returns (v: Url)
    requires u in Neighbours(web, us)
    ensures v in us && u in LinksOf(web, v)
  {
    v :| v in us && u in LinksOf(web, v);
  }

  lemma PathExtends(web: Web, roots: set<Url>, path: seq<Url>, v: Url, u: Url)
    requires IsPath(web, roots, path, v) && u in LinksOf(web, v)
    ensures IsPath(web, roots, path + [u], u)
  {
    var longer := path + [u];
    forall i, j | 0 <= i < j == i + 1 < |longer| ensures longer[j] in LinksOf(web, longer[i]) {
      if j < |path| {
        assert path[j] in LinksOf(web, path[i]);
      }
    }
  }

  lemma {:induction false} PathStaysInside(web: Web, roots: set<Url>, path: seq<Url>, u: Url)
    requires IsPath(web, roots, path, u)
    ensures u in Ball(web, roots, |path| - 1)
    decreases |path|
  {
    if |path| > 1 {
      var prefix := path[..|path| - 1];
      var v := prefix[|prefix| - 1];
      PathStaysInside(web, roots, prefix, v);
      assert path[|path| - 1] in LinksOf(web, v);
    }
  }
}
