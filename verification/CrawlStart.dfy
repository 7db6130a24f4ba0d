/**
 A whole crawl on the object: what every schedule of the step system ends with, the object ends with.
 */
module CrawlStart {
  import opened Options
  import opened CrawlTypes
  import opened CrawlSystem
  import opened CrawlSession
  import opened CrawlOnce
  import opened CrawlCoverage
  import opened CrawlOutcome
  import opened CrawlShutdown

  /** A fresh crawl run to its end without cancellation: its counters agree, and no URL was fetched twice. */
  method Crawl(cfg: Config, web: Web, seeds: seq<Url>, schedule: seq<Action>) returns (c: Session)
    requires cfg.numWorkers >= 1 && cfg.queueSize >= 1
    requires DistinctSeeds(seeds) && (cfg.maxURLs > 0 ==> |seeds| <= cfg.maxURLs)
    requires RanToEnd(FreshParams(cfg, web, seeds), schedule)
    requires After(FreshParams(cfg, web, seeds), schedule).value.coord.phase.Finished?
    ensures c.pagesQueued == c.pagesProcessed == |c.visited| == c.indexedDocs + c.pagesErrored && c.indexedDocs == |c.docs|
    ensures DistinctUrls(c.hist.fetched) && Urls(c.hist.fetched) <= c.visited
    ensures cfg.hasDb ==> c.stored == c.visited - set u | u in seeds
  {
    ghost var p := FreshParams(cfg, web, seeds);
    c := new Session(cfg, web, seeds, None, NO_COUNTS);
    c.RunSchedule(schedule);
    SeedsMakeFreshStart(cfg, web, seeds);
    FinalAccounting(p, schedule);
    AtMostOneFetch(p, schedule);
    FetchedInHand(c.View());
    if cfg.hasDb {
      StoredTracksVisited(p, schedule);
    }
  }
}
