/** What a crawl is supposed to find: the least set that contains the seeds and is closed under the
    candidate links of the pages in it, and, for a fixed link graph, everything reachable. */
module LinkClosure {
  import opened CrawlTypes
  import opened JobRules

  /** `l` is a link of `r` that a crawling job follows. */
  ghost predicate Follows(cfg: JobConfig, r: Resource, l: Url) {
    cfg.crawl && l in r.links && Candidate(cfg, l)
  }

  ghost predicate Closed(cfg: JobConfig, seeds: seq<Url>, log: seq<Resource>, found: iset<Url>) {
    && (forall u :: u in seeds ==> u in found)
    && (forall r, l :: r in log && r.url in found && Follows(cfg, r, l) ==> l in found)
  }

  ghost predicate Within(keys: set<Url>, found: iset<Url>) {
    forall u :: u in keys ==> u in found
  }

  /** `keys` is the least set that contains the seeds and is closed under the links of the results in `log`. */
  ghost predicate LeastClosed(cfg: JobConfig, seeds: seq<Url>, log: seq<Resource>, keys: set<Url>) {
    && Closed(cfg, seeds, log, iset u | u in keys)
    && forall found :: Closed(cfg, seeds, log, found) ==> Within(keys, found)
  }

  /** A path through the link graph `graph` from a seed, following candidate links only. */
  ghost predicate Path(cfg: JobConfig, graph: Url -> set<Url>, seeds: seq<Url>, path: seq<Url>) {
    && path != []
    && path[0] in seeds
    && forall i :: 0 < i < |path| ==> path[i] in graph(path[i - 1]) && Candidate(cfg, path[i])
  }

  ghost predicate Reachable(cfg: JobConfig, graph: Url -> set<Url>, seeds: seq<Url>, u: Url) {
    exists path :: Path(cfg, graph, seeds, path) && path[|path| - 1] == u
  }

  /** Every result for a page reports the links `graph` gives it. */
  ghost predicate Reports(graph: Url -> set<Url>, log: seq<Resource>) {
    forall r, l :: r in log ==> (l in r.links <==> l in graph(r.url))
  }

  ghost predicate Answered(log: seq<Resource>, u: Url) {
    exists r :: r in log && r.url == u
  }

  lemma {:induction false} PathsStayInside(
    cfg: JobConfig, graph: Url -> set<Url>, seeds: seq<Url>, log: seq<Resource>, keys: set<Url>, path: seq<Url>)
    requires cfg.crawl && LeastClosed(cfg, seeds, log, keys) && Reports(graph, log)
    requires forall u :: u in keys ==> Answered(log, u)
    requires Path(cfg, graph, seeds, path)
    ensures path[|path| - 1] in keys
  {
    if |path| > 1 {
      var prior := path[..|path| - 1];
      PathsStayInside(cfg, graph, seeds, log, keys, prior);
      var r :| r in log && r.url == prior[|prior| - 1];
      assert Follows(cfg, r, path[|path| - 1]);
    }
  }

  lemma SeedIsReachable(cfg: JobConfig, graph: Url -> set<Url>, seeds: seq<Url>, u: Url)
    requires u in seeds
    ensures Reachable(cfg, graph, seeds, u)
  {
    var path := [u];
    assert Path(cfg, graph, seeds, path) && path[|path| - 1] == u;
  }

  lemma LinkIsReachable(cfg: JobConfig, graph: Url -> set<Url>, seeds: seq<Url>, u: Url, l: Url)
    requires Reachable(cfg, graph, seeds, u) && l in graph(u) && Candidate(cfg, l)
    ensures Reachable(cfg, graph, seeds, l)
  {
    var path :| Path(cfg, graph, seeds, path) && path[|path| - 1] == u;
    var longer := path + [l];
    assert Path(cfg, graph, seeds, longer) && longer[|longer| - 1] == l;
  }

  lemma ReachedIsClosed(cfg: JobConfig, graph: Url -> set<Url>, seeds: seq<Url>, log: seq<Resource>)
    requires Reports(graph, log)
    ensures Closed(cfg, seeds, log, iset u | Reachable(cfg, graph, seeds, u))
  {
    var reached := iset u | Reachable(cfg, graph, seeds, u);
    forall u | u in seeds
      ensures u in reached
    {
      SeedIsReachable(cfg, graph, seeds, u);
    }
    forall r, l | r in log && r.url in reached && Follows(cfg, r, l)
      ensures l in reached
    {
      LinkIsReachable(cfg, graph, seeds, r.url, l);
    }
  }

  /** Once every found page has been answered, the least closed set is the set of reachable pages. */
  lemma LeastClosedIsReachable(
    cfg: JobConfig, graph: Url -> set<Url>, seeds: seq<Url>, log: seq<Resource>, keys: set<Url>)
    requires cfg.crawl && LeastClosed(cfg, seeds, log, keys) && Reports(graph, log)
    requires forall u :: u in keys ==> Answered(log, u)
    ensures forall u :: u in keys <==> Reachable(cfg, graph, seeds, u)
  {
    var reached := iset u | Reachable(cfg, graph, seeds, u);
    ReachedIsClosed(cfg, graph, seeds, log);
    assert Within(keys, reached);
    forall u | Reachable(cfg, graph, seeds, u)
      ensures u in keys
    {
      var path :| Path(cfg, graph, seeds, path) && path[|path| - 1] == u;
      PathsStayInside(cfg, graph, seeds, log, keys, path);
    }
  }
}
