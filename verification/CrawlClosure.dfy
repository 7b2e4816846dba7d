/** The stored URLs of a crawl are the least closed set, and at rest the reachable pages. */
module CrawlClosure {
  import opened Wrappers
  import opened CrawlTypes
  import opened JobRules
  import opened CoordinatorSpec
  import opened LinkClosure
  import opened Crawl

  /** Seeds read so far are stored, and followed links are stored or in `pending`. */
  ghost predicate Covers(cfg: JobConfig, s: Sys, pending: set<Url>) {
    && (forall u :: u in s.seeded ==> u in s.core.store)
    && (forall r, l :: r in s.log && Follows(cfg, r, l) ==> l in s.core.store || l in pending)
  }

  /** Pending URLs are followed links of pages that are stored. */
  ghost predicate Sourced(cfg: JobConfig, s: Sys, pending: set<Url>) {
    forall l :: l in pending ==> exists r :: r in s.log && r.url in s.core.store && Follows(cfg, r, l)
  }

  /** Every stored URL lies in every closed set. */
  ghost predicate Grounded(cfg: JobConfig, seeds: seq<Url>, s: Sys) {
    forall found :: Closed(cfg, seeds, s.log, found) ==> Within(s.core.store.Keys, found)
  }

  ghost predicate Spans(cfg: JobConfig, seeds: seq<Url>, s: Sys, pending: set<Url>) {
    s.seeded + s.todo == seeds && Covers(cfg, s, pending) && Sourced(cfg, s, pending) && Grounded(cfg, seeds, s)
  }

  /** The links halted calls are going to look up. */
  function HaltedLinks(halted: seq<Halted>): set<Url> {
    if halted == [] then {} else HaltedLinks(halted[..|halted| - 1]) + halted[|halted| - 1].links
  }

  lemma HaltedLinksAppend(halted: seq<Halted>, call: Halted)
    ensures HaltedLinks(halted + [call]) == HaltedLinks(halted) + call.links
  {
    assert (halted + [call])[..|halted|] == halted;
  }

  lemma {:induction false} HaltedLinksWithout(halted: seq<Halted>, k: nat)
    requires k < |halted|
    ensures HaltedLinks(halted) == HaltedLinks(halted[..k] + halted[k + 1..]) + halted[k].links
  {
    var n := |halted| - 1;
    if k == n {
      assert halted[..k] + halted[k + 1..] == halted[..n];
    } else {
      HaltedLinksWithout(halted[..n], k);
      assert halted[..n][..k] + halted[..n][k + 1..] + [halted[n]] == halted[..k] + halted[k + 1..];
      HaltedLinksAppend(halted[..n][..k] + halted[..n][k + 1..], halted[n]);
    }
  }

  /** Pending links may be dropped once stored, and stored ones added. */
  lemma Respan(cfg: JobConfig, seeds: seq<Url>, s: Sys, pending: set<Url>, pending': set<Url>)
    requires Spans(cfg, seeds, s, pending) && pending' <= pending
    requires forall u :: u in pending ==> u in pending' || u in s.core.store
    ensures Spans(cfg, seeds, s, pending')
  {
  }

  /** Spanning looks at the seeds, the results and the stored URLs only. */
  lemma SameSpans(cfg: JobConfig, seeds: seq<Url>, s: Sys, t: Sys, pending: set<Url>)
    requires Spans(cfg, seeds, s, pending)
    requires t.seeded == s.seeded && t.todo == s.todo && t.log == s.log && t.core.store.Keys == s.core.store.Keys
    ensures Spans(cfg, seeds, t, pending)
  {
    assert forall u :: u in t.core.store <==> u in t.core.store.Keys;
    assert forall u :: u in s.core.store <==> u in s.core.store.Keys;
  }

  lemma DequeueKeepsKeys(cfg: JobConfig, s: Sys, r: Resource)
    requires r.url in s.core.store
    ensures OnDequeue(cfg, s, r).core.store.Keys == s.core.store.Keys
  {
  }

  lemma DequeueSpans(cfg: JobConfig, seeds: seq<Url>, s: Sys, r: Resource, pending: set<Url>)
    requires Spans(cfg, seeds, s, pending) && r.url in s.core.store && r.jobID == cfg.id
    ensures Spans(cfg, seeds, OnDequeue(cfg, s, r), pending + LinksOf(cfg, [r]))
  {
    var t := OnDequeue(cfg, s, r);
    DequeueKeepsKeys(cfg, s, r);
    assert r in [r] && r in t.log && r.url in t.core.store;
    forall found | Closed(cfg, seeds, t.log, found)
      ensures Within(t.core.store.Keys, found)
    {
      assert Closed(cfg, seeds, s.log, found);
    }
    forall x, l | x in t.log && Follows(cfg, x, l)
      ensures l in t.core.store || l in pending + LinksOf(cfg, [r])
    {
      assert x in s.log || x == r;
    }
    forall l | l in pending + LinksOf(cfg, [r])
      ensures exists x :: x in t.log && x.url in t.core.store && Follows(cfg, x, l)
    {
      if l in pending {
        var x :| x in s.log && x.url in s.core.store && Follows(cfg, x, l);
        assert x in t.log;
      } else {
        assert Follows(cfg, r, l);
      }
    }
  }

  lemma {:induction false} DequeuesSpan(cfg: JobConfig, seeds: seq<Url>, s: Sys, rscs: seq<Resource>, pending: set<Url>)
    requires Spans(cfg, seeds, s, pending)
    requires forall r :: r in rscs ==> r.jobID == cfg.id && r.url in s.core.store
    ensures Spans(cfg, seeds, OnDequeues(cfg, s, rscs), pending + LinksOf(cfg, rscs))
    ensures OnDequeues(cfg, s, rscs).core.store.Keys == s.core.store.Keys
    ensures OnDequeues(cfg, s, rscs).halted == s.halted
  {
    if rscs == [] {
      assert pending + LinksOf(cfg, rscs) == pending;
    } else {
      var init, r := rscs[..|rscs| - 1], rscs[|rscs| - 1];
      assert forall x :: x in rscs <==> x in init || x == r;
      DequeuesSpan(cfg, seeds, s, init, pending);
      DequeueSpans(cfg, seeds, OnDequeues(cfg, s, init), r, pending + LinksOf(cfg, init));
      DequeueKeepsKeys(cfg, OnDequeues(cfg, s, init), r);
      assert pending + LinksOf(cfg, rscs) == pending + LinksOf(cfg, init) + LinksOf(cfg, [r]);
    }
  }

  lemma LinkSpans(cfg: JobConfig, seeds: seq<Url>, s: Sys, u: Url, pending: set<Url>)
    requires Spans(cfg, seeds, s, pending) && u in pending
    ensures Spans(cfg, seeds, OnLink(cfg, s, u), pending)
    ensures OnLink(cfg, s, u).core.store.Keys == s.core.store.Keys + {u}
    ensures OnLink(cfg, s, u).halted == s.halted
  {
    var t := OnLink(cfg, s, u);
    forall found | Closed(cfg, seeds, t.log, found)
      ensures Within(t.core.store.Keys, found)
    {
      assert Within(s.core.store.Keys, found);
      var r :| r in s.log && r.url in s.core.store && Follows(cfg, r, u);
    }
    forall l | l in pending
      ensures exists x :: x in t.log && x.url in t.core.store && Follows(cfg, x, l)
    {
      var x :| x in s.log && x.url in s.core.store && Follows(cfg, x, l);
      assert x in t.log && x.url in t.core.store;
    }
  }

  lemma {:induction false} LinksSpan(cfg: JobConfig, seeds: seq<Url>, s: Sys, order: seq<Url>, pending: set<Url>)
    requires Spans(cfg, seeds, s, pending)
    requires forall u :: u in order ==> u in pending
    ensures Spans(cfg, seeds, OnLinks(cfg, s, order), pending)
    ensures forall u :: u in order ==> u in OnLinks(cfg, s, order).core.store
    ensures OnLinks(cfg, s, order).halted == s.halted
  {
    if order != [] {
      var init, u := order[..|order| - 1], order[|order| - 1];
      LinksSpan(cfg, seeds, s, init, pending);
      LinkSpans(cfg, seeds, OnLinks(cfg, s, init), u, pending);
    }
  }

  /** The results a call gets to look at. */
  lemma TakenSpan(cfg: JobConfig, seeds: seq<Url>, s: Sys, rscs: seq<Resource>, links: set<Url>)
    requires Spans(cfg, seeds, s, HaltedLinks(s.halted) + links)
    requires forall r :: r in rscs ==> r.jobID == cfg.id && r.url in s.core.store
    ensures var n := Taken(cfg, |s.boxes|, s.core, rscs);
            var t := OnDequeues(cfg, s, rscs[..n]);
            && t.halted == s.halted
            && Spans(cfg, seeds, t, HaltedLinks(s.halted) + CallAfter(cfg, |s.boxes|, s.core, rscs, links).links)
  {
    var n := Taken(cfg, |s.boxes|, s.core, rscs);
    assert forall r :: r in rscs[..n] ==> r in rscs;
    DequeuesSpan(cfg, seeds, s, rscs[..n], HaltedLinks(s.halted) + links);
    assert HaltedLinks(s.halted) + links + LinksOf(cfg, rscs[..n])
        == HaltedLinks(s.halted) + (links + LinksOf(cfg, rscs[..n]));
  }

  /** The links of a call that does not halt. */
  lemma LinksFinish(cfg: JobConfig, seeds: seq<Url>, t: Sys, links: set<Url>, order: seq<Url>)
    requires Spans(cfg, seeds, t, HaltedLinks(t.halted) + links) && Lists(order, links)
    ensures Spans(cfg, seeds, OnLinks(cfg, t, order), HaltedLinks(t.halted))
    ensures OnLinks(cfg, t, order).halted == t.halted
  {
    LinksSpan(cfg, seeds, t, order, HaltedLinks(t.halted) + links);
    Respan(cfg, seeds, OnLinks(cfg, t, order), HaltedLinks(t.halted) + links, HaltedLinks(t.halted));
  }

  /** A call keeps the span, whether it runs through or halts. */
  lemma CallSpans(cfg: JobConfig, seeds: seq<Url>, s: Sys, rscs: seq<Resource>, links: set<Url>, order: seq<Url>)
    requires Spans(cfg, seeds, s, HaltedLinks(s.halted) + links)
    requires forall r :: r in rscs ==> r.jobID == cfg.id && r.url in s.core.store
    requires Lists(order, links + LinksOf(cfg, rscs))
    ensures var t := OnCall(cfg, s, rscs, links, order); Spans(cfg, seeds, t, HaltedLinks(t.halted))
  {
    var call := CallAfter(cfg, |s.boxes|, s.core, rscs, links);
    var t := OnDequeues(cfg, s, rscs[..Taken(cfg, |s.boxes|, s.core, rscs)]);
    TakenSpan(cfg, seeds, s, rscs, links);
    if call.turn == Goes {
      assert rscs[..|rscs|] == rscs;
      LinksFinish(cfg, seeds, t, call.links, order);
    } else {
      HaltedLinksAppend(s.halted, call);
      SameSpans(cfg, seeds, t, t.(halted := t.halted + [call]), HaltedLinks(s.halted) + call.links);
    }
  }

  lemma SeedSpans(cfg: JobConfig, seeds: seq<Url>, s: Sys, pending: set<Url>)
    requires Spans(cfg, seeds, s, pending) && s.todo != []
    ensures Spans(cfg, seeds, OnSeed(cfg, s), pending)
  {
    var t := OnSeed(cfg, s);
    assert t.seeded + t.todo == seeds;
    forall found | Closed(cfg, seeds, t.log, found)
      ensures Within(t.core.store.Keys, found)
    {
      assert Within(s.core.store.Keys, found);
      assert s.todo[0] == seeds[|s.seeded|];
    }
  }

  lemma ResumeSpans(cfg: JobConfig, seeds: seq<Url>, s: Sys, k: nat, order: seq<Url>)
    requires Inv(cfg, s) && Spans(cfg, seeds, s, HaltedLinks(s.halted)) && Enabled(cfg, s, Resume(k, order))
    ensures var t := Next(cfg, s, Resume(k, order)); Spans(cfg, seeds, t, HaltedLinks(t.halted))
  {
    var t, call := Freed(s, k), s.halted[k];
    FreedKeeps(cfg, s, k);
    MayReportAnswers(t, call.rest);
    AnswersAreKnown(cfg, t, call.rest);
    HaltedLinksWithout(s.halted, k);
    SameSpans(cfg, seeds, s, t, HaltedLinks(s.halted));
    CallSpans(cfg, seeds, t, call.rest, call.links, order);
  }

  lemma CompleteSpans(cfg: JobConfig, seeds: seq<Url>, s: Sys, rscs: seq<Resource>, order: seq<Url>)
    requires Inv(cfg, s) && Spans(cfg, seeds, s, HaltedLinks(s.halted)) && Enabled(cfg, s, Complete(rscs, order))
    ensures var t := Next(cfg, s, Complete(rscs, order)); Spans(cfg, seeds, t, HaltedLinks(t.halted))
  {
    MayReportAnswers(s, rscs);
    AnswersAreKnown(cfg, s, rscs);
    assert HaltedLinks(s.halted) + {} == HaltedLinks(s.halted);
    assert {} + LinksOf(cfg, rscs) == LinksOf(cfg, rscs);
    CallSpans(cfg, seeds, s, rscs, {}, order);
  }

  lemma {:induction false} RunSpans(cfg: JobConfig, seeds: seq<Url>, handlers: nat, run: seq<Event>)
    requires Legal(cfg, Init(seeds, handlers), run)
    ensures var t := After(cfg, Init(seeds, handlers), run); Spans(cfg, seeds, t, HaltedLinks(t.halted))
  {
    if run != [] {
      var init := run[..|run| - 1];
      var s, e := After(cfg, Init(seeds, handlers), init), run[|run| - 1];
      RunSpans(cfg, seeds, handlers, init);
      match e
      case Seed => SeedSpans(cfg, seeds, s, HaltedLinks(s.halted));
      case Complete(rscs, order) =>
        RunKeeps(cfg, seeds, handlers, init);
        CompleteSpans(cfg, seeds, s, rscs, order);
      case Resume(k, order) =>
        RunKeeps(cfg, seeds, handlers, init);
        ResumeSpans(cfg, seeds, s, k, order);
      case _ => SameSpans(cfg, seeds, s, Next(cfg, s, e), HaltedLinks(s.halted));
    }
  }

  /** Crawl closure: in every state with all seeds read, the store holds exactly the least set that
      contains the seeds and is closed under the candidate links of the results taken back so far, if
      and only if no call blocked by a shutdown holds a link that is not stored. Before a shutdown
      there is no such call. */
  lemma StoreIsLeastClosedIff(cfg: JobConfig, seeds: seq<Url>, handlers: nat, run: seq<Event>)
    requires Legal(cfg, Init(seeds, handlers), run)
    requires After(cfg, Init(seeds, handlers), run).todo == []
    ensures var t := After(cfg, Init(seeds, handlers), run);
            && (LeastClosed(cfg, seeds, t.log, t.core.store.Keys)
                <==> forall k, u :: 0 <= k < |t.halted| && u in t.halted[k].links ==> u in t.core.store)
            && (!t.core.stopping ==> t.halted == [])
  {
    RunSpans(cfg, seeds, handlers, run);
    RunKeeps(cfg, seeds, handlers, run);
    var t := After(cfg, Init(seeds, handlers), run);
    assert t.seeded == seeds;
    HaltedLinksAre(t.halted);
    ClosedIffNoneLeft(cfg, seeds, t, HaltedLinks(t.halted));
  }

  lemma {:induction false} HaltedLinksAre(halted: seq<Halted>)
    ensures forall u :: u in HaltedLinks(halted) <==> exists k :: 0 <= k < |halted| && u in halted[k].links
  {
    if halted != [] {
      var init := halted[..|halted| - 1];
      HaltedLinksAre(init);
      forall u | u in HaltedLinks(halted)
        ensures exists k :: 0 <= k < |halted| && u in halted[k].links
      {
        if u in HaltedLinks(init) {
          var k :| 0 <= k < |init| && u in init[k].links;
          assert u in halted[k].links;
        }
      }
      forall u, k | 0 <= k < |halted| && u in halted[k].links
        ensures u in HaltedLinks(halted)
      {
        if k < |init| {
          assert u in init[k].links;
        }
      }
    }
  }

  lemma ClosedIffNoneLeft(cfg: JobConfig, seeds: seq<Url>, t: Sys, pending: set<Url>)
    requires Spans(cfg, seeds, t, pending) && t.seeded == seeds
    ensures LeastClosed(cfg, seeds, t.log, t.core.store.Keys) <==> forall u :: u in pending ==> u in t.core.store
  {
    var keys := iset u | u in t.core.store.Keys;
    if forall u :: u in pending ==> u in t.core.store {
      forall u | u in seeds
        ensures u in keys
      {
        assert u in t.seeded;
      }
    }
    if Closed(cfg, seeds, t.log, keys) {
      forall u | u in pending
        ensures u in t.core.store
      {
        var r :| r in t.log && r.url in t.core.store && Follows(cfg, r, u);
        assert r.url in keys;
        assert u in keys;
      }
    }
  }

  /** One more report, over a coordinator that is drained and stopping, leaves its link behind. */
  lemma LinkIsLeftBehind(cfg: JobConfig, seed: Url, u: Url, run: seq<Event>, r: Resource)
    requires cfg.crawl && Candidate(cfg, u) && r.links == [u] && OkStatus(r.status) && EntryOf(r) == Entry(cfg.id, seed)
    requires Legal(cfg, Init([seed], 0), run)
    requires var t := After(cfg, Init([seed], 0), run);
             && Stalls(t.core) && seed in t.core.store && u !in t.core.store
             && t.todo == [] && t.halted == [] && t.inFlight == multiset{Entry(cfg.id, seed)}
    ensures Legal(cfg, Init([seed], 0), run + [Complete([r], [u])])
    ensures var t := After(cfg, Init([seed], 0), run + [Complete([r], [u])]);
            t.todo == [] && !LeastClosed(cfg, [seed], t.log, t.core.store.Keys)
  {
    var s, e := Init([seed], 0), Complete([r], [u]);
    LinksOfOne(cfg, r, u);
    OneReport(r, Entry(cfg.id, seed), After(cfg, s, run));
    OneHalts(cfg, After(cfg, s, run), r, [u]);
    AfterOneMore(cfg, s, run, e);
    StoreIsLeastClosedIff(cfg, [seed], 0, run + [e]);
    assert u in After(cfg, s, run + [e]).halted[0].links;
  }

  /** The condition can fail: shut down over an empty queue, a crawl leaves the links of the next page it
      takes back unvisited. */
  lemma HaltedCallsLeaveLinksBehind(cfg: JobConfig, seed: Url, u: Url)
    requires cfg.crawl && Candidate(cfg, u) && u != seed
    ensures exists run :: Legal(cfg, Init([seed], 0), run)
              && var t := After(cfg, Init([seed], 0), run);
                 t.todo == [] && !LeastClosed(cfg, [seed], t.log, t.core.store.Keys)
  {
    var run := StoppedWithOneInFlight(cfg, seed);
    LinkIsLeftBehind(cfg, seed, u, run, Resource(cfg.id, seed, 200, [u], ""));
  }

  lemma StoppedWithOneInFlight(cfg: JobConfig, seed: Url) returns (run: seq<Event>)
    ensures Legal(cfg, Init([seed], 0), run)
    ensures var t := After(cfg, Init([seed], 0), run);
            && Stalls(t.core) && t.core.store.Keys == {seed}
            && t.todo == [] && t.halted == [] && t.inFlight == multiset{Entry(cfg.id, seed)}
  {
    var prior := SeedAndPop(cfg, seed, 0);
    AfterOneMore(cfg, Init([seed], 0), prior, Stop);
    run := prior + [Stop];
  }

  lemma LinksOfOne(cfg: JobConfig, r: Resource, u: Url)
    requires cfg.crawl && Candidate(cfg, u) && r.links == [u] && r.jobID == cfg.id
    ensures LinksOf(cfg, [r]) == {u}
  {
    assert r in [r];
  }

  lemma OneReport(r: Resource, e: Entry, t: Sys)
    requires EntryOf(r) == e && t.halted == [] && t.inFlight == multiset{e}
    ensures MayReport(t, [r])
  {
    assert [r][..0] == [];
  }

  /** A successful result over a drained, stopping coordinator halts its call with its links in hand. */
  lemma OneHalts(cfg: JobConfig, t: Sys, r: Resource, order: seq<Url>)
    requires Stalls(t.core) && OkStatus(r.status) && r.jobID == cfg.id && t.halted == [] && r.url in t.core.store
    ensures var t' := Next(cfg, t, Complete([r], order));
            && |t'.halted| == 1 && t'.halted[0].links == LinksOf(cfg, [r])
            && t'.core.store.Keys == t.core.store.Keys && t'.todo == t.todo
  {
    assert [r][..0] == [] && [r][..1] == [r];
    assert DequeueAll(cfg, |t.boxes|, t.core, []) == t.core;
    assert Course(cfg, |t.boxes|, t.core, []) == Goes;
    assert TurnOf(cfg, |t.boxes|, t.core, r) == Waits;
    assert OnDequeues(cfg, t, []) == t;
    assert OnDequeues(cfg, t, [r]) == OnDequeue(cfg, t, r);
    DequeueKeepsKeys(cfg, t, r);
    assert {} + LinksOf(cfg, [r]) == LinksOf(cfg, [r]);
  }

  lemma {:induction false} CompletedIsAnswered(log: seq<Resource>, e: Entry)
    requires Completions(log, e) > 0
    ensures Answered(log, e.url)
  {
    if EntryOf(log[|log| - 1]) != e {
      CompletedIsAnswered(log[..|log| - 1], e);
    }
  }

  /** With nothing queued, in flight or lost, and no shutdown, every stored URL has been answered. */
  lemma AtRestAllAnswered(cfg: JobConfig, s: Sys)
    requires Inv(cfg, s) && AllOutstanding(s) == 0 && !s.core.stopping
    ensures forall u :: u in s.core.store ==> Answered(s.log, u)
  {
    forall u | u in s.core.store
      ensures Answered(s.log, u)
    {
      assert Entry(cfg.id, u) in s.pushes;
      CompletedIsAnswered(s.log, Entry(cfg.id, u));
    }
  }

  /** A crawl of a fixed link graph that comes to rest undisturbed has stored exactly the pages
      reachable from the seeds. */
  lemma CrawlFindsTheReachablePages(
    cfg: JobConfig, graph: Url -> set<Url>, seeds: seq<Url>, handlers: nat, run: seq<Event>)
    requires cfg.crawl && Legal(cfg, Init(seeds, handlers), run)
    requires var t := After(cfg, Init(seeds, handlers), run);
             t.todo == [] && AllOutstanding(t) == 0 && !t.core.stopping && Reports(graph, t.log)
    ensures forall u :: u in After(cfg, Init(seeds, handlers), run).core.store <==> Reachable(cfg, graph, seeds, u)
  {
    var t := After(cfg, Init(seeds, handlers), run);
    RunKeeps(cfg, seeds, handlers, run);
    StoreIsLeastClosedIff(cfg, seeds, handlers, run);
    AtRestAllAnswered(cfg, t);
    LeastClosedIsReachable(cfg, graph, seeds, t.log, t.core.store.Keys);
  }

  /** A job that is not to crawl fetches its seeds and follows no link. */
  lemma WithoutCrawlingOnlySeedsAreStored(cfg: JobConfig, seeds: seq<Url>, handlers: nat, run: seq<Event>)
    requires !cfg.crawl && Legal(cfg, Init(seeds, handlers), run)
    requires var t := After(cfg, Init(seeds, handlers), run); t.todo == [] && !t.core.stopping
    ensures forall u :: u in After(cfg, Init(seeds, handlers), run).core.store <==> u in seeds
  {
    var t := After(cfg, Init(seeds, handlers), run);
    StoreIsLeastClosedIff(cfg, seeds, handlers, run);
    var found := iset u | u in seeds;
    assert Closed(cfg, seeds, t.log, found);
    assert Within(t.core.store.Keys, found);
    assert Closed(cfg, seeds, t.log, iset u | u in t.core.store.Keys);
  }
}
