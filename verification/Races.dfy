/** The promise that a URL is enqueued afresh at most once, under full interleaving: exactly when it holds, and
    how it fails. And a run in which the done scan fires too early; `DoneDetection` says exactly when it does. */
module Races {
  import opened Wrappers
  import opened CrawlTypes
  import opened JobRules
  import opened CoordinatorSpec
  import opened Interleaving
  import opened WorkerContract

  /** The step is a lookup by the loop over links that does not find `u`, and so enqueues it afresh. */
  predicate Misses(s: State, a: Action, u: Url) {
    && a.Run? && a.link == u && a.i < |s.threads|
    && s.threads[a.i].Linking? && s.threads[a.i].links != {} && u !in s.sh.store
  }

  /** How many of the first `k` steps are such lookups. */
  function MissCount(trace: seq<State>, acts: seq<Action>, u: Url, k: nat): nat
    requires |trace| == |acts| + 1 && k <= |acts|
  {
    if k == 0 then 0
    else MissCount(trace, acts, u, k - 1) + if Misses(trace[k - 1], acts[k - 1], u) then 1 else 0
  }

  /** The goroutine has looked `u` up in its loop over links, and has not stored it yet. */
  predicate OnItsWay(sh: Shared, t: Thread, u: Url) {
    (t.Testing? || t.Storing?) && t.next.Linking? && At(sh.heap, t.ref).url == u
  }

  ghost predicate SomeOnTheirWay(s: State, u: Url) {
    exists i :: 0 <= i < |s.threads| && OnItsWay(s.sh, s.threads[i], u)
  }

  /** A goroutine that has looked `u` up stores it next. */
  lemma MoveOnItsWay(cfg: JobConfig, sh: Shared, t: Thread, link: Url, u: Url)
    requires Linked(sh) && Shaped(t) && HoldsBelow(t, |sh.heap|) && Unblocked(sh, t, link)
    ensures var (sh', t') := Move(cfg, sh, t, link);
            && (OnItsWay(sh, t, u) ==> OnItsWay(sh', t', u) || u in sh'.store)
            && (OnItsWay(sh', t', u) ==>
                  OnItsWay(sh, t, u) || (t.Linking? && t.links != {} && link == u && u !in sh.store))
            && (t.Linking? && t.links != {} && link == u && u !in sh.store ==> OnItsWay(sh', t', u))
  {
    MoveAllocates(cfg, sh, t, link);
  }

  /** Before the first miss nobody is on their way with `u`; after it, somebody is or `u` is stored. */
  lemma StepOnItsWay(cfg: JobConfig, s: State, a: Action, u: Url)
    requires Allocated(s) && AllShaped(s) && Enabled(s, a)
    ensures var s' := Next(cfg, s, a);
            && (SomeOnTheirWay(s', u) ==> SomeOnTheirWay(s, u) || Misses(s, a, u))
            && (SomeOnTheirWay(s, u) || u in s.sh.store || Misses(s, a, u) ==>
                  SomeOnTheirWay(s', u) || u in s'.sh.store)
  {
    var s' := Next(cfg, s, a);
    StepAllocates(cfg, s, a);
    if a.Run? {
      MoveOnItsWay(cfg, s.sh, s.threads[a.i], a.link, u);
      forall k | 0 <= k < |s.threads| && k != a.i
        ensures OnItsWay(s'.sh, s'.threads[k], u) <==> OnItsWay(s.sh, s.threads[k], u)
      {
        assert s'.threads[k] == s.threads[k];
      }
      assert s'.threads[a.i] == Move(cfg, s.sh, s.threads[a.i], a.link).1;
    } else {
      assert forall k :: 0 <= k < |s.threads| ==>
        (OnItsWay(s'.sh, s'.threads[k], u) <==> OnItsWay(s.sh, s.threads[k], u));
    }
  }

  lemma {:induction false} MissesAndWays(cfg: JobConfig, trace: seq<State>, acts: seq<Action>, u: Url, k: nat)
    requires IsRun(cfg, trace, acts) && trace[0] == Init() && k <= |acts|
    ensures MissCount(trace, acts, u, k) == 0 ==> !SomeOnTheirWay(trace[k], u)
    ensures MissCount(trace, acts, u, k) > 0 ==> SomeOnTheirWay(trace[k], u) || u in trace[k].sh.store
  {
    if k > 0 {
      MissesAndWays(cfg, trace, acts, u, k - 1);
      RunAllocates(cfg, trace, acts, k - 1);
      StepOnItsWay(cfg, trace[k - 1], acts[k - 1], u);
    }
  }

  lemma {:induction false} MissCountGrows(trace: seq<State>, acts: seq<Action>, u: Url, j: nat, k: nat)
    requires |trace| == |acts| + 1 && j <= k <= |acts|
    ensures MissCount(trace, acts, u, j) <= MissCount(trace, acts, u, k)
    decreases k
  {
    if j < k {
      MissCountGrows(trace, acts, u, j, k - 1);
    }
  }

  /** No lookup misses `u` while another goroutine is on its way with it. */
  ghost predicate LookupsKeepApart(trace: seq<State>, acts: seq<Action>, u: Url)
    requires |trace| == |acts| + 1
  {
    forall k :: 0 <= k < |acts| && Misses(trace[k], acts[k], u) ==> !SomeOnTheirWay(trace[k], u)
  }

  lemma {:induction false} ApartMissesAtMostOnce(
    cfg: JobConfig, trace: seq<State>, acts: seq<Action>, u: Url, k: nat)
    requires IsRun(cfg, trace, acts) && trace[0] == Init() && k <= |acts| && LookupsKeepApart(trace, acts, u)
    ensures MissCount(trace, acts, u, k) <= 1
  {
    if k > 0 {
      ApartMissesAtMostOnce(cfg, trace, acts, u, k - 1);
      MissesAndWays(cfg, trace, acts, u, k - 1);
    }
  }

  /** In every interleaving: the loops over links enqueue a URL afresh at most once if and only if no lookup
      misses it between another's lookup and store. */
  lemma EnqueuedAfreshAtMostOnceIff(cfg: JobConfig, trace: seq<State>, acts: seq<Action>, u: Url)
    requires IsRun(cfg, trace, acts) && trace[0] == Init()
    ensures MissCount(trace, acts, u, |acts|) <= 1 <==> LookupsKeepApart(trace, acts, u)
  {
    if LookupsKeepApart(trace, acts, u) {
      ApartMissesAtMostOnce(cfg, trace, acts, u, |acts|);
    } else {
      var k :| 0 <= k < |acts| && Misses(trace[k], acts[k], u) && SomeOnTheirWay(trace[k], u);
      MissesAndWays(cfg, trace, acts, u, k);
      MissCountGrows(trace, acts, u, k + 1, |acts|);
    }
  }

  // ---------------------------------------------------------------- runs

  /** A goroutine inside `enqueue` runs on until it has pushed. */
  lemma PushRuns(cfg: JobConfig, w0: World, w: World, i: nat) returns (w': World)
    requires Gets(cfg, w0, w) && i < |w.s.threads| && w.s.threads[i].Testing? && !w.s.sh.stopping
    requires w.s.threads[i].ref < |w.s.sh.heap|
    ensures Gets(cfg, w0, w') && w'.out == w.out
    ensures var ref := w.s.threads[i].ref;
            var u := w.s.sh.heap[ref].url;
            && w'.s.threads == w.s.threads[i := Crediting(w.s.threads[i].next)]
            && w'.s.sh == w.s.sh.(heap := w'.s.sh.heap, store := w.s.sh.store[u := ref],
                                  queue := w.s.sh.queue + [ref], pushes := w.s.sh.pushes + [u])
    ensures |w'.s.sh.heap| == |w.s.sh.heap|
    ensures forall k :: 0 <= k < |w.s.sh.heap| ==> w'.s.sh.heap[k].url == w.s.sh.heap[k].url
  {
    GetsOn(cfg, w0, w, Run(i, ""));
    var tested := Step(cfg, w, Run(i, ""));
    GetsOn(cfg, w0, tested, Run(i, ""));
    var stored := Step(cfg, tested, Run(i, ""));
    GetsOn(cfg, w0, stored, Run(i, ""));
    w' := Step(cfg, stored, Run(i, ""));
  }

  /** Two goroutines that look the same new link up before either stores it can both push it. */
  lemma TwoLookupsPushTwice(cfg: JobConfig, w: World, i: nat, j: nat, u: Url)
    requires i < |w.s.threads| && j < |w.s.threads| && i != j
    requires w.s.threads[i].Linking? && w.s.threads[j].Linking?
    requires u in w.s.threads[i].links && u in w.s.threads[j].links && u !in w.s.sh.store && !w.s.sh.stopping
    ensures exists t :: Gets(cfg, w, t) && t.s.sh.pushes == w.s.sh.pushes + [u, u]
  {
    GetsItself(cfg, w);
    var t := BothPush(cfg, w, w, i, j, u);
  }

  lemma BothPush(cfg: JobConfig, w0: World, w: World, i: nat, j: nat, u: Url) returns (t: World)
    requires Gets(cfg, w0, w) && i < |w.s.threads| && j < |w.s.threads| && i != j
    requires w.s.threads[i].Linking? && w.s.threads[j].Linking?
    requires u in w.s.threads[i].links && u in w.s.threads[j].links && u !in w.s.sh.store && !w.s.sh.stopping
    ensures Gets(cfg, w0, t) && t.s.sh.pushes == w.s.sh.pushes + [u, u]
  {
    GetsOn(cfg, w0, w, Run(i, u));
    var w1 := Step(cfg, w, Run(i, u));
    GetsOn(cfg, w0, w1, Run(j, u));
    var w2 := Step(cfg, w1, Run(j, u));
    var w3 := PushRuns(cfg, w0, w2, i);
    t := PushRuns(cfg, w0, w3, j);
  }

  /** A quiet moment: nothing queued, nothing pending, no shutdown. */
  predicate Calm(w: World) {
    w.s.sh.queue == [] && w.s.sh.changes == [] && !w.s.sh.stopping
  }

  /** What reading and fetching one seed, with nothing else going on, comes to. */
  ghost predicate Fetched(w: World, w': World, seed: Url) {
    && Calm(w') && w'.s.threads == w.s.threads + [Seeding([])] && w'.out == w.out + multiset{seed}
    && w'.s.sh.store.Keys == w.s.sh.store.Keys + {seed} && w'.s.sh.processing == w.s.sh.processing + 1
  }

  /** One more seed is stored, pushed, counted and popped. */
  lemma SeedIsFetched(cfg: JobConfig, w: World, seed: Url) returns (w': World)
    requires Gets(cfg, Start(), w) && Calm(w)
    ensures Gets(cfg, Start(), w') && Fetched(w, w', seed)
  {
    var pushed := SeedIsPushed(cfg, w, seed);
    GetsOn(cfg, Start(), pushed, Run(|w.s.threads|, ""));
    var credited := Step(cfg, pushed, Run(|w.s.threads|, ""));
    assert credited.s.sh.changes == [] + [1];
    SumAppend([], 1);
    var counted := CatchUp(cfg, Start(), credited);
    GetsOn(cfg, Start(), counted, Pop);
    w' := Step(cfg, counted, Pop);
  }

  lemma SeedIsPushed(cfg: JobConfig, w: World, seed: Url) returns (w': World)
    requires Gets(cfg, Start(), w) && Calm(w)
    ensures Gets(cfg, Start(), w') && w'.out == w.out
    ensures w'.s.threads == w.s.threads + [Crediting(Seeding([]))]
    ensures |w'.s.sh.queue| == 1 && At(w'.s.sh.heap, w'.s.sh.queue[0]).url == seed
    ensures w'.s.sh.store.Keys == w.s.sh.store.Keys + {seed} && w'.s.sh.processing == w.s.sh.processing
    ensures w'.s.sh.changes == [] && !w'.s.sh.stopping
  {
    GetsOn(cfg, Start(), w, Seed([seed]));
    var read := Step(cfg, w, Seed([seed]));
    assert [seed][1..] == [];
    GetsOn(cfg, Start(), read, Run(|w.s.threads|, ""));
    w' := PushRuns(cfg, Start(), Step(cfg, read, Run(|w.s.threads|, "")), |w.s.threads|);
  }

  /** What taking back one successful result, up to the lookup of its links, comes to. */
  ghost predicate TakenBack(cfg: JobConfig, w: World, w': World, r: Resource) {
    && Calm(w') && w'.s.threads == w.s.threads + [Linking(LinksOf(cfg, [r]))]
    && w'.out == w.out - multiset{r.url} && w'.s.sh.store == w.s.sh.store
    && w'.s.sh.processing == w.s.sh.processing - 1
  }

  /** A successful result is reported and judged. */
  lemma ResultIsJudged(cfg: JobConfig, w: World, r: Resource) returns (w': World)
    requires Gets(cfg, Start(), w) && Calm(w) && r.url in w.out && r.url in w.s.sh.store
    requires r.jobID == cfg.id && r.status == 200
    ensures Gets(cfg, Start(), w') && w'.out == w.out - multiset{r.url}
    ensures w'.s.threads == w.s.threads + [Debiting(Frame(r, [], {}))]
    ensures w'.s.sh == w.s.sh.(heap := w'.s.sh.heap, finished := w'.s.sh.finished, log := w'.s.sh.log)
  {
    var n := |w.s.threads|;
    assert UrlsOf([r]) == [r.url] && [r][1..] == [];
    GetsOn(cfg, Start(), w, Report([r]));
    var reported := Step(cfg, w, Report([r]));
    GetsOn(cfg, Start(), reported, Run(n, ""));
    var taken := Step(cfg, reported, Run(n, ""));
    GetsOn(cfg, Start(), taken, Run(n, ""));
    w' := Step(cfg, taken, Run(n, ""));
  }

  /** The -1 is sent and applied. */
  lemma ResultIsDebited(cfg: JobConfig, w: World, r: Resource) returns (w': World)
    requires Gets(cfg, Start(), w) && Calm(w) && r.url in w.out && r.url in w.s.sh.store
    requires r.jobID == cfg.id && r.status == 200
    ensures Gets(cfg, Start(), w') && w'.out == w.out - multiset{r.url} && Calm(w')
    ensures w'.s.threads == w.s.threads + [Checking(Frame(r, [], {}))]
    ensures w'.s.sh.store == w.s.sh.store && w'.s.sh.processing == w.s.sh.processing - 1
  {
    var n := |w.s.threads|;
    var judged := ResultIsJudged(cfg, w, r);
    GetsOn(cfg, Start(), judged, Run(n, ""));
    var sent := Step(cfg, judged, Run(n, ""));
    assert sent.s.sh.changes == [] + [-1];
    SumAppend([], -1);
    w' := CatchUp(cfg, Start(), sent);
  }

  /** The deferred part of `dequeue` with nothing else going on, and on to the links. */
  lemma ResultIsTaken(cfg: JobConfig, w: World, r: Resource) returns (w': World)
    requires Gets(cfg, Start(), w) && Calm(w) && r.url in w.out && r.url in w.s.sh.store
    requires r.jobID == cfg.id && r.status == 200 && cfg.stopUrl != r.url
    ensures Gets(cfg, Start(), w') && TakenBack(cfg, w, w', r)
  {
    var n := |w.s.threads|;
    var counted := ResultIsDebited(cfg, w, r);
    GetsOn(cfg, Start(), counted, Run(n, ""));
    var checked := Step(cfg, counted, Run(n, ""));
    GetsOn(cfg, Start(), checked, Run(n, ""));
    var compared := Step(cfg, checked, Run(n, ""));
    assert {} + LinksOf(cfg, [r]) == LinksOf(cfg, [r]);
    GetsOn(cfg, Start(), compared, Run(n, ""));
    w' := Step(cfg, compared, Run(n, ""));
  }

  lemma OnlyLinkOf(cfg: JobConfig, r: Resource, u: Url)
    requires cfg.crawl && Candidate(cfg, u) && r.jobID == cfg.id && r.links == [u]
    ensures LinksOf(cfg, [r]) == {u}
  {
    assert r in [r];
  }

  /** It can happen, with workers that keep their contract: two seeds that link to the same new page get it pushed
      twice. */
  lemma SomeLinkIsPushedTwice(cfg: JobConfig, a: Url, b: Url, u: Url)
    requires cfg.crawl && Candidate(cfg, u) && a != b && u != a && u != b && cfg.stopUrl != a && cfg.stopUrl != b
    ensures exists t :: Gets(cfg, Start(), t) && multiset(t.s.sh.pushes)[u] >= 2
  {
    var ra, rb := Resource(cfg.id, a, 200, [u], ""), Resource(cfg.id, b, 200, [u], "");
    OnlyLinkOf(cfg, ra, u);
    OnlyLinkOf(cfg, rb, u);
    GetsItself(cfg, Start());
    var w1 := SeedIsFetched(cfg, Start(), a);
    var w2 := SeedIsFetched(cfg, w1, b);
    var w3 := ResultIsTaken(cfg, w2, ra);
    var w4 := ResultIsTaken(cfg, w3, rb);
    assert u !in w4.s.sh.store.Keys;
    var t := BothPush(cfg, Start(), w4, 2, 3, u);
    assert multiset(w4.s.sh.pushes + [u, u])[u] >= 2;
  }

  /** A parent's -1 is sent before its children's +1, so the done scan can decide to shut down with a
      link still to be crawled, in any crawl with a new link to follow. */
  lemma ScanFiresBetweenParentAndChild(cfg: JobConfig, seed: Url, u: Url)
    requires cfg.crawl && Candidate(cfg, u) && u != seed && cfg.stopUrl != seed
    ensures exists t :: Gets(cfg, Start(), t)
              && Raising(Idle) in t.s.threads && Linking({u}) in t.s.threads && u !in t.s.sh.store
  {
    var r := Resource(cfg.id, seed, 200, [u], "");
    OnlyLinkOf(cfg, r, u);
    GetsItself(cfg, Start());
    var w1 := SeedIsFetched(cfg, Start(), seed);
    var w2 := ResultIsTaken(cfg, w1, r);
    assert u !in w2.s.sh.store.Keys;
    var t := ScanRuns(cfg, w2);
    assert t.s.threads[1] == Linking({u}) && t.s.threads[2] == Raising(Idle);
  }

  /** The done scan ticks over an empty queue and a counter at 0. */
  lemma ScanRuns(cfg: JobConfig, w: World) returns (t: World)
    requires Gets(cfg, Start(), w) && Calm(w) && w.s.sh.processing == 0
    ensures Gets(cfg, Start(), t) && t.s.threads == w.s.threads + [Raising(Idle)] && t.s.sh == w.s.sh
  {
    var n := |w.s.threads|;
    GetsOn(cfg, Start(), w, Tick);
    var w1 := Step(cfg, w, Tick);
    GetsOn(cfg, Start(), w1, Run(n, ""));
    var w2 := Step(cfg, w1, Run(n, ""));
    GetsOn(cfg, Start(), w2, Run(n, ""));
    t := Step(cfg, w2, Run(n, ""));
  }
}
