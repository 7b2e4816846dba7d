/** What a run of the crawl guarantees: when the done scan is right, how often a URL is fetched,
    what a shutdown still lets happen, and what the handlers end up with. */
module CrawlOutcome {
  import opened Wrappers
  import opened CrawlTypes
  import opened JobRules
  import opened CoordinatorSpec
  import opened Crawl
  import opened Halting

  // ---------------------------------------------------------------- status coherence

  /** In every reachable state and for every stored URL: each push is queued, in flight, lost or
      completed; a queued request has an outstanding copy; a done request's last result was in 200..308;
      a failed request has used up its attempts or was refused while stopping, and unless its record is blank
      its last result was below or above that range. */
  lemma StatusIsCoherent(cfg: JobConfig, seeds: seq<Url>, handlers: nat, run: seq<Event>, u: Url)
    requires Legal(cfg, Init(seeds, handlers), run)
    requires u in After(cfg, Init(seeds, handlers), run).core.store
    ensures var t := After(cfg, Init(seeds, handlers), run);
            var e, rec := Entry(cfg.id, u), t.core.store[u];
            && t.pushes[e] == Count(t.core.queue, e) + t.inFlight[e] + t.lost[e] + Completions(t.log, e)
            && (rec.status == Queued || rec.status == Done || rec.status == Failed)
            && (rec.status == Queued ==> Count(t.core.queue, e) + t.inFlight[e] + t.lost[e] > 0)
            && (rec.status == Done ==> LastStatus(t.log, u) == Some(rec.prevStatus) && 200 <= rec.prevStatus <= 308)
            && (rec.status == Failed ==> rec.attempts > cfg.maxAttempts || u in t.refused)
            && (rec.status == Failed && rec.attempts > 0 ==>
                  LastStatus(t.log, u) == Some(rec.prevStatus) && (rec.prevStatus < 200 || rec.prevStatus > 308))
            && (u in t.refused ==> t.core.stopping)
  {
    var t := After(cfg, Init(seeds, handlers), run);
    RunKeeps(cfg, seeds, handlers, run);
    assert Coherent(cfg, t, u);
  }

  // ---------------------------------------------------------------- done detection

  /** When the done scan fires, nothing is in flight exactly when the changes still in the channel
      cancel the counter. An empty channel is enough. */
  lemma ScanIsRightIff(cfg: JobConfig, seeds: seq<Url>, handlers: nat, run: seq<Event>)
    requires Legal(cfg, Init(seeds, handlers), run)
    requires ScanFires(After(cfg, Init(seeds, handlers), run).core)
    ensures var t := After(cfg, Init(seeds, handlers), run);
            && (t.inFlight == multiset{} && t.lost == multiset{} <==> t.core.processing + Sum(t.core.changes) == 0)
            && (t.core.changes == [] ==> t.inFlight == multiset{} && t.lost == multiset{})
  {
    RunKeeps(cfg, seeds, handlers, run);
  }

  /** With no change pending, a scan that fires sees only finished requests, which is what its
      loop over the stored requests was meant to establish. */
  lemma ScanSeesFinishedRequests(cfg: JobConfig, seeds: seq<Url>, handlers: nat, run: seq<Event>)
    requires Legal(cfg, Init(seeds, handlers), run)
    requires var t := After(cfg, Init(seeds, handlers), run); ScanFires(t.core) && t.core.changes == []
    ensures var t := After(cfg, Init(seeds, handlers), run);
            forall u :: u in t.core.store ==>
              var rec := t.core.store[u];
              || (rec.status == Done && 200 <= rec.prevStatus <= 308)
              || (rec.status == Failed && (rec.attempts > cfg.maxAttempts || u in t.refused))
  {
    var t := After(cfg, Init(seeds, handlers), run);
    RunKeeps(cfg, seeds, handlers, run);
    forall u | u in t.core.store
      ensures t.core.store[u].status == Done || t.core.store[u].status == Failed
    {
      assert Coherent(cfg, t, u);
    }
    assert forall u :: u in t.core.store ==> Coherent(cfg, t, u);
  }

  /** A crawl that has come to rest is detected exactly when no completion was lost: one request
      whose result never comes keeps the counter up for good. */
  lemma RestIsDetectedIff(cfg: JobConfig, seeds: seq<Url>, handlers: nat, run: seq<Event>)
    requires Legal(cfg, Init(seeds, handlers), run)
    requires var t := After(cfg, Init(seeds, handlers), run);
             t.core.queue == [] && t.inFlight == multiset{} && t.core.changes == []
    ensures var t := After(cfg, Init(seeds, handlers), run);
            ScanFires(t.core) <==> t.lost == multiset{}
  {
    RunKeeps(cfg, seeds, handlers, run);
  }

  /** It can happen: a crawl of one seed whose result is lost comes to rest and is not detected. */
  lemma SomeLossIsNeverDetected(cfg: JobConfig, seed: Url)
    ensures exists run :: Legal(cfg, Init([seed], 0), run)
              && var t := After(cfg, Init([seed], 0), run);
                 && t.core.queue == [] && t.inFlight == multiset{} && t.core.changes == []
                 && t.lost != multiset{} && !ScanFires(t.core)
  {
    var prior := SeedAndPop(cfg, seed, 0);
    var e := Entry(cfg.id, seed);
    LoseThenApply(cfg, After(cfg, Init([seed], 0), prior), e);
    TwoMore(cfg, Init([seed], 0), prior, Lose(e), Apply);
    RestIsDetectedIff(cfg, [seed], 0, prior + [Lose(e)] + [Apply]);
  }

  lemma LoseThenApply(cfg: JobConfig, s: Sys, e: Entry)
    requires s.core.queue == [] && s.inFlight == multiset{e} && s.halted == [] && s.core.changes == [1]
    ensures Enabled(cfg, s, Lose(e)) && Enabled(cfg, Next(cfg, s, Lose(e)), Apply)
    ensures var t := Next(cfg, Next(cfg, s, Lose(e)), Apply);
            t.core.queue == [] && t.inFlight == multiset{} && t.core.changes == [] && t.lost != multiset{}
  {
    assert Next(cfg, s, Lose(e)).lost[e] > 0;
    assert Next(cfg, s, Lose(e)).inFlight == multiset{};
  }

  /** The scan does not wait for the channel of changes: it can fire with a request in flight. */
  lemma ScanCanFireTooEarly(cfg: JobConfig, seed: Url)
    ensures exists run :: Legal(cfg, Init([seed], 0), run)
              && ScanFires(After(cfg, Init([seed], 0), run).core)
              && Entry(cfg.id, seed) in After(cfg, Init([seed], 0), run).inFlight
  {
    var run := SeedAndPop(cfg, seed, 0);
    assert ScanFires(After(cfg, Init([seed], 0), run).core);
  }

  // ---------------------------------------------------------------- retries

  lemma {:induction false} SeededIsAPrefix(cfg: JobConfig, seeds: seq<Url>, handlers: nat, run: seq<Event>)
    requires Legal(cfg, Init(seeds, handlers), run)
    ensures var t := After(cfg, Init(seeds, handlers), run); t.seeded + t.todo == seeds
  {
    if run != [] {
      var s, e := After(cfg, Init(seeds, handlers), run[..|run| - 1]), run[|run| - 1];
      SeededIsAPrefix(cfg, seeds, handlers, run[..|run| - 1]);
      StepKeepsSeeds(cfg, s, e);
    }
  }

  lemma StepKeepsSeeds(cfg: JobConfig, s: Sys, e: Event)
    requires Enabled(cfg, s, e)
    ensures Next(cfg, s, e).seeded + Next(cfg, s, e).todo == s.seeded + s.todo
  {
    match e
    case Complete(rscs, order) => CallKeepsSeeds(cfg, s, rscs, {}, order);
    case Resume(k, order) => CallKeepsSeeds(cfg, Freed(s, k), s.halted[k].rest, s.halted[k].links, order);
    case _ =>
  }

  lemma CallKeepsSeeds(cfg: JobConfig, s: Sys, rscs: seq<Resource>, links: set<Url>, order: seq<Url>)
    ensures var t := OnCall(cfg, s, rscs, links, order); t.seeded == s.seeded && t.todo == s.todo
  {
    var n := Taken(cfg, |s.boxes|, s.core, rscs);
    DequeuesKeepSeeds(cfg, s, rscs[..n]);
    LinksKeepSeeds(cfg, OnDequeues(cfg, s, rscs[..n]), order);
  }

  lemma {:induction false} DequeuesKeepSeeds(cfg: JobConfig, s: Sys, rscs: seq<Resource>)
    ensures var t := OnDequeues(cfg, s, rscs); t.seeded == s.seeded && t.todo == s.todo && t.found == s.found
  {
    if rscs != [] {
      DequeuesKeepSeeds(cfg, s, rscs[..|rscs| - 1]);
    }
  }

  lemma {:induction false} LinksKeepSeeds(cfg: JobConfig, s: Sys, order: seq<Url>)
    ensures var t := OnLinks(cfg, s, order); t.seeded == s.seeded && t.todo == s.todo
  {
    if order != [] {
      LinksKeepSeeds(cfg, s, order[..|order| - 1]);
    }
  }

  lemma {:induction false} AllowanceGrows(resets: nat, most: nat, limit: nat)
    requires resets <= most
    ensures Allowance(resets, limit) <= Allowance(most, limit)
    decreases most
  {
    if resets < most {
      AllowanceGrows(resets, most - 1, limit);
    }
  }

  /** However many pages link to a URL, `CompletedResources` enqueues it afresh at most once, and it
      is pushed at most MaxAttempts + 1 times for that and for each time it is listed as a seed. */
  lemma PushesAreBounded(cfg: JobConfig, seeds: seq<Url>, handlers: nat, run: seq<Event>, u: Url)
    requires Legal(cfg, Init(seeds, handlers), run)
    ensures var t := After(cfg, Init(seeds, handlers), run);
            && multiset(t.found)[u] <= 1
            && t.pushes[Entry(cfg.id, u)] <= (1 + multiset(seeds)[u]) * (Limit(cfg) + 1)
  {
    var t := After(cfg, Init(seeds, handlers), run);
    RunKeeps(cfg, seeds, handlers, run);
    SeededIsAPrefix(cfg, seeds, handlers, run);
    assert WithinBudget(cfg, t, u);
    assert multiset(t.seeded + t.todo) == multiset(t.seeded) + multiset(t.todo);
    BoundedBy(cfg, t, u, 1 + multiset(seeds)[u]);
  }

  lemma BoundedBy(cfg: JobConfig, t: Sys, u: Url, most: nat)
    requires WithinBudget(cfg, t, u) && Resets(t, u) <= most
    ensures t.pushes[Entry(cfg.id, u)] <= most * (Limit(cfg) + 1)
  {
    AllowanceGrows(Resets(t, u), most, Limit(cfg));
    AllowanceIsProduct(most, Limit(cfg));
  }

  /** Before a shutdown every seed that was read and every new link has been paid for with a push. */
  ghost predicate Paid(cfg: JobConfig, s: Sys) {
    !s.core.stopping ==> forall u :: Resets(s, u) <= s.pushes[Entry(cfg.id, u)]
  }

  lemma BlankEnqueueKeepsPaid(cfg: JobConfig, s: Sys, u: Url, t: Sys)
    requires Paid(cfg, s) && BlankEnqueued(cfg, s, u, t)
    ensures Paid(cfg, t)
  {
    forall v | !t.core.stopping
      ensures Resets(t, v) <= t.pushes[Entry(cfg.id, v)]
    {
      BlankEnqueueResets(cfg, s, u, t, v);
    }
  }

  lemma DequeueKeepsPaid(cfg: JobConfig, s: Sys, r: Resource)
    requires Paid(cfg, s)
    ensures Paid(cfg, OnDequeue(cfg, s, r))
  {
    var t := OnDequeue(cfg, s, r);
    assert t.seeded == s.seeded && t.found == s.found;
    assert !t.core.stopping ==> !s.core.stopping;
    assert forall e :: s.pushes[e] <= t.pushes[e];
    assert forall u :: Resets(t, u) == Resets(s, u);
  }

  lemma {:induction false} DequeuesKeepPaid(cfg: JobConfig, s: Sys, rscs: seq<Resource>)
    requires Paid(cfg, s)
    ensures Paid(cfg, OnDequeues(cfg, s, rscs))
  {
    if rscs != [] {
      DequeuesKeepPaid(cfg, s, rscs[..|rscs| - 1]);
      DequeueKeepsPaid(cfg, OnDequeues(cfg, s, rscs[..|rscs| - 1]), rscs[|rscs| - 1]);
    }
  }

  lemma {:induction false} LinksKeepPaid(cfg: JobConfig, s: Sys, order: seq<Url>)
    requires Paid(cfg, s)
    ensures Paid(cfg, OnLinks(cfg, s, order))
  {
    if order != [] {
      var t, u := OnLinks(cfg, s, order[..|order| - 1]), order[|order| - 1];
      LinksKeepPaid(cfg, s, order[..|order| - 1]);
      if u !in t.core.store {
        BlankEnqueueKeepsPaid(cfg, t, u, OnLink(cfg, t, u));
      }
    }
  }

  lemma CallKeepsPaid(cfg: JobConfig, s: Sys, rscs: seq<Resource>, links: set<Url>, order: seq<Url>)
    requires Paid(cfg, s)
    ensures Paid(cfg, OnCall(cfg, s, rscs, links, order))
  {
    var n := Taken(cfg, |s.boxes|, s.core, rscs);
    DequeuesKeepPaid(cfg, s, rscs[..n]);
    LinksKeepPaid(cfg, OnDequeues(cfg, s, rscs[..n]), order);
  }

  lemma StepKeepsPaid(cfg: JobConfig, s: Sys, e: Event)
    requires Paid(cfg, s) && Enabled(cfg, s, e)
    ensures Paid(cfg, Next(cfg, s, e))
  {
    match e
    case Seed => BlankEnqueueKeepsPaid(cfg, s, s.todo[0], OnSeed(cfg, s));
    case Complete(rscs, order) => CallKeepsPaid(cfg, s, rscs, {}, order);
    case Resume(k, order) => CallKeepsPaid(cfg, Freed(s, k), s.halted[k].rest, s.halted[k].links, order);
    case _ =>
  }

  /** And before a shutdown it is pushed at least once for each time it was read as a seed, whatever the store
      knows about it by then, and once if it was found as a new link. */
  lemma PushesCoverSeeds(cfg: JobConfig, seeds: seq<Url>, handlers: nat, run: seq<Event>, u: Url)
    requires Legal(cfg, Init(seeds, handlers), run) && !After(cfg, Init(seeds, handlers), run).core.stopping
    ensures var t := After(cfg, Init(seeds, handlers), run);
            multiset(t.seeded)[u] + multiset(t.found)[u] <= t.pushes[Entry(cfg.id, u)]
  {
    var t := After(cfg, Init(seeds, handlers), run);
    RunKeepsPaid(cfg, seeds, handlers, run);
    assert Resets(t, u) <= t.pushes[Entry(cfg.id, u)];
  }

  lemma {:induction false} RunKeepsPaid(cfg: JobConfig, seeds: seq<Url>, handlers: nat, run: seq<Event>)
    requires Legal(cfg, Init(seeds, handlers), run)
    ensures Paid(cfg, After(cfg, Init(seeds, handlers), run))
  {
    if run != [] {
      RunKeepsPaid(cfg, seeds, handlers, run[..|run| - 1]);
      StepKeepsPaid(cfg, After(cfg, Init(seeds, handlers), run[..|run| - 1]), run[|run| - 1]);
    }
  }

  /** A URL whose record was reset only once has been attempted as often as it has been completed. */
  ghost predicate Tried(cfg: JobConfig, s: Sys) {
    forall u :: u in s.core.store && Resets(s, u) <= 1 ==>
      s.core.store[u].attempts == Completions(s.log, Entry(cfg.id, u))
  }

  lemma BlankEnqueueKeepsTried(cfg: JobConfig, s: Sys, u: Url, t: Sys)
    requires Tried(cfg, s) && BlankEnqueued(cfg, s, u, t)
    requires u in s.core.store ==> Resets(s, u) >= 1
    requires u !in s.core.store ==> Completions(s.log, Entry(cfg.id, u)) == 0
    ensures Tried(cfg, t)
  {
    forall v | v in t.core.store && Resets(t, v) <= 1
      ensures t.core.store[v].attempts == Completions(t.log, Entry(cfg.id, v))
    {
      BlankEnqueueResets(cfg, s, u, t, v);
    }
  }

  /** A stored URL was seeded or found. */
  ghost predicate Origin(s: Sys) {
    forall u :: u in s.core.store ==> Resets(s, u) >= 1
  }

  lemma DequeueKeepsTried(cfg: JobConfig, s: Sys, r: Resource)
    requires Known(cfg, s) && Tried(cfg, s) && Origin(s) && EntryOf(r) in s.inFlight
    ensures Tried(cfg, OnDequeue(cfg, s, r)) && Origin(OnDequeue(cfg, s, r))
  {
    var t := OnDequeue(cfg, s, r);
    DequeueCopies(cfg, s, r, EntryOf(r));
    forall v | v in t.core.store
      ensures Resets(t, v) >= 1
      ensures Resets(t, v) <= 1 ==> t.core.store[v].attempts == Completions(t.log, Entry(cfg.id, v))
    {
      DequeueAttempts(cfg, s, r, v);
      CompletionsAppend(s.log, r, Entry(cfg.id, v));
    }
  }

  lemma {:induction false} DequeuesKeepTried(cfg: JobConfig, s: Sys, rscs: seq<Resource>)
    requires DequeueInv(cfg, s) && Tried(cfg, s) && Origin(s) && Answers(s, rscs)
    ensures Tried(cfg, OnDequeues(cfg, s, rscs)) && Origin(OnDequeues(cfg, s, rscs))
  {
    if rscs != [] {
      var init, r := rscs[..|rscs| - 1], rscs[|rscs| - 1];
      assert rscs == init + [r];
      AnswersPrefix(s, init, r);
      DequeuesKeepTried(cfg, s, init);
      DequeuesKeep(cfg, s, init);
      DequeuesLog(cfg, s, init);
      DequeueKeepsTried(cfg, OnDequeues(cfg, s, init), r);
    }
  }

  lemma BlankEnqueueKeepsOrigin(cfg: JobConfig, s: Sys, u: Url, t: Sys)
    requires Origin(s) && BlankEnqueued(cfg, s, u, t)
    ensures Origin(t)
  {
    forall v | v in t.core.store
      ensures Resets(t, v) >= 1
    {
      BlankEnqueueResets(cfg, s, u, t, v);
    }
  }

  lemma UnstoredIsUncompleted(cfg: JobConfig, s: Sys, u: Url)
    requires Inv(cfg, s) && u !in s.core.store
    ensures Completions(s.log, Entry(cfg.id, u)) == 0
  {
    assert WithinBudget(cfg, s, u);
  }

  lemma {:induction false} LinksKeepTried(cfg: JobConfig, s: Sys, order: seq<Url>)
    requires Inv(cfg, s) && Tried(cfg, s) && Origin(s)
    ensures Tried(cfg, OnLinks(cfg, s, order)) && Origin(OnLinks(cfg, s, order))
  {
    if order != [] {
      var init, u := order[..|order| - 1], order[|order| - 1];
      LinksKeepTried(cfg, s, init);
      LinksKeep(cfg, s, init);
      var t := OnLinks(cfg, s, init);
      if u !in t.core.store {
        UnstoredIsUncompleted(cfg, t, u);
        BlankEnqueueKeepsTried(cfg, t, u, OnLink(cfg, t, u));
        BlankEnqueueKeepsOrigin(cfg, t, u, OnLink(cfg, t, u));
      }
    }
  }

  lemma SeedKeepsTried(cfg: JobConfig, s: Sys)
    requires Inv(cfg, s) && Tried(cfg, s) && Origin(s) && s.todo != []
    ensures Tried(cfg, OnSeed(cfg, s)) && Origin(OnSeed(cfg, s))
  {
    var u := s.todo[0];
    if u !in s.core.store {
      UnstoredIsUncompleted(cfg, s, u);
    }
    BlankEnqueueKeepsTried(cfg, s, u, OnSeed(cfg, s));
    BlankEnqueueKeepsOrigin(cfg, s, u, OnSeed(cfg, s));
  }

  lemma {:induction false} RunKeepsTried(cfg: JobConfig, seeds: seq<Url>, handlers: nat, run: seq<Event>)
    requires Legal(cfg, Init(seeds, handlers), run)
    ensures Tried(cfg, After(cfg, Init(seeds, handlers), run)) && Origin(After(cfg, Init(seeds, handlers), run))
  {
    if run != [] {
      var init := run[..|run| - 1];
      var s, e := After(cfg, Init(seeds, handlers), init), run[|run| - 1];
      RunKeepsTried(cfg, seeds, handlers, init);
      RunKeeps(cfg, seeds, handlers, init);
      StepKeepsTried(cfg, s, e);
    }
  }

  lemma StepKeepsTried(cfg: JobConfig, s: Sys, e: Event)
    requires Inv(cfg, s) && Tried(cfg, s) && Origin(s) && Enabled(cfg, s, e)
    ensures Tried(cfg, Next(cfg, s, e)) && Origin(Next(cfg, s, e))
  {
    match e
    case Seed => SeedKeepsTried(cfg, s);
    case Complete(rscs, order) => CallKeepsTried(cfg, s, rscs, {}, order);
    case Resume(k, order) =>
      FreedKeeps(cfg, s, k);
      SameTried(cfg, s, Freed(s, k));
      CallKeepsTried(cfg, Freed(s, k), s.halted[k].rest, s.halted[k].links, order);
    case _ => SameTried(cfg, s, Next(cfg, s, e));
  }

  lemma CallKeepsTried(cfg: JobConfig, s: Sys, rscs: seq<Resource>, links: set<Url>, order: seq<Url>)
    requires DequeueInv(cfg, s) && Tried(cfg, s) && Origin(s) && MayReport(s, rscs)
    ensures var t := OnCall(cfg, s, rscs, links, order); Tried(cfg, t) && Origin(t)
  {
    var n := Taken(cfg, |s.boxes|, s.core, rscs);
    var t := OnDequeues(cfg, s, rscs[..n]);
    CallTakes(cfg, s, rscs);
    DequeuesKeepTried(cfg, s, rscs[..n]);
    if Course(cfg, |s.boxes|, s.core, rscs) == Goes {
      CallReserves(cfg, s, rscs, links);
      LinksKeepTried(cfg, t, order);
    } else {
      SameTried(cfg, t, OnCall(cfg, s, rscs, links, order));
    }
  }

  lemma SameTried(cfg: JobConfig, s: Sys, t: Sys)
    requires Tried(cfg, s) && Origin(s)
    requires t.core.store == s.core.store && t.seeded == s.seeded && t.found == s.found && t.log == s.log
    ensures Tried(cfg, t) && Origin(t)
  {
    assert forall u :: Resets(t, u) == Resets(s, u);
  }

  /** A URL enqueued once that is given up has been fetched exactly MaxAttempts + 1 times, one more
      than the configuration's comment says. */
  lemma GivenUpAfterOneMoreThanTheLimit(cfg: JobConfig, seeds: seq<Url>, handlers: nat, run: seq<Event>, u: Url)
    requires Legal(cfg, Init(seeds, handlers), run)
    requires var t := After(cfg, Init(seeds, handlers), run);
             && u in t.core.store && t.core.store[u].status == Failed && Resets(t, u) == 1
             && !t.core.stopping && Outstanding(t, Entry(cfg.id, u)) == 0
    ensures var t := After(cfg, Init(seeds, handlers), run);
            cfg.maxAttempts >= 0 ==>
              && t.pushes[Entry(cfg.id, u)] == cfg.maxAttempts + 1
              && Completions(t.log, Entry(cfg.id, u)) == cfg.maxAttempts + 1
  {
    var t := After(cfg, Init(seeds, handlers), run);
    RunKeeps(cfg, seeds, handlers, run);
    RunKeepsTried(cfg, seeds, handlers, run);
    assert Coherent(cfg, t, u) && WithinBudget(cfg, t, u);
    assert Allowance(0, Limit(cfg)) == 0;
  }

  /** `s` is about to make attempt number n + 1 at its only outstanding request, all others at it having failed. */
  ghost predicate Failing(cfg: JobConfig, u: Url, s: Sys, n: nat) {
    && u in s.core.store && s.core.store[u].jobID == cfg.id && s.core.store[u].attempts == n
    && s.core.queue == [Entry(cfg.id, u)] && s.pushes[Entry(cfg.id, u)] == n + 1 && NothingElse(s)
  }

  /** Its only request has failed for good, after `fetches` pushes. */
  ghost predicate GivenUp(cfg: JobConfig, u: Url, s: Sys, fetches: nat) {
    && u in s.core.store && s.core.store[u].status == Failed
    && s.core.queue == [] && s.pushes[Entry(cfg.id, u)] == fetches && NothingElse(s)
  }

  ghost predicate NothingElse(s: Sys) {
    s.inFlight == s.lost == multiset{} && s.todo == [] && s.halted == [] && !s.core.stopping
  }

  /** A report that is taken without a halt, by a crawl with no other request in flight. */
  lemma OneReport(cfg: JobConfig, s: Sys, r: Resource, order: seq<Url>)
    requires s.inFlight == multiset{EntryOf(r)} && s.halted == []
    requires TurnOfOwn(cfg, |s.boxes|, s.core, r) == Goes && Lists(order, LinksOf(cfg, [r]))
    ensures Enabled(cfg, s, Complete([r], order))
    ensures Next(cfg, s, Complete([r], order)) == OnLinks(cfg, OnDequeue(cfg, s, r), order)
  {
    assert [r][..0] == [] && [r][..1] == [r];
    assert DequeueAll(cfg, |s.boxes|, s.core, []) == s.core;
    assert Course(cfg, |s.boxes|, s.core, []) == Goes;
    assert OnDequeues(cfg, s, []) == s && OnDequeues(cfg, s, [r]) == OnDequeue(cfg, s, r);
  }

  /** What a failed result for the only request in flight leaves. */
  lemma FailedResult(cfg: JobConfig, u: Url, t: Sys, r: Resource, n: nat)
    requires r.url == u && r.jobID == cfg.id && (r.status < 200 || r.status > 308)
    requires u in t.core.store && t.core.store[u].jobID == cfg.id && t.core.store[u].attempts == n
    requires t.core.queue == [] && t.inFlight == multiset{EntryOf(r)} && t.lost == multiset{}
    requires t.todo == [] && t.halted == [] && !t.core.stopping && cfg.stopUrl != u
    requires t.pushes[Entry(cfg.id, u)] == n + 1
    ensures var d := OnDequeue(cfg, t, r);
            && (n < cfg.maxAttempts ==> Failing(cfg, u, d, n + 1))
            && (n >= cfg.maxAttempts ==> GivenUp(cfg, u, d, n + 1))
            && d.seeded == t.seeded && d.found == t.found && d.log == t.log + [r]
  {
    assert [] + [Entry(cfg.id, u)] == [Entry(cfg.id, u)];
    assert OnDequeue(cfg, t, r).inFlight == multiset{};
  }

  /** The only request fails once more. */
  lemma FailsAgain(cfg: JobConfig, u: Url, s: Sys, r: Resource, n: nat)
    requires Failing(cfg, u, s, n) && cfg.stopUrl != u
    requires r == Resource(cfg.id, u, r.status, [], "") && (r.status < 200 || r.status > 308)
    ensures Enabled(cfg, s, Pop) && Enabled(cfg, Next(cfg, s, Pop), Complete([r], []))
    ensures var t := Next(cfg, Next(cfg, s, Pop), Complete([r], []));
            && (n < cfg.maxAttempts ==> Failing(cfg, u, t, n + 1))
            && (n >= cfg.maxAttempts ==> GivenUp(cfg, u, t, n + 1))
            && t.seeded == s.seeded && t.found == s.found && t.log == s.log + [r]
  {
    var t := Next(cfg, s, Pop);
    assert t.inFlight == multiset{EntryOf(r)} && t.core.queue == [];
    assert LinksOf(cfg, [r]) == {};
    OneReport(cfg, t, r, []);
    FailedResult(cfg, u, t, r, n);
  }

  lemma FailOnce(cfg: JobConfig, s0: Sys, u: Url, prior: seq<Event>, n: nat, status: int) returns (run: seq<Event>)
    requires (status < 200 || status > 308) && cfg.stopUrl != u
    requires Legal(cfg, s0, prior) && Failing(cfg, u, After(cfg, s0, prior), n)
    ensures Legal(cfg, s0, run)
    ensures var s, t := After(cfg, s0, prior), After(cfg, s0, run);
            && (n < cfg.maxAttempts ==> Failing(cfg, u, t, n + 1))
            && (n >= cfg.maxAttempts ==> GivenUp(cfg, u, t, n + 1))
            && t.seeded == s.seeded && t.found == s.found && t.log == s.log + [Resource(cfg.id, u, status, [], "")]
  {
    var r := Resource(cfg.id, u, status, [], "");
    FailsAgain(cfg, u, After(cfg, s0, prior), r, n);
    TwoMore(cfg, s0, prior, Pop, Complete([r], []));
    run := prior + [Pop] + [Complete([r], [])];
  }

  /** A request that has just been enqueued can fail until it is given up, with any status that is a failure. */
  lemma {:induction false} FailingRun(cfg: JobConfig, s0: Sys, u: Url, start: seq<Event>, n: nat, status: int)
    returns (run: seq<Event>)
    requires (status < 200 || status > 308) && n <= cfg.maxAttempts + 1 && cfg.stopUrl != u && cfg.maxAttempts >= 0
    requires Legal(cfg, s0, start) && Failing(cfg, u, After(cfg, s0, start), 0)
    ensures Legal(cfg, s0, run)
    ensures var s, t := After(cfg, s0, start), After(cfg, s0, run);
            && (n <= cfg.maxAttempts ==> Failing(cfg, u, t, n))
            && (n > cfg.maxAttempts ==> GivenUp(cfg, u, t, n))
            && t.seeded == s.seeded && t.found == s.found
            && forall r :: r in t.log ==> r in s.log || r.status == status
  {
    if n == 0 {
      run := start;
    } else {
      var prior := FailingRun(cfg, s0, u, start, n - 1, status);
      run := FailOnce(cfg, s0, u, prior, n - 1, status);
    }
  }

  /** One seed, read. */
  lemma SeedRun(cfg: JobConfig, seed: Url) returns (run: seq<Event>)
    ensures Legal(cfg, Init([seed], 0), run)
    ensures var t := After(cfg, Init([seed], 0), run);
            && Failing(cfg, seed, t, 0) && t.seeded == [seed] && t.found == []
            && t.core.store.Keys == {seed} && t.pushes == multiset{Entry(cfg.id, seed)}
            && t.log == [] && t.core.finished == 0
  {
    var none: seq<Event> := [];
    AfterOneMore(cfg, Init([seed], 0), none, Seed);
    run := none + [Seed];
    assert [] + [Entry(cfg.id, seed)] == [Entry(cfg.id, seed)];
    assert [] + [seed] == [seed];
  }

  /** Such runs exist: any seed other than the stop URL can be given up, for any MaxAttempts from 0 on and any
      status outside 200..308, and is then pushed MaxAttempts + 1 times. */
  lemma SomeSeedIsFetchedOnceMoreThanTheLimit(cfg: JobConfig, seed: Url, status: int)
    requires cfg.maxAttempts >= 0 && cfg.stopUrl != seed && (status < 200 || status > 308)
    ensures exists run :: Legal(cfg, Init([seed], 0), run)
              && FetchedInVain(cfg, seed, status, After(cfg, Init([seed], 0), run))
  {
    var run := GivingUpRun(cfg, seed, status);
  }

  /** The request for `u` was enqueued once and given up after MaxAttempts + 1 pushes, all results having `status`. */
  ghost predicate FetchedInVain(cfg: JobConfig, u: Url, status: int, t: Sys) {
    && u in t.core.store && t.core.store[u].status == Failed && Resets(t, u) == 1
    && !t.core.stopping && Outstanding(t, Entry(cfg.id, u)) == 0
    && t.pushes[Entry(cfg.id, u)] == cfg.maxAttempts + 1
    && forall r :: r in t.log ==> r.status == status
  }

  lemma GivingUpRun(cfg: JobConfig, seed: Url, status: int) returns (run: seq<Event>)
    requires cfg.maxAttempts >= 0 && cfg.stopUrl != seed && (status < 200 || status > 308)
    ensures Legal(cfg, Init([seed], 0), run)
    ensures FetchedInVain(cfg, seed, status, After(cfg, Init([seed], 0), run))
  {
    var start := SeedRun(cfg, seed);
    run := FailingRun(cfg, Init([seed], 0), seed, start, cfg.maxAttempts + 1, status);
    OneReset(After(cfg, Init([seed], 0), run), seed);
  }

  lemma OneReset(t: Sys, seed: Url)
    requires t.seeded == [seed] && t.found == []
    ensures Resets(t, seed) == 1
  {
  }

  /** The result `r` is all that was ever taken back, and its request is done after one push. */
  ghost predicate DoneAtOnce(cfg: JobConfig, u: Url, r: Resource, t: Sys) {
    && u in t.core.store && t.core.store[u].status == Done && t.core.finished == 1 && t.log == [r]
    && t.core.queue == [] && t.pushes[Entry(cfg.id, u)] == 1 && NothingElse(t)
  }

  /** And with any status in 200..308 it is done after one push. */
  lemma SomeSeedIsDoneAtOnce(cfg: JobConfig, seed: Url, status: int)
    requires cfg.stopUrl != seed && 200 <= status <= 308
    ensures exists run :: Legal(cfg, Init([seed], 0), run)
              && DoneAtOnce(cfg, seed, Resource(cfg.id, seed, status, [], ""), After(cfg, Init([seed], 0), run))
  {
    var run := DoneRun(cfg, seed, Resource(cfg.id, seed, status, [], ""));
  }

  lemma DoneRun(cfg: JobConfig, seed: Url, r: Resource) returns (run: seq<Event>)
    requires r == Resource(cfg.id, seed, r.status, [], "") && 200 <= r.status <= 308 && cfg.stopUrl != seed
    ensures Legal(cfg, Init([seed], 0), run) && DoneAtOnce(cfg, seed, r, After(cfg, Init([seed], 0), run))
  {
    var s0, order: seq<Url> := Init([seed], 0), [];
    var start := SeedRun(cfg, seed);
    DoneStep(cfg, seed, After(cfg, s0, start), r);
    TwoMore(cfg, s0, start, Pop, Complete([r], order));
    run := start + [Pop] + [Complete([r], order)];
  }

  lemma DoneStep(cfg: JobConfig, seed: Url, s: Sys, r: Resource)
    requires r == Resource(cfg.id, seed, r.status, [], "") && 200 <= r.status <= 308 && cfg.stopUrl != seed
    requires Failing(cfg, seed, s, 0) && s.core.store.Keys == {seed} && s.pushes == multiset{Entry(cfg.id, seed)}
    requires s.log == [] && s.core.finished == 0
    ensures Enabled(cfg, s, Pop) && Enabled(cfg, Next(cfg, s, Pop), Complete([r], []))
    ensures DoneAtOnce(cfg, seed, r, Next(cfg, Next(cfg, s, Pop), Complete([r], [])))
  {
    var t := Next(cfg, s, Pop);
    assert t.inFlight == multiset{EntryOf(r)} && t.core.queue == [];
    assert LinksOf(cfg, [r]) == {};
    OneReport(cfg, t, r, []);
    SeedSucceeds(cfg, seed, t, r);
    assert OnLinks(cfg, OnDequeue(cfg, t, r), []) == OnDequeue(cfg, t, r) && [] + [r] == [r];
  }

  /** A successful seed with one link. */
  lemma LinkRun(cfg: JobConfig, seed: Url, u: Url) returns (run: seq<Event>)
    requires cfg.crawl && Candidate(cfg, u) && u != seed && cfg.stopUrl != seed
    ensures Legal(cfg, Init([seed], 0), run) && Failing(cfg, u, After(cfg, Init([seed], 0), run), 0)
  {
    var s0, r, order := Init([seed], 0), Resource(cfg.id, seed, 200, [u], ""), [u];
    var start := SeedRun(cfg, seed);
    LinkStep(cfg, seed, u, After(cfg, s0, start), r);
    TwoMore(cfg, s0, start, Pop, Complete([r], order));
    run := start + [Pop] + [Complete([r], order)];
  }

  /** What the report of the seed leaves, before its link is looked up. */
  lemma SeedSucceeds(cfg: JobConfig, seed: Url, t: Sys, r: Resource)
    requires r.url == seed && r.jobID == cfg.id && OkStatus(r.status) && cfg.stopUrl != seed
    requires t.core.queue == [] && t.core.store.Keys == {seed} && !t.core.stopping && t.todo == [] && t.halted == []
    requires t.inFlight == multiset{EntryOf(r)} && t.lost == multiset{} && t.pushes == multiset{EntryOf(r)}
    ensures var d := OnDequeue(cfg, t, r);
            && d.core.queue == [] && d.core.store.Keys == {seed} && NothingElse(d) && d.pushes == t.pushes
            && d.core.store[seed].status == Done && d.core.finished == t.core.finished + 1 && d.log == t.log + [r]
  {
    assert OnDequeue(cfg, t, r).inFlight == multiset{};
  }

  /** A new link of a crawl with nothing outstanding is enqueued. */
  lemma OnlyLink(cfg: JobConfig, d: Sys, u: Url)
    requires d.core.queue == [] && u !in d.core.store && NothingElse(d) && d.pushes[Entry(cfg.id, u)] == 0
    ensures Failing(cfg, u, OnLinks(cfg, d, [u]), 0)
  {
    assert [u][..0] == [];
    assert OnLinks(cfg, d, []) == d && OnLinks(cfg, d, [u]) == OnLink(cfg, d, u);
    assert [] + [Entry(cfg.id, u)] == [Entry(cfg.id, u)];
  }

  /** The report of the seed, with its link. */
  lemma LinkReport(cfg: JobConfig, seed: Url, u: Url, t: Sys, r: Resource)
    requires cfg.crawl && Candidate(cfg, u) && u != seed && cfg.stopUrl != seed
    requires r == Resource(cfg.id, seed, 200, [u], "")
    requires t.core.queue == [] && t.core.store.Keys == {seed} && !t.core.stopping && t.todo == [] && t.halted == []
    requires t.inFlight == multiset{EntryOf(r)} && t.lost == multiset{} && t.pushes == multiset{EntryOf(r)}
    ensures Enabled(cfg, t, Complete([r], [u])) && Failing(cfg, u, Next(cfg, t, Complete([r], [u])), 0)
  {
    assert r in [r] && LinksOf(cfg, [r]) == {u};
    OneReport(cfg, t, r, [u]);
    SeedSucceeds(cfg, seed, t, r);
    assert u !in OnDequeue(cfg, t, r).core.store.Keys;
    OnlyLink(cfg, OnDequeue(cfg, t, r), u);
  }

  lemma LinkStep(cfg: JobConfig, seed: Url, u: Url, s: Sys, r: Resource)
    requires cfg.crawl && Candidate(cfg, u) && u != seed && cfg.stopUrl != seed
    requires r == Resource(cfg.id, seed, 200, [u], "") && Failing(cfg, seed, s, 0)
    requires s.core.store.Keys == {seed} && s.pushes == multiset{Entry(cfg.id, seed)}
    ensures Enabled(cfg, s, Pop) && Enabled(cfg, Next(cfg, s, Pop), Complete([r], [u]))
    ensures Failing(cfg, u, Next(cfg, Next(cfg, s, Pop), Complete([r], [u])), 0)
  {
    var t := Next(cfg, s, Pop);
    assert t.inFlight == multiset{EntryOf(r)} && t.core.queue == [];
    LinkReport(cfg, seed, u, t, r);
  }

  /** The bound on the pushes of a URL is attained, by a link that is found once and given up. */
  lemma SomeLinkAttainsTheBound(cfg: JobConfig, seed: Url, u: Url)
    requires cfg.crawl && Candidate(cfg, u) && u != seed && cfg.stopUrl != seed && cfg.stopUrl != u
    requires cfg.maxAttempts >= 0
    ensures exists run :: Legal(cfg, Init([seed], 0), run)
              && After(cfg, Init([seed], 0), run).pushes[Entry(cfg.id, u)]
                   == (1 + multiset([seed])[u]) * (Limit(cfg) + 1)
  {
    var start := LinkRun(cfg, seed, u);
    var run := FailingRun(cfg, Init([seed], 0), u, start, cfg.maxAttempts + 1, 500);
    var t := After(cfg, Init([seed], 0), run);
    assert multiset([seed])[u] == 0;
    assert (1 + multiset([seed])[u]) * (Limit(cfg) + 1) == Limit(cfg) + 1;
    assert t.pushes[Entry(cfg.id, u)] == Limit(cfg) + 1;
  }

  // ---------------------------------------------------------------- shutdown

  /** Copies a worker can still report on, or a call has in hand. */
  function Live(s: Sys): nat {
    |s.core.queue| + |s.inFlight|
  }

  lemma {:induction false} StoppingDequeues(cfg: JobConfig, s: Sys, rscs: seq<Resource>)
    requires s.core.stopping && Answers(s, rscs)
    ensures var t := OnDequeues(cfg, s, rscs);
            t.core.stopping && t.core.queue == s.core.queue && t.pushes == s.pushes && Live(t) == Live(s) - |rscs|
  {
    if rscs != [] {
      var init, r := rscs[..|rscs| - 1], rscs[|rscs| - 1];
      assert rscs == init + [r];
      AnswersPrefix(s, init, r);
      DequeuesLog(cfg, s, init);
      StoppingDequeues(cfg, s, init);
      JudgementAndQueue(cfg, |s.boxes|, OnDequeues(cfg, s, init).core, r);
    }
  }

  lemma {:induction false} StoppingLinks(cfg: JobConfig, s: Sys, order: seq<Url>)
    requires s.core.stopping
    ensures var t := OnLinks(cfg, s, order);
            && t.core.stopping && t.core.queue == s.core.queue && t.pushes == s.pushes && t.inFlight == s.inFlight
            && t.core.senders == s.core.senders && t.halted == s.halted
  {
    if order != [] {
      StoppingLinks(cfg, s, order[..|order| - 1]);
    }
  }

  /** While stopping, a call takes results back and pushes nothing. */
  lemma StoppingCall(cfg: JobConfig, s: Sys, rscs: seq<Resource>, links: set<Url>, order: seq<Url>)
    requires s.core.stopping && MayReport(s, rscs)
    ensures var t := OnCall(cfg, s, rscs, links, order);
            && t.core.stopping && t.core.queue == s.core.queue && t.pushes == s.pushes
            && Live(t) == Live(s) - Taken(cfg, |s.boxes|, s.core, rscs)
            && s.halted <= t.halted
  {
    var n := Taken(cfg, |s.boxes|, s.core, rscs);
    MayReportAnswers(s, rscs);
    AnswersTaken(s, rscs, n);
    StoppingDequeues(cfg, s, rscs[..n]);
    DequeuesLog(cfg, s, rscs[..n]);
    StoppingLinks(cfg, OnDequeues(cfg, s, rscs[..n]), order);
  }

  /** Once stopping, no step pushes, the queue only loses its head, and every report brings the
      coordinator closer to being drained, by exactly the number of results its call gets to look at. Over an
      empty queue, that is one for every blocked `Shutdown`, and one more. */
  lemma StoppingDrains(cfg: JobConfig, s: Sys, e: Event)
    requires Inv(cfg, s) && s.core.stopping && Enabled(cfg, s, e)
    ensures var t := Next(cfg, s, e);
            && t.core.stopping && t.pushes == s.pushes
            && (t.core.queue == s.core.queue || (e.Pop? && t.core.queue == s.core.queue[1..]))
            && (e.Complete? ==> Live(t) == Live(s) - Taken(cfg, |s.boxes|, s.core, e.rscs))
            && Live(t) <= Live(s)
    ensures e.Complete? && s.core.queue == [] ==>
              Taken(cfg, |s.boxes|, s.core, e.rscs) == Min(|e.rscs|, s.core.senders + 1)
  {
    if e.Complete? {
      StoppingCall(cfg, s, e.rscs, {}, e.order);
      StoppingReportTakes(cfg, s, e.rscs);
    } else if e.Resume? {
      FreedKeeps(cfg, s, e.k);
      StoppingCall(cfg, Freed(s, e.k), s.halted[e.k].rest, s.halted[e.k].links, e.order);
    } else {
      OtherStoppingStep(cfg, s, e);
    }
  }

  lemma StoppingReportTakes(cfg: JobConfig, s: Sys, rscs: seq<Resource>)
    requires Known(cfg, s) && MayReport(s, rscs) && s.core.stopping
    ensures s.core.queue == [] ==> Taken(cfg, |s.boxes|, s.core, rscs) == Min(|rscs|, s.core.senders + 1)
  {
    MayReportAnswers(s, rscs);
    AnswersAreKnown(cfg, s, rscs);
    if s.core.queue == [] {
      DrainedCallsTake(cfg, |s.boxes|, s.core, rscs);
    }
  }

  lemma OtherStoppingStep(cfg: JobConfig, s: Sys, e: Event)
    requires s.core.stopping && Enabled(cfg, s, e) && !e.Complete? && !e.Resume?
    ensures var t := Next(cfg, s, e);
            && t.core.stopping && t.pushes == s.pushes && Live(t) <= Live(s)
            && (t.core.queue == s.core.queue || (e.Pop? && t.core.queue == s.core.queue[1..]))
  {
  }

  /** An empty queue stays empty for the rest of a stopping run. */
  lemma {:induction false} EmptyStaysEmpty(cfg: JobConfig, s: Sys, run: seq<Event>)
    requires Inv(cfg, s) && s.core.stopping && s.core.queue == [] && Legal(cfg, s, run)
    ensures var t := After(cfg, s, run); t.core.stopping && t.core.queue == [] && t.pushes == s.pushes
    ensures Inv(cfg, After(cfg, s, run))
  {
    if run != [] {
      EmptyStaysEmpty(cfg, s, run[..|run| - 1]);
      StepKeeps(cfg, After(cfg, s, run[..|run| - 1]), run[|run| - 1]);
      StoppingDrains(cfg, After(cfg, s, run[..|run| - 1]), run[|run| - 1]);
    }
  }

  /** On every path, by the done scan, the stop URL or an outside call, directly or through the shutdown
      channel, the handlers are finalized over an empty queue, and nothing is pushed from then on. */
  lemma FinalizersRunOverAnEmptyQueue(
    cfg: JobConfig, seeds: seq<Url>, handlers: nat, run: seq<Event>, more: seq<Event>)
    requires Legal(cfg, Init(seeds, handlers), run) && Legal(cfg, After(cfg, Init(seeds, handlers), run), more)
    requires After(cfg, Init(seeds, handlers), run).core.finalized > 0
    ensures var s := After(cfg, Init(seeds, handlers), run);
            var t := After(cfg, s, more);
            s.core.queue == [] && t.core.queue == [] && t.pushes == s.pushes
  {
    RunKeeps(cfg, seeds, handlers, run);
    EmptyStaysEmpty(cfg, After(cfg, Init(seeds, handlers), run), more);
  }

  lemma CallKeepsWaiting(cfg: JobConfig, s: Sys, rscs: seq<Resource>, links: set<Url>, order: seq<Url>, i: nat)
    requires s.core.stopping && MayReport(s, rscs) && i < |s.halted| && s.halted[i].turn == Waits
    ensures SomeWait(OnCall(cfg, s, rscs, links, order))
  {
    StoppingCall(cfg, s, rscs, links, order);
    assert OnCall(cfg, s, rscs, links, order).halted[i] == s.halted[i];
  }

  lemma ResumeKeepsWaiting(cfg: JobConfig, s: Sys, k: nat, order: seq<Url>, i: nat)
    requires Inv(cfg, s) && Enabled(cfg, s, Resume(k, order)) && i < |s.halted| && s.halted[i].turn == Waits
    ensures SomeWait(Next(cfg, s, Resume(k, order)))
  {
    FreedKeeps(cfg, s, k);
    var i' := if i < k then i else i - 1;
    assert Freed(s, k).halted[i'] == s.halted[i];
    CallKeepsWaiting(cfg, Freed(s, k), s.halted[k].rest, s.halted[k].links, order, i');
  }

  /** Only calls come to a halt or go on. */
  lemma OthersKeepHalted(cfg: JobConfig, s: Sys, e: Event)
    requires !e.Complete? && !e.Resume?
    ensures Next(cfg, s, e).halted == s.halted
  {
  }

  lemma StepKeepsWaiting(cfg: JobConfig, s: Sys, e: Event)
    requires Inv(cfg, s) && SomeWait(s) && Enabled(cfg, s, e)
    ensures SomeWait(Next(cfg, s, e))
  {
    var i: nat :| i < |s.halted| && s.halted[i].turn == Waits;
    if e.Complete? {
      CallKeepsWaiting(cfg, s, e.rscs, {}, e.order, i);
    } else if e.Resume? {
      ResumeKeepsWaiting(cfg, s, e.k, e.order, i);
    } else {
      OthersKeepHalted(cfg, s, e);
      assert Next(cfg, s, e).halted[i].turn == Waits;
    }
  }

  /** A call that waits to receive on the shutdown channel waits for good: nobody will ever send, so the
      results and links it holds are never seen to. */
  lemma {:induction false} WaitingCallsWaitForGood(
    cfg: JobConfig, seeds: seq<Url>, handlers: nat, run: seq<Event>, more: seq<Event>)
    requires Legal(cfg, Init(seeds, handlers), run) && Legal(cfg, After(cfg, Init(seeds, handlers), run), more)
    requires SomeWait(After(cfg, Init(seeds, handlers), run))
    ensures var t := After(cfg, After(cfg, Init(seeds, handlers), run), more);
            Inv(cfg, t) && SomeWait(t) && t.core.senders == 0
    decreases |more|
  {
    if more == [] {
      RunKeeps(cfg, seeds, handlers, run);
    } else {
      var prior := After(cfg, After(cfg, Init(seeds, handlers), run), more[..|more| - 1]);
      WaitingCallsWaitForGood(cfg, seeds, handlers, run, more[..|more| - 1]);
      StepKeeps(cfg, prior, more[|more| - 1]);
      StepKeepsWaiting(cfg, prior, more[|more| - 1]);
    }
  }

  // ---------------------------------------------------------------- delivery

  lemma SameElementsSameSequence(a: seq<Resource>, m: multiset<Resource>)
    requires forall r :: multiset(a)[r] == m[r]
    ensures multiset(a) == m && |a| == |m|
  {
    assert multiset(a) == m;
    assert |multiset(a)| == |a|;
  }

  /** The successful results are those with a status in 200..308. */
  lemma {:induction false} SuccessesCount(log: seq<Resource>, r: Resource)
    ensures Successes(log)[r] == if 200 <= r.status <= 308 then multiset(log)[r] else 0
  {
    if log != [] {
      SuccessesCount(log[..|log| - 1], r);
      assert log == log[..|log| - 1] + [log[|log| - 1]];
    }
  }

  /** When every started handler call has run, each handler holds a permutation of the successful
      results: each result in 200..308 exactly as often as it was taken back, nothing else, `job.finished` of
      them. */
  lemma EveryHandlerHoldsEverySuccess(cfg: JobConfig, seeds: seq<Url>, handlers: nat, run: seq<Event>, h: nat)
    requires Legal(cfg, Init(seeds, handlers), run)
    requires After(cfg, Init(seeds, handlers), run).core.calls == multiset{}
    requires h < |After(cfg, Init(seeds, handlers), run).boxes|
    ensures var t := After(cfg, Init(seeds, handlers), run);
            && multiset(t.boxes[h]) == Successes(t.log) && |t.boxes[h]| == t.core.finished
            && forall r :: multiset(t.boxes[h])[r] == if 200 <= r.status <= 308 then multiset(t.log)[r] else 0
  {
    var t := After(cfg, Init(seeds, handlers), run);
    RunKeeps(cfg, seeds, handlers, run);
    forall r
      ensures multiset(t.boxes[h])[r] == Successes(t.log)[r]
    {
      assert Delivered(t, h, r);
      assert t.core.calls[Call(h, r)] == 0;
    }
    SameElementsSameSequence(t.boxes[h], Successes(t.log));
    forall r
      ensures Successes(t.log)[r] == if 200 <= r.status <= 308 then multiset(t.log)[r] else 0
    {
      SuccessesCount(t.log, r);
    }
  }

  /** In every state, and so when the handlers are finalized, a handler holds all successful results exactly when
      none of its started calls is still to run. */
  lemma HandlerIsCompleteIff(cfg: JobConfig, seeds: seq<Url>, handlers: nat, run: seq<Event>, h: nat)
    requires Legal(cfg, Init(seeds, handlers), run) && h < |After(cfg, Init(seeds, handlers), run).boxes|
    ensures var t := After(cfg, Init(seeds, handlers), run);
            multiset(t.boxes[h]) == Successes(t.log) <==> forall c :: c in t.core.calls ==> c.handler != h
  {
    var t := After(cfg, Init(seeds, handlers), run);
    RunKeeps(cfg, seeds, handlers, run);
    CompleteIff(t, h);
  }

  lemma CompleteIff(t: Sys, h: nat)
    requires Delivery(t) && h < |t.boxes|
    ensures multiset(t.boxes[h]) == Successes(t.log) <==> forall c :: c in t.core.calls ==> c.handler != h
  {
    if multiset(t.boxes[h]) == Successes(t.log) {
      forall c | c in t.core.calls
        ensures c.handler != h
      {
        assert Delivered(t, c.handler, c.rsc);
        assert c == Call(c.handler, c.rsc);
      }
    }
    if forall c :: c in t.core.calls ==> c.handler != h {
      forall r
        ensures multiset(t.boxes[h])[r] == Successes(t.log)[r]
      {
        assert Delivered(t, h, r);
        assert Call(h, r) !in t.core.calls;
      }
      SameElementsSameSequence(t.boxes[h], Successes(t.log));
    }
  }

  /** The finalizers do not wait for those calls: they can run over a handler that has been handed nothing while a
      successful result is on its way to it. */
  lemma FinalizersCanRunTooEarly(cfg: JobConfig, seed: Url)
    ensures exists run :: Legal(cfg, Init([seed], 1), run)
              && var t := After(cfg, Init([seed], 1), run);
                 t.core.finalized > 0 && |t.boxes| == 1 && t.boxes[0] == [] && Successes(t.log) != multiset{}
  {
    var prior := SeedAndPop(cfg, seed, 1);
    var run := SucceedThenStop(cfg, Init([seed], 1), prior, Resource(cfg.id, seed, 200, [], ""));
  }

  /** A success, and a shutdown before its handler calls run. */
  lemma SucceedThenStop(cfg: JobConfig, s0: Sys, prior: seq<Event>, r: Resource) returns (run: seq<Event>)
    requires Legal(cfg, s0, prior) && OkStatus(r.status) && r.links == [] && r.jobID == cfg.id
    requires var t := After(cfg, s0, prior);
             && t.core.queue == [] && t.inFlight == multiset{EntryOf(r)} && t.halted == [] && t.log == []
             && !t.core.stopping
    ensures Legal(cfg, s0, run)
    ensures var t := After(cfg, s0, run);
            && t.core.finalized > 0 && t.boxes == After(cfg, s0, prior).boxes && Successes(t.log) != multiset{}
  {
    var t := After(cfg, s0, prior);
    SuccessGoesOn(cfg, t, r);
    OneReport(cfg, t, r, []);
    TwoMore(cfg, s0, prior, Complete([r], []), Stop);
    run := prior + [Complete([r], [])] + [Stop];
    SuccessesAppend(t.log, r);
    assert Successes(t.log + [r])[r] > 0;
  }

  /** A success over an empty queue neither blocks its call nor queues anything. */
  lemma SuccessGoesOn(cfg: JobConfig, t: Sys, r: Resource)
    requires t.core.queue == [] && !t.core.stopping && OkStatus(r.status)
    ensures TurnOfOwn(cfg, |t.boxes|, t.core, r) == Goes && OnDequeue(cfg, t, r).core.queue == []
  {
  }
}
