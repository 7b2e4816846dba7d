/** What the coordinator's operations do to its data, as functions on values. The heap
    classes of `CoordinatorHeap` are proved against these, and the crawl of `Crawl` is
    built out of them. */
module CoordinatorSpec {
  import opened Wrappers
  import opened CrawlTypes
  import opened JobRules

  /** The coordinator's data. `changes` is the channel of counter changes that the
      background loop has not applied to `processing` yet. `senders` counts the calls of `Shutdown` that are
      blocked on the shutdown channel, `released` those that have been let through and have not gone on yet,
      and `finalized` how often the handlers have been finalized. */
  datatype Core = Core(
    store: map<Url, Record>,
    queue: seq<Entry>,
    stopping: bool,
    processing: int,
    changes: seq<int>,
    finished: nat,
    calls: multiset<Call>,
    senders: nat,
    released: nat,
    finalized: nat)

  /** A new coordinator. */
  function Blank(): Core {
    Core(map[], [], false, 0, [], 0, multiset{}, 0, 0, 0)
  }

  function Sum(xs: seq<int>): int {
    if xs == [] then 0 else Sum(xs[..|xs| - 1]) + xs[|xs| - 1]
  }

  lemma SumAppend(xs: seq<int>, x: int)
    ensures Sum(xs + [x]) == Sum(xs) + x
  {
    assert (xs + [x])[..|xs|] == xs;
  }

  lemma {:induction false} SumHead(xs: seq<int>)
    requires xs != []
    ensures Sum(xs) == xs[0] + Sum(xs[1..])
  {
    if |xs| > 1 {
      var init := xs[..|xs| - 1];
      SumHead(init);
      assert init[1..] == xs[1..][..|xs| - 2];
    }
  }

  function Enqueue(c: Core, url: Url, rec: Record): Core {
    if c.stopping then
      c.(store := c.store[url := rec.(status := Failed)])
    else
      c.(store := c.store[url := rec.(status := Queued)],
         queue := c.queue + [Entry(rec.jobID, url)],
         changes := c.changes + [1])
  }

  /** One pending call per registered handler. */
  function CallsFor(handlers: nat, r: Resource): multiset<Call> {
    if handlers == 0 then multiset{} else CallsFor(handlers - 1, r) + multiset{Call(handlers - 1, r)}
  }

  /** The record a result is charged to: the stored one, or a blank one for an unknown URL. */
  function Charged(c: Core, r: Resource): Record {
    var rec := if r.url in c.store then c.store[r.url] else NewRecord("");
    rec.(prevStatus := r.status, attempts := rec.attempts + 1)
  }

  /** The store once the result has been charged to a stored request. */
  function Recorded(c: Core, r: Resource): map<Url, Record> {
    if r.url in c.store then c.store[r.url := Charged(c, r)] else c.store
  }

  /** The number of retries: none if MaxAttempts is negative. */
  function Limit(cfg: JobConfig): nat {
    if cfg.maxAttempts < 0 then 0 else cfg.maxAttempts
  }

  /** The pushes that `resets` blank records pay for: one each, and `limit` retries each. */
  function Allowance(resets: nat, limit: nat): nat {
    if resets == 0 then 0 else Allowance(resets - 1, limit) + limit + 1
  }

  lemma {:induction false} AllowanceIsProduct(resets: nat, limit: nat)
    ensures Allowance(resets, limit) == resets * (limit + 1)
  {
    if resets > 0 {
      AllowanceIsProduct(resets - 1, limit);
    }
  }

  /** A request that failed is queued again, or given up once its attempts exceed the limit. */
  function Retried(cfg: JobConfig, c: Core, url: Url, rec: Record): Core {
    if rec.attempts <= cfg.maxAttempts then Enqueue(c, url, rec)
    else c.(store := c.store[url := rec.(status := Failed)])
  }

  /** A result that succeeded, is tried again, or is given up, charged to `rec`. */
  function Settled(cfg: JobConfig, handlers: nat, c: Core, r: Resource, rec: Record): Core {
    if OkStatus(r.status) then
      c.(finished := c.finished + 1,
         store := if r.url in c.store then c.store[r.url := rec.(status := Done)] else c.store,
         calls := c.calls + CallsFor(handlers, r))
    else
      Retried(cfg, c, r.url, rec)
  }

  function Judge(cfg: JobConfig, handlers: nat, c: Core, r: Resource): Core {
    Settled(cfg, handlers, c, r, Charged(c, r))
  }

  /** Charging the stored record first makes no difference to the outcome. */
  lemma RecordedThenSettled(cfg: JobConfig, handlers: nat, c: Core, r: Resource)
    ensures Settled(cfg, handlers, c.(store := Recorded(c, r)), r, Charged(c, r)) == Judge(cfg, handlers, c, r)
  {
    var rec := Charged(c, r);
    UpdatedTwice(c.store, r.url, rec, rec.(status := Done));
    UpdatedTwice(c.store, r.url, rec, rec.(status := Queued));
    UpdatedTwice(c.store, r.url, rec, rec.(status := Failed));
  }

  lemma UpdatedTwice(m: map<Url, Record>, u: Url, first: Record, second: Record)
    ensures m[u := first][u := second] == m[u := second]
  {
  }

  /** `Shutdown`, up to the point where it blocks or has finalized the handlers. */
  function Raised(c: Core): Core {
    c.(stopping := true,
       senders := c.senders + (if c.queue != [] then 1 else 0),
       finalized := c.finalized + (if c.queue != [] then 0 else 1))
  }

  /** A blocked call of `Shutdown` goes on, once it has been let through. */
  function LetThrough(c: Core): Core
    requires c.released > 0
  {
    c.(released := c.released - 1, finalized := c.finalized + 1)
  }

  /** The receive on the shutdown channel finds nobody sending. */
  predicate Stalls(c: Core) {
    c.stopping && c.queue == [] && c.senders == 0
  }

  /** The receive on the shutdown channel lets a blocked call of `Shutdown` through. */
  predicate Receives(c: Core) {
    c.stopping && c.queue == [] && c.senders > 0
  }

  /** What `dequeue` defers: send -1, receive on the shutdown channel when stopping over an empty queue,
      shut down on the stop URL, unless the receive blocks. */
  function Deferred(cfg: JobConfig, c: Core, url: Url): Core {
    var shuts := cfg.stopUrl == url && !Stalls(c);
    var passed := if Receives(c) then 1 else 0;
    c.(changes := c.changes + [-1],
       stopping := c.stopping || shuts,
       senders := c.senders - passed + (if shuts && c.queue != [] then 1 else 0),
       released := c.released + passed,
       finalized := c.finalized + (if shuts && c.queue == [] then 1 else 0))
  }

  /** Where that leaves the call. */
  function TurnAfter(cfg: JobConfig, c: Core, url: Url): Turn {
    if Stalls(c) then Waits
    else if cfg.stopUrl == url && c.queue != [] then Sends
    else Goes
  }

  function Dequeue(cfg: JobConfig, handlers: nat, c: Core, r: Resource): Core {
    Deferred(cfg, Judge(cfg, handlers, c, r), r.url)
  }

  function TurnOf(cfg: JobConfig, handlers: nat, c: Core, r: Resource): Turn {
    TurnAfter(cfg, Judge(cfg, handlers, c, r), r.url)
  }

  /** Results of other jobs, or of none, are skipped. */
  function DequeueOwn(cfg: JobConfig, handlers: nat, c: Core, r: Resource): Core {
    if r.jobID == cfg.id then Dequeue(cfg, handlers, c, r) else c
  }

  function TurnOfOwn(cfg: JobConfig, handlers: nat, c: Core, r: Resource): Turn {
    if r.jobID == cfg.id then TurnOf(cfg, handlers, c, r) else Goes
  }

  function DequeueAll(cfg: JobConfig, handlers: nat, c: Core, rscs: seq<Resource>): Core {
    if rscs == [] then c
    else DequeueOwn(cfg, handlers, DequeueAll(cfg, handlers, c, rscs[..|rscs| - 1]), rscs[|rscs| - 1])
  }

  /** The links a call to `CompletedResources` looks up: candidate links of the job's own results. */
  ghost function LinksOf(cfg: JobConfig, rscs: seq<Resource>): (links: set<Url>)
    ensures forall l :: l in links <==>
      cfg.crawl && Candidate(cfg, l) && exists r :: r in rscs && r.jobID == cfg.id && l in r.links
  {
    set r, l | r in rscs && r.jobID == cfg.id && cfg.crawl && l in r.links && Candidate(cfg, l) :: l
  }

  function EnqueueLink(cfg: JobConfig, c: Core, url: Url): Core {
    if url in c.store then c else Enqueue(c, url, NewRecord(cfg.id))
  }

  function EnqueueLinks(cfg: JobConfig, c: Core, order: seq<Url>): Core {
    if order == [] then c
    else EnqueueLink(cfg, EnqueueLinks(cfg, c, order[..|order| - 1]), order[|order| - 1])
  }

  /** How the loop over `rscs` ends: it runs through, or halts at the first result whose `dequeue` blocks. */
  function Course(cfg: JobConfig, handlers: nat, c: Core, rscs: seq<Resource>): Turn {
    if rscs == [] then Goes
    else
      var init, r := rscs[..|rscs| - 1], rscs[|rscs| - 1];
      var turn := Course(cfg, handlers, c, init);
      if turn != Goes then turn
      else TurnOfOwn(cfg, handlers, DequeueAll(cfg, handlers, c, init), r)
  }

  /** How many results the loop gets to look at. */
  function Taken(cfg: JobConfig, handlers: nat, c: Core, rscs: seq<Resource>): (n: nat)
    ensures n <= |rscs|
    ensures Course(cfg, handlers, c, rscs) == Goes ==> n == |rscs|
    ensures Course(cfg, handlers, c, rscs) != Goes ==> n > 0
  {
    if rscs == [] then 0
    else if Course(cfg, handlers, c, rscs[..|rscs| - 1]) != Goes then Taken(cfg, handlers, c, rscs[..|rscs| - 1])
    else |rscs|
  }

  /** A call of `CompletedResources` whose results are taken in full goes on to its links. */
  function Completed(cfg: JobConfig, handlers: nat, c: Core, rscs: seq<Resource>, order: seq<Url>): Core {
    var d := DequeueAll(cfg, handlers, c, rscs[..Taken(cfg, handlers, c, rscs)]);
    if Course(cfg, handlers, c, rscs) == Goes then EnqueueLinks(cfg, d, order) else d
  }

  /** How a call that had collected `links` stands after its loop over `rscs`. */
  ghost function CallAfter(cfg: JobConfig, handlers: nat, c: Core, rscs: seq<Resource>, links: set<Url>): Halted {
    var n := Taken(cfg, handlers, c, rscs);
    Halted(rscs[n..], links + LinksOf(cfg, rscs[..n]), Course(cfg, handlers, c, rscs))
  }

  /** What the loop does with one more result. */
  lemma OneMoreResult(cfg: JobConfig, handlers: nat, c: Core, rscs: seq<Resource>, k: nat)
    requires k < |rscs| && Course(cfg, handlers, c, rscs[..k]) == Goes
    ensures var d := DequeueAll(cfg, handlers, c, rscs[..k]);
            && DequeueAll(cfg, handlers, c, rscs[..k + 1]) == DequeueOwn(cfg, handlers, d, rscs[k])
            && Course(cfg, handlers, c, rscs[..k + 1]) == TurnOfOwn(cfg, handlers, d, rscs[k])
    ensures Taken(cfg, handlers, c, rscs[..k + 1]) == k + 1
    ensures LinksOf(cfg, rscs[..k + 1]) == LinksOf(cfg, rscs[..k]) + LinksOf(cfg, [rscs[k]])
  {
    assert rscs[..k + 1][..k] == rscs[..k];
    assert forall x :: x in rscs[..k + 1] <==> x in rscs[..k] || x in [rscs[k]];
  }

  /** A loop that has run through its first `k` results and halts there, or has no more of them, has taken `k`. */
  lemma {:induction false} HaltedHere(cfg: JobConfig, handlers: nat, c: Core, rscs: seq<Resource>, k: nat)
    requires k <= |rscs| && k == Taken(cfg, handlers, c, rscs[..k])
    requires k == |rscs| || Course(cfg, handlers, c, rscs[..k]) != Goes
    ensures Taken(cfg, handlers, c, rscs) == k
    ensures Course(cfg, handlers, c, rscs) == Course(cfg, handlers, c, rscs[..k])
  {
    if k == |rscs| {
      assert rscs[..k] == rscs;
    } else {
      var init := rscs[..|rscs| - 1];
      assert init[..k] == rscs[..k];
      HaltedHere(cfg, handlers, c, init, k);
    }
  }

  /** The test of the done scan. The loop over the stored requests decides nothing. */
  predicate ScanFires(c: Core) {
    c.queue == [] && c.processing <= 0
  }

  /** A worker takes the oldest request. */
  function Popped(c: Core): Core
    requires c.queue != []
  {
    c.(queue := c.queue[1..])
  }

  /** The background loop of `NewCoordinator` taking one change off the channel. */
  function ApplyChange(c: Core): Core
    requires c.changes != []
  {
    c.(processing := c.processing + c.changes[0], changes := c.changes[1..])
  }

  lemma {:induction false} CallsForCount(handlers: nat, r: Resource, h: nat, x: Resource)
    ensures CallsFor(handlers, r)[Call(h, x)] == if h < handlers && x == r then 1 else 0
  {
    if handlers > 0 {
      CallsForCount(handlers - 1, r, h, x);
    }
  }

  /** A result that carries no job, as the worker's error handler sends, is ignored altogether:
      the request stays charged as outstanding. */
  lemma {:induction false} UnattributedResultsAreIgnored(cfg: JobConfig, handlers: nat, c: Core, rscs: seq<Resource>)
    requires forall r :: r in rscs ==> r.jobID != cfg.id
    ensures DequeueAll(cfg, handlers, c, rscs) == c && Course(cfg, handlers, c, rscs) == Goes
    ensures LinksOf(cfg, rscs) == {}
    ensures Completed(cfg, handlers, c, rscs, []) == c
  {
    if rscs != [] {
      var init := rscs[..|rscs| - 1];
      assert forall r :: r in init ==> r in rscs;
      UnattributedResultsAreIgnored(cfg, handlers, c, init);
    }
    assert rscs[..|rscs|] == rscs;
  }

  /** A result for a URL that the store does not know, as of a page that a link redirected to: a success is counted
      and handed on, but not stored; a failure is queued again without the job's ID, and whatever comes back for
      that is ignored, so its request stays queued in the store. */
  lemma StrayResults(cfg: JobConfig, handlers: nat, c: Core, r: Resource, later: seq<Resource>)
    requires r.jobID == cfg.id != "" && r.url !in c.store && cfg.maxAttempts >= 1 && !c.stopping
    requires forall x :: x in later ==> EntryOf(x) == Entry("", r.url)
    ensures var d := DequeueOwn(cfg, handlers, c, r);
            && d.finished == c.finished + (if 200 <= r.status <= 308 then 1 else 0)
            && d.queue == c.queue + (if 200 <= r.status <= 308 then [] else [Entry("", r.url)])
            && d.store == (if 200 <= r.status <= 308 then c.store
                           else c.store[r.url := Record("", Queued, 1, r.status)])
            && DequeueAll(cfg, handlers, d, later) == d
  {
    UnattributedResultsAreIgnored(cfg, handlers, DequeueOwn(cfg, handlers, c, r), later);
  }
}
