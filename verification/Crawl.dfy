/** A crawl as a state machine: the coordinator, the workers that take requests off its queue and
    report back, and the handler goroutines it starts. `CompletedResources` and `enqueue` are one
    step each here, and a call that blocks on the shutdown channel keeps the rest of its work; `Interleaving`
    takes them apart. */
module Crawl {
  import opened Wrappers
  import opened CrawlTypes
  import opened JobRules
  import opened CoordinatorSpec

  /** `core` is the coordinator. The rest is its surroundings and the history of the run:
      entries popped by a worker and not reported back yet, entries whose report never comes,
      seeds not read yet, seeds read, everything ever pushed, every result taken back, every link
      enqueued by `CompletedResources`, what each registered handler holds, the calls of `CompletedResources`
      that have come to a halt, the number of calls of `Shutdown` by others that are blocked or have just
      been let through, and the URLs that a stopping coordinator has refused to enqueue. */
  datatype Sys = Sys(
    core: Core,
    inFlight: multiset<Entry>,
    lost: multiset<Entry>,
    todo: seq<Url>,
    seeded: seq<Url>,
    pushes: multiset<Entry>,
    log: seq<Resource>,
    found: seq<Url>,
    boxes: seq<seq<Resource>>,
    halted: seq<Halted>,
    outside: nat,
    refused: set<Url>)

  datatype Event =
    | Seed                                             // a seed is read into the queue
    | Pop                                              // a worker takes the oldest request
    | Complete(rscs: seq<Resource>, order: seq<Url>)   // a worker reports results for requests it took
    | Lose(entry: Entry)                               // a worker never reports a request it took
    | Apply                                            // the background loop applies a counter change
    | Scan                                             // the done scan fires and shuts down
    | Stop                                             // someone else shuts down
    | Deliver(call: Call)                              // a handler goroutine runs
    | Resume(k: nat, order: seq<Url>)                  // a halted call, let through by a receive, goes on
    | Finish                                           // another's blocked `Shutdown`, let through, goes on

  function Init(seeds: seq<Url>, handlers: nat): Sys {
    Sys(Blank(), multiset{}, multiset{}, seeds, [], multiset{}, [], [], seq(handlers, _ => []), [], 0, {})
  }

  function Inc(m: multiset<Entry>, e: Entry): multiset<Entry> {
    m[e := m[e] + 1]
  }

  function Dec(m: multiset<Entry>, e: Entry): multiset<Entry> {
    m[e := if m[e] > 0 then m[e] - 1 else 0]
  }

  /** Moves to the coordinator data `c`, noting the push if the queue has grown. */
  function WithCore(s: Sys, c: Core): Sys {
    s.(core := c,
       pushes := if |c.queue| > |s.core.queue| then Inc(s.pushes, c.queue[|c.queue| - 1]) else s.pushes)
  }

  function OnSeed(cfg: JobConfig, s: Sys): Sys
    requires s.todo != []
  {
    WithCore(s, Enqueue(s.core, s.todo[0], NewRecord(cfg.id))).(
      todo := s.todo[1..], seeded := s.seeded + [s.todo[0]], refused := RefusedAfter(s, s.todo[0], true))
  }

  /** An enqueue of `url`, if there is one, is refused while stopping. */
  function RefusedAfter(s: Sys, url: Url, enqueues: bool): set<Url> {
    if enqueues && s.core.stopping then s.refused + {url} else s.refused
  }

  /** Is a result for `r` within the limit of attempts? */
  predicate TriesAgain(cfg: JobConfig, c: Core, r: Resource) {
    !OkStatus(r.status) && Charged(c, r).attempts <= cfg.maxAttempts
  }

  function OnDequeue(cfg: JobConfig, s: Sys, r: Resource): Sys {
    WithCore(s, Dequeue(cfg, |s.boxes|, s.core, r)).(
      inFlight := Dec(s.inFlight, EntryOf(r)), log := s.log + [r],
      refused := RefusedAfter(s, r.url, TriesAgain(cfg, s.core, r)))
  }

  function OnLink(cfg: JobConfig, s: Sys, url: Url): Sys {
    if url in s.core.store then s
    else
      WithCore(s, EnqueueLink(cfg, s.core, url)).(
        found := s.found + [url], refused := RefusedAfter(s, url, true))
  }

  function OnDequeues(cfg: JobConfig, s: Sys, rscs: seq<Resource>): Sys {
    if rscs == [] then s
    else OnDequeue(cfg, OnDequeues(cfg, s, rscs[..|rscs| - 1]), rscs[|rscs| - 1])
  }

  function OnLinks(cfg: JobConfig, s: Sys, order: seq<Url>): Sys {
    if order == [] then s
    else OnLink(cfg, OnLinks(cfg, s, order[..|order| - 1]), order[|order| - 1])
  }

  /** How many results answer entry `e`. */
  function Completions(log: seq<Resource>, e: Entry): nat {
    if log == [] then 0
    else Completions(log[..|log| - 1], e) + if EntryOf(log[|log| - 1]) == e then 1 else 0
  }

  /** The results answer requests in flight. */
  ghost predicate Answers(s: Sys, rscs: seq<Resource>) {
    forall e :: Completions(rscs, e) <= s.inFlight[e]
  }

  /** How many results for entry `e` the halted calls have been handed and not looked at. */
  function HeldBy(halted: seq<Halted>, e: Entry): nat {
    if halted == [] then 0
    else HeldBy(halted[..|halted| - 1], e) + Completions(halted[|halted| - 1].rest, e)
  }

  /** The worker contract: every reported result answers a request in flight that has not been answered yet, and
      says so. */
  ghost predicate MayReport(s: Sys, rscs: seq<Resource>) {
    forall e :: HeldBy(s.halted, e) + Completions(rscs, e) <= s.inFlight[e]
  }

  /** A call that had collected `links` goes through `rscs`, and through its links unless it halts. */
  ghost function OnCall(cfg: JobConfig, s: Sys, rscs: seq<Resource>, links: set<Url>, order: seq<Url>): Sys {
    var call := CallAfter(cfg, |s.boxes|, s.core, rscs, links);
    var t := OnDequeues(cfg, s, rscs[..Taken(cfg, |s.boxes|, s.core, rscs)]);
    if call.turn == Goes then OnLinks(cfg, t, order) else t.(halted := t.halted + [call])
  }

  /** Call number k, let through, leaves `Shutdown`. */
  function Freed(s: Sys, k: nat): Sys
    requires k < |s.halted| && s.core.released > 0
  {
    s.(core := LetThrough(s.core), halted := s.halted[..k] + s.halted[k + 1..])
  }

  function OnShutdown(s: Sys): Sys {
    s.(core := Raised(s.core), outside := if s.core.queue != [] then s.outside + 1 else s.outside)
  }

  ghost predicate Enabled(cfg: JobConfig, s: Sys, e: Event) {
    match e
    case Seed => s.todo != []
    case Pop => s.core.queue != []
    case Complete(rscs, order) => MayReport(s, rscs) && Lists(order, LinksOf(cfg, rscs))
    case Lose(entry) => HeldBy(s.halted, entry) < s.inFlight[entry]
    case Apply => s.core.changes != []
    case Scan => ScanFires(s.core)
    case Stop => true
    case Deliver(call) => call in s.core.calls && call.handler < |s.boxes|
    case Resume(k, order) =>
      && s.core.released > 0 && k < |s.halted| && s.halted[k].turn == Sends
      && Lists(order, s.halted[k].links + LinksOf(cfg, s.halted[k].rest))
    case Finish => s.core.released > 0 && s.outside > 0
  }

  ghost function Next(cfg: JobConfig, s: Sys, e: Event): Sys {
    match e
    case Seed => if s.todo == [] then s else OnSeed(cfg, s)
    case Pop =>
      if s.core.queue == [] then s
      else s.(core := Popped(s.core), inFlight := Inc(s.inFlight, s.core.queue[0]))
    case Complete(rscs, order) => OnCall(cfg, s, rscs, {}, order)
    case Lose(entry) => s.(inFlight := Dec(s.inFlight, entry), lost := Inc(s.lost, entry))
    case Apply => if s.core.changes == [] then s else s.(core := ApplyChange(s.core))
    case Scan => OnShutdown(s)
    case Stop => OnShutdown(s)
    case Deliver(call) =>
      if call.handler < |s.boxes| then
        s.(core := s.core.(calls := s.core.calls - multiset{call}),
           boxes := s.boxes[call.handler := s.boxes[call.handler] + [call.rsc]])
      else s
    case Resume(k, order) =>
      if s.core.released > 0 && k < |s.halted| then
        OnCall(cfg, Freed(s, k), s.halted[k].rest, s.halted[k].links, order)
      else s
    case Finish =>
      if s.core.released > 0 && s.outside > 0 then s.(core := LetThrough(s.core), outside := s.outside - 1) else s
  }

  ghost function After(cfg: JobConfig, s: Sys, run: seq<Event>): Sys {
    if run == [] then s else Next(cfg, After(cfg, s, run[..|run| - 1]), run[|run| - 1])
  }

  ghost predicate Legal(cfg: JobConfig, s: Sys, run: seq<Event>) {
    run == [] || (Legal(cfg, s, run[..|run| - 1]) && Enabled(cfg, After(cfg, s, run[..|run| - 1]), run[|run| - 1]))
  }

  lemma AfterOneMore(cfg: JobConfig, s: Sys, run: seq<Event>, e: Event)
    ensures After(cfg, s, run + [e]) == Next(cfg, After(cfg, s, run), e)
    ensures Legal(cfg, s, run + [e]) <==> Legal(cfg, s, run) && Enabled(cfg, After(cfg, s, run), e)
  {
    assert (run + [e])[..|run|] == run;
  }

  lemma TwoMore(cfg: JobConfig, s0: Sys, run: seq<Event>, e: Event, e': Event)
    requires Legal(cfg, s0, run) && Enabled(cfg, After(cfg, s0, run), e)
    requires Enabled(cfg, Next(cfg, After(cfg, s0, run), e), e')
    ensures Legal(cfg, s0, run + [e] + [e'])
    ensures After(cfg, s0, run + [e] + [e']) == Next(cfg, Next(cfg, After(cfg, s0, run), e), e')
  {
    AfterOneMore(cfg, s0, run, e);
    AfterOneMore(cfg, s0, run + [e], e');
  }

  /** One seed has been read and popped, and its counter change is still in the channel. */
  ghost predicate SeedInFlight(cfg: JobConfig, seed: Url, t: Sys) {
    && t.core.queue == [] && t.core.processing == 0 && t.core.changes == [1] && !t.core.stopping
    && t.core.senders == 0 && t.core.store.Keys == {seed}
    && t.inFlight == multiset{Entry(cfg.id, seed)} && t.todo == [] && t.halted == [] && t.log == []
  }

  lemma SeedThenPop(cfg: JobConfig, seed: Url, handlers: nat)
    ensures var t := Next(cfg, Next(cfg, Init([seed], handlers), Seed), Pop);
            SeedInFlight(cfg, seed, t) && t.boxes == Init([seed], handlers).boxes
  {
    var s := Next(cfg, Init([seed], handlers), Seed);
    assert s.core.queue == [] + [Entry(cfg.id, seed)] && s.core.changes == [] + [1];
  }

  lemma SeedAndPop(cfg: JobConfig, seed: Url, handlers: nat) returns (run: seq<Event>)
    ensures Legal(cfg, Init([seed], handlers), run)
    ensures var t := After(cfg, Init([seed], handlers), run);
            SeedInFlight(cfg, seed, t) && t.boxes == Init([seed], handlers).boxes
  {
    SeedThenPop(cfg, seed, handlers);
    var none: seq<Event> := [];
    TwoMore(cfg, Init([seed], handlers), none, Seed, Pop);
    run := none + [Seed] + [Pop];
  }

  // ---------------------------------------------------------------- the link to the coordinator's own code

  lemma {:induction false} DequeuesAreTheCoordinators(cfg: JobConfig, s: Sys, rscs: seq<Resource>)
    requires forall r :: r in rscs ==> r.jobID == cfg.id
    ensures OnDequeues(cfg, s, rscs).core == DequeueAll(cfg, |s.boxes|, s.core, rscs)
    ensures OnDequeues(cfg, s, rscs).boxes == s.boxes
  {
    if rscs != [] {
      assert forall r :: r in rscs[..|rscs| - 1] ==> r in rscs;
      DequeuesAreTheCoordinators(cfg, s, rscs[..|rscs| - 1]);
    }
  }

  lemma {:induction false} LinksAreTheCoordinators(cfg: JobConfig, s: Sys, order: seq<Url>)
    ensures OnLinks(cfg, s, order).core == EnqueueLinks(cfg, s.core, order)
  {
    if order != [] {
      LinksAreTheCoordinators(cfg, s, order[..|order| - 1]);
    }
  }

  lemma CallIsTheCoordinators(
    cfg: JobConfig, s: Sys, rscs: seq<Resource>, links: set<Url>, order: seq<Url>)
    requires forall r :: r in rscs ==> r.jobID == cfg.id
    ensures OnCall(cfg, s, rscs, links, order).core == Completed(cfg, |s.boxes|, s.core, rscs, order)
  {
    var n := Taken(cfg, |s.boxes|, s.core, rscs);
    assert forall r :: r in rscs[..n] ==> r in rscs;
    DequeuesAreTheCoordinators(cfg, s, rscs[..n]);
    LinksAreTheCoordinators(cfg, OnDequeues(cfg, s, rscs[..n]), order);
  }

  /** A Complete step does to the coordinator what the method `CompletedResources` is proved to do. */
  lemma CompleteIsCompletedResources(cfg: JobConfig, s: Sys, rscs: seq<Resource>, order: seq<Url>)
    requires forall r :: r in rscs ==> r.jobID == cfg.id
    ensures Next(cfg, s, Complete(rscs, order)).core == Completed(cfg, |s.boxes|, s.core, rscs, order)
  {
    CallIsTheCoordinators(cfg, s, rscs, {}, order);
  }

  /** And a Resume step what `ResumeCall` is proved to do. */
  lemma ResumeIsResumeCall(cfg: JobConfig, s: Sys, k: nat, order: seq<Url>)
    requires k < |s.halted| && s.core.released > 0 && forall r :: r in s.halted[k].rest ==> r.jobID == cfg.id
    ensures Next(cfg, s, Resume(k, order)).core
         == Completed(cfg, |s.boxes|, LetThrough(s.core), s.halted[k].rest, order)
  {
    CallIsTheCoordinators(cfg, Freed(s, k), s.halted[k].rest, s.halted[k].links, order);
  }

  // ---------------------------------------------------------------- what every reachable state satisfies

  function Count(q: seq<Entry>, e: Entry): nat {
    if q == [] then 0 else Count(q[..|q| - 1], e) + if q[|q| - 1] == e then 1 else 0
  }

  /** Copies of a request that have been pushed and not completed: queued, in flight or lost. */
  function Outstanding(s: Sys, e: Entry): nat {
    Count(s.core.queue, e) + s.inFlight[e] + s.lost[e]
  }

  /** All copies that have been pushed and not completed. */
  function AllOutstanding(s: Sys): nat {
    |s.core.queue| + |s.inFlight| + |s.lost|
  }

  function Successes(log: seq<Resource>): multiset<Resource> {
    if log == [] then multiset{}
    else
      var r := log[|log| - 1];
      Successes(log[..|log| - 1]) + if OkStatus(r.status) then multiset{r} else multiset{}
  }

  /** The status of the last result for `url`. */
  function LastStatus(log: seq<Resource>, url: Url): Option<int> {
    if log == [] then None
    else if log[|log| - 1].url == url then Some(log[|log| - 1].status)
    else LastStatus(log[..|log| - 1], url)
  }

  /** Everything outstanding is the job's and is stored. */
  ghost predicate Known(cfg: JobConfig, s: Sys) {
    && (forall e :: Outstanding(s, e) > 0 ==> e.jobID == cfg.id && e.url in s.core.store)
    && (forall u :: u in s.core.store ==> s.core.store[u].jobID == cfg.id)
  }

  /** The counter with its unapplied changes is the number of outstanding copies. */
  predicate Ledger(s: Sys) {
    s.core.processing + Sum(s.core.changes) == AllOutstanding(s)
  }

  /** Per entry: pushes = queued + in flight + lost + completed. */
  ghost predicate Conserved(s: Sys) {
    forall e :: s.pushes[e] == Outstanding(s, e) + Completions(s.log, e)
  }

  /** What a stored status says about the run so far. */
  predicate Coherent(cfg: JobConfig, s: Sys, u: Url)
    requires u in s.core.store
  {
    var rec := s.core.store[u];
    match rec.status
    case Queued => Outstanding(s, Entry(cfg.id, u)) > 0
    case Done => LastStatus(s.log, u) == Some(rec.prevStatus) && OkStatus(rec.prevStatus)
    case Failed =>
      && (rec.attempts > cfg.maxAttempts || u in s.refused)
      && (rec.attempts > 0 ==> LastStatus(s.log, u) == Some(rec.prevStatus) && !OkStatus(rec.prevStatus))
    case _ => false
  }

  ghost predicate AllCoherent(cfg: JobConfig, s: Sys) {
    forall u :: u in s.core.store ==> Coherent(cfg, s, u)
  }

  function Min(a: int, b: int): int {
    if a < b then a else b
  }

  /** How often a record with no attempts was put in the store under `u`. */
  function Resets(s: Sys, u: Url): nat {
    multiset(s.seeded)[u] + multiset(s.found)[u]
  }

  /** Each reset buys one push and `Limit` retries; the current record has used some of its retries. */
  predicate WithinBudget(cfg: JobConfig, s: Sys, u: Url) {
    if u in s.core.store then
      s.pushes[Entry(cfg.id, u)] + Limit(cfg)
        <= Allowance(Resets(s, u), Limit(cfg)) + Min(s.core.store[u].attempts, Limit(cfg))
    else
      s.pushes[Entry(cfg.id, u)] == 0
  }

  ghost predicate Budget(cfg: JobConfig, s: Sys) {
    && (forall u :: WithinBudget(cfg, s, u))
    && (forall u :: multiset(s.found)[u] <= 1)
    && (forall u :: u in s.found || u in s.seeded ==> u in s.core.store)
    && (!s.core.stopping ==> forall u :: u in s.core.store ==> Entry(cfg.id, u) in s.pushes)
  }

  /** Per handler and resource: delivered + started calls = successful results. */
  ghost predicate Delivery(s: Sys) {
    && s.core.finished == |Successes(s.log)|
    && (forall c :: c in s.core.calls ==> c.handler < |s.boxes|)
    && forall h: nat, r :: h < |s.boxes| ==> Delivered(s, h, r)
  }

  /** Handler `h` holds `r`, or is going to be handed it, as often as it was a successful result. */
  ghost predicate Delivered(s: Sys, h: nat, r: Resource)
    requires h < |s.boxes|
  {
    multiset(s.boxes[h])[r] + s.core.calls[Call(h, r)] == Successes(s.log)[r]
  }

  /** Results handed to halted calls are still in flight. */
  ghost predicate Reserved(s: Sys) {
    forall e :: HeldBy(s.halted, e) <= s.inFlight[e]
  }

  /** A call waits to receive on the shutdown channel. */
  ghost predicate SomeWait(s: Sys) {
    exists k :: 0 <= k < |s.halted| && s.halted[k].turn == Waits
  }

  /** Calls halt and requests are refused only while stopping, a call of `Shutdown` gets past the channel only over
      an empty queue, and a call waits to receive only over an empty queue with nobody sending. */
  ghost predicate Shutting(s: Sys) {
    && (s.core.senders > 0 || s.halted != [] || s.refused != {} ==> s.core.stopping)
    && (s.core.released > 0 || s.core.finalized > 0 ==> s.core.stopping && s.core.queue == [])
    && (SomeWait(s) ==> Stalls(s.core))
  }

  ghost predicate Inv(cfg: JobConfig, s: Sys) {
    && Known(cfg, s) && Ledger(s) && Conserved(s) && AllCoherent(cfg, s) && Budget(cfg, s) && Delivery(s)
    && Reserved(s) && Shutting(s)
  }

  lemma CompletionsAppend(log: seq<Resource>, r: Resource, e: Entry)
    ensures Completions(log + [r], e) == Completions(log, e) + if EntryOf(r) == e then 1 else 0
  {
    assert (log + [r])[..|log|] == log;
  }

  lemma CountAppend(q: seq<Entry>, x: Entry, e: Entry)
    ensures Count(q + [x], e) == Count(q, e) + if x == e then 1 else 0
  {
    assert (q + [x])[..|q|] == q;
  }

  lemma {:induction false} CountHead(q: seq<Entry>, e: Entry)
    requires q != []
    ensures Count(q, e) == Count(q[1..], e) + if q[0] == e then 1 else 0
  {
    if |q| > 1 {
      CountHead(q[..|q| - 1], e);
      assert q[..|q| - 1][1..] == q[1..][..|q| - 2];
    }
  }

  lemma SuccessesAppend(log: seq<Resource>, r: Resource)
    ensures Successes(log + [r]) == Successes(log) + if OkStatus(r.status) then multiset{r} else multiset{}
  {
    assert (log + [r])[..|log|] == log;
  }

  lemma LastStatusAppend(log: seq<Resource>, r: Resource, u: Url)
    ensures LastStatus(log + [r], u) == if r.url == u then Some(r.status) else LastStatus(log, u)
  {
    assert (log + [r])[..|log|] == log;
  }

  /** One copy more, or none: what enqueueing does to the copies. */
  function Copies(refused: bool): nat {
    if refused then 0 else 1
  }

  lemma EnqueueCopies(s: Sys, u: Url, rec: Record, e: Entry)
    ensures var t := WithCore(s, Enqueue(s.core, u, rec));
            var more := if Entry(rec.jobID, u) == e then Copies(s.core.stopping) else 0;
            Outstanding(t, e) == Outstanding(s, e) + more && t.pushes[e] == s.pushes[e] + more
  {
    CountAppend(s.core.queue, Entry(rec.jobID, u), e);
  }

  lemma BlankEnqueueKeepsKnown(cfg: JobConfig, s: Sys, u: Url)
    requires Known(cfg, s)
    ensures Known(cfg, WithCore(s, Enqueue(s.core, u, NewRecord(cfg.id))))
  {
    var t := WithCore(s, Enqueue(s.core, u, NewRecord(cfg.id)));
    forall e | Outstanding(t, e) > 0
      ensures e.jobID == cfg.id && e.url in t.core.store
    {
      EnqueueCopies(s, u, NewRecord(cfg.id), e);
    }
  }

  lemma BlankEnqueueKeepsCounts(cfg: JobConfig, s: Sys, u: Url)
    requires Ledger(s) && Conserved(s)
    ensures var t := WithCore(s, Enqueue(s.core, u, NewRecord(cfg.id)));
            Ledger(t) && Conserved(t)
  {
    var t := WithCore(s, Enqueue(s.core, u, NewRecord(cfg.id)));
    SumAppend(s.core.changes, 1);
    forall e
      ensures t.pushes[e] == Outstanding(t, e) + Completions(t.log, e)
    {
      EnqueueCopies(s, u, NewRecord(cfg.id), e);
    }
  }

  /** `t` is `s` after a blank record for `u` has been enqueued and counted in `seeded` or `found`. */
  ghost predicate BlankEnqueued(cfg: JobConfig, s: Sys, u: Url, t: Sys) {
    && t == WithCore(s, Enqueue(s.core, u, NewRecord(cfg.id))).(
              todo := t.todo, seeded := t.seeded, found := t.found, refused := RefusedAfter(s, u, true))
    && ((t.seeded == s.seeded + [u] && t.found == s.found)
        || (t.seeded == s.seeded && t.found == s.found + [u] && u !in s.core.store))
  }

  lemma BlankEnqueueKeepsCoherence(cfg: JobConfig, s: Sys, u: Url, t: Sys)
    requires AllCoherent(cfg, s) && BlankEnqueued(cfg, s, u, t)
    ensures AllCoherent(cfg, t)
  {
    forall v | v in t.core.store
      ensures Coherent(cfg, t, v)
    {
      EnqueueCopies(s, u, NewRecord(cfg.id), Entry(cfg.id, v));
      if v != u {
        assert Coherent(cfg, s, v);
      }
    }
  }

  lemma BlankEnqueueResets(cfg: JobConfig, s: Sys, u: Url, t: Sys, v: Url)
    requires BlankEnqueued(cfg, s, u, t)
    ensures Resets(t, v) == Resets(s, v) + if u == v then 1 else 0
  {
  }

  /** A URL within its budget has pushed at most what its resets allow. */
  lemma WithinAllowance(cfg: JobConfig, s: Sys, u: Url)
    requires WithinBudget(cfg, s, u)
    ensures s.pushes[Entry(cfg.id, u)] <= Allowance(Resets(s, u), Limit(cfg))
  {
  }

  lemma BlankEnqueueKeepsOwnBudget(cfg: JobConfig, s: Sys, u: Url, t: Sys)
    requires s.pushes[Entry(cfg.id, u)] <= Allowance(Resets(s, u), Limit(cfg)) && BlankEnqueued(cfg, s, u, t)
    ensures WithinBudget(cfg, t, u)
  {
    assert t.pushes[Entry(cfg.id, u)] <= s.pushes[Entry(cfg.id, u)] + 1 by {
      EnqueueCopies(s, u, NewRecord(cfg.id), Entry(cfg.id, u));
    }
    assert Resets(t, u) == Resets(s, u) + 1 by {
      BlankEnqueueResets(cfg, s, u, t, u);
    }
    assert u in t.core.store && t.core.store[u].attempts == 0;
  }

  /** The budget of a URL looks at its pushes, its stored attempts and its resets only. */
  lemma BudgetCarriesOver(cfg: JobConfig, s: Sys, t: Sys, v: Url, more: nat)
    requires WithinBudget(cfg, s, v) && Resets(t, v) == Resets(s, v)
    requires v in t.core.store <==> v in s.core.store
    requires t.pushes[Entry(cfg.id, v)] == s.pushes[Entry(cfg.id, v)] + more
    requires v !in s.core.store ==> more == 0
    requires v in s.core.store ==>
               Min(s.core.store[v].attempts, Limit(cfg)) + more <= Min(t.core.store[v].attempts, Limit(cfg))
    ensures WithinBudget(cfg, t, v)
  {
  }

  lemma BlankEnqueueKeepsOtherBudget(cfg: JobConfig, s: Sys, u: Url, t: Sys, v: Url)
    requires v != u && WithinBudget(cfg, s, v) && BlankEnqueued(cfg, s, u, t)
    ensures WithinBudget(cfg, t, v)
  {
    EnqueueCopies(s, u, NewRecord(cfg.id), Entry(cfg.id, v));
    BlankEnqueueResets(cfg, s, u, t, v);
    BudgetCarriesOver(cfg, s, t, v, 0);
  }

  lemma BlankEnqueueKeepsBudget(cfg: JobConfig, s: Sys, u: Url, t: Sys)
    requires Budget(cfg, s) && BlankEnqueued(cfg, s, u, t)
    ensures Budget(cfg, t)
  {
    forall v
      ensures WithinBudget(cfg, t, v)
    {
      assert WithinBudget(cfg, s, v);
      if v == u {
        WithinAllowance(cfg, s, u);
        BlankEnqueueKeepsOwnBudget(cfg, s, u, t);
      } else {
        BlankEnqueueKeepsOtherBudget(cfg, s, u, t, v);
      }
    }
    forall v | !t.core.stopping && v in t.core.store
      ensures Entry(cfg.id, v) in t.pushes
    {
      EnqueueCopies(s, u, NewRecord(cfg.id), Entry(cfg.id, v));
    }
  }

  lemma BlankEnqueueKeepsShutting(cfg: JobConfig, s: Sys, u: Url, t: Sys)
    requires Shutting(s) && Reserved(s) && BlankEnqueued(cfg, s, u, t)
    ensures Shutting(t) && Reserved(t)
  {
    assert t.halted == s.halted && t.inFlight == s.inFlight;
  }

  /** Counting copies does not look at which seeds and links a URL came from. */
  lemma OriginsDoNotMatter(cfg: JobConfig, w: Sys, t: Sys)
    requires Known(cfg, w) && Ledger(w) && Conserved(w)
    requires t == w.(todo := t.todo, seeded := t.seeded, found := t.found, refused := t.refused)
    ensures Known(cfg, t) && Ledger(t) && Conserved(t)
  {
    assert forall e :: Outstanding(t, e) == Outstanding(w, e);
  }

  lemma BlankEnqueueKeepsCopies(cfg: JobConfig, s: Sys, u: Url, t: Sys)
    requires Known(cfg, s) && Ledger(s) && Conserved(s) && BlankEnqueued(cfg, s, u, t)
    ensures Known(cfg, t) && Ledger(t) && Conserved(t)
  {
    var w := WithCore(s, Enqueue(s.core, u, NewRecord(cfg.id)));
    assert Known(cfg, w) by {
      BlankEnqueueKeepsKnown(cfg, s, u);
    }
    assert Ledger(w) && Conserved(w) by {
      BlankEnqueueKeepsCounts(cfg, s, u);
    }
    OriginsDoNotMatter(cfg, w, t);
  }

  lemma BlankEnqueueKeeps(cfg: JobConfig, s: Sys, u: Url, t: Sys)
    requires Inv(cfg, s) && BlankEnqueued(cfg, s, u, t)
    ensures Inv(cfg, t)
  {
    BlankEnqueueKeepsCopies(cfg, s, u, t);
    BlankEnqueueKeepsCoherence(cfg, s, u, t);
    BlankEnqueueKeepsBudget(cfg, s, u, t);
    BlankEnqueueKeepsShutting(cfg, s, u, t);
    SameDelivery(s, t);
  }

  lemma SeedKeeps(cfg: JobConfig, s: Sys)
    requires Inv(cfg, s) && s.todo != []
    ensures Inv(cfg, OnSeed(cfg, s))
  {
    BlankEnqueueKeeps(cfg, s, s.todo[0], OnSeed(cfg, s));
  }

  lemma LinkKeeps(cfg: JobConfig, s: Sys, u: Url)
    requires Inv(cfg, s)
    ensures Inv(cfg, OnLink(cfg, s, u))
  {
    if u !in s.core.store {
      BlankEnqueueKeeps(cfg, s, u, OnLink(cfg, s, u));
    }
  }

  /** The invariants about copies carry over when copies only move. */
  lemma SameCopies(cfg: JobConfig, s: Sys, t: Sys)
    requires Known(cfg, s) && Ledger(s) && Conserved(s) && AllCoherent(cfg, s)
    requires t.core.store == s.core.store && t.core.stopping == s.core.stopping
    requires t.core.processing + Sum(t.core.changes) == s.core.processing + Sum(s.core.changes)
    requires AllOutstanding(t) == AllOutstanding(s)
    requires forall e :: Outstanding(t, e) == Outstanding(s, e)
    requires t.pushes == s.pushes && t.log == s.log && t.refused == s.refused
    ensures Known(cfg, t) && Ledger(t) && Conserved(t) && AllCoherent(cfg, t)
  {
    forall v | v in t.core.store
      ensures Coherent(cfg, t, v)
    {
      assert Coherent(cfg, s, v);
    }
  }

  lemma SameBudget(cfg: JobConfig, s: Sys, t: Sys)
    requires Budget(cfg, s)
    requires t.core.store == s.core.store && (s.core.stopping ==> t.core.stopping)
    requires t.pushes == s.pushes && t.seeded == s.seeded && t.found == s.found
    ensures Budget(cfg, t)
  {
    forall v
      ensures WithinBudget(cfg, t, v)
    {
      assert WithinBudget(cfg, s, v);
    }
  }

  lemma SameDelivery(s: Sys, t: Sys)
    requires Delivery(s)
    requires t.core.finished == s.core.finished && t.core.calls == s.core.calls && t.log == s.log && t.boxes == s.boxes
    ensures Delivery(t)
  {
    forall h: nat, r | h < |t.boxes|
      ensures Delivered(t, h, r)
    {
      assert Delivered(s, h, r);
    }
  }

  /** Is a result for `r` followed by a new attempt? */
  predicate Again(cfg: JobConfig, c: Core, r: Resource) {
    TriesAgain(cfg, c, r) && !c.stopping
  }

  /** A result in flight is for a stored URL of the job. */
  lemma InFlightIsKnown(cfg: JobConfig, s: Sys, r: Resource)
    requires Known(cfg, s) && EntryOf(r) in s.inFlight
    ensures Outstanding(s, EntryOf(r)) > 0 && r.jobID == cfg.id && r.url in s.core.store
  {
    assert Outstanding(s, EntryOf(r)) > 0;
  }

  /** What a judgement does to the queue. */
  lemma JudgeQueue(cfg: JobConfig, handlers: nat, c: Core, r: Resource)
    requires r.url in c.store && c.store[r.url].jobID == r.jobID
    ensures var j := Judge(cfg, handlers, c, r);
            j.queue == if Again(cfg, c, r) then c.queue + [EntryOf(r)] else c.queue
  {
  }

  /** Taking a result back trades a copy in flight for a completion and perhaps a new copy. */
  lemma DequeueCopies(cfg: JobConfig, s: Sys, r: Resource, e: Entry)
    requires Known(cfg, s) && EntryOf(r) in s.inFlight
    ensures Outstanding(s, EntryOf(r)) > 0 && r.jobID == cfg.id && r.url in s.core.store
    ensures var t := OnDequeue(cfg, s, r);
            var more := if e == EntryOf(r) && Again(cfg, s.core, r) then 1 else 0;
            var less := if e == EntryOf(r) then 1 else 0;
            && Outstanding(t, e) == Outstanding(s, e) + more - less
            && t.pushes[e] == s.pushes[e] + more
            && Completions(t.log, e) == Completions(s.log, e) + less
  {
    InFlightIsKnown(cfg, s, r);
    JudgeQueue(cfg, |s.boxes|, s.core, r);
    CountAppend(s.core.queue, EntryOf(r), e);
    CompletionsAppend(s.log, r, e);
    var t := OnDequeue(cfg, s, r);
    assert t.core.queue == Judge(cfg, |s.boxes|, s.core, r).queue;
    assert t.inFlight[e] == s.inFlight[e] - (if e == EntryOf(r) then 1 else 0) && t.lost == s.lost;
  }

  /** What a judgement adds to the queue and to the pending changes. */
  lemma JudgeTotals(cfg: JobConfig, handlers: nat, c: Core, r: Resource)
    ensures var j := Judge(cfg, handlers, c, r);
            var more := if Again(cfg, c, r) then 1 else 0;
            && |j.queue| == |c.queue| + more && j.processing == c.processing
            && Sum(j.changes) == Sum(c.changes) + more
  {
    SumAppend(c.changes, 1);
  }

  lemma DequeueTotals(cfg: JobConfig, s: Sys, r: Resource)
    requires EntryOf(r) in s.inFlight
    ensures var t := OnDequeue(cfg, s, r);
            var more := if Again(cfg, s.core, r) then 1 else 0;
            && AllOutstanding(t) == AllOutstanding(s) + more - 1
            && t.core.processing + Sum(t.core.changes) == s.core.processing + Sum(s.core.changes) + more - 1
  {
    JudgeTotals(cfg, |s.boxes|, s.core, r);
    SumAppend(Judge(cfg, |s.boxes|, s.core, r).changes, -1);
    assert |OnDequeue(cfg, s, r).inFlight| == |s.inFlight| - 1;
  }

  /** A result changes no stored URL's job. */
  lemma DequeueKeepsJobs(cfg: JobConfig, s: Sys, r: Resource)
    requires Known(cfg, s) && r.url in s.core.store
    ensures var t := OnDequeue(cfg, s, r);
            && t.core.store.Keys == s.core.store.Keys
            && forall u :: u in t.core.store ==> t.core.store[u].jobID == cfg.id
  {
  }

  lemma DequeueKeepsKnown(cfg: JobConfig, s: Sys, r: Resource)
    requires Known(cfg, s) && EntryOf(r) in s.inFlight
    ensures Known(cfg, OnDequeue(cfg, s, r))
  {
    var t := OnDequeue(cfg, s, r);
    InFlightIsKnown(cfg, s, r);
    DequeueKeepsJobs(cfg, s, r);
    forall e | Outstanding(t, e) > 0
      ensures e.jobID == cfg.id && e.url in t.core.store
    {
      DequeueCopies(cfg, s, r, e);
      assert e.url in s.core.store.Keys;
    }
  }

  lemma DequeueKeepsCounts(cfg: JobConfig, s: Sys, r: Resource)
    requires Known(cfg, s) && Ledger(s) && Conserved(s) && EntryOf(r) in s.inFlight
    ensures Ledger(OnDequeue(cfg, s, r)) && Conserved(OnDequeue(cfg, s, r))
  {
    var t := OnDequeue(cfg, s, r);
    DequeueTotals(cfg, s, r);
    forall e
      ensures t.pushes[e] == Outstanding(t, e) + Completions(t.log, e)
    {
      DequeueCopies(cfg, s, r, e);
    }
  }

  lemma DequeueKeepsCoherence(cfg: JobConfig, s: Sys, r: Resource)
    requires Known(cfg, s) && AllCoherent(cfg, s) && EntryOf(r) in s.inFlight
    ensures AllCoherent(cfg, OnDequeue(cfg, s, r))
  {
    var t := OnDequeue(cfg, s, r);
    forall v | v in t.core.store
      ensures Coherent(cfg, t, v)
    {
      LastStatusAppend(s.log, r, v);
      DequeueCopies(cfg, s, r, Entry(cfg.id, v));
      if v != r.url {
        assert Coherent(cfg, s, v);
      }
    }
  }

  /** The stored attempts after a result. */
  lemma DequeueAttempts(cfg: JobConfig, s: Sys, r: Resource, v: Url)
    requires r.url in s.core.store
    ensures var t := OnDequeue(cfg, s, r);
            && (v in t.core.store <==> v in s.core.store)
            && (v in s.core.store ==>
                  t.core.store[v].attempts == s.core.store[v].attempts + if v == r.url then 1 else 0)
            && Resets(t, v) == Resets(s, v)
  {
  }

  lemma DequeueKeepsUrlBudget(cfg: JobConfig, s: Sys, r: Resource, v: Url)
    requires Known(cfg, s) && EntryOf(r) in s.inFlight && WithinBudget(cfg, s, v)
    ensures WithinBudget(cfg, OnDequeue(cfg, s, r), v)
  {
    var more := if Entry(cfg.id, v) == EntryOf(r) && Again(cfg, s.core, r) then 1 else 0;
    DequeueCopies(cfg, s, r, Entry(cfg.id, v));
    DequeueAttempts(cfg, s, r, v);
    BudgetCarriesOver(cfg, s, OnDequeue(cfg, s, r), v, more);
  }

  lemma DequeueKeepsBudget(cfg: JobConfig, s: Sys, r: Resource)
    requires Known(cfg, s) && Budget(cfg, s) && EntryOf(r) in s.inFlight
    ensures Budget(cfg, OnDequeue(cfg, s, r))
  {
    var t := OnDequeue(cfg, s, r);
    forall v
      ensures WithinBudget(cfg, t, v)
    {
      assert WithinBudget(cfg, s, v);
      DequeueKeepsUrlBudget(cfg, s, r, v);
    }
    forall v | !t.core.stopping && v in t.core.store
      ensures Entry(cfg.id, v) in t.pushes
    {
      DequeueCopies(cfg, s, r, Entry(cfg.id, v));
    }
  }

  lemma JudgeCalls(cfg: JobConfig, handlers: nat, c: Core, r: Resource)
    ensures var j := Judge(cfg, handlers, c, r);
            if OkStatus(r.status) then j.calls == c.calls + CallsFor(handlers, r) && j.finished == c.finished + 1
            else j.calls == c.calls && j.finished == c.finished
  {
  }

  lemma DequeueDelivers(cfg: JobConfig, s: Sys, r: Resource, h: nat, x: Resource)
    requires h < |s.boxes| && Delivered(s, h, x)
    ensures Delivered(OnDequeue(cfg, s, r), h, x)
  {
    JudgeCalls(cfg, |s.boxes|, s.core, r);
    SuccessesAppend(s.log, r);
    CallsForCount(|s.boxes|, r, h, x);
  }

  lemma DequeueCallsHandlers(cfg: JobConfig, s: Sys, r: Resource, c: Call)
    requires forall c :: c in s.core.calls ==> c.handler < |s.boxes|
    requires c in OnDequeue(cfg, s, r).core.calls
    ensures c.handler < |s.boxes|
  {
    JudgeCalls(cfg, |s.boxes|, s.core, r);
    CallsForCount(|s.boxes|, r, c.handler, c.rsc);
    assert c == Call(c.handler, c.rsc);
  }

  lemma DequeueKeepsDelivery(cfg: JobConfig, s: Sys, r: Resource)
    requires Delivery(s)
    ensures Delivery(OnDequeue(cfg, s, r))
  {
    var t := OnDequeue(cfg, s, r);
    JudgeCalls(cfg, |s.boxes|, s.core, r);
    SuccessesAppend(s.log, r);
    forall h: nat, x | h < |t.boxes|
      ensures Delivered(t, h, x)
    {
      assert Delivered(s, h, x);
      DequeueDelivers(cfg, s, r, h, x);
    }
    forall c | c in t.core.calls
      ensures c.handler < |t.boxes|
    {
      DequeueCallsHandlers(cfg, s, r, c);
    }
  }

  /** While stopping, a judgement leaves the queue alone, so the deferred part finds it as it was. */
  lemma DequeueKeepsShutting(cfg: JobConfig, s: Sys, r: Resource)
    requires Shutting(s)
    ensures Shutting(OnDequeue(cfg, s, r))
    ensures TurnOf(cfg, |s.boxes|, s.core, r) == Waits ==> Stalls(OnDequeue(cfg, s, r).core)
    ensures TurnOf(cfg, |s.boxes|, s.core, r) == Sends ==> OnDequeue(cfg, s, r).core.stopping
  {
    var j := Judge(cfg, |s.boxes|, s.core, r);
    assert j.stopping == s.core.stopping && j.senders == s.core.senders;
    assert j.released == s.core.released && j.finalized == s.core.finalized;
    assert s.core.stopping ==> j.queue == s.core.queue;
    assert OnDequeue(cfg, s, r).core == Deferred(cfg, j, r.url);
  }

  /** All that taking a result needs and keeps. Results held by halted calls are looked at by the caller. */
  ghost predicate DequeueInv(cfg: JobConfig, s: Sys) {
    && Known(cfg, s) && Ledger(s) && Conserved(s) && AllCoherent(cfg, s) && Budget(cfg, s) && Delivery(s)
    && Shutting(s)
  }

  lemma DequeueKeeps(cfg: JobConfig, s: Sys, r: Resource)
    requires DequeueInv(cfg, s) && EntryOf(r) in s.inFlight
    ensures DequeueInv(cfg, OnDequeue(cfg, s, r))
  {
    DequeueKeepsKnown(cfg, s, r);
    DequeueKeepsCounts(cfg, s, r);
    DequeueKeepsCoherence(cfg, s, r);
    DequeueKeepsBudget(cfg, s, r);
    DequeueKeepsDelivery(cfg, s, r);
    DequeueKeepsShutting(cfg, s, r);
  }

  lemma AnswersPrefix(s: Sys, init: seq<Resource>, r: Resource)
    requires Answers(s, init + [r])
    ensures Answers(s, init) && Completions(init, EntryOf(r)) < s.inFlight[EntryOf(r)]
  {
    forall e
      ensures Completions(init, e) + (if EntryOf(r) == e then 1 else 0) <= s.inFlight[e]
    {
      CompletionsAppend(init, r, e);
    }
  }

  lemma {:induction false} DequeuesLog(cfg: JobConfig, s: Sys, rscs: seq<Resource>)
    requires Answers(s, rscs)
    ensures OnDequeues(cfg, s, rscs).log == s.log + rscs
    ensures OnDequeues(cfg, s, rscs).halted == s.halted && OnDequeues(cfg, s, rscs).boxes == s.boxes
    ensures forall e :: OnDequeues(cfg, s, rscs).inFlight[e] == s.inFlight[e] - Completions(rscs, e)
  {
    if rscs != [] {
      var init, r := rscs[..|rscs| - 1], rscs[|rscs| - 1];
      assert rscs == init + [r];
      AnswersPrefix(s, init, r);
      DequeuesLog(cfg, s, init);
      var prior := OnDequeues(cfg, s, init);
      OnDequeuesLast(cfg, s, init, r);
      OneDequeueLog(cfg, prior, r);
      OneMoreLog(s, prior, OnDequeues(cfg, s, rscs), init, r);
    }
  }

  /** The history of one more result, in terms of the histories before and after it. */
  lemma OneMoreLog(s: Sys, prior: Sys, t: Sys, init: seq<Resource>, r: Resource)
    requires prior.log == s.log + init && t.log == prior.log + [r]
    requires forall e :: prior.inFlight[e] == s.inFlight[e] - Completions(init, e)
    requires forall e :: t.inFlight[e] + (if e == EntryOf(r) then 1 else 0) == prior.inFlight[e]
    ensures t.log == s.log + (init + [r])
    ensures forall e :: t.inFlight[e] == s.inFlight[e] - Completions(init + [r], e)
  {
    forall e
      ensures Completions(init + [r], e) == Completions(init, e) + if e == EntryOf(r) then 1 else 0
    {
      CompletionsAppend(init, r, e);
    }
  }

  lemma OnDequeuesLast(cfg: JobConfig, s: Sys, init: seq<Resource>, r: Resource)
    ensures OnDequeues(cfg, s, init + [r]) == OnDequeue(cfg, OnDequeues(cfg, s, init), r)
  {
    assert (init + [r])[..|init|] == init;
  }

  lemma OneDequeueLog(cfg: JobConfig, s: Sys, r: Resource)
    requires EntryOf(r) in s.inFlight
    ensures var t := OnDequeue(cfg, s, r);
            && t.log == s.log + [r] && t.halted == s.halted && t.boxes == s.boxes
            && forall e :: t.inFlight[e] == s.inFlight[e] - if e == EntryOf(r) then 1 else 0
  {
  }

  lemma {:induction false} AnswersAreKnown(cfg: JobConfig, s: Sys, rscs: seq<Resource>)
    requires Known(cfg, s) && Answers(s, rscs)
    ensures forall r :: r in rscs ==> r.jobID == cfg.id && r.url in s.core.store
  {
    if rscs != [] {
      var init, r := rscs[..|rscs| - 1], rscs[|rscs| - 1];
      assert rscs == init + [r];
      AnswersPrefix(s, init, r);
      AnswersAreKnown(cfg, s, init);
      assert Outstanding(s, EntryOf(r)) > 0;
    }
  }

  lemma {:induction false} DequeuesKeep(cfg: JobConfig, s: Sys, rscs: seq<Resource>)
    requires DequeueInv(cfg, s) && Answers(s, rscs)
    ensures DequeueInv(cfg, OnDequeues(cfg, s, rscs))
  {
    if rscs != [] {
      var init, r := rscs[..|rscs| - 1], rscs[|rscs| - 1];
      assert rscs == init + [r];
      AnswersPrefix(s, init, r);
      DequeuesKeep(cfg, s, init);
      assert EntryOf(r) in OnDequeues(cfg, s, init).inFlight by {
        DequeuesLog(cfg, s, init);
      }
      DequeueKeeps(cfg, OnDequeues(cfg, s, init), r);
    }
  }

  lemma {:induction false} LinksKeep(cfg: JobConfig, s: Sys, order: seq<Url>)
    requires Inv(cfg, s)
    ensures Inv(cfg, OnLinks(cfg, s, order))
    ensures OnLinks(cfg, s, order).log == s.log
  {
    if order != [] {
      LinksKeep(cfg, s, order[..|order| - 1]);
      LinkKeeps(cfg, OnLinks(cfg, s, order[..|order| - 1]), order[|order| - 1]);
    }
  }

  lemma {:induction false} CompletionsSplit(rscs: seq<Resource>, n: nat, e: Entry)
    requires n <= |rscs|
    ensures Completions(rscs, e) == Completions(rscs[..n], e) + Completions(rscs[n..], e)
    decreases |rscs|
  {
    if n == |rscs| {
      assert rscs[..n] == rscs;
    } else {
      var init := rscs[..|rscs| - 1];
      CompletionsSplit(init, n, e);
      assert init[..n] == rscs[..n] && init[n..] == rscs[n..][..|rscs| - n - 1];
    }
  }

  lemma HeldAppend(halted: seq<Halted>, call: Halted, e: Entry)
    ensures HeldBy(halted + [call], e) == HeldBy(halted, e) + Completions(call.rest, e)
  {
    assert (halted + [call])[..|halted|] == halted;
  }

  /** The calls without the last one, and without an earlier one. */
  lemma WithoutEarlier(halted: seq<Halted>, k: nat)
    requires k < |halted| - 1
    ensures var n := |halted| - 1;
            halted[..k] + halted[k + 1..] == halted[..n][..k] + halted[..n][k + 1..] + [halted[n]]
  {
  }

  lemma {:induction false} HeldWithout(halted: seq<Halted>, k: nat, e: Entry)
    requires k < |halted|
    ensures HeldBy(halted, e) == HeldBy(halted[..k] + halted[k + 1..], e) + Completions(halted[k].rest, e)
  {
    var n := |halted| - 1;
    if k == n {
      assert halted[..k] + halted[k + 1..] == halted[..n];
    } else {
      HeldWithout(halted[..n], k, e);
      WithoutEarlier(halted, k);
      HeldAppend(halted[..n][..k] + halted[..n][k + 1..], halted[n], e);
    }
  }

  lemma {:induction false} DequeuesKeepShutting(cfg: JobConfig, s: Sys, rscs: seq<Resource>)
    requires Shutting(s)
    ensures Shutting(OnDequeues(cfg, s, rscs))
  {
    if rscs != [] {
      var init := rscs[..|rscs| - 1];
      DequeuesKeepShutting(cfg, s, init);
      DequeueKeepsShutting(cfg, OnDequeues(cfg, s, init), rscs[|rscs| - 1]);
    }
  }

  /** A call that halts has just met a stalled channel, or has shut down. */
  lemma {:induction false} HaltMeans(cfg: JobConfig, s: Sys, rscs: seq<Resource>)
    requires Shutting(s) && forall r :: r in rscs ==> r.jobID == cfg.id
    ensures var turn := Course(cfg, |s.boxes|, s.core, rscs);
            var t := OnDequeues(cfg, s, rscs[..Taken(cfg, |s.boxes|, s.core, rscs)]);
            && (turn == Waits ==> Stalls(t.core))
            && (turn == Sends ==> t.core.stopping)
  {
    if rscs != [] {
      var init, r := rscs[..|rscs| - 1], rscs[|rscs| - 1];
      assert forall x :: x in init ==> x in rscs;
      if Course(cfg, |s.boxes|, s.core, init) != Goes {
        HaltMeans(cfg, s, init);
        assert rscs[..Taken(cfg, |s.boxes|, s.core, init)] == init[..Taken(cfg, |s.boxes|, s.core, init)];
      } else {
        assert rscs[..|rscs|] == rscs;
        DequeuesKeepShutting(cfg, s, init);
        DequeuesAreTheCoordinators(cfg, s, init);
        DequeueKeepsShutting(cfg, OnDequeues(cfg, s, init), r);
      }
    }
  }

  lemma AnswersTaken(s: Sys, rscs: seq<Resource>, n: nat)
    requires Answers(s, rscs) && n <= |rscs|
    ensures Answers(s, rscs[..n])
  {
    forall e
      ensures Completions(rscs[..n], e) <= s.inFlight[e]
    {
      CompletionsSplit(rscs, n, e);
    }
  }

  lemma MayReportAnswers(s: Sys, rscs: seq<Resource>)
    requires MayReport(s, rscs)
    ensures Answers(s, rscs)
  {
    forall e
      ensures Completions(rscs, e) <= s.inFlight[e]
    {
      assert HeldBy(s.halted, e) + Completions(rscs, e) <= s.inFlight[e];
    }
  }

  /** What the loop over resources leaves, with the call in `halted` if it has halted. */
  lemma CallTakes(cfg: JobConfig, s: Sys, rscs: seq<Resource>)
    requires DequeueInv(cfg, s) && MayReport(s, rscs)
    ensures var n := Taken(cfg, |s.boxes|, s.core, rscs);
            Answers(s, rscs[..n]) && DequeueInv(cfg, OnDequeues(cfg, s, rscs[..n]))
  {
    MayReportAnswers(s, rscs);
    AnswersTaken(s, rscs, Taken(cfg, |s.boxes|, s.core, rscs));
    DequeuesKeep(cfg, s, rscs[..Taken(cfg, |s.boxes|, s.core, rscs)]);
  }

  lemma CallReserves(cfg: JobConfig, s: Sys, rscs: seq<Resource>, links: set<Url>)
    requires MayReport(s, rscs)
    ensures var n := Taken(cfg, |s.boxes|, s.core, rscs);
            var t := OnDequeues(cfg, s, rscs[..n]);
            && Reserved(t)
            && Reserved(t.(halted := t.halted + [CallAfter(cfg, |s.boxes|, s.core, rscs, links)]))
  {
    var n := Taken(cfg, |s.boxes|, s.core, rscs);
    var call := CallAfter(cfg, |s.boxes|, s.core, rscs, links);
    var t := OnDequeues(cfg, s, rscs[..n]);
    MayReportAnswers(s, rscs);
    AnswersTaken(s, rscs, n);
    DequeuesLog(cfg, s, rscs[..n]);
    forall e
      ensures HeldBy(t.halted, e) <= t.inFlight[e] && HeldBy(t.halted + [call], e) <= t.inFlight[e]
    {
      assert HeldBy(s.halted, e) + Completions(rscs, e) <= s.inFlight[e];
      CompletionsSplit(rscs, n, e);
      HeldAppend(t.halted, call, e);
    }
  }

  /** Putting a halted call aside changes nothing else. */
  lemma HaltKeeps(cfg: JobConfig, t: Sys, call: Halted)
    requires DequeueInv(cfg, t) && t.core.stopping && (call.turn == Waits ==> Stalls(t.core))
    ensures DequeueInv(cfg, t.(halted := t.halted + [call]))
  {
    var u := t.(halted := t.halted + [call]);
    SameBudget(cfg, t, u);
    SameDelivery(t, u);
    assert forall e :: Outstanding(u, e) == Outstanding(t, e);
    SameCopies(cfg, t, u);
    if SomeWait(u) && !SomeWait(t) {
      assert call.turn == Waits;
    }
  }

  lemma CallKeeps(cfg: JobConfig, s: Sys, rscs: seq<Resource>, links: set<Url>, order: seq<Url>)
    requires DequeueInv(cfg, s) && MayReport(s, rscs)
    ensures Inv(cfg, OnCall(cfg, s, rscs, links, order))
  {
    var n := Taken(cfg, |s.boxes|, s.core, rscs);
    var t := OnDequeues(cfg, s, rscs[..n]);
    CallTakes(cfg, s, rscs);
    CallReserves(cfg, s, rscs, links);
    if Course(cfg, |s.boxes|, s.core, rscs) == Goes {
      LinksKeep(cfg, t, order);
    } else {
      MayReportAnswers(s, rscs);
      AnswersAreKnown(cfg, s, rscs);
      HaltMeans(cfg, s, rscs);
      HaltKeeps(cfg, t, CallAfter(cfg, |s.boxes|, s.core, rscs, links));
    }
  }

  /** A call that leaves `Shutdown` hands its unread results back for reporting. */
  lemma FreedReserves(cfg: JobConfig, s: Sys, k: nat)
    requires Reserved(s) && k < |s.halted| && s.core.released > 0
    ensures MayReport(Freed(s, k), s.halted[k].rest)
  {
    var t := Freed(s, k);
    forall e
      ensures HeldBy(t.halted, e) + Completions(s.halted[k].rest, e) <= t.inFlight[e]
    {
      HeldWithout(s.halted, k, e);
    }
  }

  lemma FreedShutting(s: Sys, k: nat)
    requires Shutting(s) && k < |s.halted| && s.core.released > 0
    ensures Shutting(Freed(s, k))
  {
    var t := Freed(s, k);
    assert forall i :: 0 <= i < |t.halted| ==> t.halted[i] == s.halted[if i < k then i else i + 1];
    assert SomeWait(t) ==> SomeWait(s);
  }

  lemma FreedKeeps(cfg: JobConfig, s: Sys, k: nat)
    requires Inv(cfg, s) && k < |s.halted| && s.core.released > 0
    ensures DequeueInv(cfg, Freed(s, k)) && MayReport(Freed(s, k), s.halted[k].rest)
  {
    var t := Freed(s, k);
    FreedReserves(cfg, s, k);
    FreedShutting(s, k);
    assert forall e :: Outstanding(t, e) == Outstanding(s, e);
    SameCopies(cfg, s, t);
    SameBudget(cfg, s, t);
    SameDelivery(s, t);
  }

  lemma DeliverMovesNothing(cfg: JobConfig, s: Sys, c: Call)
    ensures var t := Next(cfg, s, Deliver(c));
            && t == s.(core := s.core.(calls := t.core.calls), boxes := t.boxes)
            && AllOutstanding(t) == AllOutstanding(s)
            && forall e :: Outstanding(t, e) == Outstanding(s, e)
  {
  }

  lemma DeliverKeeps(cfg: JobConfig, s: Sys, c: Call)
    requires Inv(cfg, s) && c in s.core.calls && c.handler < |s.boxes|
    ensures Inv(cfg, Next(cfg, s, Deliver(c)))
  {
    var t := Next(cfg, s, Deliver(c));
    DeliverMovesNothing(cfg, s, c);
    DeliverKeepsDelivery(cfg, s, c);
    DeliveredKeeps(cfg, s, t);
  }

  /** All but delivery itself is untouched when a call runs. */
  lemma DeliveredKeeps(cfg: JobConfig, s: Sys, t: Sys)
    requires Inv(cfg, s) && Delivery(t)
    requires t == s.(core := s.core.(calls := t.core.calls), boxes := t.boxes)
    requires AllOutstanding(t) == AllOutstanding(s) && forall e :: Outstanding(t, e) == Outstanding(s, e)
    ensures Inv(cfg, t)
  {
    SameCopies(cfg, s, t);
    SameBudget(cfg, s, t);
    assert Reserved(t) && Shutting(t);
  }

  lemma DeliverDelivers(cfg: JobConfig, s: Sys, c: Call, h: nat, r: Resource)
    requires c in s.core.calls && c.handler < |s.boxes| && h < |s.boxes| && Delivered(s, h, r)
    ensures Delivered(Next(cfg, s, Deliver(c)), h, r)
  {
    BoxTakesCall(s.boxes[c.handler], s.core.calls, c, h, r);
  }

  /** One handler call moves one resource from the started calls to its box. */
  lemma BoxTakesCall(box: seq<Resource>, calls: multiset<Call>, c: Call, h: nat, r: Resource)
    requires c in calls
    ensures var one := if c == Call(h, r) then 1 else 0;
            && (calls - multiset{c})[Call(h, r)] == calls[Call(h, r)] - one
            && (h == c.handler ==> multiset(box + [c.rsc])[r] == multiset(box)[r] + one)
  {
    assert multiset(box + [c.rsc]) == multiset(box) + multiset{c.rsc};
  }

  lemma DeliverKeepsDelivery(cfg: JobConfig, s: Sys, c: Call)
    requires Delivery(s) && c in s.core.calls && c.handler < |s.boxes|
    ensures Delivery(Next(cfg, s, Deliver(c)))
  {
    var t := Next(cfg, s, Deliver(c));
    forall h: nat, r | h < |t.boxes|
      ensures Delivered(t, h, r)
    {
      assert Delivered(s, h, r);
      DeliverDelivers(cfg, s, c, h, r);
    }
  }

  /** Steps that leave requests, results and statuses alone and never clear the flag. */
  lemma SignalKeeps(cfg: JobConfig, s: Sys, t: Sys)
    requires Inv(cfg, s) && Shutting(t)
    requires t.core == s.core.(stopping := t.core.stopping, senders := t.core.senders,
                               released := t.core.released, finalized := t.core.finalized)
    requires t == s.(core := t.core, outside := t.outside) && (s.core.stopping ==> t.core.stopping)
    ensures Inv(cfg, t)
  {
    SameBudget(cfg, s, t);
    SameDelivery(s, t);
    assert forall e :: Outstanding(t, e) == Outstanding(s, e);
    forall v | v in t.core.store
      ensures Coherent(cfg, t, v)
    {
      assert Coherent(cfg, s, v);
    }
  }

  lemma PopMoves(cfg: JobConfig, s: Sys, e: Entry)
    requires s.core.queue != []
    ensures Outstanding(Next(cfg, s, Pop), e) == Outstanding(s, e)
    ensures AllOutstanding(Next(cfg, s, Pop)) == AllOutstanding(s)
  {
    CountHead(s.core.queue, e);
  }

  lemma LoseMoves(cfg: JobConfig, s: Sys, x: Entry, e: Entry)
    requires x in s.inFlight
    ensures Outstanding(Next(cfg, s, Lose(x)), e) == Outstanding(s, e)
    ensures AllOutstanding(Next(cfg, s, Lose(x))) == AllOutstanding(s)
  {
  }

  /** Pops and losses take nothing from halted calls. */
  lemma QuietStepReserves(cfg: JobConfig, s: Sys, e: Event)
    requires Reserved(s) && Shutting(s) && Enabled(cfg, s, e) && (e.Pop? || e.Lose? || e.Apply?)
    ensures Reserved(Next(cfg, s, e)) && Shutting(Next(cfg, s, e))
  {
    var t := Next(cfg, s, e);
    assert t.halted == s.halted;
    forall x
      ensures HeldBy(t.halted, x) <= t.inFlight[x]
    {
      assert HeldBy(s.halted, x) <= s.inFlight[x];
    }
  }

  /** Steps that move copies around, or move a change from the channel to the counter. */
  lemma QuietStepKeeps(cfg: JobConfig, s: Sys, e: Event)
    requires Inv(cfg, s) && Enabled(cfg, s, e)
    requires e.Pop? || e.Lose? || e.Apply?
    ensures Inv(cfg, Next(cfg, s, e))
  {
    var t := Next(cfg, s, e);
    QuietStepReserves(cfg, s, e);
    QuietStepMoves(cfg, s, e);
    QuietStepTouches(cfg, s, e);
    SameCopies(cfg, s, t);
    SameBudget(cfg, s, t);
    SameDelivery(s, t);
  }

  lemma QuietStepTouches(cfg: JobConfig, s: Sys, e: Event)
    requires e.Pop? || e.Lose? || e.Apply?
    ensures var t := Next(cfg, s, e);
            && t == s.(core := t.core, inFlight := t.inFlight, lost := t.lost)
            && t.core == s.core.(queue := t.core.queue, processing := t.core.processing, changes := t.core.changes)
  {
  }

  lemma QuietStepMoves(cfg: JobConfig, s: Sys, e: Event)
    requires Enabled(cfg, s, e) && (e.Pop? || e.Lose? || e.Apply?)
    ensures var t := Next(cfg, s, e);
            && (forall x :: Outstanding(t, x) == Outstanding(s, x))
            && AllOutstanding(t) == AllOutstanding(s)
            && t.core.processing + Sum(t.core.changes) == s.core.processing + Sum(s.core.changes)
  {
    var t := Next(cfg, s, e);
    match e
    case Pop =>
      forall x
        ensures Outstanding(t, x) == Outstanding(s, x)
      {
        PopMoves(cfg, s, x);
      }
      PopMoves(cfg, s, s.core.queue[0]);
    case Lose(y) =>
      forall x
        ensures Outstanding(t, x) == Outstanding(s, x)
      {
        LoseMoves(cfg, s, y, x);
      }
      LoseMoves(cfg, s, y, y);
    case Apply => SumHead(s.core.changes);
  }

  lemma StepKeeps(cfg: JobConfig, s: Sys, e: Event)
    requires Inv(cfg, s) && Enabled(cfg, s, e)
    ensures Inv(cfg, Next(cfg, s, e))
  {
    match e
    case Seed => SeedKeeps(cfg, s);
    case Complete(rscs, order) => CallKeeps(cfg, s, rscs, {}, order);
    case Deliver(call) => DeliverKeeps(cfg, s, call);
    case Scan => SignalKeeps(cfg, s, OnShutdown(s));
    case Stop => SignalKeeps(cfg, s, OnShutdown(s));
    case Resume(k, order) =>
      FreedKeeps(cfg, s, k);
      CallKeeps(cfg, Freed(s, k), s.halted[k].rest, s.halted[k].links, order);
    case Finish => SignalKeeps(cfg, s, Next(cfg, s, Finish));
    case _ => QuietStepKeeps(cfg, s, e);
  }

  /** Status coherence, conservation, the ledger, the retry budget, delivery and the state of a shutdown hold after
      every run. */
  lemma {:induction false} RunKeeps(cfg: JobConfig, seeds: seq<Url>, handlers: nat, run: seq<Event>)
    requires Legal(cfg, Init(seeds, handlers), run)
    ensures Inv(cfg, After(cfg, Init(seeds, handlers), run))
  {
    if run != [] {
      RunKeeps(cfg, seeds, handlers, run[..|run| - 1]);
      StepKeeps(cfg, After(cfg, Init(seeds, handlers), run[..|run| - 1]), run[|run| - 1]);
    }
  }
}
