/** The coordinator under full interleaving: any number of goroutines inside `CompletedResources`,
    `enqueue`, `dequeue`, `Shutdown`, the seed loop and the done scan, each advancing by one shared
    access at a time. Requests are references into a heap, as in the Go code. */
module Interleaving {
  import opened Wrappers
  import opened CrawlTypes
  import opened JobRules
  import opened CoordinatorSpec

  /** One `Request` object. */
  datatype Req = Req(url: Url, rec: Record)

  /** The resource a `dequeue` works on, with the rest of the call's resources and the links collected so far. */
  datatype Frame = Frame(r: Resource, rest: seq<Resource>, links: set<Url>)

  /** Where a goroutine stands. `next` is where it goes on when the current call returns. */
  datatype Thread =
    | Idle                                            // returned
    | Batch(todo: seq<Resource>, links: set<Url>)     // head of the loop over resources
    | Judging(f: Frame, ref: nat)                     // holds the request, result not recorded yet
    | Debiting(f: Frame)                              // about to send -1
    | Checking(f: Frame)                              // -1 sent; about to test stopping and queue length
    | Receiving(f: Frame)                             // blocked on <-shutdown
    | Comparing(f: Frame)                             // about to compare with the stop URL
    | Linking(links: set<Url>)                        // head of the loop over links
    | Seeding(urls: seq<Url>)                         // head of the loop over seeds
    | Testing(ref: nat, next: Thread)                 // enqueue: about to test stopping
    | Storing(ref: nat, push: bool, next: Thread)     // enqueue: tested, about to store with its new status
    | Pushing(ref: nat, next: Thread)                 // enqueue: stored, about to push
    | Crediting(next: Thread)                         // enqueue: pushed, about to send +1
    | Raising(next: Thread)                           // Shutdown: about to set stopping
    | Measuring(next: Thread)                         // Shutdown: about to read the queue length
    | Sending(next: Thread)                           // Shutdown: blocked on shutdown <- true
    | Finalizing(next: Thread)                        // Shutdown: about to cancel and finalize handlers
    | Scanning                                        // done scan: about to read the queue length
    | Counting                                        // done scan: queue was empty, about to read the counter

  /** Everything goroutines share, and the history: pushes made, results taken up. */
  datatype Shared = Shared(
    heap: seq<Req>,
    store: map<Url, nat>,
    queue: seq<nat>,
    processing: int,
    changes: seq<int>,
    stopping: bool,
    finalized: nat,
    finished: nat,
    seeds: seq<Url>,
    pushes: seq<Url>,
    log: seq<Resource>)

  datatype State = State(sh: Shared, threads: seq<Thread>)

  datatype Action =
    | Run(i: nat, link: Url)            // goroutine i makes one access; `link` is its choice among links
    | Meet(sender: nat, receiver: nat)  // the rendezvous on the shutdown channel
    | Apply                             // the background loop applies one counter change
    | Pop                               // a worker takes a request
    | Report(rscs: seq<Resource>)       // a worker calls CompletedResources
    | Seed(urls: seq<Url>)              // a seed loop starts
    | Tick                              // the done scan ticks
    | CallShutdown                      // someone calls Shutdown

  /** `processingChanges` is made with room for 8. */
  const CHANGES_CAPACITY := 8

  function At(heap: seq<Req>, ref: nat): Req {
    if ref < |heap| then heap[ref] else Req("", NewRecord(""))
  }

  function With(heap: seq<Req>, ref: nat, rec: Record): seq<Req> {
    if ref < |heap| then heap[ref := heap[ref].(rec := rec)] else heap
  }

  /** Requests are stored under their own URL. */
  ghost predicate Wired(sh: Shared) {
    forall u :: u in sh.store ==> sh.store[u] < |sh.heap| && sh.heap[sh.store[u]].url == u
  }

  function Init(): State {
    State(Shared([], map[], [], 0, [], false, 0, 0, [], [], []), [])
  }

  /** The thread resumes its loop over resources, with the links of the resource just dequeued. */
  ghost function Resume(cfg: JobConfig, f: Frame): Thread {
    Batch(f.rest, f.links + LinksOf(cfg, [f.r]))
  }

  /** May the goroutine make its next access now? */
  predicate Unblocked(sh: Shared, t: Thread, link: Url) {
    match t
    case Idle => false
    case Receiving(_) => false
    case Sending(_) => false
    case Debiting(_) => |sh.changes| < CHANGES_CAPACITY
    case Crediting(_) => |sh.changes| < CHANGES_CAPACITY
    case Linking(links) => links == {} || link in links
    case _ => true
  }

  /** `dequeue` looks its request up, or makes one. */
  function TakeUp(cfg: JobConfig, sh: Shared, todo: seq<Resource>, links: set<Url>): (Shared, Thread)
    requires todo != []
  {
    var r, rest := todo[0], todo[1..];
    if r.jobID != cfg.id then (sh, Batch(rest, links))
    else if r.url in sh.store then
      (sh.(log := sh.log + [r]), Judging(Frame(r, rest, links), sh.store[r.url]))
    else
      (sh.(log := sh.log + [r], heap := sh.heap + [Req(r.url, NewRecord(""))]),
       Judging(Frame(r, rest, links), |sh.heap|))
  }

  /** `dequeue` records the result in the request it holds. */
  function Settle(cfg: JobConfig, sh: Shared, f: Frame, ref: nat): (Shared, Thread) {
    var q := At(sh.heap, ref);
    var rec := q.rec.(prevStatus := f.r.status, attempts := q.rec.attempts + 1);
    if OkStatus(f.r.status) then
      (sh.(heap := With(sh.heap, ref, rec.(status := Done)), finished := sh.finished + 1), Debiting(f))
    else if rec.attempts <= cfg.maxAttempts then
      (sh.(heap := With(sh.heap, ref, rec)), Testing(ref, Debiting(f)))
    else
      (sh.(heap := With(sh.heap, ref, rec.(status := Failed)), store := sh.store[q.url := ref]), Debiting(f))
  }

  /** `enqueue` sets the status and stores the request; what follows depends on the earlier test. */
  function Stored(sh: Shared, ref: nat, push: bool, next: Thread): (Shared, Thread) {
    var q := At(sh.heap, ref);
    (sh.(heap := With(sh.heap, ref, q.rec.(status := if push then Queued else Failed)),
         store := sh.store[q.url := ref]),
     if push then Pushing(ref, next) else next)
  }

  /** A blank request for `url`, about to be enqueued. */
  function Fresh(cfg: JobConfig, sh: Shared, url: Url, next: Thread): (Shared, Thread) {
    (sh.(heap := sh.heap + [Req(url, NewRecord(cfg.id))]), Testing(|sh.heap|, next))
  }

  /** One access of one goroutine. */
  ghost function Move(cfg: JobConfig, sh: Shared, t: Thread, link: Url): (Shared, Thread) {
    match t
    case Batch(todo, links) => if todo == [] then (sh, Linking(links)) else TakeUp(cfg, sh, todo, links)
    case Judging(f, ref) => Settle(cfg, sh, f, ref)
    case Debiting(f) => (sh.(changes := sh.changes + [-1]), Checking(f))
    case Checking(f) => (sh, if sh.stopping && sh.queue == [] then Receiving(f) else Comparing(f))
    case Comparing(f) => (sh, if cfg.stopUrl == f.r.url then Raising(Resume(cfg, f)) else Resume(cfg, f))
    case Linking(links) =>
      if links == {} then (sh, Idle)
      else if link in sh.store then (sh, Linking(links - {link}))
      else Fresh(cfg, sh, link, Linking(links - {link}))
    case Seeding(urls) => if urls == [] then (sh, Idle) else Fresh(cfg, sh, urls[0], Seeding(urls[1..]))
    case Testing(ref, next) => (sh, Storing(ref, !sh.stopping, next))
    case Storing(ref, push, next) => Stored(sh, ref, push, next)
    case Pushing(ref, next) =>
      (sh.(queue := sh.queue + [ref], pushes := sh.pushes + [At(sh.heap, ref).url]), Crediting(next))
    case Crediting(next) => (sh.(changes := sh.changes + [1]), next)
    case Raising(next) => (sh.(stopping := true), Measuring(next))
    case Measuring(next) => (sh, if sh.queue != [] then Sending(next) else Finalizing(next))
    case Finalizing(next) => (sh.(finalized := sh.finalized + 1), next)
    case Scanning => (sh, if sh.queue == [] then Counting else Idle)
    case Counting => (sh, if sh.processing > 0 then Idle else Raising(Idle))
    case Idle => (sh, t)
    case Receiving(_) => (sh, t)
    case Sending(_) => (sh, t)
  }

  ghost predicate Enabled(s: State, a: Action) {
    match a
    case Run(i, link) => i < |s.threads| && Unblocked(s.sh, s.threads[i], link)
    case Meet(i, j) => i < |s.threads| && j < |s.threads| && s.threads[i].Sending? && s.threads[j].Receiving?
    case Apply => s.sh.changes != []
    case Pop => s.sh.queue != []
    case _ => true
  }

  ghost function Next(cfg: JobConfig, s: State, a: Action): State
    requires Enabled(s, a)
  {
    match a
    case Run(i, link) =>
      var (sh, t) := Move(cfg, s.sh, s.threads[i], link);
      State(sh, s.threads[i := t])
    case Meet(i, j) =>
      s.(threads := s.threads[i := Finalizing(s.threads[i].next)][j := Comparing(s.threads[j].f)])
    case Apply =>
      s.(sh := s.sh.(processing := s.sh.processing + s.sh.changes[0], changes := s.sh.changes[1..]))
    case Pop => s.(sh := s.sh.(queue := s.sh.queue[1..]))
    case Report(rscs) => s.(threads := s.threads + [Batch(rscs, {})])
    case Seed(urls) => State(s.sh.(seeds := s.sh.seeds + urls), s.threads + [Seeding(urls)])
    case Tick => s.(threads := s.threads + [Scanning])
    case CallShutdown => s.(threads := s.threads + [Raising(Idle)])
  }

  /** `trace` holds the states of a run: each follows from the one before by the action between them. */
  ghost predicate IsRun(cfg: JobConfig, trace: seq<State>, acts: seq<Action>) {
    && |trace| == |acts| + 1
    && forall k :: 0 <= k < |acts| ==> Enabled(trace[k], acts[k]) && trace[k + 1] == Next(cfg, trace[k], acts[k])
  }

  /** Some run leads from `s` to `t`. */
  ghost predicate Reaches(cfg: JobConfig, s: State, t: State) {
    exists trace: seq<State>, acts: seq<Action> ::
      IsRun(cfg, trace, acts) && trace[0] == s && trace[|trace| - 1] == t
  }

  lemma ReachesItself(cfg: JobConfig, s: State)
    ensures Reaches(cfg, s, s)
  {
    var trace: seq<State>, acts: seq<Action> := [s], [];
    assert IsRun(cfg, trace, acts);
  }

  lemma ReachStep(cfg: JobConfig, s: State, t: State, a: Action)
    requires Reaches(cfg, s, t) && Enabled(t, a)
    ensures Reaches(cfg, s, Next(cfg, t, a))
  {
    var trace: seq<State>, acts: seq<Action> :| IsRun(cfg, trace, acts) && trace[0] == s && trace[|trace| - 1] == t;
    var trace', acts' := trace + [Next(cfg, t, a)], acts + [a];
    assert IsRun(cfg, trace', acts');
    assert trace'[|trace'| - 1] == Next(cfg, t, a);
  }

  // ---------------------------------------------------------------- shape

  predicate Plain(t: Thread) {
    t.Idle? || t.Batch? || t.Debiting? || t.Linking? || t.Seeding?
  }

  /** Calls do not nest deeper than one: what a call returns to is a loop head or the deferred part of `dequeue`. */
  predicate Shaped(t: Thread) {
    match t
    case Testing(_, next) => Plain(next)
    case Storing(_, _, next) => Plain(next)
    case Pushing(_, next) => Plain(next)
    case Crediting(next) => Plain(next)
    case Raising(next) => Plain(next) && !next.Debiting?
    case Measuring(next) => Plain(next) && !next.Debiting?
    case Sending(next) => Plain(next) && !next.Debiting?
    case Finalizing(next) => Plain(next) && !next.Debiting?
    case _ => true
  }

  ghost predicate AllShaped(s: State) {
    forall i :: 0 <= i < |s.threads| ==> Shaped(s.threads[i])
  }

  lemma MoveShaped(cfg: JobConfig, sh: Shared, t: Thread, link: Url)
    requires Shaped(t)
    ensures Shaped(Move(cfg, sh, t, link).1)
  {
  }

  lemma StepShaped(cfg: JobConfig, s: State, a: Action)
    requires AllShaped(s) && Enabled(s, a)
    ensures AllShaped(Next(cfg, s, a))
  {
    if a.Run? {
      MoveShaped(cfg, s.sh, s.threads[a.i], a.link);
    }
  }

  /** The request a goroutine holds, if any, is one of the first `n`. */
  predicate HoldsBelow(t: Thread, n: nat) {
    match t
    case Judging(_, ref) => ref < n
    case Testing(ref, _) => ref < n
    case Storing(ref, _, _) => ref < n
    case Pushing(ref, _) => ref < n
    case _ => true
  }

  /** Every reference is to a request that exists. */
  ghost predicate Linked(sh: Shared) {
    Wired(sh) && forall k :: 0 <= k < |sh.queue| ==> sh.queue[k] < |sh.heap|
  }

  ghost predicate Allocated(s: State) {
    Linked(s.sh) && forall i :: 0 <= i < |s.threads| ==> HoldsBelow(s.threads[i], |s.sh.heap|)
  }

  /** Requests are only ever added, and keep their URL; stored URLs stay stored. */
  ghost predicate Extends(sh: Shared, sh': Shared) {
    && |sh.heap| <= |sh'.heap|
    && (forall k :: 0 <= k < |sh.heap| ==> sh'.heap[k].url == sh.heap[k].url)
    && sh.store.Keys <= sh'.store.Keys
  }

  /** No request forgets an attempt. */
  ghost predicate Ages(sh: Shared, sh': Shared) {
    && |sh.heap| <= |sh'.heap|
    && forall k :: 0 <= k < |sh.heap| ==> sh.heap[k].rec.attempts <= sh'.heap[k].rec.attempts
  }

  lemma WriteAllocates(sh: Shared, ref: nat, rec: Record)
    requires Linked(sh) && At(sh.heap, ref).rec.attempts <= rec.attempts
    ensures var sh' := sh.(heap := With(sh.heap, ref, rec)); Linked(sh') && Extends(sh, sh') && Ages(sh, sh')
  {
  }

  lemma PutAllocates(sh: Shared, ref: nat, rec: Record)
    requires Linked(sh) && ref < |sh.heap| && sh.heap[ref].rec.attempts <= rec.attempts
    ensures var sh' := sh.(heap := With(sh.heap, ref, rec), store := sh.store[sh.heap[ref].url := ref]);
            Linked(sh') && Extends(sh, sh') && Ages(sh, sh')
  {
    WriteAllocates(sh, ref, rec);
  }

  lemma NewAllocates(sh: Shared, q: Req)
    requires Linked(sh)
    ensures var sh' := sh.(heap := sh.heap + [q]); Linked(sh') && Extends(sh, sh') && Ages(sh, sh')
  {
  }

  lemma SettleAllocates(cfg: JobConfig, sh: Shared, f: Frame, ref: nat)
    requires Linked(sh) && ref < |sh.heap|
    ensures var (sh', t') := Settle(cfg, sh, f, ref);
            Linked(sh') && HoldsBelow(t', |sh'.heap|) && Extends(sh, sh') && Ages(sh, sh')
  {
    var q := sh.heap[ref];
    var rec := q.rec.(prevStatus := f.r.status, attempts := q.rec.attempts + 1);
    if OkStatus(f.r.status) {
      WriteAllocates(sh, ref, rec.(status := Done));
    } else if rec.attempts <= cfg.maxAttempts {
      WriteAllocates(sh, ref, rec);
    } else {
      PutAllocates(sh, ref, rec.(status := Failed));
    }
  }

  lemma TakeUpAllocates(cfg: JobConfig, sh: Shared, todo: seq<Resource>, links: set<Url>)
    requires todo != [] && Linked(sh)
    ensures var (sh', t') := TakeUp(cfg, sh, todo, links);
            Linked(sh') && HoldsBelow(t', |sh'.heap|) && Extends(sh, sh') && Ages(sh, sh')
  {
    NewAllocates(sh, Req(todo[0].url, NewRecord("")));
  }

  lemma FreshAllocates(cfg: JobConfig, sh: Shared, url: Url, next: Thread)
    requires Linked(sh)
    ensures var (sh', t') := Fresh(cfg, sh, url, next);
            Linked(sh') && HoldsBelow(t', |sh'.heap|) && Extends(sh, sh') && Ages(sh, sh')
  {
    NewAllocates(sh, Req(url, NewRecord(cfg.id)));
  }

  lemma MoveAllocates(cfg: JobConfig, sh: Shared, t: Thread, link: Url)
    requires Linked(sh) && Shaped(t) && HoldsBelow(t, |sh.heap|)
    ensures var (sh', t') := Move(cfg, sh, t, link);
            Linked(sh') && HoldsBelow(t', |sh'.heap|) && Extends(sh, sh') && Ages(sh, sh')
  {
    match t
    case Batch(todo, links) =>
      if todo != [] {
        TakeUpAllocates(cfg, sh, todo, links);
      }
    case Judging(f, ref) => SettleAllocates(cfg, sh, f, ref);
    case Storing(ref, push, next) =>
      PutAllocates(sh, ref, sh.heap[ref].rec.(status := if push then Queued else Failed));
    case Linking(links) =>
      if links != {} && link !in sh.store {
        FreshAllocates(cfg, sh, link, Linking(links - {link}));
      }
    case Seeding(urls) =>
      if urls != [] {
        FreshAllocates(cfg, sh, urls[0], Seeding(urls[1..]));
      }
    case _ => PlainMoveAllocates(cfg, sh, t, link);
  }

  /** Accesses that touch neither the store nor the heap. */
  lemma PlainMoveAllocates(cfg: JobConfig, sh: Shared, t: Thread, link: Url)
    requires Linked(sh) && Shaped(t) && HoldsBelow(t, |sh.heap|)
    requires !t.Batch? && !t.Judging? && !t.Storing? && !t.Linking? && !t.Seeding?
    ensures var (sh', t') := Move(cfg, sh, t, link);
            Linked(sh') && HoldsBelow(t', |sh'.heap|) && Extends(sh, sh') && Ages(sh, sh')
  {
    var (sh', t') := Move(cfg, sh, t, link);
    assert sh'.heap == sh.heap && sh'.store == sh.store;
  }

  lemma StepAllocates(cfg: JobConfig, s: State, a: Action)
    requires Allocated(s) && AllShaped(s) && Enabled(s, a)
    ensures Allocated(Next(cfg, s, a)) && Extends(s.sh, Next(cfg, s, a).sh) && Ages(s.sh, Next(cfg, s, a).sh)
  {
    if a.Run? {
      MoveAllocates(cfg, s.sh, s.threads[a.i], a.link);
      assert forall k :: 0 <= k < |s.threads| ==> HoldsBelow(s.threads[k], |Next(cfg, s, a).sh.heap|);
    }
  }

  lemma {:induction false} RunAllocates(cfg: JobConfig, trace: seq<State>, acts: seq<Action>, k: nat)
    requires IsRun(cfg, trace, acts) && trace[0] == Init() && k < |trace|
    ensures AllShaped(trace[k]) && Allocated(trace[k])
  {
    if k > 0 {
      RunAllocates(cfg, trace, acts, k - 1);
      StepShaped(cfg, trace[k - 1], acts[k - 1]);
      StepAllocates(cfg, trace[k - 1], acts[k - 1]);
    }
  }

  // ---------------------------------------------------------------- the counter ledger

  /** The counter changes a goroutine still has to send. */
  function Owed(t: Thread): int {
    match t
    case Judging(_, _) => -1
    case Debiting(_) => -1
    case Testing(_, next) => Owed(next)
    case Storing(_, _, next) => Owed(next)
    case Pushing(_, next) => Owed(next)
    case Crediting(next) => 1 + Owed(next)
    case Raising(next) => Owed(next)
    case Measuring(next) => Owed(next)
    case Sending(next) => Owed(next)
    case Finalizing(next) => Owed(next)
    case _ => 0
  }

  /** The sum of a weight over all goroutines. */
  function Total(weight: Thread -> int, threads: seq<Thread>): int {
    if threads == [] then 0 else Total(weight, threads[..|threads| - 1]) + weight(threads[|threads| - 1])
  }

  lemma {:induction false} TotalUpdate(weight: Thread -> int, threads: seq<Thread>, i: nat, t: Thread)
    requires i < |threads|
    ensures Total(weight, threads[i := t]) == Total(weight, threads) - weight(threads[i]) + weight(t)
  {
    var n := |threads| - 1;
    if i == n {
      assert threads[i := t][..n] == threads[..n];
    } else {
      TotalUpdate(weight, threads[..n], i, t);
      assert threads[i := t][..n] == threads[..n][i := t];
    }
  }

  lemma TotalAppend(weight: Thread -> int, threads: seq<Thread>, t: Thread)
    ensures Total(weight, threads + [t]) == Total(weight, threads) + weight(t)
  {
    assert (threads + [t])[..|threads|] == threads;
  }

  lemma {:induction false} TotalOfZeros(weight: Thread -> int, threads: seq<Thread>)
    requires forall i :: 0 <= i < |threads| ==> weight(threads[i]) == 0
    ensures Total(weight, threads) == 0
  {
    if threads != [] {
      TotalOfZeros(weight, threads[..|threads| - 1]);
    }
  }

  function Balance(sh: Shared): int {
    sh.processing + Sum(sh.changes) - |sh.pushes| + |sh.log|
  }

  /** Counter + changes in the channel + changes owed by goroutines = pushes - results taken up. */
  predicate Balanced(s: State) {
    Balance(s.sh) + Total(Owed, s.threads) == 0
  }

  lemma CallBalances(cfg: JobConfig, sh: Shared, t: Thread)
    requires t.Judging? || t.Storing? || (t.Batch? && t.todo != [])
    ensures var (sh', t') := Move(cfg, sh, t, ""); Balance(sh') + Owed(t') == Balance(sh) + Owed(t)
  {
    match t
    case Judging(f, ref) => assert Move(cfg, sh, t, "") == Settle(cfg, sh, f, ref);
    case Storing(ref, push, next) => assert Move(cfg, sh, t, "") == Stored(sh, ref, push, next);
    case Batch(todo, links) => assert Move(cfg, sh, t, "") == TakeUp(cfg, sh, todo, links);
  }

  lemma ChangeBalances(sh: Shared, change: int)
    ensures Balance(sh.(changes := sh.changes + [change])) == Balance(sh) + change
  {
    SumAppend(sh.changes, change);
  }

  lemma DebitBalances(cfg: JobConfig, sh: Shared, f: Frame)
    ensures var (sh', t') := Move(cfg, sh, Debiting(f), "");
            Balance(sh') + Owed(t') == Balance(sh) + Owed(Debiting(f))
  {
    ChangeBalances(sh, -1);
    assert Move(cfg, sh, Debiting(f), "") == (sh.(changes := sh.changes + [-1]), Checking(f));
  }

  lemma CreditBalances(cfg: JobConfig, sh: Shared, next: Thread)
    ensures var (sh', t') := Move(cfg, sh, Crediting(next), "");
            Balance(sh') + Owed(t') == Balance(sh) + Owed(Crediting(next))
  {
    ChangeBalances(sh, 1);
    assert Move(cfg, sh, Crediting(next), "") == (sh.(changes := sh.changes + [1]), next);
  }

  lemma PushBalances(cfg: JobConfig, sh: Shared, ref: nat, next: Thread)
    ensures var (sh', t') := Move(cfg, sh, Pushing(ref, next), "");
            Balance(sh') + Owed(t') == Balance(sh) + Owed(Pushing(ref, next))
  {
  }

  lemma SendBalances(cfg: JobConfig, sh: Shared, t: Thread)
    requires t.Debiting? || t.Crediting? || t.Pushing?
    ensures var (sh', t') := Move(cfg, sh, t, ""); Balance(sh') + Owed(t') == Balance(sh) + Owed(t)
  {
    match t
    case Debiting(f) => DebitBalances(cfg, sh, f);
    case Crediting(next) => CreditBalances(cfg, sh, next);
    case Pushing(ref, next) => PushBalances(cfg, sh, ref, next);
  }

  /** Accesses that neither send, push nor take up a result. */
  lemma SilentBalances(cfg: JobConfig, sh: Shared, t: Thread, link: Url)
    requires !t.Judging? && !t.Storing? && !(t.Batch? && t.todo != [])
    requires !t.Debiting? && !t.Crediting? && !t.Pushing?
    ensures var (sh', t') := Move(cfg, sh, t, link); Balance(sh') == Balance(sh) && Owed(t') == Owed(t)
  {
    var (sh', t') := Move(cfg, sh, t, link);
    assert sh'.processing == sh.processing && sh'.changes == sh.changes;
    assert sh'.pushes == sh.pushes && sh'.log == sh.log;
    SilentOwes(cfg, sh, t, link);
  }

  lemma SilentOwes(cfg: JobConfig, sh: Shared, t: Thread, link: Url)
    requires !t.Judging? && !t.Storing? && !(t.Batch? && t.todo != [])
    requires !t.Debiting? && !t.Crediting? && !t.Pushing?
    ensures Owed(Move(cfg, sh, t, link).1) == Owed(t)
  {
  }

  lemma MoveBalances(cfg: JobConfig, sh: Shared, t: Thread, link: Url)
    ensures var (sh', t') := Move(cfg, sh, t, link); Balance(sh') + Owed(t') == Balance(sh) + Owed(t)
  {
    if t.Judging? || t.Storing? || (t.Batch? && t.todo != []) {
      CallBalances(cfg, sh, t);
      assert Move(cfg, sh, t, link) == Move(cfg, sh, t, "");
    } else if t.Debiting? || t.Crediting? || t.Pushing? {
      SendBalances(cfg, sh, t);
      assert Move(cfg, sh, t, link) == Move(cfg, sh, t, "");
    } else {
      SilentBalances(cfg, sh, t, link);
    }
  }

  lemma MeetBalances(s: State, i: nat, j: nat)
    requires i < |s.threads| && j < |s.threads| && s.threads[i].Sending? && s.threads[j].Receiving?
    ensures Total(Owed, s.threads[i := Finalizing(s.threads[i].next)][j := Comparing(s.threads[j].f)])
         == Total(Owed, s.threads)
  {
    var mid := s.threads[i := Finalizing(s.threads[i].next)];
    TotalUpdate(Owed, s.threads, i, mid[i]);
    TotalUpdate(Owed, mid, j, Comparing(s.threads[j].f));
  }

  lemma RunBalances(cfg: JobConfig, s: State, i: nat, link: Url)
    requires Balanced(s) && Enabled(s, Run(i, link))
    ensures Balanced(Next(cfg, s, Run(i, link)))
  {
    MoveBalances(cfg, s.sh, s.threads[i], link);
    TotalUpdate(Owed, s.threads, i, Move(cfg, s.sh, s.threads[i], link).1);
  }

  lemma StepBalances(cfg: JobConfig, s: State, a: Action)
    requires Balanced(s) && Enabled(s, a)
    ensures Balanced(Next(cfg, s, a))
  {
    match a
    case Run(i, link) => RunBalances(cfg, s, i, link);
    case Meet(i, j) => MeetBalances(s, i, j);
    case Apply => SumHead(s.sh.changes);
    case Pop =>
    case _ => SpawnBalances(cfg, s, a);
  }

  /** A new goroutine owes nothing. */
  lemma SpawnBalances(cfg: JobConfig, s: State, a: Action)
    requires Balanced(s) && (a.Report? || a.Seed? || a.Tick? || a.CallShutdown?)
    ensures Balanced(Next(cfg, s, a))
  {
    var t := Next(cfg, s, a).threads[|s.threads|];
    assert Owed(t) == 0 && Next(cfg, s, a).threads == s.threads + [t];
    TotalAppend(Owed, s.threads, t);
  }

  /** The ledger holds in every state of every interleaving, whatever results workers report. */
  lemma {:induction false} LedgerHolds(cfg: JobConfig, trace: seq<State>, acts: seq<Action>, k: nat)
    requires IsRun(cfg, trace, acts) && trace[0] == Init() && k < |trace|
    ensures trace[k].sh.processing + Sum(trace[k].sh.changes) + Total(Owed, trace[k].threads)
         == |trace[k].sh.pushes| - |trace[k].sh.log|
  {
    if k > 0 {
      LedgerHolds(cfg, trace, acts, k - 1);
      StepBalances(cfg, trace[k - 1], acts[k - 1]);
    }
  }

  /** In every interleaving the channel of changes holds at most 8, and a goroutine that is about to send on it is
      held up exactly when it holds 8. */
  lemma {:induction false} ChannelHoldsEight(cfg: JobConfig, trace: seq<State>, acts: seq<Action>, k: nat)
    requires IsRun(cfg, trace, acts) && trace[0] == Init() && k < |trace|
    ensures |trace[k].sh.changes| <= 8
    ensures forall t: Thread, link :: t.Debiting? || t.Crediting? ==>
              (Unblocked(trace[k].sh, t, link) <==> |trace[k].sh.changes| < 8)
  {
    if k > 0 {
      ChannelHoldsEight(cfg, trace, acts, k - 1);
      StepFits(cfg, trace[k - 1], acts[k - 1]);
    }
  }

  lemma MoveFits(cfg: JobConfig, sh: Shared, t: Thread, link: Url)
    requires |sh.changes| <= 8 && Unblocked(sh, t, link)
    ensures |Move(cfg, sh, t, link).0.changes| <= 8
  {
  }

  lemma StepFits(cfg: JobConfig, s: State, a: Action)
    requires |s.sh.changes| <= 8 && Enabled(s, a)
    ensures |Next(cfg, s, a).sh.changes| <= 8
  {
    if a.Run? {
      MoveFits(cfg, s.sh, s.threads[a.i], a.link);
    }
  }

  /** With no goroutine owing a change and the channel empty, the counter is pushes minus results. */
  lemma CounterIsExactAtRest(cfg: JobConfig, trace: seq<State>, acts: seq<Action>, k: nat)
    requires IsRun(cfg, trace, acts) && trace[0] == Init() && k < |trace|
    requires trace[k].sh.changes == [] && forall i :: 0 <= i < |trace[k].threads| ==> Owed(trace[k].threads[i]) == 0
    ensures trace[k].sh.processing == |trace[k].sh.pushes| - |trace[k].sh.log|
  {
    LedgerHolds(cfg, trace, acts, k);
    TotalOfZeros(Owed, trace[k].threads);
  }
}
