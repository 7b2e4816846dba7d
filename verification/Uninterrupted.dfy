/** Every uninterrupted call does what the atomic specification says. From each point a goroutine can be at inside
    `CompletedResources`, its outcome is a function of the shared data and of the order in which it is going to visit
    its links, and no step of an uninterrupted run changes it. `Atomicity` shows that such ends can be reached. */
module Uninterrupted {
  import opened Wrappers
  import opened CrawlTypes
  import opened JobRules
  import opened CoordinatorSpec
  import opened Interleaving
  import opened Atomicity

  /** How a call ends: the coordinator's data, and how the call stands if it has not returned. */
  datatype Outcome = Outcome(core: Core, halted: Option<Halted>)

  /** The shared data with `senders` and `released` other goroutines in `Shutdown`. */
  ghost function Data(sh: Shared, senders: nat, released: nat): Core {
    Abs(sh).(senders := senders, released := released)
  }

  /** The coordinator's data as goroutine i finds it. */
  ghost function Seen(s: State, i: nat): Core
    requires i < |s.threads|
  {
    Data(s.sh, HowMany(IsSending, s.threads[i := Idle]), HowMany(IsFinalizing, s.threads[i := Idle]))
  }

  // ---------------------------------------------------------------- outcomes

  /** From the head of the loop over resources. */
  ghost function CallOutcome(
    cfg: JobConfig, c: Core, rscs: seq<Resource>, links: set<Url>, order: seq<Url>): Outcome
  {
    var call := CallAfter(cfg, 0, c, rscs, links);
    Outcome(Applied(Completed(cfg, 0, c, rscs, order)), if call.turn == Goes then None else Some(call))
  }

  /** From the deferred part of `dequeue`. */
  ghost function DeferredOutcome(cfg: JobConfig, c: Core, f: Frame, order: seq<Url>): Outcome {
    var d, turn, more := Deferred(cfg, c, f.r.url), TurnAfter(cfg, c, f.r.url), f.links + LinksOf(cfg, [f.r]);
    if turn == Goes then CallOutcome(cfg, d, f.rest, more, order)
    else Outcome(Applied(d), Some(Halted(f.rest, more, turn)))
  }

  /** From the start of `Shutdown`. */
  ghost function ShutOutcome(
    cfg: JobConfig, c: Core, rest: seq<Resource>, links: set<Url>, order: seq<Url>): Outcome
  {
    if c.queue != [] then Outcome(Applied(Raised(c)), Some(Halted(rest, links, Sends)))
    else CallOutcome(cfg, Raised(c), rest, links, order)
  }

  /** From the comparison with the stop URL. */
  ghost function ComparedOutcome(cfg: JobConfig, c: Core, f: Frame, order: seq<Url>): Outcome {
    var more := f.links + LinksOf(cfg, [f.r]);
    if cfg.stopUrl == f.r.url then ShutOutcome(cfg, c, f.rest, more, order)
    else CallOutcome(cfg, c, f.rest, more, order)
  }

  /** From where `enqueue` returns to: the deferred part of `dequeue`, or the loop over links. */
  ghost function ReturnOutcome(cfg: JobConfig, c: Core, t: Thread, order: seq<Url>): Outcome {
    if t.Debiting? then DeferredOutcome(cfg, c, t.f, order)
    else Outcome(Applied(EnqueueLinks(cfg, c, order)), None)
  }

  /** `Enqueue`, with the flag as it was tested. */
  function EnqueueTested(c: Core, push: bool, u: Url, rec: Record): Core {
    Enqueue(c.(stopping := !push), u, rec).(stopping := c.stopping)
  }

  /** The outcome for a goroutine that stands at `t`, finds the data `c`, and is going to visit links in `order`. */
  ghost function OutcomeAt(cfg: JobConfig, c: Core, heap: seq<Req>, t: Thread, order: seq<Url>): Outcome {
    match t
    case Batch(todo, links) => CallOutcome(cfg, c, todo, links, order)
    case Judging(f, _) => DeferredOutcome(cfg, Judge(cfg, 0, c, f.r), f, order)
    case Debiting(_) => ReturnOutcome(cfg, c, t, order)
    case Checking(f) => DeferredOutcome(cfg, c.(processing := c.processing + 1), f, order)
    case Receiving(f) => DeferredOutcome(cfg, c.(processing := c.processing + 1), f, order)
    case Comparing(f) => ComparedOutcome(cfg, c, f, order)
    case Linking(_) => ReturnOutcome(cfg, c, t, order)
    case Testing(ref, next) => ReturnOutcome(cfg, Enqueue(c, At(heap, ref).url, At(heap, ref).rec), next, order)
    case Storing(ref, push, next) =>
      ReturnOutcome(cfg, EnqueueTested(c, push, At(heap, ref).url, At(heap, ref).rec), next, order)
    case Pushing(ref, next) =>
      ReturnOutcome(cfg, c.(queue := c.queue + [EntryAt(heap, ref)], processing := c.processing + 1), next, order)
    case Crediting(next) => ReturnOutcome(cfg, c.(processing := c.processing + 1), next, order)
    case Raising(next) => if next.Batch? then ShutOutcome(cfg, c, next.todo, next.links, order) else Outcome(c, None)
    case Measuring(next) => if next.Batch? then ShutOutcome(cfg, c, next.todo, next.links, order) else Outcome(c, None)
    case Sending(next) =>
      Outcome(c.(senders := c.senders + 1), if next.Batch? then Some(Halted(next.todo, next.links, Sends)) else None)
    case Finalizing(next) =>
      if next.Batch? then CallOutcome(cfg, c.(finalized := c.finalized + 1), next.todo, next.links, order)
      else Outcome(c, None)
    case _ => Outcome(c, None)
  }

  /** The links the goroutine is going to visit if it does not halt. */
  ghost function LinksToVisit(cfg: JobConfig, t: Thread): set<Url> {
    match t
    case Batch(todo, links) => links + LinksOf(cfg, todo)
    case Judging(f, _) => f.links + LinksOf(cfg, [f.r]) + LinksOf(cfg, f.rest)
    case Debiting(f) => f.links + LinksOf(cfg, [f.r]) + LinksOf(cfg, f.rest)
    case Checking(f) => f.links + LinksOf(cfg, [f.r]) + LinksOf(cfg, f.rest)
    case Receiving(f) => f.links + LinksOf(cfg, [f.r]) + LinksOf(cfg, f.rest)
    case Comparing(f) => f.links + LinksOf(cfg, [f.r]) + LinksOf(cfg, f.rest)
    case Linking(links) => links
    case Testing(_, next) => LinksToVisit(cfg, next)
    case Storing(_, _, next) => LinksToVisit(cfg, next)
    case Pushing(_, next) => LinksToVisit(cfg, next)
    case Crediting(next) => LinksToVisit(cfg, next)
    case Raising(next) => LinksToVisit(cfg, next)
    case Measuring(next) => LinksToVisit(cfg, next)
    case Sending(next) => LinksToVisit(cfg, next)
    case Finalizing(next) => LinksToVisit(cfg, next)
    case _ => {}
  }

  /** What holds at each point of a call of `CompletedResources` that runs alone. */
  ghost predicate Fits(cfg: JobConfig, sh: Shared, t: Thread) {
    match t
    case Judging(f, ref) =>
      && f.r.jobID == cfg.id && HoldsFor(sh, ref, f.r.url)
      && (f.r.url !in sh.store ==> sh.heap[ref].rec == NewRecord(""))
    case Receiving(_) => sh.stopping && sh.queue == []
    case Testing(ref, next) => ref < |sh.heap| && (next.Debiting? || next.Linking?)
    case Storing(ref, _, next) => ref < |sh.heap| && (next.Debiting? || next.Linking?)
    case Pushing(ref, next) => ref < |sh.heap| && (next.Debiting? || next.Linking?)
    case Crediting(next) => next.Debiting? || next.Linking?
    case Raising(next) => next.Batch?
    case Measuring(next) => next.Batch? && sh.stopping
    case Sending(next) => next.Batch? && sh.stopping
    case Finalizing(next) => next.Batch?
    case Seeding(_) => false
    case Scanning => false
    case Counting => false
    case _ => true
  }

  // ---------------------------------------------------------------- outcomes do not see pending changes

  lemma CallOutcomeApplied(cfg: JobConfig, c: Core, rscs: seq<Resource>, links: set<Url>, order: seq<Url>)
    ensures CallOutcome(cfg, Applied(c), rscs, links, order) == CallOutcome(cfg, c, rscs, links, order)
  {
    AppliedDequeueAll(cfg, c, rscs);
    var n := Taken(cfg, 0, c, rscs);
    AppliedDequeueAll(cfg, c, rscs[..n]);
    AppliedLinks(cfg, DequeueAll(cfg, 0, Applied(c), rscs[..n]), order);
    AppliedLinks(cfg, DequeueAll(cfg, 0, c, rscs[..n]), order);
  }

  lemma SameApplied(cfg: JobConfig, c: Core, d: Core, rscs: seq<Resource>, links: set<Url>, order: seq<Url>)
    requires Applied(c) == Applied(d)
    ensures CallOutcome(cfg, c, rscs, links, order) == CallOutcome(cfg, d, rscs, links, order)
  {
    CallOutcomeApplied(cfg, c, rscs, links, order);
    CallOutcomeApplied(cfg, d, rscs, links, order);
  }

  lemma ReturnOutcomeApplied(cfg: JobConfig, c: Core, d: Core, t: Thread, order: seq<Url>)
    requires Applied(c) == Applied(d)
    ensures ReturnOutcome(cfg, c, t, order) == ReturnOutcome(cfg, d, t, order)
  {
    if t.Debiting? {
      var u, more := t.f.r.url, t.f.links + LinksOf(cfg, [t.f.r]);
      AppliedDeferred(cfg, c, u);
      AppliedDeferred(cfg, d, u);
      SameApplied(cfg, Deferred(cfg, c, u), Deferred(cfg, d, u), t.f.rest, more, order);
    } else {
      AppliedLinks(cfg, c, order);
      AppliedLinks(cfg, d, order);
    }
  }

  /** The deferred part, once the -1 has been sent, is the receive and the comparison. */
  lemma DeferredIsCompared(cfg: JobConfig, c: Core, f: Frame, order: seq<Url>)
    requires c.changes == [] && !Stalls(c)
    ensures DeferredOutcome(cfg, c.(processing := c.processing + 1), f, order)
         == ComparedOutcome(cfg, Passed(c), f, order)
  {
    var d, more := c.(processing := c.processing + 1), f.links + LinksOf(cfg, [f.r]);
    DeferredInSteps(cfg, d, f.r.url);
    assert d.(processing := d.processing - 1) == c;
    var v := Compared(cfg, Passed(c), f.r.url);
    assert Applied(v) == v;
    SameApplied(cfg, Deferred(cfg, d, f.r.url), v, f.rest, more, order);
  }

  /** A stalled receive leaves the call waiting. */
  lemma DeferredStalls(cfg: JobConfig, c: Core, f: Frame, order: seq<Url>)
    requires c.changes == [] && Stalls(c)
    ensures DeferredOutcome(cfg, c.(processing := c.processing + 1), f, order)
         == Outcome(c, Some(Halted(f.rest, f.links + LinksOf(cfg, [f.r]), Waits)))
  {
    var d := c.(processing := c.processing + 1);
    DeferredInSteps(cfg, d, f.r.url);
    assert d.(processing := d.processing - 1) == c;
  }

  /** A call in terms of its first result. */
  lemma CallOutcomeFirst(
    cfg: JobConfig, c: Core, r: Resource, rest: seq<Resource>, links: set<Url>, order: seq<Url>)
    ensures var d, turn, more := DequeueOwn(cfg, 0, c, r), TurnOfOwn(cfg, 0, c, r), links + LinksOf(cfg, [r]);
            CallOutcome(cfg, c, [r] + rest, links, order)
              == if turn != Goes then Outcome(Applied(d), Some(Halted(rest, more, turn)))
                 else CallOutcome(cfg, d, rest, more, order)
  {
    var all, d := [r] + rest, DequeueOwn(cfg, 0, c, r);
    CallFirst(cfg, c, r, rest, links);
    CourseFirst(cfg, c, r, rest);
    if TurnOfOwn(cfg, 0, c, r) != Goes {
      HaltValue(cfg, c, r, rest);
    } else {
      var n := Taken(cfg, 0, d, rest);
      assert all[..1 + n] == [r] + rest[..n];
      DequeueFirst(cfg, c, r, rest[..n]);
    }
  }

  lemma {:induction false} LinksFirst(cfg: JobConfig, c: Core, u: Url, order: seq<Url>)
    ensures EnqueueLinks(cfg, c, [u] + order) == EnqueueLinks(cfg, EnqueueLink(cfg, c, u), order)
    decreases |order|
  {
    var all := [u] + order;
    if order == [] {
      assert all[..0] == [] && all == [u];
    } else {
      LinksFirst(cfg, c, u, order[..|order| - 1]);
      assert all[..|all| - 1] == [u] + order[..|order| - 1];
    }
  }

  // ---------------------------------------------------------------- no access changes the outcome

  /** The goroutine at `t` over `sh`, going to visit links in `order`, has the same outcome as at `t'` over `sh'`,
      going to visit them in `order'`. */
  ghost predicate SameOutcome(
    cfg: JobConfig, a: nat, b: nat, sh: Shared, t: Thread, order: seq<Url>, sh': Shared, t': Thread, order': seq<Url>)
  {
    && Lists(order, LinksToVisit(cfg, t))
    && OutcomeAt(cfg, Data(sh, a, b), sh.heap, t, order) == OutcomeAt(cfg, Data(sh', a, b), sh'.heap, t', order')
  }

  /** Leaving the loop over resources. */
  lemma LeavingStep(cfg: JobConfig, a: nat, b: nat, sh: Shared, links: set<Url>, order: seq<Url>)
    requires Linked(sh) && Lists(order, links)
    ensures var (sh', t') := Move(cfg, sh, Batch([], links), "");
            Linked(sh') && Fits(cfg, sh', t') && SameOutcome(cfg, a, b, sh, Batch([], links), order, sh', t', order)
  {
    assert DequeueAll(cfg, 0, Data(sh, a, b), []) == Data(sh, a, b);
    assert links + LinksOf(cfg, []) == links;
  }

  /** Looking a result's request up changes nothing that is visible. */
  lemma TakenUpData(cfg: JobConfig, a: nat, b: nat, sh: Shared, todo: seq<Resource>, links: set<Url>)
    requires Linked(sh) && todo != []
    ensures var (sh', t') := TakeUp(cfg, sh, todo, links);
            Linked(sh') && Fits(cfg, sh', t') && Data(sh', a, b) == Data(sh, a, b)
  {
    var r, sh' := todo[0], TakeUp(cfg, sh, todo, links).0;
    WithNew(sh, Req(r.url, NewRecord("")));
    assert Abs(sh') == Abs(sh'.(log := sh.log));
  }

  /** Taking up a result, or skipping it. */
  lemma TakingStep(cfg: JobConfig, a: nat, b: nat, sh: Shared, todo: seq<Resource>, links: set<Url>, order: seq<Url>)
    requires Linked(sh) && todo != []
    requires Lists(order, LinksToVisit(cfg, TakeUp(cfg, sh, todo, links).1))
    ensures var (sh', t') := TakeUp(cfg, sh, todo, links);
            Linked(sh') && Fits(cfg, sh', t') && SameOutcome(cfg, a, b, sh, Batch(todo, links), order, sh', t', order)
  {
    var r, rest := todo[0], todo[1..];
    assert todo == [r] + rest;
    TakenUpData(cfg, a, b, sh, todo, links);
    CallOutcomeFirst(cfg, Data(sh, a, b), r, rest, links, order);
    LinksOfFirst(cfg, links, r, rest);
    if r.jobID != cfg.id {
      assert LinksOf(cfg, [r]) == {} && links + {} == links;
    }
  }

  /** What the goroutine finds in the request it holds is what the specification charges. */
  lemma HeldIsCharged(cfg: JobConfig, a: nat, b: nat, sh: Shared, f: Frame, ref: nat)
    requires Linked(sh) && Fits(cfg, sh, Judging(f, ref))
    ensures Charged(Data(sh, a, b), f.r)
         == sh.heap[ref].rec.(prevStatus := f.r.status, attempts := sh.heap[ref].rec.attempts + 1)
  {
  }

  /** `Judge` of a success changes the count of finished requests and the status of the stored request. */
  lemma JudgedSuccess(cfg: JobConfig, c: Core, r: Resource)
    requires OkStatus(r.status)
    ensures Judge(cfg, 0, c, r)
         == c.(finished := c.finished + 1,
               store := if r.url in c.store then c.store[r.url := Charged(c, r).(status := Done)] else c.store)
  {
    assert c.calls + CallsFor(0, r) == c.calls;
  }

  /** What recording a successful result does to the data. */
  lemma DoneData(cfg: JobConfig, a: nat, b: nat, sh: Shared, f: Frame, ref: nat)
    requires Linked(sh) && Fits(cfg, sh, Judging(f, ref)) && OkStatus(f.r.status)
    ensures var sh' := Settle(cfg, sh, f, ref).0;
            Linked(sh') && Data(sh', a, b) == Judge(cfg, 0, Data(sh, a, b), f.r)
  {
    HeldIsCharged(cfg, a, b, sh, f, ref);
    JudgedSuccess(cfg, Data(sh, a, b), f.r);
    var rec := Charged(Data(sh, a, b), f.r).(status := Done);
    var sh' := sh.(heap := With(sh.heap, ref, rec));
    WithRecord(sh, ref, rec, f.r.url);
    FinishedData(sh');
    assert Settle(cfg, sh, f, ref).0 == sh'.(finished := sh'.finished + 1);
  }

  lemma FinishedData(sh: Shared)
    requires Linked(sh)
    ensures var sh' := sh.(finished := sh.finished + 1);
            Linked(sh') && Abs(sh') == Abs(sh).(finished := sh.finished + 1)
  {
  }

  /** What giving a request up does to the data. */
  lemma GivenUpData(cfg: JobConfig, a: nat, b: nat, sh: Shared, f: Frame, ref: nat)
    requires Linked(sh) && Fits(cfg, sh, Judging(f, ref)) && !OkStatus(f.r.status)
    requires sh.heap[ref].rec.attempts + 1 > cfg.maxAttempts
    ensures var sh' := Settle(cfg, sh, f, ref).0;
            Linked(sh') && Data(sh', a, b) == Judge(cfg, 0, Data(sh, a, b), f.r)
  {
    HeldIsCharged(cfg, a, b, sh, f, ref);
    var rec := Charged(Data(sh, a, b), f.r).(status := Failed);
    WithStore(sh, ref, rec, f.r.url);
    assert Settle(cfg, sh, f, ref).0 == sh.(heap := With(sh.heap, ref, rec), store := sh.store[f.r.url := ref]);
  }

  lemma FinalJudgeStep(cfg: JobConfig, a: nat, b: nat, sh: Shared, f: Frame, ref: nat, order: seq<Url>)
    requires Linked(sh) && Fits(cfg, sh, Judging(f, ref))
    requires OkStatus(f.r.status) || sh.heap[ref].rec.attempts + 1 > cfg.maxAttempts
    requires Lists(order, LinksToVisit(cfg, Debiting(f)))
    ensures var (sh', t') := Settle(cfg, sh, f, ref);
            Linked(sh') && t' == Debiting(f) && SameOutcome(cfg, a, b, sh, Judging(f, ref), order, sh', t', order)
  {
    if OkStatus(f.r.status) {
      DoneData(cfg, a, b, sh, f, ref);
    } else {
      GivenUpData(cfg, a, b, sh, f, ref);
    }
  }

  /** What recording a failed result that is going to be tried again does to the data. */
  lemma RetryData(cfg: JobConfig, a: nat, b: nat, sh: Shared, f: Frame, ref: nat)
    requires Linked(sh) && Fits(cfg, sh, Judging(f, ref))
    requires !OkStatus(f.r.status) && sh.heap[ref].rec.attempts + 1 <= cfg.maxAttempts
    ensures var (sh', t') := Settle(cfg, sh, f, ref);
            && Linked(sh') && t' == Testing(ref, Debiting(f)) && ref < |sh'.heap|
            && sh'.heap[ref] == Req(f.r.url, Charged(Data(sh, a, b), f.r))
            && Data(sh', a, b) == Data(sh, a, b).(store := Recorded(Data(sh, a, b), f.r))
  {
    HeldIsCharged(cfg, a, b, sh, f, ref);
    WithRecord(sh, ref, Charged(Data(sh, a, b), f.r), f.r.url);
  }

  lemma RetryJudgeStep(cfg: JobConfig, a: nat, b: nat, sh: Shared, f: Frame, ref: nat, order: seq<Url>)
    requires Linked(sh) && Fits(cfg, sh, Judging(f, ref))
    requires !OkStatus(f.r.status) && sh.heap[ref].rec.attempts + 1 <= cfg.maxAttempts
    requires Lists(order, LinksToVisit(cfg, Debiting(f)))
    ensures var (sh', t') := Settle(cfg, sh, f, ref);
            && Linked(sh') && t' == Testing(ref, Debiting(f)) && ref < |sh'.heap|
            && SameOutcome(cfg, a, b, sh, Judging(f, ref), order, sh', t', order)
  {
    var c, rec := Data(sh, a, b), Charged(Data(sh, a, b), f.r);
    HeldIsCharged(cfg, a, b, sh, f, ref);
    RetryData(cfg, a, b, sh, f, ref);
    RecordedThenSettled(cfg, 0, c, f.r);
    assert Enqueue(c.(store := Recorded(c, f.r)), f.r.url, rec) == Judge(cfg, 0, c, f.r);
  }

  /** What storing a request does to the data. */
  lemma StoredData(a: nat, b: nat, sh: Shared, ref: nat, push: bool, next: Thread)
    requires Linked(sh) && ref < |sh.heap|
    ensures var (sh', q) := (Stored(sh, ref, push, next).0, sh.heap[ref]);
            var rec := q.rec.(status := if push then Queued else Failed);
            && Linked(sh') && ref < |sh'.heap| && EntryAt(sh'.heap, ref) == Entry(q.rec.jobID, q.url)
            && Data(sh', a, b) == Data(sh, a, b).(store := Data(sh, a, b).store[q.url := rec])
  {
    var q := sh.heap[ref];
    WithStore(sh, ref, q.rec.(status := if push then Queued else Failed), q.url);
  }

  /** `Enqueue`, tested before a push, is a store, a push and a credit. */
  lemma EnqueueInSteps(c: Core, u: Url, rec: Record)
    requires c.changes == []
    ensures var d := c.(store := c.store[u := rec.(status := Queued)]);
            Applied(EnqueueTested(c, true, u, rec))
              == Applied(d.(queue := d.queue + [Entry(rec.jobID, u)], processing := d.processing + 1))
  {
    SumOne(1);
    assert [] + [1] == [1];
  }

  /** A push after a store, and `Enqueue`, lead to the same. */
  lemma StoringToPush(cfg: JobConfig, a: nat, b: nat, sh: Shared, ref: nat, next: Thread, order: seq<Url>)
    requires Linked(sh) && ref < |sh.heap|
    ensures var (sh', t') := Stored(sh, ref, true, next);
            OutcomeAt(cfg, Data(sh, a, b), sh.heap, Storing(ref, true, next), order)
              == OutcomeAt(cfg, Data(sh', a, b), sh'.heap, t', order)
  {
    var q, sh' := sh.heap[ref], Stored(sh, ref, true, next).0;
    StoredData(a, b, sh, ref, true, next);
    PushedAfterStore(cfg, Data(sh, a, b), Data(sh', a, b), q, next, order);
    assert Stored(sh, ref, true, next).1 == Pushing(ref, next);
  }

  lemma PushedAfterStore(cfg: JobConfig, c: Core, d: Core, q: Req, next: Thread, order: seq<Url>)
    requires c.changes == [] && d == c.(store := c.store[q.url := q.rec.(status := Queued)])
    ensures var e := Entry(q.rec.jobID, q.url);
            ReturnOutcome(cfg, EnqueueTested(c, true, q.url, q.rec), next, order)
              == ReturnOutcome(cfg, d.(queue := d.queue + [e], processing := d.processing + 1), next, order)
  {
    var pushed := d.(queue := d.queue + [Entry(q.rec.jobID, q.url)], processing := d.processing + 1);
    EnqueueInSteps(c, q.url, q.rec);
    ReturnOutcomeApplied(cfg, EnqueueTested(c, true, q.url, q.rec), pushed, next, order);
  }

  lemma StoringRefused(cfg: JobConfig, a: nat, b: nat, sh: Shared, ref: nat, next: Thread, order: seq<Url>)
    requires Linked(sh) && ref < |sh.heap| && (next.Debiting? || next.Linking?)
    ensures var (sh', t') := Stored(sh, ref, false, next);
            OutcomeAt(cfg, Data(sh, a, b), sh.heap, Storing(ref, false, next), order)
              == OutcomeAt(cfg, Data(sh', a, b), sh'.heap, t', order)
  {
    var c, q, sh' := Data(sh, a, b), sh.heap[ref], Stored(sh, ref, false, next).0;
    StoredData(a, b, sh, ref, false, next);
    assert Data(sh', a, b) == EnqueueTested(c, false, q.url, q.rec);
  }

  /** Storing a request, and then pushing it unless it was refused. */
  lemma StoringStep(
    cfg: JobConfig, a: nat, b: nat, sh: Shared, ref: nat, push: bool, next: Thread, order: seq<Url>)
    requires Linked(sh) && Fits(cfg, sh, Storing(ref, push, next)) && Lists(order, LinksToVisit(cfg, next))
    ensures var (sh', t') := Stored(sh, ref, push, next);
            && Linked(sh') && Fits(cfg, sh', t')
            && SameOutcome(cfg, a, b, sh, Storing(ref, push, next), order, sh', t', order)
  {
    StoredData(a, b, sh, ref, push, next);
    if push {
      StoringToPush(cfg, a, b, sh, ref, next, order);
    } else {
      StoringRefused(cfg, a, b, sh, ref, next, order);
    }
  }

  /** What a push does to the data. */
  lemma PushedData(a: nat, b: nat, sh: Shared, ref: nat, u: Url)
    requires Linked(sh) && ref < |sh.heap|
    ensures var sh' := sh.(queue := sh.queue + [ref], pushes := sh.pushes + [u]);
            && Linked(sh')
            && Data(sh', a, b) == Data(sh, a, b).(queue := Data(sh, a, b).queue + [EntryAt(sh.heap, ref)])
  {
    PushedRef(sh, ref);
    var sh' := sh.(queue := sh.queue + [ref], pushes := sh.pushes + [u]);
    assert Abs(sh') == Abs(sh.(queue := sh.queue + [ref]));
  }

  lemma PushingStep(cfg: JobConfig, a: nat, b: nat, sh: Shared, ref: nat, next: Thread, order: seq<Url>)
    requires Linked(sh) && Fits(cfg, sh, Pushing(ref, next)) && Lists(order, LinksToVisit(cfg, next))
    ensures var (sh', t') := Move(cfg, sh, Pushing(ref, next), "");
            && Linked(sh') && Fits(cfg, sh', t')
            && SameOutcome(cfg, a, b, sh, Pushing(ref, next), order, sh', t', order)
  {
    PushedData(a, b, sh, ref, At(sh.heap, ref).url);
  }

  /** A change is sent: the counter is as good as changed. */
  lemma SentData(a: nat, b: nat, sh: Shared, change: int)
    requires Linked(sh)
    ensures var sh' := sh.(changes := sh.changes + [change]);
            && Linked(sh')
            && Data(sh', a, b) == Data(sh, a, b).(processing := Data(sh, a, b).processing + change)
  {
    SumAppend(sh.changes, change);
    var sh' := sh.(changes := sh.changes + [change]);
    assert Abs(sh') == Abs(sh).(processing := sh.processing + Sum(sh.changes) + change);
  }

  lemma CreditingStep(cfg: JobConfig, a: nat, b: nat, sh: Shared, next: Thread, order: seq<Url>)
    requires Linked(sh) && Fits(cfg, sh, Crediting(next)) && Lists(order, LinksToVisit(cfg, next))
    ensures var (sh', t') := Move(cfg, sh, Crediting(next), "");
            && Linked(sh') && Fits(cfg, sh', t')
            && SameOutcome(cfg, a, b, sh, Crediting(next), order, sh', t', order)
  {
    SentData(a, b, sh, 1);
  }

  lemma DebitingStep(cfg: JobConfig, a: nat, b: nat, sh: Shared, f: Frame, order: seq<Url>)
    requires Linked(sh) && Lists(order, LinksToVisit(cfg, Debiting(f)))
    ensures var (sh', t') := Move(cfg, sh, Debiting(f), "");
            && Linked(sh') && Fits(cfg, sh', t')
            && SameOutcome(cfg, a, b, sh, Debiting(f), order, sh', t', order)
  {
    SentData(a, b, sh, -1);
    var c := Data(sh, a, b);
    assert Data(Move(cfg, sh, Debiting(f), "").0, a, b).(processing := c.processing) == c;
  }

  lemma TestingStep(cfg: JobConfig, a: nat, b: nat, sh: Shared, ref: nat, next: Thread, order: seq<Url>)
    requires Linked(sh) && Fits(cfg, sh, Testing(ref, next)) && Lists(order, LinksToVisit(cfg, next))
    ensures var (sh', t') := Move(cfg, sh, Testing(ref, next), "");
            sh' == sh && Fits(cfg, sh', t') && SameOutcome(cfg, a, b, sh, Testing(ref, next), order, sh', t', order)
  {
    var c := Data(sh, a, b);
    assert c.(stopping := c.stopping) == c;
  }

  /** The test of the flag and the queue. */
  lemma CheckingStep(cfg: JobConfig, a: nat, b: nat, sh: Shared, f: Frame, order: seq<Url>)
    requires Linked(sh) && Lists(order, LinksToVisit(cfg, Checking(f)))
    ensures var (sh', t') := Move(cfg, sh, Checking(f), "");
            sh' == sh && Fits(cfg, sh', t') && SameOutcome(cfg, a, b, sh, Checking(f), order, sh', t', order)
  {
    var c := Data(sh, a, b);
    assert |c.queue| == |sh.queue|;
    if !(sh.stopping && sh.queue == []) {
      DeferredIsCompared(cfg, c, f, order);
    }
  }

  /** The comparison with the stop URL. */
  lemma ComparingStep(cfg: JobConfig, a: nat, b: nat, sh: Shared, f: Frame, order: seq<Url>)
    requires Linked(sh) && Lists(order, LinksToVisit(cfg, Resume(cfg, f)))
    ensures var (sh', t') := Move(cfg, sh, Comparing(f), "");
            sh' == sh && Fits(cfg, sh', t') && SameOutcome(cfg, a, b, sh, Comparing(f), order, sh', t', order)
  {
    assert LinksToVisit(cfg, Resume(cfg, f)) == LinksToVisit(cfg, Comparing(f));
  }

  /** `Shutdown`. */
  lemma ShutdownStep(cfg: JobConfig, a: nat, b: nat, sh: Shared, t: Thread, order: seq<Url>)
    requires Linked(sh) && Fits(cfg, sh, t) && (t.Raising? || t.Measuring? || t.Finalizing?)
    requires Lists(order, LinksToVisit(cfg, Move(cfg, sh, t, "").1))
    ensures var (sh', t') := Move(cfg, sh, t, "");
            Linked(sh') && Fits(cfg, sh', t') && SameOutcome(cfg, a, b, sh, t, order, sh', t', order)
  {
    var c, sh' := Data(sh, a, b), Move(cfg, sh, t, "").0;
    assert |c.queue| == |sh.queue|;
    assert Abs(sh') == Abs(sh).(stopping := sh'.stopping, finalized := sh'.finalized);
    if t.Raising? {
      assert Raised(c) == Raised(Data(sh', a, b));
    } else if t.Measuring? && sh.queue != [] {
      assert Applied(Raised(c)) == c.(senders := c.senders + 1);
    }
  }

  /** One turn of the loop over links: the link chosen comes first. */
  lemma LinkingStep(
    cfg: JobConfig, a: nat, b: nat, sh: Shared, links: set<Url>, link: Url, order': seq<Url>)
    returns (order: seq<Url>)
    requires Linked(sh) && (links == {} || link in links)
    requires Lists(order', LinksToVisit(cfg, Move(cfg, sh, Linking(links), link).1))
    ensures var (sh', t') := Move(cfg, sh, Linking(links), link);
            && Linked(sh') && Fits(cfg, sh', t')
            && SameOutcome(cfg, a, b, sh, Linking(links), order, sh', t', order')
  {
    if links == {} {
      order := order';
      NoLinks(order);
    } else {
      order := [link] + order';
      assert LinksToVisit(cfg, Linking(links - {link})) == links - {link};
      OneMoreListed(links, link, order');
      LinksFirst(cfg, Data(sh, a, b), link, order');
      if link !in sh.store {
        WithNew(sh, Req(link, NewRecord(cfg.id)));
      }
    }
  }

  lemma HeadIsIn(order: seq<Url>)
    ensures order != [] ==> order[0] in order
  {
  }

  lemma NoLinks(order: seq<Url>)
    requires Lists(order, {})
    ensures order == []
  {
    HeadIsIn(order);
  }

  lemma OneMoreListed(links: set<Url>, link: Url, order: seq<Url>)
    requires link in links && Lists(order, links - {link})
    ensures Lists([link] + order, links)
  {
    var all := [link] + order;
    forall u
      ensures u in all <==> u in links
    {
      assert u in all <==> u == link || u in order;
    }
    forall i, j | 0 <= i < j < |all|
      ensures all[i] != all[j]
    {
      assert all[j] == order[j - 1] && order[j - 1] in order;
    }
  }

  /** The accesses of `dequeue` and its deferred part, and of `Shutdown`. */
  lemma DequeueMoveSameOutcome(cfg: JobConfig, a: nat, b: nat, sh: Shared, t: Thread, order: seq<Url>)
    requires Linked(sh) && Fits(cfg, sh, t) && Unblocked(sh, t, "")
    requires !t.Batch? && !t.Linking? && !t.Testing? && !t.Storing? && !t.Pushing? && !t.Crediting?
    requires Lists(order, LinksToVisit(cfg, Move(cfg, sh, t, "").1))
    ensures var (sh', t') := Move(cfg, sh, t, "");
            Linked(sh') && Fits(cfg, sh', t') && SameOutcome(cfg, a, b, sh, t, order, sh', t', order)
  {
    match t
    case Judging(f, ref) =>
      if !OkStatus(f.r.status) && sh.heap[ref].rec.attempts + 1 <= cfg.maxAttempts {
        RetryJudgeStep(cfg, a, b, sh, f, ref, order);
      } else {
        FinalJudgeStep(cfg, a, b, sh, f, ref, order);
      }
    case Debiting(f) => DebitingStep(cfg, a, b, sh, f, order);
    case Checking(f) => CheckingStep(cfg, a, b, sh, f, order);
    case Comparing(f) => ComparingStep(cfg, a, b, sh, f, order);
    case _ => ShutdownStep(cfg, a, b, sh, t, order);
  }

  /** The accesses of `enqueue`, and of the loop over resources. */
  lemma EnqueueMoveSameOutcome(cfg: JobConfig, a: nat, b: nat, sh: Shared, t: Thread, order: seq<Url>)
    requires Linked(sh) && Fits(cfg, sh, t)
    requires t.Batch? || t.Testing? || t.Storing? || t.Pushing? || t.Crediting?
    requires Lists(order, LinksToVisit(cfg, Move(cfg, sh, t, "").1))
    ensures var (sh', t') := Move(cfg, sh, t, "");
            Linked(sh') && Fits(cfg, sh', t') && SameOutcome(cfg, a, b, sh, t, order, sh', t', order)
  {
    match t
    case Batch(todo, links) =>
      if todo == [] {
        LeavingStep(cfg, a, b, sh, links, order);
      } else {
        TakingStep(cfg, a, b, sh, todo, links, order);
      }
    case Testing(ref, next) => TestingStep(cfg, a, b, sh, ref, next, order);
    case Storing(ref, push, next) => StoringStep(cfg, a, b, sh, ref, push, next, order);
    case Pushing(ref, next) => PushingStep(cfg, a, b, sh, ref, next, order);
    case Crediting(next) => CreditingStep(cfg, a, b, sh, next, order);
  }

  /** Only the loop over links makes a choice. */
  lemma NoChoice(cfg: JobConfig, sh: Shared, t: Thread, link: Url)
    requires !t.Linking?
    ensures Move(cfg, sh, t, link) == Move(cfg, sh, t, "") && (Unblocked(sh, t, link) <==> Unblocked(sh, t, ""))
  {
  }

  /** No access of the goroutine changes the outcome, for some order of its links. */
  lemma MoveSameOutcome(
    cfg: JobConfig, a: nat, b: nat, sh: Shared, t: Thread, link: Url, order': seq<Url>)
    returns (order: seq<Url>)
    requires Linked(sh) && Fits(cfg, sh, t) && Unblocked(sh, t, link)
    requires Lists(order', LinksToVisit(cfg, Move(cfg, sh, t, link).1))
    ensures var (sh', t') := Move(cfg, sh, t, link);
            Linked(sh') && Fits(cfg, sh', t') && SameOutcome(cfg, a, b, sh, t, order, sh', t', order')
  {
    order := order';
    if t.Linking? {
      order := LinkingStep(cfg, a, b, sh, t.links, link, order');
    } else {
      NoChoice(cfg, sh, t, link);
      if t.Batch? || t.Testing? || t.Storing? || t.Pushing? || t.Crediting? {
        EnqueueMoveSameOutcome(cfg, a, b, sh, t, order);
      } else {
        DequeueMoveSameOutcome(cfg, a, b, sh, t, order);
      }
    }
  }

  // ---------------------------------------------------------------- whole runs

  /** The outcome for goroutine i of a state. */
  ghost function OutcomeOf(cfg: JobConfig, s: State, i: nat, order: seq<Url>): Outcome
    requires i < |s.threads|
  {
    OutcomeAt(cfg, Seen(s, i), s.sh.heap, s.threads[i], order)
  }

  /** Goroutine i moves, counter changes are applied, or somebody blocked in `Shutdown` meets i. */
  predicate Uninterrupted(a: Action, i: nat) {
    (a.Run? && a.i == i) || a.Apply? || (a.Meet? && a.receiver == i)
  }

  ghost predicate InCall(cfg: JobConfig, s: State, i: nat) {
    i < |s.threads| && Linked(s.sh) && Fits(cfg, s.sh, s.threads[i])
  }

  /** What a rendezvous does to the data as the receiver finds it. */
  lemma MeetSeen(cfg: JobConfig, s: State, j: nat, i: nat)
    requires InCall(cfg, s, i) && Enabled(s, Meet(j, i))
    ensures Seen(s, i).senders > 0
    ensures Seen(Next(cfg, s, Meet(j, i)), i)
         == Seen(s, i).(senders := Seen(s, i).senders - 1, released := Seen(s, i).released + 1)
  {
    var s', others := Next(cfg, s, Meet(j, i)), s.threads[i := Idle];
    assert others[j] == s.threads[j];
    assert s'.threads[i := Idle] == others[j := Finalizing(s.threads[j].next)];
    HowManyUpdate(IsSending, others, j, Finalizing(s.threads[j].next));
    HowManyUpdate(IsFinalizing, others, j, Finalizing(s.threads[j].next));
  }

  lemma MeetSameOutcome(cfg: JobConfig, s: State, j: nat, i: nat, order: seq<Url>)
    requires InCall(cfg, s, i) && Enabled(s, Meet(j, i))
    ensures var s' := Next(cfg, s, Meet(j, i));
            && InCall(cfg, s', i) && LinksToVisit(cfg, s'.threads[i]) == LinksToVisit(cfg, s.threads[i])
            && OutcomeOf(cfg, s', i, order) == OutcomeOf(cfg, s, i, order)
  {
    MeetSeen(cfg, s, j, i);
    var c := Seen(s, i);
    assert |c.queue| == |s.sh.queue|;
    assert Receives(c) && !Stalls(c);
    DeferredIsCompared(cfg, c, s.threads[i].f, order);
  }

  lemma ApplySameOutcome(cfg: JobConfig, s: State, i: nat, order: seq<Url>)
    requires InCall(cfg, s, i) && Enabled(s, Apply)
    ensures var s' := Next(cfg, s, Apply);
            && InCall(cfg, s', i) && s'.threads == s.threads
            && OutcomeOf(cfg, s', i, order) == OutcomeOf(cfg, s, i, order)
  {
    SumHead(s.sh.changes);
    assert Abs(Next(cfg, s, Apply).sh) == Abs(s.sh);
  }

  lemma StepSameOutcome(cfg: JobConfig, s: State, a: Action, i: nat, order': seq<Url>) returns (order: seq<Url>)
    requires InCall(cfg, s, i) && Enabled(s, a) && Uninterrupted(a, i)
    requires Lists(order', LinksToVisit(cfg, Next(cfg, s, a).threads[i]))
    ensures InCall(cfg, Next(cfg, s, a), i) && Lists(order, LinksToVisit(cfg, s.threads[i]))
    ensures OutcomeOf(cfg, s, i, order) == OutcomeOf(cfg, Next(cfg, s, a), i, order')
  {
    order := order';
    if a.Run? {
      var senders, released := Seen(s, i).senders, Seen(s, i).released;
      assert Next(cfg, s, a).threads[i := Idle] == s.threads[i := Idle];
      order := MoveSameOutcome(cfg, senders, released, s.sh, s.threads[i], a.link, order');
    } else if a.Apply? {
      ApplySameOutcome(cfg, s, i, order);
    } else {
      MeetSameOutcome(cfg, s, a.sender, i, order);
    }
  }

  /** An uninterrupted step keeps the goroutine in its call. */
  lemma StepInCall(cfg: JobConfig, s: State, a: Action, i: nat)
    requires InCall(cfg, s, i) && Enabled(s, a) && Uninterrupted(a, i)
    ensures InCall(cfg, Next(cfg, s, a), i)
  {
    var order' := SomeOrder(LinksToVisit(cfg, Next(cfg, s, a).threads[i]));
    var order := StepSameOutcome(cfg, s, a, i, order');
  }

  lemma {:induction false} SomeOrder(links: set<Url>) returns (order: seq<Url>)
    ensures Lists(order, links)
  {
    if links == {} {
      order := [];
    } else {
      var link :| link in links;
      var rest := SomeOrder(links - {link});
      OneMoreListed(links, link, rest);
      order := [link] + rest;
    }
  }

  /** The goroutine has returned, or is blocked until somebody else acts. */
  ghost predicate Ended(s: State, i: nat) {
    && i < |s.threads|
    && (s.threads[i].Idle? || s.threads[i].Sending?
        || (s.threads[i].Receiving? && forall j :: 0 <= j < |s.threads| ==> !s.threads[j].Sending?))
  }

  lemma {:induction false} NoneSend(threads: seq<Thread>)
    requires forall j :: 0 <= j < |threads| ==> !threads[j].Sending?
    ensures HowMany(IsSending, threads) == 0
  {
    if threads != [] {
      NoneSend(threads[..|threads| - 1]);
    }
  }

  /** How the goroutine stands at the end. */
  ghost function StandsAt(cfg: JobConfig, t: Thread): Option<Halted> {
    if t.Sending? && t.next.Batch? then Some(Halted(t.next.todo, t.next.links, Sends))
    else if t.Receiving? then Some(Halted(t.f.rest, t.f.links + LinksOf(cfg, [t.f.r]), Waits))
    else None
  }

  /** At the end the outcome is there. */
  lemma EndedOutcome(cfg: JobConfig, s: State, i: nat, order: seq<Url>)
    requires InCall(cfg, s, i) && Ended(s, i)
    ensures OutcomeOf(cfg, s, i, order) == Outcome(View(s), StandsAt(cfg, s.threads[i]))
  {
    HowManyUpdate(IsSending, s.threads, i, Idle);
    HowManyUpdate(IsFinalizing, s.threads, i, Idle);
    if s.threads[i].Receiving? {
      NoneSend(s.threads);
      assert |Seen(s, i).queue| == |s.sh.queue|;
      DeferredStalls(cfg, Seen(s, i), s.threads[i].f, order);
    }
  }

  lemma {:induction false} RunOutcome(cfg: JobConfig, trace: seq<State>, acts: seq<Action>, i: nat)
    returns (order: seq<Url>)
    requires IsRun(cfg, trace, acts) && InCall(cfg, trace[0], i) && Ended(trace[|trace| - 1], i)
    requires forall k :: 0 <= k < |acts| ==> Uninterrupted(acts[k], i)
    ensures Lists(order, LinksToVisit(cfg, trace[0].threads[i]))
    ensures var t := trace[|trace| - 1];
            OutcomeOf(cfg, trace[0], i, order) == Outcome(View(t), StandsAt(cfg, t.threads[i]))
    decreases |acts|
  {
    if acts == [] {
      order := SomeOrder(LinksToVisit(cfg, trace[0].threads[i]));
      EndedOutcome(cfg, trace[0], i, order);
    } else {
      StepInCall(cfg, trace[0], acts[0], i);
      assert IsRun(cfg, trace[1..], acts[1..]);
      var order' := RunOutcome(cfg, trace[1..], acts[1..], i);
      order := StepSameOutcome(cfg, trace[0], acts[0], i, order');
    }
  }

  /** Every run of a goroutine inside `CompletedResources` that nobody interferes with, from any state and with any
      results, to where it has returned or is blocked: the coordinator's data is what `Completed` says for some
      order of the links, and the goroutine has returned or is blocked as `CallAfter` says. */
  lemma EveryUninterruptedCallIsCompleted(
    cfg: JobConfig, trace: seq<State>, acts: seq<Action>, i: nat, rscs: seq<Resource>)
    returns (order: seq<Url>)
    requires IsRun(cfg, trace, acts) && Linked(trace[0].sh) && Ended(trace[|trace| - 1], i)
    requires i < |trace[0].threads| && trace[0].threads[i] == Batch(rscs, {})
    requires forall k :: 0 <= k < |acts| ==> Uninterrupted(acts[k], i)
    ensures Lists(order, LinksOf(cfg, rscs))
    ensures var s, t := trace[0], trace[|trace| - 1];
            var call := CallAfter(cfg, 0, View(s), rscs, {});
            && View(t) == Applied(Completed(cfg, 0, View(s), rscs, order))
            && StandsAt(cfg, t.threads[i]) == (if call.turn == Goes then None else Some(call))
  {
    var s := trace[0];
    order := RunOutcome(cfg, trace, acts, i);
    assert {} + LinksOf(cfg, rscs) == LinksOf(cfg, rscs);
    HowManyUpdate(IsSending, s.threads, i, Idle);
    HowManyUpdate(IsFinalizing, s.threads, i, Idle);
  }

  /** And every such run of a call that was blocked in `Shutdown` and has been let through does what `ResumeCall`
      is proved to do. */
  lemma EveryResumedCallIsCompleted(
    cfg: JobConfig, trace: seq<State>, acts: seq<Action>, i: nat, rscs: seq<Resource>, links: set<Url>)
    returns (order: seq<Url>)
    requires IsRun(cfg, trace, acts) && Linked(trace[0].sh) && Ended(trace[|trace| - 1], i)
    requires i < |trace[0].threads| && trace[0].threads[i] == Finalizing(Batch(rscs, links))
    requires forall k :: 0 <= k < |acts| ==> Uninterrupted(acts[k], i)
    ensures Lists(order, links + LinksOf(cfg, rscs)) && View(trace[0]).released > 0
    ensures var s, t := trace[0], trace[|trace| - 1];
            var call := CallAfter(cfg, 0, LetThrough(View(s)), rscs, links);
            && View(t) == Applied(Completed(cfg, 0, LetThrough(View(s)), rscs, order))
            && StandsAt(cfg, t.threads[i]) == (if call.turn == Goes then None else Some(call))
  {
    order := RunOutcome(cfg, trace, acts, i);
    ResumedSeen(cfg, trace[0], i, rscs, links, order);
  }

  /** The outcome of a call that has been let through. */
  lemma ResumedSeen(cfg: JobConfig, s: State, i: nat, rscs: seq<Resource>, links: set<Url>, order: seq<Url>)
    requires i < |s.threads| && s.threads[i] == Finalizing(Batch(rscs, links))
    ensures LinksToVisit(cfg, s.threads[i]) == links + LinksOf(cfg, rscs) && View(s).released > 0
    ensures OutcomeOf(cfg, s, i, order) == CallOutcome(cfg, LetThrough(View(s)), rscs, links, order)
  {
    assert LinksToVisit(cfg, Batch(rscs, links)) == links + LinksOf(cfg, rscs);
    HowManyUpdate(IsSending, s.threads, i, Idle);
    HowManyUpdate(IsFinalizing, s.threads, i, Idle);
    assert LetThrough(View(s)) == Seen(s, i).(finalized := Seen(s, i).finalized + 1);
  }
}
