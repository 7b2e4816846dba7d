/** The interleaving machine can do what the atomic specification says: from any state with no counter change pending,
    some run takes a goroutine inside `CompletedResources` to where `Completed` says the call ends, for every order
    of its links. `Uninterrupted` shows that every run of it alone ends so. */
module Atomicity {
  import opened Wrappers
  import opened CrawlTypes
  import opened JobRules
  import opened CoordinatorSpec
  import opened Interleaving

  function EntryAt(heap: seq<Req>, ref: nat): Entry {
    Entry(At(heap, ref).rec.jobID, At(heap, ref).url)
  }

  /** The counter with its unapplied changes applied. */
  function Applied(c: Core): Core {
    c.(processing := c.processing + Sum(c.changes), changes := [])
  }

  /** The shared data as values, references followed and changes applied. */
  ghost function Abs(sh: Shared): Core {
    Core(map u | u in sh.store :: At(sh.heap, sh.store[u]).rec,
         seq(|sh.queue|, k requires 0 <= k < |sh.queue| => EntryAt(sh.heap, sh.queue[k])),
         sh.stopping, sh.processing + Sum(sh.changes), [], sh.finished, multiset{},
         0, 0, sh.finalized)
  }

  function HowMany(p: Thread -> bool, threads: seq<Thread>): nat {
    if threads == [] then 0 else HowMany(p, threads[..|threads| - 1]) + if p(threads[|threads| - 1]) then 1 else 0
  }

  lemma {:induction false} HowManyUpdate(p: Thread -> bool, threads: seq<Thread>, i: nat, t: Thread)
    requires i < |threads|
    ensures HowMany(p, threads[i := t]) + (if p(threads[i]) then 1 else 0)
         == HowMany(p, threads) + (if p(t) then 1 else 0)
  {
    var n := |threads| - 1;
    if i == n {
      assert threads[i := t][..n] == threads[..n];
    } else {
      HowManyUpdate(p, threads[..n], i, t);
      assert threads[i := t][..n] == threads[..n][i := t];
    }
  }

  lemma {:induction false} SomeOf(p: Thread -> bool, threads: seq<Thread>) returns (i: nat)
    requires HowMany(p, threads) > 0
    ensures i < |threads| && p(threads[i])
  {
    i := |threads| - 1;
    if !p(threads[i]) {
      i := SomeOf(p, threads[..i]);
    }
  }

  predicate IsSending(t: Thread) {
    t.Sending?
  }

  predicate IsFinalizing(t: Thread) {
    t.Finalizing?
  }

  /** The coordinator's data as a value: blocked calls of `Shutdown` are goroutines that are sending, and those
      let through are about to finalize. */
  ghost function View(s: State): Core {
    Abs(s.sh).(senders := HowMany(IsSending, s.threads), released := HowMany(IsFinalizing, s.threads))
  }

  /** A well-linked state with goroutine i and no change pending. */
  ghost predicate Ready(s: State, i: nat) {
    i < |s.threads| && Linked(s.sh) && s.sh.changes == []
  }

  /** The other goroutines have not moved, except that some that were sending have been let through. */
  ghost predicate Others(threads: seq<Thread>, threads': seq<Thread>, i: nat) {
    && |threads'| == |threads|
    && forall k :: 0 <= k < |threads| && k != i ==>
         || threads'[k] == threads[k]
         || (threads[k].Sending? && threads'[k] == Finalizing(threads[k].next))
  }

  /** `t` is reached from `s` with goroutine i moved to `th` and nothing else moved. */
  ghost predicate Runs(cfg: JobConfig, s0: State, s: State, i: nat, th: Thread, t: State) {
    && Reaches(cfg, s0, t) && Ready(t, i)
    && i < |s.threads| && t.threads == s.threads[i := th]
  }

  /** Two stretches of one goroutine make one. */
  lemma RunsOn(cfg: JobConfig, s0: State, s: State, i: nat, th: Thread, mid: State, th': Thread, t: State)
    requires i < |s.threads| && mid.threads == s.threads[i := th] && Runs(cfg, s0, mid, i, th', t)
    ensures Runs(cfg, s0, s, i, th', t)
  {
    assert s.threads[i := th][i := th'] == s.threads[i := th'];
  }

  lemma {:induction false} ApplyAll(cfg: JobConfig, s0: State, s: State) returns (t: State)
    requires Reaches(cfg, s0, s)
    ensures Reaches(cfg, s0, t) && t.threads == s.threads
    ensures t.sh == s.sh.(processing := s.sh.processing + Sum(s.sh.changes), changes := [])
    decreases |s.sh.changes|
  {
    if s.sh.changes == [] {
      t := s;
    } else {
      ReachStep(cfg, s0, s, Apply);
      SumHead(s.sh.changes);
      t := ApplyAll(cfg, s0, Next(cfg, s, Apply));
    }
  }

  /** Replacing the record of a request changes the value of its own URL only. */
  lemma WithStore(sh: Shared, ref: nat, rec: Record, u: Url)
    requires Linked(sh) && ref < |sh.heap| && sh.heap[ref].url == u && rec.jobID == sh.heap[ref].rec.jobID
    ensures var sh' := sh.(heap := With(sh.heap, ref, rec), store := sh.store[u := ref]);
            Linked(sh') && Abs(sh') == Abs(sh).(store := Abs(sh).store[u := rec])
  {
    var sh' := sh.(heap := With(sh.heap, ref, rec), store := sh.store[u := ref]);
    assert forall k :: 0 <= k < |sh.queue| ==> EntryAt(sh'.heap, sh.queue[k]) == EntryAt(sh.heap, sh.queue[k]);
    assert Abs(sh').queue == Abs(sh).queue;
    assert Abs(sh').store == Abs(sh).store[u := rec];
  }

  /** The same for a request that is already stored, or for a new one that is not. */
  lemma WithRecord(sh: Shared, ref: nat, rec: Record, u: Url)
    requires Linked(sh) && ref < |sh.heap| && sh.heap[ref].url == u && rec.jobID == sh.heap[ref].rec.jobID
    requires u in sh.store ==> sh.store[u] == ref
    ensures var sh' := sh.(heap := With(sh.heap, ref, rec));
            && Linked(sh')
            && Abs(sh') == Abs(sh).(store := if u in sh.store then Abs(sh).store[u := rec] else Abs(sh).store)
  {
    var sh' := sh.(heap := With(sh.heap, ref, rec));
    assert forall k :: 0 <= k < |sh.queue| ==> EntryAt(sh'.heap, sh.queue[k]) == EntryAt(sh.heap, sh.queue[k]);
    assert Abs(sh').queue == Abs(sh).queue;
    assert Abs(sh').store == if u in sh.store then Abs(sh).store[u := rec] else Abs(sh).store;
  }

  /** A new request changes nothing that is visible. */
  lemma WithNew(sh: Shared, q: Req)
    requires Linked(sh)
    ensures var sh' := sh.(heap := sh.heap + [q]); Linked(sh') && Abs(sh') == Abs(sh)
  {
    var sh' := sh.(heap := sh.heap + [q]);
    assert forall k :: 0 <= k < |sh.queue| ==> EntryAt(sh'.heap, sh.queue[k]) == EntryAt(sh.heap, sh.queue[k]);
    assert Abs(sh').queue == Abs(sh).queue;
    assert Abs(sh').store == Abs(sh).store;
  }

  lemma PushedRef(sh: Shared, ref: nat)
    requires Linked(sh) && ref < |sh.heap|
    ensures var sh' := sh.(queue := sh.queue + [ref]);
            Linked(sh') && Abs(sh') == Abs(sh).(queue := Abs(sh).queue + [EntryAt(sh.heap, ref)])
  {
    var sh' := sh.(queue := sh.queue + [ref]);
    assert Abs(sh').queue == Abs(sh).queue + [EntryAt(sh.heap, ref)];
  }

  /** `enqueue` up to the push. */
  lemma StoreAndPush(cfg: JobConfig, s0: State, s: State, i: nat) returns (t: State)
    requires Reaches(cfg, s0, s) && Ready(s, i) && s.threads[i].Testing? && s.threads[i].ref < |s.sh.heap|
    requires !s.sh.stopping
    ensures Runs(cfg, s0, s, i, Crediting(s.threads[i].next), t)
    ensures var q := s.sh.heap[s.threads[i].ref];
            Abs(t.sh) == Abs(s.sh).(store := Abs(s.sh).store[q.url := q.rec.(status := Queued)],
                                    queue := Abs(s.sh).queue + [Entry(q.rec.jobID, q.url)])
  {
    var ref := s.threads[i].ref;
    var q := s.sh.heap[ref];
    var tested := Next(cfg, s, Run(i, ""));
    ReachStep(cfg, s0, s, Run(i, ""));
    var mid := Next(cfg, tested, Run(i, ""));
    ReachStep(cfg, s0, tested, Run(i, ""));
    WithStore(s.sh, ref, q.rec.(status := Queued), q.url);
    t := Next(cfg, mid, Run(i, ""));
    ReachStep(cfg, s0, mid, Run(i, ""));
    PushedRef(mid.sh, ref);
    assert Abs(t.sh) == Abs(mid.sh.(queue := mid.sh.queue + [ref]));
    assert t.threads == s.threads[i := Crediting(s.threads[i].next)];
  }

  /** `enqueue` while stopping. */
  lemma RefuseRun(cfg: JobConfig, s0: State, s: State, i: nat) returns (t: State)
    requires Reaches(cfg, s0, s) && Ready(s, i) && s.threads[i].Testing? && s.threads[i].ref < |s.sh.heap|
    requires s.sh.stopping
    ensures Runs(cfg, s0, s, i, s.threads[i].next, t)
    ensures var q := s.sh.heap[s.threads[i].ref];
            Abs(t.sh) == Abs(s.sh).(store := Abs(s.sh).store[q.url := q.rec.(status := Failed)])
  {
    var q := s.sh.heap[s.threads[i].ref];
    var tested := Next(cfg, s, Run(i, ""));
    ReachStep(cfg, s0, s, Run(i, ""));
    t := Next(cfg, tested, Run(i, ""));
    ReachStep(cfg, s0, tested, Run(i, ""));
    WithStore(s.sh, s.threads[i].ref, q.rec.(status := Failed), q.url);
    assert t.threads == s.threads[i := s.threads[i].next];
  }

  /** `enqueue`, run through, is `Enqueue`. */
  lemma EnqueueRun(cfg: JobConfig, s0: State, s: State, i: nat) returns (t: State)
    requires Reaches(cfg, s0, s) && Ready(s, i) && s.threads[i].Testing? && s.threads[i].ref < |s.sh.heap|
    ensures Runs(cfg, s0, s, i, s.threads[i].next, t)
    ensures var q := s.sh.heap[s.threads[i].ref];
            Abs(t.sh) == Applied(Enqueue(Abs(s.sh), q.url, q.rec))
  {
    if s.sh.stopping {
      t := RefuseRun(cfg, s0, s, i);
    } else {
      var mid := StoreAndPush(cfg, s0, s, i);
      var sent := Next(cfg, mid, Run(i, ""));
      ReachStep(cfg, s0, mid, Run(i, ""));
      t := ApplyAll(cfg, s0, sent);
      assert sent.sh.changes == [] + [1];
      SumAppend([], 1);
      assert t.sh == mid.sh.(processing := mid.sh.processing + 1);
      assert t.threads == s.threads[i := s.threads[i].next];
    }
  }

  /** `dequeue` up to its deferred part. */
  lemma JudgedRun(cfg: JobConfig, s0: State, s: State, i: nat, f: Frame) returns (t: State)
    requires Reaches(cfg, s0, s) && Ready(s, i) && f.r.jobID == cfg.id
    requires s.threads[i].Batch? && s.threads[i].todo == [f.r] + f.rest && s.threads[i].links == f.links
    ensures Runs(cfg, s0, s, i, Debiting(f), t)
    ensures Abs(t.sh) == Applied(Judge(cfg, 0, Abs(s.sh), f.r))
  {
    var mid := TakeUpRun(cfg, s0, s, i, f);
    t := SettleRun(cfg, s0, mid, i, f);
    RunsOn(cfg, s0, s, i, mid.threads[i], mid, Debiting(f), t);
  }

  /** The lookup of `dequeue`: nothing visible changes. */
  lemma TakeUpRun(cfg: JobConfig, s0: State, s: State, i: nat, f: Frame) returns (t: State)
    requires Reaches(cfg, s0, s) && Ready(s, i) && f.r.jobID == cfg.id
    requires s.threads[i].Batch? && s.threads[i].todo == [f.r] + f.rest && s.threads[i].links == f.links
    ensures Reaches(cfg, s0, t) && Ready(t, i) && |t.threads| == |s.threads|
    ensures t.threads[i].Judging? && t.threads[i].f == f && t.threads == s.threads[i := t.threads[i]]
    ensures Abs(t.sh) == Abs(s.sh)
    ensures HoldsFor(t.sh, t.threads[i].ref, f.r.url)
    ensures f.r.url !in t.sh.store ==> t.sh.heap[t.threads[i].ref].rec == NewRecord("")
  {
    assert ([f.r] + f.rest)[1..] == f.rest;
    t := Next(cfg, s, Run(i, ""));
    ReachStep(cfg, s0, s, Run(i, ""));
    WithNew(s.sh, Req(f.r.url, NewRecord("")));
    assert Abs(t.sh) == Abs(t.sh.(log := s.sh.log));
  }

  /** The request a goroutine holds for `u`: the stored one, if there is one. */
  ghost predicate HoldsFor(sh: Shared, ref: nat, u: Url) {
    ref < |sh.heap| && sh.heap[ref].url == u && (u in sh.store ==> sh.store[u] == ref)
  }

  /** What `Settle` works on: a goroutine that holds the request of its result. */
  ghost predicate Settling(s: State, i: nat, f: Frame) {
    && Ready(s, i) && s.threads[i].Judging? && s.threads[i].f == f
    && HoldsFor(s.sh, s.threads[i].ref, f.r.url)
    && (f.r.url !in s.sh.store ==> s.sh.heap[s.threads[i].ref].rec == NewRecord(""))
  }

  lemma ChargedIsHeld(s: State, i: nat, f: Frame)
    requires Settling(s, i, f)
    ensures var q := s.sh.heap[s.threads[i].ref];
            Charged(Abs(s.sh), f.r) == q.rec.(prevStatus := f.r.status, attempts := q.rec.attempts + 1)
  {
  }

  /** The access that records a successful result. */
  lemma DoneStep(cfg: JobConfig, s: State, i: nat, f: Frame) returns (t: State)
    requires Settling(s, i, f) && OkStatus(f.r.status)
    ensures t == Next(cfg, s, Run(i, "")) && t.threads == s.threads[i := Debiting(f)]
    ensures t.sh == s.sh.(heap := With(s.sh.heap, s.threads[i].ref, Charged(Abs(s.sh), f.r).(status := Done)),
                          finished := s.sh.finished + 1)
  {
    ChargedIsHeld(s, i, f);
    t := Next(cfg, s, Run(i, ""));
  }

  /** A successful result. */
  lemma DoneRun(cfg: JobConfig, s0: State, s: State, i: nat, f: Frame) returns (t: State)
    requires Reaches(cfg, s0, s) && Settling(s, i, f) && OkStatus(f.r.status)
    ensures Runs(cfg, s0, s, i, Debiting(f), t)
    ensures Abs(t.sh) == Applied(Judge(cfg, 0, Abs(s.sh), f.r))
  {
    var ref, rec := s.threads[i].ref, Charged(Abs(s.sh), f.r).(status := Done);
    t := DoneStep(cfg, s, i, f);
    ReachStep(cfg, s0, s, Run(i, ""));
    WithRecord(s.sh, ref, rec, f.r.url);
    var sh' := s.sh.(heap := With(s.sh.heap, ref, rec));
    assert Abs(t.sh) == Abs(sh').(finished := s.sh.finished + 1);
  }

  /** A failed result that is given up. */
  lemma GiveUpRun(cfg: JobConfig, s0: State, s: State, i: nat, f: Frame) returns (t: State)
    requires Reaches(cfg, s0, s) && Settling(s, i, f)
    requires !OkStatus(f.r.status) && Charged(Abs(s.sh), f.r).attempts > cfg.maxAttempts
    ensures Runs(cfg, s0, s, i, Debiting(f), t)
    ensures Abs(t.sh) == Applied(Judge(cfg, 0, Abs(s.sh), f.r))
  {
    var ref, rec := s.threads[i].ref, Charged(Abs(s.sh), f.r).(status := Failed);
    ChargedIsHeld(s, i, f);
    t := Next(cfg, s, Run(i, ""));
    ReachStep(cfg, s0, s, Run(i, ""));
    WithStore(s.sh, ref, rec, f.r.url);
    assert t.sh == s.sh.(heap := With(s.sh.heap, ref, rec), store := s.sh.store[f.r.url := ref]);
  }

  /** A failed result that is tried again, up to its `enqueue`. */
  lemma RetryStart(cfg: JobConfig, s0: State, s: State, i: nat, f: Frame) returns (t: State)
    requires Reaches(cfg, s0, s) && Settling(s, i, f)
    requires !OkStatus(f.r.status) && Charged(Abs(s.sh), f.r).attempts <= cfg.maxAttempts
    ensures Runs(cfg, s0, s, i, Testing(s.threads[i].ref, Debiting(f)), t)
    ensures Abs(t.sh) == Abs(s.sh).(store := Recorded(Abs(s.sh), f.r))
    ensures s.threads[i].ref < |t.sh.heap| && t.sh.heap[s.threads[i].ref] == Req(f.r.url, Charged(Abs(s.sh), f.r))
  {
    var ref, rec := s.threads[i].ref, Charged(Abs(s.sh), f.r);
    ChargedIsHeld(s, i, f);
    t := Next(cfg, s, Run(i, ""));
    ReachStep(cfg, s0, s, Run(i, ""));
    WithRecord(s.sh, ref, rec, f.r.url);
    assert t.sh == s.sh.(heap := With(s.sh.heap, ref, rec));
  }

  lemma RetryRun(cfg: JobConfig, s0: State, s: State, i: nat, f: Frame) returns (t: State)
    requires Reaches(cfg, s0, s) && Settling(s, i, f)
    requires !OkStatus(f.r.status) && Charged(Abs(s.sh), f.r).attempts <= cfg.maxAttempts
    ensures Runs(cfg, s0, s, i, Debiting(f), t)
    ensures Abs(t.sh) == Applied(Judge(cfg, 0, Abs(s.sh), f.r))
  {
    var mid := RetryStart(cfg, s0, s, i, f);
    t := EnqueueRun(cfg, s0, mid, i);
    RunsOn(cfg, s0, s, i, Testing(s.threads[i].ref, Debiting(f)), mid, Debiting(f), t);
    RecordedThenSettled(cfg, 0, Abs(s.sh), f.r);
  }

  /** Recording the result, and a new attempt if there is one, up to the deferred part of `dequeue`. */
  lemma SettleRun(cfg: JobConfig, s0: State, s: State, i: nat, f: Frame) returns (t: State)
    requires Reaches(cfg, s0, s) && Settling(s, i, f)
    ensures Runs(cfg, s0, s, i, Debiting(f), t)
    ensures Abs(t.sh) == Applied(Judge(cfg, 0, Abs(s.sh), f.r))
  {
    if OkStatus(f.r.status) {
      t := DoneRun(cfg, s0, s, i, f);
    } else if Charged(Abs(s.sh), f.r).attempts > cfg.maxAttempts {
      t := GiveUpRun(cfg, s0, s, i, f);
    } else {
      t := RetryRun(cfg, s0, s, i, f);
    }
  }

  // ---------------------------------------------------------------- the deferred part of `dequeue`

  /** A goroutine that is in `Shutdown` neither before nor after changes nothing about who is. */
  lemma SameShutdowns(s: State, t: State, i: nat)
    requires i < |s.threads| == |t.threads| && t.threads == s.threads[i := t.threads[i]]
    requires !IsSending(s.threads[i]) && !IsSending(t.threads[i])
    requires !IsFinalizing(s.threads[i]) && !IsFinalizing(t.threads[i])
    ensures HowMany(IsSending, t.threads) == HowMany(IsSending, s.threads)
    ensures HowMany(IsFinalizing, t.threads) == HowMany(IsFinalizing, s.threads)
  {
    HowManyUpdate(IsSending, s.threads, i, t.threads[i]);
    HowManyUpdate(IsFinalizing, s.threads, i, t.threads[i]);
  }

  /** Where the deferred part leaves the goroutine. */
  ghost predicate Ends(cfg: JobConfig, t: Thread, turn: Turn, f: Frame) {
    match turn
    case Goes => t == Resume(cfg, f)
    case Waits => t == Receiving(f)
    case Sends => t == Sending(Resume(cfg, f))
  }

  /** The -1 is sent and applied, and the flag and the queue are tested. */
  lemma SendSteps(cfg: JobConfig, s0: State, s: State, i: nat, f: Frame) returns (t: State)
    requires Reaches(cfg, s0, s) && Ready(s, i) && s.threads[i] == Debiting(f)
    ensures Reaches(cfg, s0, t)
    ensures t.threads == s.threads[i := if s.sh.stopping && s.sh.queue == [] then Receiving(f) else Comparing(f)]
    ensures t.sh == s.sh.(processing := s.sh.processing - 1)
  {
    var s1 := Next(cfg, s, Run(i, ""));
    ReachStep(cfg, s0, s, Run(i, ""));
    var s2 := Next(cfg, s1, Run(i, ""));
    ReachStep(cfg, s0, s1, Run(i, ""));
    t := ApplyAll(cfg, s0, s2);
    assert s2.sh.changes == [] + [-1];
    SumAppend([], -1);
  }

  lemma SendRun(cfg: JobConfig, s0: State, s: State, i: nat, f: Frame) returns (t: State)
    requires Reaches(cfg, s0, s) && Ready(s, i) && s.threads[i] == Debiting(f)
    ensures var th := if s.sh.stopping && s.sh.queue == [] then Receiving(f) else Comparing(f);
            Runs(cfg, s0, s, i, th, t)
    ensures View(t) == View(s).(processing := View(s).processing - 1)
    ensures t.sh.stopping == s.sh.stopping && t.sh.queue == s.sh.queue
  {
    t := SendSteps(cfg, s0, s, i, f);
    SameShutdowns(s, t, i);
    assert Abs(t.sh) == Abs(s.sh).(processing := Abs(s.sh).processing - 1);
  }

  /** A rendezvous moves one goroutine from the senders to those let through. */
  lemma MeetCounts(threads: seq<Thread>, i: nat, j: nat)
    requires i < |threads| && j < |threads| && threads[i].Receiving? && threads[j].Sending?
    ensures var threads' := threads[j := Finalizing(threads[j].next)][i := Comparing(threads[i].f)];
            && HowMany(IsSending, threads') == HowMany(IsSending, threads) - 1
            && HowMany(IsFinalizing, threads') == HowMany(IsFinalizing, threads) + 1
  {
    var mid := threads[j := Finalizing(threads[j].next)];
    HowManyUpdate(IsSending, threads, j, mid[j]);
    HowManyUpdate(IsFinalizing, threads, j, mid[j]);
    HowManyUpdate(IsSending, mid, i, Comparing(threads[i].f));
    HowManyUpdate(IsFinalizing, mid, i, Comparing(threads[i].f));
  }

  /** The rendezvous: a sending goroutine is let through. */
  lemma MeetRun(cfg: JobConfig, s0: State, s: State, i: nat, f: Frame) returns (t: State)
    requires Reaches(cfg, s0, s) && Ready(s, i) && s.threads[i] == Receiving(f) && View(s).senders > 0
    ensures Reaches(cfg, s0, t) && Ready(t, i) && Others(s.threads, t.threads, i) && t.threads[i] == Comparing(f)
    ensures View(t) == View(s).(senders := View(s).senders - 1, released := View(s).released + 1)
  {
    var j := SomeOf(IsSending, s.threads);
    t := Next(cfg, s, Meet(j, i));
    ReachStep(cfg, s0, s, Meet(j, i));
    MeetCounts(s.threads, i, j);
    assert t.sh == s.sh;
  }

  /** What raising the flag, and finalizing if the queue is empty, does to the shared data. */
  lemma RaisedData(sh: Shared, through: nat)
    requires Linked(sh) && through == if sh.queue != [] then 0 else 1
    ensures var sh' := sh.(stopping := true, finalized := sh.finalized + through);
            Linked(sh') && Abs(sh') == Raised(Abs(sh)).(senders := 0)
  {
    var sh' := sh.(stopping := true, finalized := sh.finalized + through);
    assert |Abs(sh).queue| == |sh.queue|;
    assert Abs(sh') == Abs(sh).(stopping := true, finalized := sh.finalized + through);
  }

  /** `Shutdown`, up to its wait or through. */
  lemma ShutSteps(cfg: JobConfig, s0: State, s: State, i: nat) returns (t: State)
    requires Reaches(cfg, s0, s) && Ready(s, i) && s.threads[i].Raising? && s.threads[i].next.Batch?
    ensures var next := s.threads[i].next;
            Reaches(cfg, s0, t) && t.threads == s.threads[i := if s.sh.queue != [] then Sending(next) else next]
    ensures t.sh == s.sh.(stopping := true, finalized := s.sh.finalized + if s.sh.queue != [] then 0 else 1)
  {
    var s1 := Next(cfg, s, Run(i, ""));
    ReachStep(cfg, s0, s, Run(i, ""));
    t := Next(cfg, s1, Run(i, ""));
    ReachStep(cfg, s0, s1, Run(i, ""));
    if s.sh.queue == [] {
      ReachStep(cfg, s0, t, Run(i, ""));
      t := Next(cfg, t, Run(i, ""));
    }
  }

  lemma ShutRun(cfg: JobConfig, s0: State, s: State, i: nat) returns (t: State)
    requires Reaches(cfg, s0, s) && Ready(s, i) && s.threads[i].Raising? && s.threads[i].next.Batch?
    ensures var next := s.threads[i].next;
            Runs(cfg, s0, s, i, if s.sh.queue != [] then Sending(next) else next, t)
    ensures View(t) == Raised(View(s))
  {
    t := ShutSteps(cfg, s0, s, i);
    RaisedData(s.sh, if s.sh.queue != [] then 0 else 1);
    HowManyUpdate(IsSending, s.threads, i, t.threads[i]);
    HowManyUpdate(IsFinalizing, s.threads, i, t.threads[i]);
    assert |Abs(s.sh).queue| == |s.sh.queue|;
  }

  /** The comparison with the stop URL, and the shutdown it leads to. */
  lemma CompareRun(cfg: JobConfig, s0: State, s: State, i: nat, f: Frame) returns (t: State)
    requires Reaches(cfg, s0, s) && Ready(s, i) && s.threads[i] == Comparing(f)
    ensures var turn := if cfg.stopUrl == f.r.url && s.sh.queue != [] then Sends else Goes;
            Reaches(cfg, s0, t) && Ready(t, i) && Ends(cfg, t.threads[i], turn, f)
    ensures t.threads == s.threads[i := t.threads[i]]
    ensures View(t) == if cfg.stopUrl == f.r.url then Raised(View(s)) else View(s)
  {
    t := Next(cfg, s, Run(i, ""));
    ReachStep(cfg, s0, s, Run(i, ""));
    SameShutdowns(s, t, i);
    if cfg.stopUrl == f.r.url {
      var mid := t;
      t := ShutRun(cfg, s0, mid, i);
      assert t.threads == s.threads[i := t.threads[i]];
    }
  }

  /** `Deferred` step by step, with the -1 applied at once. */
  lemma DeferredInSteps(cfg: JobConfig, c: Core, url: Url)
    requires c.changes == []
    ensures var d := c.(processing := c.processing - 1);
            Applied(Deferred(cfg, c, url)) == if Stalls(c) then d else Compared(cfg, Passed(d), url)
  {
    SumOne(-1);
    assert [] + [-1] == [-1];
  }

  function Passed(c: Core): Core {
    if Receives(c) then c.(senders := c.senders - 1, released := c.released + 1) else c
  }

  function Compared(cfg: JobConfig, c: Core, url: Url): Core {
    if cfg.stopUrl == url then Raised(c) else c
  }

  /** The receive, if there is one and somebody is sending. */
  lemma PassRun(cfg: JobConfig, s0: State, s: State, i: nat, f: Frame) returns (t: State)
    requires Reaches(cfg, s0, s) && Ready(s, i) && !Stalls(View(s))
    requires s.threads[i] == if s.sh.stopping && s.sh.queue == [] then Receiving(f) else Comparing(f)
    ensures Reaches(cfg, s0, t) && Ready(t, i) && Others(s.threads, t.threads, i) && t.threads[i] == Comparing(f)
    ensures View(t) == Passed(View(s))
  {
    assert |View(s).queue| == |s.sh.queue|;
    if s.sh.stopping && s.sh.queue == [] {
      t := MeetRun(cfg, s0, s, i, f);
    } else {
      t := s;
    }
  }

  /** From the test of the flag and the queue, if the receive does not block. */
  lemma PassAndCompareRun(cfg: JobConfig, s0: State, s: State, i: nat, f: Frame) returns (t: State)
    requires Reaches(cfg, s0, s) && Ready(s, i) && !Stalls(View(s))
    requires s.threads[i] == if s.sh.stopping && s.sh.queue == [] then Receiving(f) else Comparing(f)
    ensures Reaches(cfg, s0, t) && Ready(t, i) && Others(s.threads, t.threads, i)
    ensures Ends(cfg, t.threads[i], if cfg.stopUrl == f.r.url && s.sh.queue != [] then Sends else Goes, f)
    ensures View(t) == Compared(cfg, Passed(View(s)), f.r.url)
  {
    var passed := PassRun(cfg, s0, s, i, f);
    assert |View(passed).queue| == |passed.sh.queue| && |View(s).queue| == |s.sh.queue|;
    t := CompareRun(cfg, s0, passed, i, f);
    OthersOn(s.threads, passed.threads, t.threads, i);
  }

  /** The deferred part of `dequeue`, run through or up to where it blocks, is `Deferred`. */
  lemma DeferredRun(cfg: JobConfig, s0: State, s: State, i: nat, f: Frame) returns (t: State)
    requires Reaches(cfg, s0, s) && Ready(s, i) && s.threads[i] == Debiting(f)
    ensures Reaches(cfg, s0, t) && Ready(t, i) && Others(s.threads, t.threads, i)
    ensures Ends(cfg, t.threads[i], TurnAfter(cfg, View(s), f.r.url), f)
    ensures View(t) == Applied(Deferred(cfg, View(s), f.r.url))
  {
    assert |View(s).queue| == |s.sh.queue|;
    DeferredInSteps(cfg, View(s), f.r.url);
    var sent := SendRun(cfg, s0, s, i, f);
    if Stalls(View(s)) {
      t := sent;
    } else {
      t := PassAndCompareRun(cfg, s0, sent, i, f);
      OthersSteady(s.threads, i, sent.threads[i], t.threads);
    }
  }

  // ---------------------------------------------------------------- whole calls

  lemma SumOne(x: int)
    ensures Sum([x]) == x
  {
    assert [x][..0] == [];
  }

  lemma AppliedEnqueue(c: Core, u: Url, rec: Record)
    ensures Applied(Enqueue(Applied(c), u, rec)) == Applied(Enqueue(c, u, rec))
  {
    SumAppend(c.changes, 1);
    SumOne(1);
    assert [] + [1] == [1];
  }

  /** Applying pending changes early makes no difference to what a result does. */
  lemma AppliedJudge(cfg: JobConfig, c: Core, r: Resource)
    ensures Applied(Judge(cfg, 0, Applied(c), r)) == Applied(Judge(cfg, 0, c, r))
  {
    assert Charged(Applied(c), r) == Charged(c, r);
    if !OkStatus(r.status) {
      AppliedRetried(cfg, c, r.url, Charged(c, r));
    }
  }

  lemma AppliedRetried(cfg: JobConfig, c: Core, u: Url, rec: Record)
    ensures Applied(Retried(cfg, Applied(c), u, rec)) == Applied(Retried(cfg, c, u, rec))
  {
    if rec.attempts <= cfg.maxAttempts {
      AppliedEnqueue(c, u, rec);
    }
  }

  /** The deferred part does not look at the counter, and adds one change. */
  lemma DeferredApart(cfg: JobConfig, c: Core, u: Url, processing: int, changes: seq<int>)
    ensures Deferred(cfg, c.(processing := processing, changes := changes), u)
         == Deferred(cfg, c, u).(processing := processing, changes := changes + [-1])
  {
  }

  lemma AppliedDeferred(cfg: JobConfig, c: Core, u: Url)
    ensures Applied(Deferred(cfg, Applied(c), u)) == Applied(Deferred(cfg, c, u))
    ensures TurnAfter(cfg, Applied(c), u) == TurnAfter(cfg, c, u)
  {
    DeferredApart(cfg, c, u, Applied(c).processing, []);
    DeferredApart(cfg, c, u, c.processing, c.changes);
    SumAppend(c.changes, -1);
    SumAppend([], -1);
  }

  /** What a result does, and where it leaves the call, is the same with changes pending or applied. */
  lemma AppliedDequeueOwn(cfg: JobConfig, c: Core, r: Resource)
    ensures Applied(DequeueOwn(cfg, 0, Applied(c), r)) == Applied(DequeueOwn(cfg, 0, c, r))
    ensures TurnOfOwn(cfg, 0, Applied(c), r) == TurnOfOwn(cfg, 0, c, r)
  {
    if r.jobID == cfg.id {
      var j, k := Judge(cfg, 0, Applied(c), r), Judge(cfg, 0, c, r);
      AppliedJudge(cfg, c, r);
      AppliedDeferred(cfg, j, r.url);
      AppliedDeferred(cfg, k, r.url);
    }
  }

  lemma AppliedLink(cfg: JobConfig, c: Core, u: Url)
    ensures Applied(EnqueueLink(cfg, Applied(c), u)) == Applied(EnqueueLink(cfg, c, u))
  {
    AppliedEnqueue(c, u, NewRecord(cfg.id));
  }

  lemma {:induction false} AppliedDequeueAll(cfg: JobConfig, c: Core, rscs: seq<Resource>)
    ensures Applied(DequeueAll(cfg, 0, Applied(c), rscs)) == Applied(DequeueAll(cfg, 0, c, rscs))
    ensures Course(cfg, 0, Applied(c), rscs) == Course(cfg, 0, c, rscs)
    ensures Taken(cfg, 0, Applied(c), rscs) == Taken(cfg, 0, c, rscs)
  {
    if rscs != [] {
      var init, r := rscs[..|rscs| - 1], rscs[|rscs| - 1];
      AppliedDequeueAll(cfg, c, init);
      AppliedDequeueOwn(cfg, DequeueAll(cfg, 0, Applied(c), init), r);
      AppliedDequeueOwn(cfg, DequeueAll(cfg, 0, c, init), r);
    }
  }

  lemma {:induction false} DequeueFirst(cfg: JobConfig, c: Core, r: Resource, rest: seq<Resource>)
    ensures DequeueAll(cfg, 0, c, [r] + rest) == DequeueAll(cfg, 0, DequeueOwn(cfg, 0, c, r), rest)
    decreases |rest|
  {
    var all := [r] + rest;
    if rest == [] {
      assert all[..0] == [] && all == [r];
    } else {
      var init := rest[..|rest| - 1];
      DequeueFirst(cfg, c, r, init);
      assert all[..|all| - 1] == [r] + init;
    }
  }

  /** The loop that does not halt at its first result goes on with the others. */
  lemma {:induction false} CourseFirst(cfg: JobConfig, c: Core, r: Resource, rest: seq<Resource>)
    ensures var d, turn := DequeueOwn(cfg, 0, c, r), TurnOfOwn(cfg, 0, c, r);
            && Course(cfg, 0, c, [r] + rest) == (if turn != Goes then turn else Course(cfg, 0, d, rest))
            && Taken(cfg, 0, c, [r] + rest) == (if turn != Goes then 1 else 1 + Taken(cfg, 0, d, rest))
    decreases |rest|
  {
    var all := [r] + rest;
    if rest == [] {
      assert all[..0] == [] && all == [r];
    } else {
      var init := rest[..|rest| - 1];
      CourseFirst(cfg, c, r, init);
      DequeueFirst(cfg, c, r, init);
      assert all[..|all| - 1] == [r] + init;
    }
  }

  /** How the call stands, in terms of its first result and the others. */
  lemma CallFirst(cfg: JobConfig, c: Core, r: Resource, rest: seq<Resource>, links: set<Url>)
    ensures var d, turn, more := DequeueOwn(cfg, 0, c, r), TurnOfOwn(cfg, 0, c, r), links + LinksOf(cfg, [r]);
            CallAfter(cfg, 0, c, [r] + rest, links)
              == if turn != Goes then Halted(rest, more, turn) else CallAfter(cfg, 0, d, rest, more)
  {
    var all, d := [r] + rest, DequeueOwn(cfg, 0, c, r);
    CourseFirst(cfg, c, r, rest);
    if TurnOfOwn(cfg, 0, c, r) != Goes {
      assert all[1..] == rest && all[..1] == [r];
    } else {
      var n := Taken(cfg, 0, d, rest);
      assert all[1 + n..] == rest[n..] && all[..1 + n] == [r] + rest[..n];
      LinksOfFirst(cfg, links, r, rest[..n]);
    }
  }

  lemma LinksOfFirst(cfg: JobConfig, links: set<Url>, r: Resource, rest: seq<Resource>)
    ensures links + LinksOf(cfg, [r]) + LinksOf(cfg, rest) == links + LinksOf(cfg, [r] + rest)
  {
    assert forall x :: x in [r] + rest <==> x in [r] || x in rest;
  }

  // ---------------------------------------------------------------- the loop over resources

  /** Enqueueing does not look at who is blocked in `Shutdown`. */
  lemma RetriedApart(cfg: JobConfig, c: Core, u: Url, rec: Record, senders: nat, released: nat)
    ensures Retried(cfg, c.(senders := senders, released := released), u, rec)
         == Retried(cfg, c, u, rec).(senders := senders, released := released)
  {
  }

  /** Nor does judging. */
  lemma JudgeApart(cfg: JobConfig, c: Core, r: Resource, senders: nat, released: nat)
    ensures Judge(cfg, 0, c.(senders := senders, released := released), r)
         == Judge(cfg, 0, c, r).(senders := senders, released := released)
  {
    var d := c.(senders := senders, released := released);
    assert Charged(d, r) == Charged(c, r);
    if !OkStatus(r.status) {
      RetriedApart(cfg, c, r.url, Charged(c, r), senders, released);
    }
  }

  /** `dequeue` up to its deferred part is `Judge`. */
  lemma JudgedView(cfg: JobConfig, s0: State, s: State, i: nat, f: Frame) returns (t: State)
    requires Reaches(cfg, s0, s) && Ready(s, i) && f.r.jobID == cfg.id
    requires s.threads[i].Batch? && s.threads[i].todo == [f.r] + f.rest && s.threads[i].links == f.links
    ensures Runs(cfg, s0, s, i, Debiting(f), t)
    ensures View(t) == Applied(Judge(cfg, 0, View(s), f.r))
  {
    t := JudgedRun(cfg, s0, s, i, f);
    SameShutdowns(s, t, i);
    JudgeApart(cfg, Abs(s.sh), f.r, View(s).senders, View(s).released);
  }

  /** `dequeue`, run through or up to where it blocks, is `Dequeue`. */
  lemma DequeueRun(
    cfg: JobConfig, s0: State, s: State, i: nat, r: Resource, rest: seq<Resource>, links: set<Url>)
    returns (t: State)
    requires Reaches(cfg, s0, s) && Ready(s, i) && s.threads[i] == Batch([r] + rest, links) && r.jobID == cfg.id
    ensures Reaches(cfg, s0, t) && Ready(t, i) && Others(s.threads, t.threads, i)
    ensures Ends(cfg, t.threads[i], TurnOf(cfg, 0, View(s), r), Frame(r, rest, links))
    ensures View(t) == Applied(Dequeue(cfg, 0, View(s), r))
  {
    var f := Frame(r, rest, links);
    var mid := JudgedView(cfg, s0, s, i, f);
    AppliedDeferred(cfg, Judge(cfg, 0, View(s), r), r.url);
    t := DeferredRun(cfg, s0, mid, i, f);
    OthersSteady(s.threads, i, Debiting(f), t.threads);
  }

  lemma OthersSteady(threads: seq<Thread>, i: nat, th: Thread, threads': seq<Thread>)
    requires i < |threads| && Others(threads[i := th], threads', i)
    ensures Others(threads, threads', i)
  {
    assert forall k :: 0 <= k < |threads| && k != i ==> threads[i := th][k] == threads[k];
  }

  lemma OthersOn(a: seq<Thread>, b: seq<Thread>, c: seq<Thread>, i: nat)
    requires Others(a, b, i) && Others(b, c, i)
    ensures Others(a, c, i)
  {
    forall k | 0 <= k < |a| && k != i
      ensures c[k] == a[k] || (a[k].Sending? && c[k] == Finalizing(a[k].next))
    {
      assert b[k] == a[k] || (a[k].Sending? && b[k] == Finalizing(a[k].next));
    }
  }

  /** A result of another job, or of none, is skipped. */
  lemma SkipRun(
    cfg: JobConfig, s0: State, s: State, i: nat, r: Resource, rest: seq<Resource>, links: set<Url>)
    returns (t: State)
    requires Reaches(cfg, s0, s) && Ready(s, i) && s.threads[i] == Batch([r] + rest, links) && r.jobID != cfg.id
    ensures Reaches(cfg, s0, t) && Ready(t, i) && t.threads == s.threads[i := Batch(rest, links)]
    ensures View(t) == View(s) && LinksOf(cfg, [r]) == {}
  {
    assert ([r] + rest)[1..] == rest;
    t := Next(cfg, s, Run(i, ""));
    ReachStep(cfg, s0, s, Run(i, ""));
    SameShutdowns(s, t, i);
  }

  /** One turn of the loop over resources. */
  lemma TakeRun(
    cfg: JobConfig, s0: State, s: State, i: nat, r: Resource, rest: seq<Resource>, links: set<Url>)
    returns (t: State)
    requires Reaches(cfg, s0, s) && Ready(s, i) && s.threads[i] == Batch([r] + rest, links)
    ensures Reaches(cfg, s0, t) && Ready(t, i) && Others(s.threads, t.threads, i)
    ensures var turn, more := TurnOfOwn(cfg, 0, View(s), r), links + LinksOf(cfg, [r]);
            && (turn == Goes ==> t.threads[i] == Batch(rest, more))
            && (turn != Goes ==> Stands(cfg, t.threads[i], Halted(rest, more, turn)))
    ensures View(t) == Applied(DequeueOwn(cfg, 0, View(s), r))
  {
    if r.jobID == cfg.id {
      t := DequeueRun(cfg, s0, s, i, r, rest, links);
    } else {
      t := SkipRun(cfg, s0, s, i, r, rest, links);
      assert links + {} == links;
      assert Applied(View(s)) == View(s);
    }
  }

  /** Where a call stands that has gone through its results or halted at one of them. */
  ghost predicate Stands(cfg: JobConfig, t: Thread, call: Halted) {
    match call.turn
    case Goes => t == Batch([], call.links)
    case Waits => t.Receiving? && Resume(cfg, t.f) == Batch(call.rest, call.links)
    case Sends => t == Sending(Batch(call.rest, call.links))
  }

  /** The loop over resources, run through or up to where it halts, is `DequeueAll`. */
  lemma {:induction false} BatchRun(
    cfg: JobConfig, s0: State, s: State, i: nat, rscs: seq<Resource>, links: set<Url>)
    returns (t: State)
    requires Reaches(cfg, s0, s) && Ready(s, i) && s.threads[i] == Batch(rscs, links)
    ensures Reaches(cfg, s0, t) && Ready(t, i) && Others(s.threads, t.threads, i)
    ensures Stands(cfg, t.threads[i], CallAfter(cfg, 0, View(s), rscs, links))
    ensures View(t) == Applied(DequeueAll(cfg, 0, View(s), rscs[..Taken(cfg, 0, View(s), rscs)]))
    decreases |rscs|
  {
    if rscs == [] {
      t := s;
      assert links + LinksOf(cfg, []) == links;
      assert Applied(View(s)) == View(s);
    } else {
      var r, rest := rscs[0], rscs[1..];
      assert rscs == [r] + rest;
      var mid := TakeRun(cfg, s0, s, i, r, rest, links);
      CallFirst(cfg, View(s), r, rest, links);
      CourseFirst(cfg, View(s), r, rest);
      if TurnOfOwn(cfg, 0, View(s), r) != Goes {
        t := mid;
        HaltValue(cfg, View(s), r, rest);
      } else {
        t := BatchRun(cfg, s0, mid, i, rest, links + LinksOf(cfg, [r]));
        OthersOn(s.threads, mid.threads, t.threads, i);
        GoOnValue(cfg, View(s), r, rest, links + LinksOf(cfg, [r]));
      }
    }
  }

  lemma HaltValue(cfg: JobConfig, c: Core, r: Resource, rest: seq<Resource>)
    ensures DequeueAll(cfg, 0, c, ([r] + rest)[..1]) == DequeueOwn(cfg, 0, c, r)
  {
    assert ([r] + rest)[..1] == [r];
    assert [r][..0] == [];
    assert DequeueAll(cfg, 0, c, []) == c;
  }

  lemma GoOnValue(cfg: JobConfig, c: Core, r: Resource, rest: seq<Resource>, links: set<Url>)
    requires TurnOfOwn(cfg, 0, c, r) == Goes
    ensures var d, all := DequeueOwn(cfg, 0, c, r), [r] + rest;
            && CallAfter(cfg, 0, Applied(d), rest, links) == CallAfter(cfg, 0, d, rest, links)
            && Applied(DequeueAll(cfg, 0, Applied(d), rest[..Taken(cfg, 0, Applied(d), rest)]))
                 == Applied(DequeueAll(cfg, 0, c, all[..Taken(cfg, 0, c, all)]))
  {
    var d := DequeueOwn(cfg, 0, c, r);
    var n := Taken(cfg, 0, d, rest);
    CourseFirst(cfg, c, r, rest);
    AppliedDequeueAll(cfg, d, rest);
    AppliedDequeueAll(cfg, d, rest[..n]);
    DequeueFirst(cfg, c, r, rest[..n]);
    assert ([r] + rest)[..1 + n] == [r] + rest[..n];
  }

  // ---------------------------------------------------------------- the loop over links

  /** One turn of the loop over links, run through, is `EnqueueLink`. */
  lemma LinkRun(cfg: JobConfig, s0: State, s: State, i: nat, links: set<Url>, u: Url) returns (t: State)
    requires Reaches(cfg, s0, s) && Ready(s, i) && s.threads[i] == Linking(links) && u in links
    ensures Runs(cfg, s0, s, i, Linking(links - {u}), t)
    ensures Abs(t.sh) == Applied(EnqueueLink(cfg, Abs(s.sh), u))
  {
    var s1 := Next(cfg, s, Run(i, u));
    ReachStep(cfg, s0, s, Run(i, u));
    if u in s.sh.store {
      t := s1;
    } else {
      WithNew(s.sh, Req(u, NewRecord(cfg.id)));
      t := EnqueueRun(cfg, s0, s1, i);
      assert t.threads == s.threads[i := Linking(links - {u})];
    }
  }

  lemma {:induction false} AppliedLinks(cfg: JobConfig, c: Core, order: seq<Url>)
    ensures Applied(EnqueueLinks(cfg, Applied(c), order)) == Applied(EnqueueLinks(cfg, c, order))
  {
    if order != [] {
      var init, u := order[..|order| - 1], order[|order| - 1];
      AppliedLinks(cfg, c, init);
      AppliedLink(cfg, EnqueueLinks(cfg, Applied(c), init), u);
      AppliedLink(cfg, EnqueueLinks(cfg, c, init), u);
    }
  }

  /** The links that remain after those of `order`. */
  ghost function Rest(links: set<Url>, order: seq<Url>): set<Url> {
    links - set u | u in order
  }

  lemma RestStep(links: set<Url>, order: seq<Url>)
    requires order != [] && forall k, l :: 0 <= k < l < |order| ==> order[k] != order[l]
    requires forall u :: u in order ==> u in links
    ensures var init, u := order[..|order| - 1], order[|order| - 1];
            u in Rest(links, init) && Rest(links, init) - {u} == Rest(links, order)
  {
    var init, u := order[..|order| - 1], order[|order| - 1];
    assert u !in init;
    assert forall v :: v in order <==> v in init || v == u;
  }

  /** The loop over links, run in the order `order`, is `EnqueueLinks`. */
  lemma {:induction false} LinksRun(
    cfg: JobConfig, s0: State, s: State, i: nat, links: set<Url>, order: seq<Url>)
    returns (t: State)
    requires Reaches(cfg, s0, s) && Ready(s, i) && s.threads[i] == Linking(links)
    requires forall u :: u in order ==> u in links
    requires forall k, l :: 0 <= k < l < |order| ==> order[k] != order[l]
    ensures Runs(cfg, s0, s, i, Linking(Rest(links, order)), t)
    ensures Abs(t.sh) == Applied(EnqueueLinks(cfg, Abs(s.sh), order))
    decreases |order|
  {
    if order == [] {
      t := s;
      assert Rest(links, order) == links;
      assert t.threads == s.threads[i := Linking(links)];
    } else {
      var init, u := order[..|order| - 1], order[|order| - 1];
      var mid := LinksRun(cfg, s0, s, i, links, init);
      RestStep(links, order);
      t := LinkRun(cfg, s0, mid, i, Rest(links, init), u);
      AppliedLink(cfg, EnqueueLinks(cfg, Abs(s.sh), init), u);
      assert t.threads == s.threads[i := Linking(Rest(links, order))];
    }
  }

  /** The rest of a call that has gone through its results. */
  lemma FinishRun(cfg: JobConfig, s0: State, s: State, i: nat, links: set<Url>, order: seq<Url>) returns (t: State)
    requires Reaches(cfg, s0, s) && Ready(s, i) && s.threads[i] == Batch([], links) && Lists(order, links)
    ensures Reaches(cfg, s0, t) && t.threads == s.threads[i := Idle]
    ensures View(t) == Applied(EnqueueLinks(cfg, View(s), order))
  {
    var s1 := Next(cfg, s, Run(i, ""));
    ReachStep(cfg, s0, s, Run(i, ""));
    var s2 := LinksRun(cfg, s0, s1, i, links, order);
    assert Rest(links, order) == {};
    t := Next(cfg, s2, Run(i, ""));
    ReachStep(cfg, s0, s2, Run(i, ""));
    assert t.threads == s.threads[i := Idle];
    SameShutdowns(s, t, i);
    LinksApart(cfg, Abs(s.sh), order, View(s).senders, View(s).released);
  }

  lemma {:induction false} LinksApart(cfg: JobConfig, c: Core, order: seq<Url>, senders: nat, released: nat)
    ensures EnqueueLinks(cfg, c.(senders := senders, released := released), order)
         == EnqueueLinks(cfg, c, order).(senders := senders, released := released)
  {
    if order != [] {
      LinksApart(cfg, c, order[..|order| - 1], senders, released);
    }
  }

  // ---------------------------------------------------------------- whole calls, run

  /** A goroutine inside `CompletedResources` that is not interfered with. */
  lemma CallRun(
    cfg: JobConfig, s0: State, s: State, i: nat, rscs: seq<Resource>, links: set<Url>, order: seq<Url>)
    returns (t: State)
    requires Reaches(cfg, s0, s) && Ready(s, i) && s.threads[i] == Batch(rscs, links)
    requires Lists(order, links + LinksOf(cfg, rscs))
    ensures Reaches(cfg, s0, t) && Others(s.threads, t.threads, i)
    ensures var call := CallAfter(cfg, 0, View(s), rscs, links);
            if call.turn == Goes then t.threads[i] == Idle else Stands(cfg, t.threads[i], call)
    ensures View(t) == Applied(Completed(cfg, 0, View(s), rscs, order))
  {
    t := BatchRun(cfg, s0, s, i, rscs, links);
    if Course(cfg, 0, View(s), rscs) == Goes {
      assert rscs[..|rscs|] == rscs;
      var mid := t;
      t := FinishRun(cfg, s0, mid, i, links + LinksOf(cfg, rscs), order);
      OthersOn(s.threads, mid.threads, t.threads, i);
      AppliedLinks(cfg, DequeueAll(cfg, 0, View(s), rscs), order);
    }
  }

  /** A goroutine that calls `CompletedResources`, with any results, can leave the coordinator's data as `Completed`
      says, for every order in which the links may be visited, having returned or being blocked as `CallAfter` says. */
  lemma UninterruptedCallIsCompleted(
    cfg: JobConfig, s: State, i: nat, rscs: seq<Resource>, order: seq<Url>)
    returns (t: State)
    requires Ready(s, i) && s.threads[i] == Batch(rscs, {}) && Lists(order, LinksOf(cfg, rscs))
    ensures Reaches(cfg, s, t) && Others(s.threads, t.threads, i)
    ensures var call := CallAfter(cfg, 0, View(s), rscs, {});
            if call.turn == Goes then t.threads[i] == Idle else Stands(cfg, t.threads[i], call)
    ensures View(t) == Applied(Completed(cfg, 0, View(s), rscs, order))
  {
    ReachesItself(cfg, s);
    assert {} + LinksOf(cfg, rscs) == LinksOf(cfg, rscs);
    t := CallRun(cfg, s, s, i, rscs, {}, order);
  }

  /** A goroutine that has been let through leaves `Shutdown`. */
  lemma LeaveRun(cfg: JobConfig, s: State, i: nat, next: Thread) returns (t: State)
    requires Ready(s, i) && s.threads[i] == Finalizing(next) && next.Batch?
    ensures Reaches(cfg, s, t) && Ready(t, i) && t.threads == s.threads[i := next]
    ensures View(s).released > 0 && View(t) == LetThrough(View(s))
  {
    ReachesItself(cfg, s);
    t := Next(cfg, s, Run(i, ""));
    ReachStep(cfg, s, s, Run(i, ""));
    HowManyUpdate(IsSending, s.threads, i, next);
    HowManyUpdate(IsFinalizing, s.threads, i, next);
    assert Abs(t.sh) == Abs(s.sh).(finalized := s.sh.finalized + 1);
  }

  /** So can a call that had halted in `Shutdown` and has been let through. */
  lemma ResumedCallIsCompleted(
    cfg: JobConfig, s: State, i: nat, rscs: seq<Resource>, links: set<Url>, order: seq<Url>)
    returns (t: State)
    requires Ready(s, i) && s.threads[i] == Finalizing(Batch(rscs, links))
    requires Lists(order, links + LinksOf(cfg, rscs))
    ensures Reaches(cfg, s, t) && Others(s.threads, t.threads, i) && View(s).released > 0
    ensures var call := CallAfter(cfg, 0, LetThrough(View(s)), rscs, links);
            if call.turn == Goes then t.threads[i] == Idle else Stands(cfg, t.threads[i], call)
    ensures View(t) == Applied(Completed(cfg, 0, LetThrough(View(s)), rscs, order))
  {
    var mid := LeaveRun(cfg, s, i, Batch(rscs, links));
    t := CallRun(cfg, s, mid, i, rscs, links, order);
    OthersSteady(s.threads, i, mid.threads[i], t.threads);
  }
}
