/** The retry budget under full interleaving: however goroutines race, one request object is pushed at most
    MaxAttempts + 1 times, and one URL at most that often for every request object made for it. */
module RetryBudget {
  import opened Wrappers
  import opened CrawlTypes
  import opened JobRules
  import opened CoordinatorSpec
  import opened Interleaving
  import opened Races

  /** The goroutine is inside `enqueue` with request `ref`, before the push. */
  function Carries(t: Thread, ref: nat): int {
    if (t.Testing? || t.Storing? || t.Pushing?) && t.ref == ref then 1 else 0
  }

  ghost function CarriersOf(ref: nat): Thread -> int {
    t => Carries(t, ref)
  }

  predicate PushesRef(s: State, a: Action, ref: nat) {
    a.Run? && a.i < |s.threads| && s.threads[a.i].Pushing? && s.threads[a.i].ref == ref
  }

  /** How often the first `k` steps push request `ref`. */
  function PushCount(trace: seq<State>, acts: seq<Action>, ref: nat, k: nat): nat
    requires |trace| == |acts| + 1 && k <= |acts|
  {
    if k == 0 then 0
    else PushCount(trace, acts, ref, k - 1) + if PushesRef(trace[k - 1], acts[k - 1], ref) then 1 else 0
  }

  /** The pushes that request `ref` has been granted so far: one when it was made and one for each attempt that
      did not exceed the limit. */
  function Granted(cfg: JobConfig, sh: Shared, ref: nat): nat {
    if ref >= |sh.heap| then 0
    else if sh.heap[ref].rec.attempts < Limit(cfg) then 1 + sh.heap[ref].rec.attempts
    else 1 + Limit(cfg)
  }

  lemma GrantedGrows(cfg: JobConfig, sh: Shared, sh': Shared, ref: nat)
    requires Ages(sh, sh')
    ensures Granted(cfg, sh, ref) <= Granted(cfg, sh', ref)
  {
  }

  /** A failed attempt within the limit is granted a push. */
  lemma SettleGrants(cfg: JobConfig, sh: Shared, f: Frame, held: nat, ref: nat)
    requires Linked(sh) && held < |sh.heap|
    ensures var (sh', t') := Settle(cfg, sh, f, held);
            Granted(cfg, sh, ref) + Carries(t', ref) <= Granted(cfg, sh', ref)
  {
    SettleAllocates(cfg, sh, f, held);
    GrantedGrows(cfg, sh, Settle(cfg, sh, f, held).0, ref);
  }

  /** Every access that makes a goroutine carry a request is granted a push. */
  lemma MoveGrants(cfg: JobConfig, sh: Shared, t: Thread, link: Url, ref: nat)
    requires Linked(sh) && Shaped(t) && HoldsBelow(t, |sh.heap|)
    ensures var (sh', t') := Move(cfg, sh, t, link);
            var pushed := if t.Pushing? && t.ref == ref then 1 else 0;
            pushed + Carries(t', ref) - Carries(t, ref) <= Granted(cfg, sh', ref) - Granted(cfg, sh, ref)
  {
    MoveAllocates(cfg, sh, t, link);
    GrantedGrows(cfg, sh, Move(cfg, sh, t, link).0, ref);
    if t.Judging? {
      SettleGrants(cfg, sh, t.f, t.ref, ref);
    }
  }

  lemma RunGrants(cfg: JobConfig, s: State, i: nat, link: Url, ref: nat)
    requires Allocated(s) && AllShaped(s) && Enabled(s, Run(i, link))
    ensures var s' := Next(cfg, s, Run(i, link));
            var pushed := if PushesRef(s, Run(i, link), ref) then 1 else 0;
            pushed + Total(CarriersOf(ref), s'.threads) - Total(CarriersOf(ref), s.threads)
              <= Granted(cfg, s'.sh, ref) - Granted(cfg, s.sh, ref)
  {
    MoveGrants(cfg, s.sh, s.threads[i], link, ref);
    TotalUpdate(CarriersOf(ref), s.threads, i, Move(cfg, s.sh, s.threads[i], link).1);
  }

  lemma MeetCarries(threads: seq<Thread>, i: nat, j: nat, ref: nat)
    requires i < |threads| && j < |threads| && threads[i].Sending? && threads[j].Receiving?
    ensures Total(CarriersOf(ref), threads[i := Finalizing(threads[i].next)][j := Comparing(threads[j].f)])
         == Total(CarriersOf(ref), threads)
  {
    var mid := threads[i := Finalizing(threads[i].next)];
    TotalUpdate(CarriersOf(ref), threads, i, mid[i]);
    TotalUpdate(CarriersOf(ref), mid, j, Comparing(threads[j].f));
  }

  lemma SpawnCarries(threads: seq<Thread>, t: Thread, ref: nat)
    requires t.Batch? || t.Seeding? || t.Scanning? || t.Raising?
    ensures Total(CarriersOf(ref), threads + [t]) == Total(CarriersOf(ref), threads)
  {
    TotalAppend(CarriersOf(ref), threads, t);
  }

  /** Other steps move no goroutine into or out of `enqueue`. */
  lemma QuietGrants(cfg: JobConfig, s: State, a: Action, ref: nat)
    requires Enabled(s, a) && !a.Run?
    ensures Total(CarriersOf(ref), Next(cfg, s, a).threads) == Total(CarriersOf(ref), s.threads)
    ensures Next(cfg, s, a).sh.heap == s.sh.heap
  {
    match a
    case Meet(i, j) => MeetCarries(s.threads, i, j, ref);
    case Apply =>
    case Pop =>
    case Report(rscs) => SpawnCarries(s.threads, Batch(rscs, {}), ref);
    case Seed(urls) => SpawnCarries(s.threads, Seeding(urls), ref);
    case Tick => SpawnCarries(s.threads, Scanning, ref);
    case CallShutdown => SpawnCarries(s.threads, Raising(Idle), ref);
  }

  lemma StepGrants(cfg: JobConfig, s: State, a: Action, ref: nat)
    requires Allocated(s) && AllShaped(s) && Enabled(s, a)
    ensures var s' := Next(cfg, s, a);
            var pushed := if PushesRef(s, a, ref) then 1 else 0;
            pushed + Total(CarriersOf(ref), s'.threads) - Total(CarriersOf(ref), s.threads)
              <= Granted(cfg, s'.sh, ref) - Granted(cfg, s.sh, ref)
  {
    if a.Run? {
      RunGrants(cfg, s, a.i, a.link, ref);
    } else {
      QuietGrants(cfg, s, a, ref);
    }
  }

  lemma {:induction false} TotalIsNat(ref: nat, threads: seq<Thread>)
    ensures Total(CarriersOf(ref), threads) >= 0
  {
    if threads != [] {
      TotalIsNat(ref, threads[..|threads| - 1]);
    }
  }

  lemma {:induction false} PushesAreGranted(
    cfg: JobConfig, trace: seq<State>, acts: seq<Action>, ref: nat, k: nat)
    requires IsRun(cfg, trace, acts) && trace[0] == Init() && k <= |acts|
    ensures PushCount(trace, acts, ref, k) + Total(CarriersOf(ref), trace[k].threads)
         <= Granted(cfg, trace[k].sh, ref)
  {
    if k > 0 {
      PushesAreGranted(cfg, trace, acts, ref, k - 1);
      RunAllocates(cfg, trace, acts, k - 1);
      StepGrants(cfg, trace[k - 1], acts[k - 1], ref);
    }
  }

  /** In every interleaving and for any reports, a request object is pushed at most MaxAttempts + 1 times, since
      counting an attempt and testing it against the limit is one access. */
  lemma EachRequestIsPushedAtMost(cfg: JobConfig, trace: seq<State>, acts: seq<Action>, ref: nat)
    requires IsRun(cfg, trace, acts) && trace[0] == Init()
    ensures PushCount(trace, acts, ref, |acts|) <= Limit(cfg) + 1
  {
    PushesAreGranted(cfg, trace, acts, ref, |acts|);
    TotalIsNat(ref, trace[|acts|].threads);
  }

  // ---------------------------------------------------------------- per URL

  /** How many request objects there are for `u`. */
  function Made(heap: seq<Req>, u: Url): nat {
    if heap == [] then 0 else Made(heap[..|heap| - 1], u) + if heap[|heap| - 1].url == u then 1 else 0
  }

  lemma {:induction false} MadeBySame(heap: seq<Req>, heap': seq<Req>, u: Url)
    requires |heap| == |heap'| && forall k :: 0 <= k < |heap| ==> heap[k].url == heap'[k].url
    ensures Made(heap, u) == Made(heap', u)
  {
    if heap != [] {
      MadeBySame(heap[..|heap| - 1], heap'[..|heap'| - 1], u);
    }
  }

  lemma MadeByAppend(heap: seq<Req>, q: Req, u: Url)
    ensures Made(heap + [q], u) == Made(heap, u) + if q.url == u then 1 else 0
  {
    assert (heap + [q])[..|heap|] == heap;
  }

  /** The pushes of all request objects for `u` among the first `n`. */
  function PushesFor(heap: seq<Req>, u: Url, trace: seq<State>, acts: seq<Action>, n: nat, k: nat): nat
    requires n <= |heap| && |trace| == |acts| + 1 && k <= |acts|
  {
    if n == 0 then 0
    else
      PushesFor(heap, u, trace, acts, n - 1, k)
      + if heap[n - 1].url == u then PushCount(trace, acts, n - 1, k) else 0
  }

  /** If each of them is within its budget, so are they together. */
  lemma {:induction false} PushesForBounded(
    heap: seq<Req>, u: Url, trace: seq<State>, acts: seq<Action>, n: nat, k: nat, limit: nat)
    requires |trace| == |acts| + 1 && k <= |acts| && n <= |heap|
    requires forall ref: nat :: PushCount(trace, acts, ref, k) <= limit + 1
    ensures PushesFor(heap, u, trace, acts, n, k) <= Allowance(Made(heap[..n], u), limit)
  {
    if n > 0 {
      PushesForBounded(heap, u, trace, acts, n - 1, k, limit);
      assert heap[..n] == heap[..n - 1] + [heap[n - 1]];
      MadeByAppend(heap[..n - 1], heap[n - 1], u);
      assert PushCount(trace, acts, n - 1, k) <= limit + 1;
    }
  }

  /** The pushes of a URL are those of the request objects for it. */
  lemma {:induction false} PushesForOfHeap(
    heap: seq<Req>, heap': seq<Req>, u: Url, trace: seq<State>, acts: seq<Action>, n: nat, k: nat)
    requires |trace| == |acts| + 1 && k <= |acts| && n <= |heap| <= |heap'|
    requires forall j :: 0 <= j < |heap| ==> heap[j].url == heap'[j].url
    ensures PushesFor(heap', u, trace, acts, n, k) == PushesFor(heap, u, trace, acts, n, k)
  {
    if n > 0 {
      PushesForOfHeap(heap, heap', u, trace, acts, n - 1, k);
    }
  }

  lemma {:induction false} PushesForStep(
    heap: seq<Req>, u: Url, trace: seq<State>, acts: seq<Action>, n: nat, k: nat)
    requires |trace| == |acts| + 1 && k < |acts| && n <= |heap|
    ensures var ref := PushedRef(trace[k], acts[k]);
            PushesFor(heap, u, trace, acts, n, k + 1)
              == PushesFor(heap, u, trace, acts, n, k) + if 0 <= ref < n && heap[ref].url == u then 1 else 0
  {
    if n > 0 {
      PushesForStep(heap, u, trace, acts, n - 1, k);
    }
  }

  /** The request a step pushes, or -1. */
  function PushedRef(s: State, a: Action): int {
    if a.Run? && a.i < |s.threads| && s.threads[a.i].Pushing? then s.threads[a.i].ref else -1
  }

  /** No push of a request that did not exist yet. */
  lemma {:induction false} NothingPushedBeyond(
    cfg: JobConfig, trace: seq<State>, acts: seq<Action>, ref: nat, k: nat)
    requires IsRun(cfg, trace, acts) && trace[0] == Init() && k <= |acts| && ref >= |trace[k].sh.heap|
    ensures PushCount(trace, acts, ref, k) == 0
  {
    PushesAreGranted(cfg, trace, acts, ref, k);
    TotalIsNat(ref, trace[k].threads);
  }

  lemma {:induction false} NewObjectsPushNothing(
    cfg: JobConfig, u: Url, trace: seq<State>, acts: seq<Action>, heap: seq<Req>, n: nat, k: nat)
    requires IsRun(cfg, trace, acts) && trace[0] == Init() && k <= |acts| && |trace[k].sh.heap| <= n <= |heap|
    ensures PushesFor(heap, u, trace, acts, n, k) == PushesFor(heap, u, trace, acts, |trace[k].sh.heap|, k)
  {
    if n > |trace[k].sh.heap| {
      NewObjectsPushNothing(cfg, u, trace, acts, heap, n - 1, k);
      NothingPushedBeyond(cfg, trace, acts, n - 1, k);
    }
  }

  lemma StepPushes(cfg: JobConfig, s: State, a: Action, u: Url)
    requires Allocated(s) && Enabled(s, a)
    ensures var ref := PushedRef(s, a);
            && ref < |s.sh.heap|
            && multiset(Next(cfg, s, a).sh.pushes)[u]
                 == multiset(s.sh.pushes)[u] + if 0 <= ref && s.sh.heap[ref].url == u then 1 else 0
  {
    if a.Run? {
      assert HoldsBelow(s.threads[a.i], |s.sh.heap|);
    }
  }

  /** One more step, seen from the objects there are after it. */
  lemma ObjectsStep(
    cfg: JobConfig, trace: seq<State>, acts: seq<Action>, u: Url, k: nat, heap: seq<Req>, heap': seq<Req>)
    requires IsRun(cfg, trace, acts) && trace[0] == Init() && k < |acts|
    requires heap == trace[k].sh.heap && |heap| <= |heap'|
    requires forall j :: 0 <= j < |heap| ==> heap[j].url == heap'[j].url
    requires PushedRef(trace[k], acts[k]) < |heap|
    ensures var ref := PushedRef(trace[k], acts[k]);
            PushesFor(heap', u, trace, acts, |heap'|, k + 1)
              == PushesFor(heap, u, trace, acts, |heap|, k) + if 0 <= ref && heap[ref].url == u then 1 else 0
  {
    PushesForStep(heap', u, trace, acts, |heap'|, k);
    NewObjectsPushNothing(cfg, u, trace, acts, heap', |heap'|, k);
    PushesForOfHeap(heap, heap', u, trace, acts, |heap|, k);
  }

  /** What one step does to the objects and the pushes. */
  lemma StepObjects(cfg: JobConfig, s: State, a: Action, s': State, u: Url)
    requires AllShaped(s) && Allocated(s) && Enabled(s, a) && s' == Next(cfg, s, a)
    ensures |s.sh.heap| <= |s'.sh.heap|
    ensures forall j :: 0 <= j < |s.sh.heap| ==> s.sh.heap[j].url == s'.sh.heap[j].url
    ensures var ref := PushedRef(s, a);
            && ref < |s.sh.heap|
            && multiset(s'.sh.pushes)[u]
                 == multiset(s.sh.pushes)[u] + if 0 <= ref && s.sh.heap[ref].url == u then 1 else 0
  {
    StepAllocates(cfg, s, a);
    StepPushes(cfg, s, a, u);
  }

  lemma {:induction false} PushesAreOfObjects(
    cfg: JobConfig, trace: seq<State>, acts: seq<Action>, u: Url, k: nat)
    requires IsRun(cfg, trace, acts) && trace[0] == Init() && k <= |acts|
    ensures var heap := trace[k].sh.heap;
            multiset(trace[k].sh.pushes)[u] == PushesFor(heap, u, trace, acts, |heap|, k)
  {
    if k > 0 {
      PushesAreOfObjects(cfg, trace, acts, u, k - 1);
      RunAllocates(cfg, trace, acts, k - 1);
      StepObjects(cfg, trace[k - 1], acts[k - 1], trace[k], u);
      ObjectsStep(cfg, trace, acts, u, k - 1, trace[k - 1].sh.heap, trace[k].sh.heap);
    }
  }

  /** The step is a seed loop taking `u`. */
  predicate Seeds(s: State, a: Action, u: Url) {
    && a.Run? && a.i < |s.threads| && s.threads[a.i].Seeding?
    && s.threads[a.i].urls != [] && s.threads[a.i].urls[0] == u
  }

  /** The step is a `dequeue` that finds no request for its result, which is for `u`. */
  predicate FindsNone(cfg: JobConfig, s: State, a: Action, u: Url) {
    && a.Run? && a.i < |s.threads| && s.threads[a.i].Batch? && s.threads[a.i].todo != []
    && s.threads[a.i].todo[0].jobID == cfg.id && s.threads[a.i].todo[0].url == u && u !in s.sh.store
  }

  /** How many of the first `k` steps make a request for `u`, for one reason or another. */
  function SeedCount(trace: seq<State>, acts: seq<Action>, u: Url, k: nat): nat
    requires |trace| == |acts| + 1 && k <= |acts|
  {
    if k == 0 then 0
    else SeedCount(trace, acts, u, k - 1) + if Seeds(trace[k - 1], acts[k - 1], u) then 1 else 0
  }

  function NoneCount(cfg: JobConfig, trace: seq<State>, acts: seq<Action>, u: Url, k: nat): nat
    requires |trace| == |acts| + 1 && k <= |acts|
  {
    if k == 0 then 0
    else NoneCount(cfg, trace, acts, u, k - 1) + if FindsNone(cfg, trace[k - 1], acts[k - 1], u) then 1 else 0
  }

  /** The step makes a request for `u`. */
  predicate Makes(cfg: JobConfig, s: State, a: Action, u: Url) {
    Seeds(s, a, u) || Misses(s, a, u) || FindsNone(cfg, s, a, u)
  }

  lemma BatchMakes(cfg: JobConfig, s: State, i: nat, link: Url, u: Url)
    requires Enabled(s, Run(i, link)) && s.threads[i].Batch?
    ensures var more := if Makes(cfg, s, Run(i, link), u) then 1 else 0;
            Made(Next(cfg, s, Run(i, link)).sh.heap, u) == Made(s.sh.heap, u) + more
  {
    var todo := s.threads[i].todo;
    if todo != [] {
      MadeByAppend(s.sh.heap, Req(todo[0].url, NewRecord("")), u);
    }
  }

  lemma LoopMakes(cfg: JobConfig, s: State, i: nat, link: Url, u: Url)
    requires Enabled(s, Run(i, link)) && (s.threads[i].Seeding? || s.threads[i].Linking?)
    ensures var more := if Makes(cfg, s, Run(i, link), u) then 1 else 0;
            Made(Next(cfg, s, Run(i, link)).sh.heap, u) == Made(s.sh.heap, u) + more
  {
    var t := s.threads[i];
    var url := if t.Linking? then link else if t.urls == [] then "" else t.urls[0];
    MadeByAppend(s.sh.heap, Req(url, NewRecord(cfg.id)), u);
  }

  lemma MoveMakes(cfg: JobConfig, s: State, i: nat, link: Url, u: Url)
    requires Enabled(s, Run(i, link))
    ensures var more := if Makes(cfg, s, Run(i, link), u) then 1 else 0;
            Made(Next(cfg, s, Run(i, link)).sh.heap, u) == Made(s.sh.heap, u) + more
  {
    var t := s.threads[i];
    if t.Batch? {
      BatchMakes(cfg, s, i, link, u);
    } else if t.Seeding? || t.Linking? {
      LoopMakes(cfg, s, i, link, u);
    } else {
      OtherMovesMakeNone(cfg, s.sh, t, link);
      MadeBySame(s.sh.heap, Move(cfg, s.sh, t, link).0.heap, u);
    }
  }

  lemma OtherMovesMakeNone(cfg: JobConfig, sh: Shared, t: Thread, link: Url)
    requires !t.Batch? && !t.Seeding? && !t.Linking?
    ensures var heap := Move(cfg, sh, t, link).0.heap;
            |heap| == |sh.heap| && forall k :: 0 <= k < |heap| ==> heap[k].url == sh.heap[k].url
  {
  }

  lemma {:induction false} MadeIsCounted(cfg: JobConfig, trace: seq<State>, acts: seq<Action>, u: Url, k: nat)
    requires IsRun(cfg, trace, acts) && trace[0] == Init() && k <= |acts|
    ensures Made(trace[k].sh.heap, u)
         == SeedCount(trace, acts, u, k) + MissCount(trace, acts, u, k) + NoneCount(cfg, trace, acts, u, k)
  {
    if k > 0 {
      MadeIsCounted(cfg, trace, acts, u, k - 1);
      if acts[k - 1].Run? {
        MoveMakes(cfg, trace[k - 1], acts[k - 1].i, acts[k - 1].link, u);
      }
    }
  }

  /** In every interleaving and for any reports, a URL is pushed at most MaxAttempts + 1 times for each time it is
      taken from the seeds, missed by a lookup of the link loop, or not found by `dequeue`. */
  lemma EachUrlIsPushedAtMost(cfg: JobConfig, trace: seq<State>, acts: seq<Action>, u: Url)
    requires IsRun(cfg, trace, acts) && trace[0] == Init()
    ensures var n := |acts|;
            multiset(trace[n].sh.pushes)[u]
              <= (SeedCount(trace, acts, u, n) + MissCount(trace, acts, u, n) + NoneCount(cfg, trace, acts, u, n))
                 * (Limit(cfg) + 1)
  {
    var n, heap := |acts|, trace[|acts|].sh.heap;
    PushesAreOfObjects(cfg, trace, acts, u, n);
    forall ref: nat
      ensures PushCount(trace, acts, ref, n) <= Limit(cfg) + 1
    {
      EachRequestIsPushedAtMost(cfg, trace, acts, ref);
    }
    PushesForBounded(heap, u, trace, acts, |heap|, n, Limit(cfg));
    assert heap[..|heap|] == heap;
    MadeIsCounted(cfg, trace, acts, u, n);
    AllowanceIsProduct(Made(heap, u), Limit(cfg));
  }
}
