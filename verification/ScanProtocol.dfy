/** The done scan and `Shutdown` by goroutines that are left alone: they do what the atomic specification says. And
    when the scan fires over a crawl at rest, whatever workers have reported. */
module ScanProtocol {
  import opened Wrappers
  import opened CrawlTypes
  import opened CoordinatorSpec
  import opened Interleaving
  import opened Atomicity
  import opened WorkerContract
  import Races

  /** The coordinator's data as a value, with the counter and its pending changes as they stand. */
  ghost function Raw(s: State): Core {
    View(s).(processing := s.sh.processing, changes := s.sh.changes)
  }

  /** Nothing but goroutine i moves. */
  ghost predicate Alone(acts: seq<Action>, i: nat) {
    forall k :: 0 <= k < |acts| ==> acts[k].Run? && acts[k].i == i
  }

  // ---------------------------------------------------------------- Shutdown

  /** Where a goroutine that entered `Shutdown` in `s` can stand, and what it has done by then. */
  ghost predicate ShutdownStands(s: State, t: State, i: nat)
    requires i < |s.threads|
  {
    && |t.threads| == |s.threads| && t.threads == s.threads[i := t.threads[i]]
    && var raised := s.sh.(stopping := true);
       match t.threads[i]
       case Raising(next) => next == Idle && t.sh == s.sh
       case Measuring(next) => next == Idle && t.sh == raised
       case Sending(next) => next == Idle && t.sh == raised && s.sh.queue != []
       case Finalizing(next) => next == Idle && t.sh == raised && s.sh.queue == []
       case Idle => t.sh == raised.(finalized := s.sh.finalized + 1) && s.sh.queue == []
       case _ => false
  }

  lemma ShutdownStep(cfg: JobConfig, s: State, t: State, i: nat, link: Url)
    requires i < |s.threads| && ShutdownStands(s, t, i) && Enabled(t, Run(i, link))
    ensures ShutdownStands(s, Next(cfg, t, Run(i, link)), i)
  {
  }

  lemma {:induction false} ShutdownRun(cfg: JobConfig, trace: seq<State>, acts: seq<Action>, i: nat, k: nat)
    requires IsRun(cfg, trace, acts) && Alone(acts, i) && k < |trace|
    requires i < |trace[0].threads| && trace[0].threads[i] == Raising(Idle)
    ensures ShutdownStands(trace[0], trace[k], i)
  {
    if k > 0 {
      ShutdownRun(cfg, trace, acts, i, k - 1);
      assert acts[k - 1] == Run(i, acts[k - 1].link);
      ShutdownStep(cfg, trace[0], trace[k - 1], i, acts[k - 1].link);
    }
  }

  /** A call of `Shutdown` that is left alone, to where it has returned or blocks. */
  lemma ShutdownAloneIsRaised(cfg: JobConfig, trace: seq<State>, acts: seq<Action>, i: nat)
    requires IsRun(cfg, trace, acts) && Alone(acts, i)
    requires i < |trace[0].threads| && trace[0].threads[i] == Raising(Idle)
    requires var t := trace[|trace| - 1];
             i < |t.threads| && (t.threads[i] == Idle || t.threads[i] == Sending(Idle))
    ensures var s, t := trace[0], trace[|trace| - 1];
            Raw(t) == Raised(Raw(s)) && (t.threads[i] == Sending(Idle) <==> s.sh.queue != [])
  {
    var s, t := trace[0], trace[|trace| - 1];
    ShutdownRun(cfg, trace, acts, i, |trace| - 1);
    HowManyUpdate(IsSending, s.threads, i, t.threads[i]);
    HowManyUpdate(IsFinalizing, s.threads, i, t.threads[i]);
  }

  // ---------------------------------------------------------------- the done scan

  /** Where a scan that began in `s` can stand, and what it has done by then. */
  ghost predicate ScanStands(s: State, t: State, i: nat)
    requires i < |s.threads|
  {
    && |t.threads| == |s.threads| && t.threads == s.threads[i := t.threads[i]]
    && var fires, raised := s.sh.queue == [] && s.sh.processing <= 0, s.sh.(stopping := true);
       match t.threads[i]
       case Scanning => t.sh == s.sh
       case Counting => t.sh == s.sh && s.sh.queue == []
       case Raising(next) => next == Idle && t.sh == s.sh && fires
       case Measuring(next) => next == Idle && t.sh == raised && fires
       case Finalizing(next) => next == Idle && t.sh == raised && fires
       case Idle => t.sh == if fires then raised.(finalized := s.sh.finalized + 1) else s.sh
       case _ => false
  }

  lemma ScanStep(cfg: JobConfig, s: State, t: State, i: nat, link: Url)
    requires i < |s.threads| && ScanStands(s, t, i) && Enabled(t, Run(i, link))
    ensures ScanStands(s, Next(cfg, t, Run(i, link)), i)
  {
  }

  lemma {:induction false} ScanRun(cfg: JobConfig, trace: seq<State>, acts: seq<Action>, i: nat, k: nat)
    requires IsRun(cfg, trace, acts) && Alone(acts, i) && k < |trace|
    requires i < |trace[0].threads| && trace[0].threads[i] == Scanning
    ensures ScanStands(trace[0], trace[k], i)
  {
    if k > 0 {
      ScanRun(cfg, trace, acts, i, k - 1);
      assert acts[k - 1] == Run(i, acts[k - 1].link);
      ScanStep(cfg, trace[0], trace[k - 1], i, acts[k - 1].link);
    }
  }

  /** A done scan that is left alone does what the specification of `DoneScan` says: it shuts down if and only if
      the queue is empty and the counter is not positive, and else leaves everything as it was. */
  lemma ScanAloneIsDoneScan(cfg: JobConfig, trace: seq<State>, acts: seq<Action>, i: nat)
    requires IsRun(cfg, trace, acts) && Alone(acts, i)
    requires i < |trace[0].threads| && trace[0].threads[i] == Scanning
    requires i < |trace[|trace| - 1].threads| && trace[|trace| - 1].threads[i] == Idle
    ensures var s, t := trace[0], trace[|trace| - 1];
            && Raw(t) == (if ScanFires(Raw(s)) then Raised(Raw(s)) else Raw(s))
            && (ScanFires(Raw(s)) <==> s.sh.queue == [] && s.sh.processing <= 0)
            && t.sh.finalized == s.sh.finalized + (if s.sh.queue == [] && s.sh.processing <= 0 then 1 else 0)
  {
    var s, t := trace[0], trace[|trace| - 1];
    ScanRun(cfg, trace, acts, i, |trace| - 1);
    HowManyUpdate(IsSending, s.threads, i, Idle);
    HowManyUpdate(IsFinalizing, s.threads, i, Idle);
  }

  // ---------------------------------------------------------------- a scan over a crawl at rest

  /** Whatever workers report, redirects included: a scan left alone over a crawl with no goroutine owing a change
      and none pending shuts down if and only if nothing is queued and no more requests have been pushed than
      results taken back. */
  lemma ScanAtRestFiresIff(cfg: JobConfig, trace: seq<State>, acts: seq<Action>, k: nat)
    requires IsRun(cfg, trace, acts) && trace[0] == Init() && k < |acts|
    requires var s := trace[k]; s.sh.changes == [] && forall j :: 0 <= j < |s.threads| ==> Owed(s.threads[j]) == 0
    requires acts[k] == Tick && Alone(acts[k + 1..], |trace[k].threads|)
    requires trace[|acts|].threads == trace[k].threads + [Idle]
    ensures var sh, sh' := trace[k].sh, trace[|acts|].sh;
            sh'.finalized == sh.finalized + (if sh.queue == [] && |sh.pushes| <= |sh.log| then 1 else 0)
  {
    var i, scan, steps := |trace[k].threads|, trace[k + 1..], acts[k + 1..];
    CounterIsExactAtRest(cfg, trace, acts, k);
    assert trace[k + 1] == Next(cfg, trace[k], Tick);
    assert IsRun(cfg, scan, steps) by {
      forall j | 0 <= j < |steps|
        ensures Enabled(scan[j], steps[j]) && scan[j + 1] == Next(cfg, scan[j], steps[j])
      {
        assert Enabled(trace[k + 1 + j], acts[k + 1 + j]);
      }
    }
    ScanAloneIsDoneScan(cfg, scan, steps, i);
  }

  /** A crawl at rest: nothing queued, no change pending, and every goroutine has returned. */
  ghost predicate Returned(s: State) {
    s.sh.queue == [] && s.sh.changes == [] && !s.sh.stopping
    && forall j :: 0 <= j < |s.threads| ==> s.threads[j] == Idle
  }

  /** Goroutine i, last of all, stands at `t`, and the others have returned. */
  ghost predicate Last(s: State, t: Thread) {
    && s.threads != [] && s.threads[|s.threads| - 1] == t
    && forall j :: 0 <= j < |s.threads| - 1 ==> s.threads[j] == Idle
  }

  /** A result without links, in 200..308, is reported and judged. */
  lemma ReportIsJudged(cfg: JobConfig, s0: State, s: State, r: Resource) returns (t: State)
    requires Reaches(cfg, s0, s) && Returned(s)
    requires r.jobID == cfg.id && 200 <= r.status <= 308
    ensures Reaches(cfg, s0, t) && Last(t, Debiting(Frame(r, [], {})))
    ensures t.sh.queue == [] && t.sh.changes == [] && !t.sh.stopping
    ensures t.sh.processing == s.sh.processing
  {
    var n := |s.threads|;
    assert [r][1..] == [];
    ReachStep(cfg, s0, s, Report([r]));
    t := Next(cfg, s, Report([r]));
    ReachStep(cfg, s0, t, Run(n, ""));
    t := Next(cfg, t, Run(n, ""));
    ReachStep(cfg, s0, t, Run(n, ""));
    t := Next(cfg, t, Run(n, ""));
  }

  /** Its -1 is sent and applied. */
  lemma ReportIsDebited(cfg: JobConfig, s0: State, s: State, r: Resource) returns (t: State)
    requires Reaches(cfg, s0, s) && Last(s, Debiting(Frame(r, [], {})))
    requires s.sh.queue == [] && s.sh.changes == [] && !s.sh.stopping
    ensures Reaches(cfg, s0, t) && Last(t, Checking(Frame(r, [], {})))
    ensures t.sh == s.sh.(processing := s.sh.processing - 1)
  {
    var n := |s.threads| - 1;
    ReachStep(cfg, s0, s, Run(n, ""));
    t := Next(cfg, s, Run(n, ""));
    assert t.sh.changes == [] + [-1];
    ReachStep(cfg, s0, t, Apply);
    t := Next(cfg, t, Apply);
    assert t.sh.changes == [];
  }

  /** And its call returns. */
  lemma ReportReturns(cfg: JobConfig, s0: State, s: State, r: Resource) returns (t: State)
    requires Reaches(cfg, s0, s) && Last(s, Checking(Frame(r, [], {}))) && r.links == [] && cfg.stopUrl != r.url
    requires s.sh.queue == [] && s.sh.changes == [] && !s.sh.stopping
    ensures Reaches(cfg, s0, t) && Last(t, Idle) && t.sh == s.sh
  {
    var n := |s.threads| - 1;
    assert {} + LinksOf(cfg, [r]) == {};
    ReachStep(cfg, s0, s, Run(n, ""));
    t := Next(cfg, s, Run(n, ""));
    ReachStep(cfg, s0, t, Run(n, ""));
    t := Next(cfg, t, Run(n, ""));
    ReachStep(cfg, s0, t, Run(n, ""));
    t := Next(cfg, t, Run(n, ""));
    ReachStep(cfg, s0, t, Run(n, ""));
    t := Next(cfg, t, Run(n, ""));
  }

  /** From rest to rest by one result, which lowers the counter, whether or not its URL was ever pushed. */
  lemma OneResultMore(cfg: JobConfig, s0: State, s: State, r: Resource) returns (t: State)
    requires Reaches(cfg, s0, s) && Returned(s)
    requires r.jobID == cfg.id && 200 <= r.status <= 308 && r.links == [] && cfg.stopUrl != r.url
    ensures Reaches(cfg, s0, t) && Returned(t)
    ensures t.sh.processing == s.sh.processing - 1
  {
    t := ReportIsJudged(cfg, s0, s, r);
    t := ReportIsDebited(cfg, s0, t, r);
    t := ReportReturns(cfg, s0, t, r);
  }

  /** A state that workers keeping their contract get to is reached. */
  lemma GetsReaches(cfg: JobConfig, w: World)
    requires Gets(cfg, Start(), w)
    ensures Reaches(cfg, Init(), w.s)
  {
    var ws: seq<World>, acts: seq<Action> :| IsHistory(cfg, ws, acts) && ws[0] == Start() && ws[|ws| - 1] == w;
    var trace := States(ws);
    forall k | 0 <= k < |acts|
      ensures Enabled(trace[k], acts[k]) && trace[k + 1] == Next(cfg, trace[k], acts[k])
    {
      assert Fair(cfg, ws[k], acts[k]) && ws[k + 1] == Step(cfg, ws[k], acts[k]);
    }
    assert IsRun(cfg, trace, acts);
  }

  /** A seed is read, pushed, counted and popped. */
  lemma SeedIsOut(cfg: JobConfig, seed: Url) returns (s: State)
    ensures Reaches(cfg, Init(), s) && Returned(s)
    ensures s.sh.processing == 1
  {
    GetsItself(cfg, Start());
    var w := Races.SeedIsFetched(cfg, Start(), seed);
    GetsReaches(cfg, w);
    s := w.s;
    ReachStep(cfg, Init(), s, Run(0, ""));
    s := Next(cfg, s, Run(0, ""));
  }

  /** The done scan ticks over an empty queue and a counter that is not positive. */
  lemma ScanShutsDown(cfg: JobConfig, s0: State, s: State) returns (t: State)
    requires Reaches(cfg, s0, s) && s.sh.queue == [] && s.sh.processing <= 0
    ensures Reaches(cfg, s0, t) && t.threads == s.threads + [Measuring(Idle)]
    ensures t.sh == s.sh.(stopping := true)
  {
    var n := |s.threads|;
    ReachStep(cfg, s0, s, Tick);
    t := Next(cfg, s, Tick);
    ReachStep(cfg, s0, t, Run(n, ""));
    t := Next(cfg, t, Run(n, ""));
    ReachStep(cfg, s0, t, Run(n, ""));
    t := Next(cfg, t, Run(n, ""));
    ReachStep(cfg, s0, t, Run(n, ""));
    t := Next(cfg, t, Run(n, ""));
  }

  /** A link that redirects elsewhere is answered twice, once for the redirect and once for the page, so the counter
      falls below 0; the scan shuts down all the same. */
  lemma SomeScanFiresBelowZero(cfg: JobConfig, seed: Url, target: Url)
    requires cfg.stopUrl != seed && cfg.stopUrl != target
    ensures exists t :: Reaches(cfg, Init(), t) && t.sh.processing == -1 && t.sh.stopping
              && Measuring(Idle) in t.threads
  {
    var s := SeedIsOut(cfg, seed);
    s := OneResultMore(cfg, Init(), s, Resource(cfg.id, seed, 301, [], ""));
    s := OneResultMore(cfg, Init(), s, Resource(cfg.id, target, 200, [], ""));
    var t := ScanShutsDown(cfg, Init(), s);
    assert t.threads[|s.threads|] == Measuring(Idle);
  }
}
