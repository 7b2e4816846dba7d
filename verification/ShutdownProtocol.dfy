/** Shutdown under full interleaving: who may still push, and what the handlers are finalized over. */
module ShutdownProtocol {
  import opened Wrappers
  import opened CrawlTypes
  import opened JobRules
  import opened CoordinatorSpec
  import opened Interleaving

  /** Inside `enqueue`, past the test of `stopping` and before the push. */
  predicate MidPush(t: Thread) {
    t.Pushing? || (t.Storing? && t.push)
  }

  ghost predicate Quiet(s: State) {
    forall i :: 0 <= i < |s.threads| ==> !MidPush(s.threads[i])
  }

  lemma StoppingMove(cfg: JobConfig, sh: Shared, t: Thread, link: Url)
    requires sh.stopping && Shaped(t) && !MidPush(t)
    ensures var (sh', t') := Move(cfg, sh, t, link);
            sh'.stopping && !MidPush(t') && sh'.pushes == sh.pushes && sh'.queue == sh.queue
  {
  }

  /** While stopping with no goroutine mid-push, nothing is pushed and the queue only loses its head. */
  lemma StoppingStep(cfg: JobConfig, s: State, a: Action)
    requires AllShaped(s) && s.sh.stopping && Quiet(s) && Enabled(s, a)
    ensures var s' := Next(cfg, s, a);
            && s'.sh.stopping && Quiet(s') && s'.sh.pushes == s.sh.pushes
            && (s'.sh.queue == s.sh.queue || (s.sh.queue != [] && s'.sh.queue == s.sh.queue[1..]))
  {
    if a.Run? {
      StoppingMove(cfg, s.sh, s.threads[a.i], a.link);
    }
  }

  lemma {:induction false} StoppingRun(cfg: JobConfig, trace: seq<State>, acts: seq<Action>, k: nat)
    requires IsRun(cfg, trace, acts) && k < |trace|
    requires AllShaped(trace[0]) && trace[0].sh.stopping && Quiet(trace[0])
    ensures AllShaped(trace[k]) && trace[k].sh.stopping && Quiet(trace[k])
    ensures trace[k].sh.pushes == trace[0].sh.pushes
    ensures trace[0].sh.queue == [] ==> trace[k].sh.queue == []
  {
    if k > 0 {
      StoppingRun(cfg, trace, acts, k - 1);
      StepShaped(cfg, trace[k - 1], acts[k - 1]);
      StoppingStep(cfg, trace[k - 1], acts[k - 1]);
    }
  }

  ghost predicate CanStillPush(cfg: JobConfig, s: State) {
    exists t :: Reaches(cfg, s, t) && t.sh.pushes != s.sh.pushes
  }

  /** Once `stopping` is set, a push can still happen if and only if some goroutine had already
      passed its test of `stopping`. */
  lemma LatePushesComeFromMidPush(cfg: JobConfig, s: State)
    requires AllShaped(s) && s.sh.stopping
    ensures CanStillPush(cfg, s) <==> exists i :: 0 <= i < |s.threads| && MidPush(s.threads[i])
  {
    if Quiet(s) {
      forall t | Reaches(cfg, s, t)
        ensures t.sh.pushes == s.sh.pushes
      {
        var trace: seq<State>, acts: seq<Action> :|
          IsRun(cfg, trace, acts) && trace[0] == s && trace[|trace| - 1] == t;
        StoppingRun(cfg, trace, acts, |trace| - 1);
      }
    } else {
      var i :| 0 <= i < |s.threads| && MidPush(s.threads[i]);
      ReachesItself(cfg, s);
      var t := s;
      if s.threads[i].Storing? {
        ReachStep(cfg, s, t, Run(i, ""));
        t := Next(cfg, t, Run(i, ""));
      }
      ReachStep(cfg, s, t, Run(i, ""));
      assert |Next(cfg, t, Run(i, "")).sh.pushes| == |s.sh.pushes| + 1;
    }
  }

  /** A goroutine that has seen the queue empty while stopping, or is being let through by one. */
  predicate SawEmpty(t: Thread) {
    t.Finalizing? || t.Receiving?
  }

  predicate PastTheFlag(t: Thread) {
    t.Measuring? || t.Sending? || SawEmpty(t)
  }

  ghost predicate Drained(s: State) {
    && AllShaped(s)
    && (s.sh.stopping ==> Quiet(s))
    && forall i :: 0 <= i < |s.threads| ==>
         && (PastTheFlag(s.threads[i]) ==> s.sh.stopping)
         && (SawEmpty(s.threads[i]) ==> s.sh.queue == [])
  }

  /** Every call of `Shutdown` sets the flag while no goroutine is mid-push. */
  ghost predicate RaisedQuietly(trace: seq<State>, acts: seq<Action>)
    requires |trace| == |acts| + 1
  {
    forall k ::
      0 <= k < |acts| && acts[k].Run? && acts[k].i < |trace[k].threads| && trace[k].threads[acts[k].i].Raising?
      ==> Quiet(trace[k])
  }

  lemma MoveDrains(cfg: JobConfig, sh: Shared, t: Thread, link: Url)
    requires Shaped(t) && (PastTheFlag(t) ==> sh.stopping) && (SawEmpty(t) ==> sh.queue == [])
    requires sh.stopping ==> !MidPush(t)
    ensures var (sh', t') := Move(cfg, sh, t, link);
            && (PastTheFlag(t') ==> sh'.stopping) && (SawEmpty(t') ==> sh'.queue == [])
            && (sh'.stopping ==> !MidPush(t'))
            && (sh.stopping ==> sh'.stopping && sh'.queue == sh.queue)
            && (!t.Raising? ==> sh'.stopping == sh.stopping)
  {
  }

  lemma StepDrains(cfg: JobConfig, s: State, a: Action)
    requires Drained(s) && Enabled(s, a)
    requires a.Run? && s.threads[a.i].Raising? ==> Quiet(s)
    ensures Drained(Next(cfg, s, a))
  {
    StepShaped(cfg, s, a);
    if a.Run? {
      MoveDrains(cfg, s.sh, s.threads[a.i], a.link);
      var s' := Next(cfg, s, a);
      forall i | 0 <= i < |s'.threads|
        ensures PastTheFlag(s'.threads[i]) ==> s'.sh.stopping
        ensures SawEmpty(s'.threads[i]) ==> s'.sh.queue == []
        ensures s'.sh.stopping ==> !MidPush(s'.threads[i])
      {
        if i != a.i {
          assert s'.threads[i] == s.threads[i];
        }
      }
    }
  }

  /** If the flag is only ever raised with no goroutine mid-push, then on every path to the
      finalizers (done scan, stop URL, outside call, directly or through the rendezvous) the queue
      is empty when they run, and no state after the flag pushes. */
  lemma {:induction false} HandlersAreFinalizedOverAnEmptyQueue(
    cfg: JobConfig, trace: seq<State>, acts: seq<Action>, k: nat)
    requires IsRun(cfg, trace, acts) && trace[0] == Init() && RaisedQuietly(trace, acts) && k < |trace|
    ensures Drained(trace[k])
    ensures forall i :: 0 <= i < |trace[k].threads| && trace[k].threads[i].Finalizing? ==>
              trace[k].sh.stopping && trace[k].sh.queue == [] && !CanStillPush(cfg, trace[k])
  {
    if k > 0 {
      HandlersAreFinalizedOverAnEmptyQueue(cfg, trace, acts, k - 1);
      StepDrains(cfg, trace[k - 1], acts[k - 1]);
    }
    if trace[k].sh.stopping {
      LatePushesComeFromMidPush(cfg, trace[k]);
    }
  }

  /** In every interleaving, nobody is past the flag before it is raised. */
  lemma {:induction false} NobodyIsPastAnUnraisedFlag(
    cfg: JobConfig, trace: seq<State>, acts: seq<Action>, k: nat)
    requires IsRun(cfg, trace, acts) && trace[0] == Init() && k < |trace|
    ensures forall i :: 0 <= i < |trace[k].threads| && PastTheFlag(trace[k].threads[i]) ==> trace[k].sh.stopping
  {
    if k > 0 {
      NobodyIsPastAnUnraisedFlag(cfg, trace, acts, k - 1);
      RunAllocates(cfg, trace, acts, k - 1);
      StepPastTheFlag(cfg, trace[k - 1], acts[k - 1]);
    }
  }

  lemma MovePastTheFlag(cfg: JobConfig, sh: Shared, t: Thread, link: Url)
    requires Shaped(t) && (PastTheFlag(t) ==> sh.stopping)
    ensures var (sh', t') := Move(cfg, sh, t, link);
            (PastTheFlag(t') ==> sh'.stopping) && (sh.stopping ==> sh'.stopping)
  {
  }

  lemma StepPastTheFlag(cfg: JobConfig, s: State, a: Action)
    requires AllShaped(s) && Enabled(s, a)
    requires forall i :: 0 <= i < |s.threads| && PastTheFlag(s.threads[i]) ==> s.sh.stopping
    ensures var s' := Next(cfg, s, a);
            forall i :: 0 <= i < |s'.threads| && PastTheFlag(s'.threads[i]) ==> s'.sh.stopping
  {
    if a.Run? {
      MovePastTheFlag(cfg, s.sh, s.threads[a.i], a.link);
    }
  }

  lemma {:induction false} PopAll(cfg: JobConfig, s0: State, s: State) returns (t: State)
    requires Reaches(cfg, s0, s)
    ensures Reaches(cfg, s0, t) && t == s.(sh := s.sh.(queue := []))
    decreases |s.sh.queue|
  {
    if s.sh.queue == [] {
      t := s;
    } else {
      ReachStep(cfg, s0, s, Pop);
      t := PopAll(cfg, s0, Next(cfg, s, Pop));
    }
  }

  /** Some continuation runs the finalizers over a request that nobody is going to fetch. */
  ghost predicate CanStrand(cfg: JobConfig, s: State) {
    exists t, j :: Reaches(cfg, s, t) && Strands(t, j)
  }

  predicate Strands(t: State, j: nat) {
    j < |t.threads| && t.threads[j].Finalizing? && t.sh.queue != []
  }

  lemma {:induction false} DrainedRun(cfg: JobConfig, trace: seq<State>, acts: seq<Action>, k: nat)
    requires IsRun(cfg, trace, acts) && k < |trace| && Drained(trace[0]) && trace[0].sh.stopping
    ensures Drained(trace[k]) && trace[k].sh.stopping
  {
    if k > 0 {
      DrainedRun(cfg, trace, acts, k - 1);
      StepDrains(cfg, trace[k - 1], acts[k - 1]);
      StoppingStep(cfg, trace[k - 1], acts[k - 1]);
    }
  }

  /** The run that strands a request: the flag is raised, workers take all there is, the caller finds the queue
      empty, and then the goroutine that had passed its test of the flag pushes. */
  lemma StrandingRun(cfg: JobConfig, s0: State, s: State, i: nat, j: nat) returns (t: State)
    requires Reaches(cfg, s0, s) && i < |s.threads| && j < |s.threads| && i != j
    requires s.threads[i].Measuring? && MidPush(s.threads[j])
    ensures Reaches(cfg, s0, t) && Strands(t, i)
  {
    var mid := PopAll(cfg, s0, s);
    ReachStep(cfg, s0, mid, Run(i, ""));
    mid := Next(cfg, mid, Run(i, ""));
    if mid.threads[j].Storing? {
      ReachStep(cfg, s0, mid, Run(j, ""));
      mid := Next(cfg, mid, Run(j, ""));
    }
    ReachStep(cfg, s0, mid, Run(j, ""));
    t := Next(cfg, mid, Run(j, ""));
  }

  /** Raising the flag is safe exactly when no goroutine is mid-push: from the state it leaves, some run
      finalizes the handlers over a request in the queue if and only if a goroutine had passed its test of
      the flag and not pushed yet, whatever is in the queue at the time. */
  lemma RaisingIsSafeIff(cfg: JobConfig, trace: seq<State>, acts: seq<Action>, k: nat, i: nat)
    requires IsRun(cfg, trace, acts) && trace[0] == Init() && k < |trace|
    requires !trace[k].sh.stopping && i < |trace[k].threads| && trace[k].threads[i].Raising?
    ensures CanStrand(cfg, Next(cfg, trace[k], Run(i, ""))) <==> !Quiet(trace[k])
  {
    var s := trace[k];
    var s' := Next(cfg, s, Run(i, ""));
    if Quiet(s) {
      RunAllocates(cfg, trace, acts, k);
      NobodyIsPastAnUnraisedFlag(cfg, trace, acts, k);
      StepDrains(cfg, s, Run(i, ""));
      forall t, j: nat | Reaches(cfg, s', t)
        ensures !Strands(t, j)
      {
        var after: seq<State>, more: seq<Action> :|
          IsRun(cfg, after, more) && after[0] == s' && after[|after| - 1] == t;
        DrainedRun(cfg, after, more, |after| - 1);
      }
    } else {
      var j :| 0 <= j < |s.threads| && MidPush(s.threads[j]);
      assert s'.threads[j] == s.threads[j];
      ReachesItself(cfg, s');
      var t := StrandingRun(cfg, s', s', i, j);
    }
  }

  /** A seed being enqueued, past its test of the flag, when somebody shuts down. */
  lemma SeedMidPush(cfg: JobConfig, seed: Url) returns (s: State)
    ensures Reaches(cfg, Init(), s) && |s.threads| == 2 && !s.sh.stopping
    ensures MidPush(s.threads[0]) && s.threads[1].Raising?
  {
    ReachesItself(cfg, Init());
    ReachStep(cfg, Init(), Init(), Seed([seed]));
    s := Next(cfg, Init(), Seed([seed]));
    ReachStep(cfg, Init(), s, Run(0, ""));
    s := Next(cfg, s, Run(0, ""));
    ReachStep(cfg, Init(), s, Run(0, ""));
    s := Next(cfg, s, Run(0, ""));
    ReachStep(cfg, Init(), s, CallShutdown);
    s := Next(cfg, s, CallShutdown);
  }

  /** It can happen: in a crawl of any seed the handlers can be finalized over a request in the queue. */
  lemma SomeShutdownStrandsARequest(cfg: JobConfig, seed: Url)
    ensures exists t :: Reaches(cfg, Init(), t) && Strands(t, 1)
  {
    var s := SeedMidPush(cfg, seed);
    ReachStep(cfg, Init(), s, Run(1, ""));
    var t := StrandingRun(cfg, Init(), Next(cfg, s, Run(1, "")), 1, 0);
  }
}
