/** When a call of `CompletedResources` returns, and when the shutdown channel blocks it. */
module Halting {
  import opened Wrappers
  import opened CrawlTypes
  import opened JobRules
  import opened CoordinatorSpec

  function Own(cfg: JobConfig, rscs: seq<Resource>): nat {
    if rscs == [] then 0
    else Own(cfg, rscs[..|rscs| - 1]) + if rscs[|rscs| - 1].jobID == cfg.id then 1 else 0
  }

  /** No result of the job is for its stop URL. */
  ghost predicate NoStopUrl(cfg: JobConfig, rscs: seq<Resource>) {
    forall r :: r in rscs && r.jobID == cfg.id ==> r.url != cfg.stopUrl
  }

  /** A judgement never empties the queue, and leaves it alone while stopping. */
  lemma JudgementAndQueue(cfg: JobConfig, handlers: nat, c: Core, r: Resource)
    ensures var j := Judge(cfg, handlers, c, r);
            && j.stopping == c.stopping && j.senders == c.senders
            && (c.stopping ==> j.queue == c.queue)
            && (c.queue != [] ==> j.queue != [])
  {
  }

  /** Undisturbed, a call returns: no shutdown is under way, or requests are still queued, and no result is
      for the stop URL. */
  lemma {:induction false} UndisturbedCallsReturn(cfg: JobConfig, handlers: nat, c: Core, rscs: seq<Resource>)
    requires (!c.stopping || c.queue != []) && NoStopUrl(cfg, rscs)
    ensures Course(cfg, handlers, c, rscs) == Goes
    ensures var d := DequeueAll(cfg, handlers, c, rscs);
            d.stopping == c.stopping && d.senders == c.senders && (c.queue != [] ==> d.queue != [])
  {
    if rscs != [] {
      var init := rscs[..|rscs| - 1];
      UndisturbedCallsReturn(cfg, handlers, c, init);
      JudgementAndQueue(cfg, handlers, DequeueAll(cfg, handlers, c, init), rscs[|rscs| - 1]);
    }
  }

  /** Stopping over an empty queue, every result of the job lets one blocked `Shutdown` through, and the
      first for which none is left blocks. */
  lemma {:induction false} DrainedCallsReturnIff(cfg: JobConfig, handlers: nat, c: Core, rscs: seq<Resource>)
    requires c.stopping && c.queue == []
    ensures Course(cfg, handlers, c, rscs) == if Own(cfg, rscs) <= c.senders then Goes else Waits
    ensures Own(cfg, rscs) <= c.senders ==>
              var d := DequeueAll(cfg, handlers, c, rscs);
              d.stopping && d.queue == [] && d.senders == c.senders - Own(cfg, rscs)
  {
    if rscs != [] {
      var init := rscs[..|rscs| - 1];
      DrainedCallsReturnIff(cfg, handlers, c, init);
      JudgementAndQueue(cfg, handlers, DequeueAll(cfg, handlers, c, init), rscs[|rscs| - 1]);
    }
  }

  /** So it looks at exactly as many of the job's results as that lets through, and one more. */
  lemma {:induction false} DrainedCallsTake(cfg: JobConfig, handlers: nat, c: Core, rscs: seq<Resource>)
    requires c.stopping && c.queue == [] && forall r :: r in rscs ==> r.jobID == cfg.id
    ensures Own(cfg, rscs) == |rscs|
    ensures Taken(cfg, handlers, c, rscs) == if |rscs| <= c.senders then |rscs| else c.senders + 1
  {
    DrainedCallsReturnIff(cfg, handlers, c, rscs);
    if rscs != [] {
      var init := rscs[..|rscs| - 1];
      assert forall r :: r in init ==> r in rscs;
      DrainedCallsReturnIff(cfg, handlers, c, init);
      DrainedCallsTake(cfg, handlers, c, init);
    }
  }

  /** The first result for the stop URL shuts down, and blocks exactly when that finds requests in the queue. */
  lemma StopUrlBlocksIff(cfg: JobConfig, handlers: nat, c: Core, init: seq<Resource>, r: Resource)
    requires (!c.stopping || c.queue != []) && NoStopUrl(cfg, init) && r.jobID == cfg.id && r.url == cfg.stopUrl
    ensures var j := Judge(cfg, handlers, DequeueAll(cfg, handlers, c, init), r);
            && Course(cfg, handlers, c, init + [r]) == (if j.queue != [] then Sends else Goes)
            && DequeueAll(cfg, handlers, c, init + [r]).stopping
  {
    assert (init + [r])[..|init|] == init;
    UndisturbedCallsReturn(cfg, handlers, c, init);
    JudgementAndQueue(cfg, handlers, DequeueAll(cfg, handlers, c, init), r);
  }
}
