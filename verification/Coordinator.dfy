/** The coordinator, its request store and its queue as the objects they are, from
    `lib/coordinator.go`, `lib/request_store.go`, `lib/queue.go` and `lib/request.go`. The store and
    the queue hold references to the same `Request` objects, and a result is recorded by updating
    the stored object in place. Every method is tied to a function of `CoordinatorSpec`. */
module CoordinatorHeap {
  import opened Wrappers
  import opened CrawlTypes
  import opened JobRules
  import opened CoordinatorSpec

  class Request {
    const jobID: string
    const url: Url
    var status: Status
    var attempts: nat
    var prevStatus: int

    constructor (jobID: string, url: Url)
      ensures this.jobID == jobID && this.url == url
      ensures Rec() == NewRecord(jobID)
    {
      this.jobID := jobID;
      this.url := url;
      status, attempts, prevStatus := Unknown, 0, 0;
    }

    function Rec(): Record
      reads this
    {
      Record(jobID, status, attempts, prevStatus)
    }
  }

  class MemRequestStore {
    var reqs: map<Url, Request>

    constructor ()
      ensures reqs == map[]
    {
      reqs := map[];
    }

    /** Every request is stored under its own URL, so no object is stored twice. */
    ghost predicate Valid()
      reads this
    {
      forall u :: u in reqs ==> reqs[u].url == u
    }

    ghost function View(): (m: map<Url, Record>)
      reads this, reqs.Values
    {
      map u | u in reqs :: reqs[u].Rec()
    }

    /** Storing `r`, when no other stored object has changed, replaces one record. */
    twostate lemma Replaced(new r: Request)
      requires old(Valid()) && reqs == old(reqs)[r.url := r]
      requires forall u :: u in old(reqs) && u != r.url ==> unchanged(old(reqs)[u])
      ensures View() == old(View())[r.url := r.Rec()]
    {
    }

    method PutRequest(r: Request)
      modifies this
      ensures reqs == old(reqs)[r.url := r]
      ensures old(Valid()) ==> Valid()
    {
      reqs := reqs[r.url := r];
    }

    method GetRequest(url: Url) returns (r: Request?)
      ensures r == (if url in reqs then reqs[url] else null)
    {
      r := if url in reqs then reqs[url] else null;
    }

    /** Lists stored requests, in no particular order. A limit of 0 or less never stops the
        loop, and an offset above 0 skips everything, since only listed requests are counted. */
    method ListRequests(limit: int, offset: int) returns (listed: seq<Request>)
      ensures forall r :: r in listed ==> r in reqs.Values
      ensures offset > 0 ==> listed == []
      ensures offset <= 0 && (limit <= 0 || |reqs| < limit) ==> forall u :: u in reqs ==> reqs[u] in listed
      ensures offset <= 0 ==> |listed| == if 0 < limit <= |reqs| then limit else |reqs|
    {
      listed := [];
      var i := 0;
      var keys := reqs.Keys;
      while keys != {}
        invariant keys <= reqs.Keys
        invariant forall r :: r in listed ==> r in reqs.Values
        invariant i == |listed|
        invariant 0 < offset ==> listed == []
        invariant offset <= 0 ==> i + |keys| == |reqs|
        invariant offset <= 0 ==> forall u :: u in reqs.Keys - keys ==> reqs[u] in listed
        invariant limit <= 0 || i < limit
        decreases keys
      {
        var u :| u in keys;
        keys := keys - {u};
        if i < offset {
          continue;
        }
        listed := listed + [reqs[u]];
        i := i + 1;
        if i == limit {
          break;
        }
      }
    }
  }

  function EntriesOf(requests: seq<Request>): (entries: seq<Entry>)
    ensures |entries| == |requests|
    ensures forall i :: 0 <= i < |requests| ==> entries[i] == Entry(requests[i].jobID, requests[i].url)
  {
    seq(|requests|, i requires 0 <= i < |requests| => Entry(requests[i].jobID, requests[i].url))
  }

  /** The queue as an unbounded channel; its bound of 150 is the subject of `Forwarders`. */
  class MemQueue {
    var channel: seq<Request>

    constructor ()
      ensures channel == []
    {
      channel := [];
    }

    method Push(r: Request)
      modifies this
      ensures channel == old(channel) + [r]
    {
      channel := channel + [r];
    }

    /** An empty channel blocks its reader. */
    method Pop() returns (r: Request)
      requires channel != []
      modifies this
      ensures [r] + channel == old(channel)
    {
      r := channel[0];
      channel := channel[1..];
    }

    method Len() returns (n: nat)
      ensures n == |channel|
    {
      n := |channel|;
    }
  }

  /** `MemResourceHandler`: keeps every resource it is handed. */
  class MemResourceHandler {
    var resources: seq<Resource>

    constructor ()
      ensures resources == []
    {
      resources := [];
    }

    method HandleResource(r: Resource)
      modifies this
      ensures resources == old(resources) + [r]
    {
      resources := resources + [r];
    }
  }

  class Job {
    const cfg: JobConfig
    var finished: nat

    constructor (cfg: JobConfig)
      ensures this.cfg == cfg && finished == 0
    {
      this.cfg := cfg;
      finished := 0;
    }
  }

  class Coordinator {
    const frs: MemRequestStore
    const queue: MemQueue
    const job: Job
    const handlers: seq<MemResourceHandler>
    var processing: int
    var processingChanges: seq<int>
    var stopping: bool
    /** goroutines started for handlers that have not run yet */
    var calls: multiset<Call>
    /** calls of `Shutdown` that are blocked, because they found a queue that is not empty */
    var senders: nat
    /** calls of `Shutdown` that were blocked and have been let through, but have not gone on yet */
    var released: nat
    /** how often the handlers have been finalized */
    var finalized: nat

    constructor (cfg: JobConfig, handlers: seq<MemResourceHandler>)
      ensures Valid() && fresh(frs) && fresh(queue) && fresh(job)
      ensures job.cfg == cfg && this.handlers == handlers
      ensures View() == Blank()
    {
      frs := new MemRequestStore();
      queue := new MemQueue();
      job := new Job(cfg);
      this.handlers := handlers;
      processing, processingChanges, stopping, calls := 0, [], false, multiset{};
      senders, released, finalized := 0, 0, 0;
    }

    ghost predicate Valid()
      reads this, frs
    {
      frs.Valid()
    }

    ghost function View(): Core
      reads this, frs, queue, job, frs.reqs.Values
    {
      Core(frs.View(), EntriesOf(queue.channel), stopping, processing, processingChanges, job.finished, calls,
           senders, released, finalized)
    }

    /** The request objects reachable from the store are old ones or new ones. */
    twostate predicate Grown()
      reads this, frs
    {
      forall u :: u in frs.reqs ==> frs.reqs[u] in old(frs.reqs.Values) || fresh(frs.reqs[u])
    }

    method Enqueue(r: Request)
      requires Valid()
      modifies this`processingChanges, frs, queue, r
      ensures Valid()
      ensures frs.reqs == old(frs.reqs)[r.url := r]
      ensures View() == CoordinatorSpec.Enqueue(old(View()), r.url, old(r.Rec()))
    {
      if stopping {
        r.status := Failed;
        frs.PutRequest(r);
        frs.Replaced(r);
        return;
      }
      r.status := Queued;
      frs.PutRequest(r);
      frs.Replaced(r);
      queue.Push(r);
      processingChanges := processingChanges + [1];
    }

    /** `waits` says that the call blocks, having found requests in the queue. */
    method Shutdown() returns (waits: bool)
      requires Valid()
      modifies this`stopping, this`senders, this`finalized
      ensures Valid() && View() == Raised(old(View()))
      ensures waits == (old(View()).queue != [])
    {
      stopping := true;
      var n := queue.Len();
      waits := n > 0;
      if waits {
        senders := senders + 1;
      } else {
        finalized := finalized + 1;
      }
    }

    /** A blocked call of `Shutdown` goes on, once its send has been received. */
    method FinishShutdown()
      requires Valid() && released > 0
      modifies this`released, this`finalized
      ensures Valid() && View() == LetThrough(old(View()))
    {
      released, finalized := released - 1, finalized + 1;
    }

    method StartCalls(r: Resource)
      modifies this`calls
      ensures calls == old(calls) + CallsFor(|handlers|, r)
    {
      for h := 0 to |handlers|
        invariant calls == old(calls) + CallsFor(h, r)
      {
        calls := calls + multiset{Call(h, r)};
      }
    }

    /** Finds the request a result belongs to, or makes a blank one, and counts the attempt. */
    method Charge(r: Resource) returns (fr: Request)
      requires Valid()
      modifies frs.reqs.Values
      ensures fr.url == r.url
      ensures r.url in frs.reqs ==> fr == frs.reqs[r.url]
      ensures r.url !in frs.reqs ==> fresh(fr)
      ensures fr.Rec() == Charged(old(View()), r)
      ensures View() == old(View()).(store := Recorded(old(View()), r))
    {
      var stored := frs.GetRequest(r.url);
      if stored == null {
        fr := new Request("", r.url);
      } else {
        fr := stored;
      }
      fr.prevStatus := r.status;
      fr.attempts := fr.attempts + 1;
      if stored != null {
        assert frs.reqs == frs.reqs[r.url := fr];
        frs.Replaced(fr);
      }
    }

    /** The success branch, without the handlers. Nothing is put in the store: a stored request shows
        its new status because the store holds the same object. */
    method MarkDone(fr: Request)
      requires Valid()
      requires if fr.url in frs.reqs then frs.reqs[fr.url] == fr else fr !in frs.reqs.Values
      modifies job, fr
      ensures View() == old(View()).(
          finished := old(job.finished) + 1,
          store := if fr.url in frs.reqs then old(frs.View())[fr.url := old(fr.Rec()).(status := Done)]
                   else old(frs.View()))
    {
      job.finished := job.finished + 1;
      fr.status := Done;
      if fr.url in frs.reqs {
        assert frs.reqs == frs.reqs[fr.url := fr];
        frs.Replaced(fr);
      }
    }

    /** The failure branches: another attempt, or none. */
    method RetryOrGiveUp(fr: Request)
      requires Valid()
      modifies this`processingChanges, frs, queue, fr
      ensures Valid() && frs.reqs == old(frs.reqs)[fr.url := fr]
      ensures View() == Retried(job.cfg, old(View()), fr.url, old(fr.Rec()))
    {
      if fr.attempts <= job.cfg.maxAttempts {
        Enqueue(fr);
      } else {
        fr.status := Failed;
        frs.PutRequest(fr);
        frs.Replaced(fr);
      }
    }

    /** The outcome of a result, once its attempt has been counted in `fr`. */
    method SettleResult(fr: Request, r: Resource)
      requires Valid() && fr.url == r.url
      requires if r.url in frs.reqs then frs.reqs[r.url] == fr else fr !in frs.reqs.Values
      modifies this`processingChanges, this`calls, job, frs, queue, fr
      ensures Valid() && (frs.reqs == old(frs.reqs) || frs.reqs == old(frs.reqs)[r.url := fr])
      ensures View() == Settled(job.cfg, |handlers|, old(View()), r, old(fr.Rec()))
    {
      if OkStatus(r.status) {
        MarkDone(fr);
        StartCalls(r);
      } else {
        RetryOrGiveUp(fr);
      }
    }

    /** Charges a result to its request, without the bookkeeping that `Dequeue` defers. */
    method JudgeResult(r: Resource) returns (fr: Request)
      requires Valid()
      modifies this`processingChanges, this`calls, job, frs, queue, frs.reqs.Values
      ensures Valid() && Grown()
      ensures fr.url == r.url
      ensures View() == Judge(job.cfg, |handlers|, old(View()), r)
    {
      ghost var before := View();
      fr := Charge(r);
      SettleResult(fr, r);
      RecordedThenSettled(job.cfg, |handlers|, before, r);
    }

    /** What `dequeue` defers. A call that blocks is left where it is, and `turn` says where. */
    method Defer(url: Url) returns (turn: Turn)
      requires Valid()
      modifies this
      ensures Valid() && View() == Deferred(job.cfg, old(View()), url)
      ensures turn == TurnAfter(job.cfg, old(View()), url)
    {
      processingChanges := processingChanges + [-1];
      if stopping {
        var n := queue.Len();
        if n == 0 {
          if senders == 0 {
            return Waits;
          }
          senders, released := senders - 1, released + 1;
        }
      }
      turn := Goes;
      if job.cfg.stopUrl == url {
        var waits := Shutdown();
        turn := if waits then Sends else Goes;
      }
    }

    method Dequeue(r: Resource) returns (turn: Turn)
      requires Valid()
      modifies this, job, frs, queue, frs.reqs.Values
      ensures Valid() && Grown()
      ensures View() == CoordinatorSpec.Dequeue(job.cfg, |handlers|, old(View()), r)
      ensures job.finished == old(job.finished) + if 200 <= r.status <= 308 then 1 else 0
      ensures turn == TurnOf(job.cfg, |handlers|, old(View()), r)
    {
      var fr := JudgeResult(r);
      turn := Defer(fr.url);
    }

    /** Looks one discovered link up and enqueues it if the store has never seen it. */
    method VisitLink(url: Url)
      requires Valid()
      modifies this, frs, queue
      ensures Valid() && Grown()
      ensures View() == EnqueueLink(job.cfg, old(View()), url)
    {
      var known := frs.GetRequest(url);
      if known == null {
        var r := new Request(job.cfg.id, url);
        Enqueue(r);
      }
    }

    /** Takes results back from a worker. `call` says how it ends: it returns, or it halts at a result
        whose `dequeue` blocks, keeping the results after it and the links it is going to look up. */
    method CompletedResources(rscs: seq<Resource>) returns (call: Halted, ghost order: seq<Url>)
      requires Valid()
      modifies this, job, frs, queue, frs.reqs.Values
      ensures Valid() && Grown()
      ensures View() == Completed(job.cfg, |handlers|, old(View()), rscs, order)
      ensures call == CallAfter(job.cfg, |handlers|, old(View()), rscs, {})
      ensures call.turn == Goes ==> Lists(order, LinksOf(job.cfg, rscs))
    {
      call, order := GoOn(rscs, {});
      assert {} + LinksOf(job.cfg, rscs) == LinksOf(job.cfg, rscs);
    }

    /** A call that halted in `Shutdown` goes on, once it has been let through. */
    method ResumeCall(halted: Halted) returns (call: Halted, ghost order: seq<Url>)
      requires Valid() && released > 0 && halted.turn == Sends
      modifies this, job, frs, queue, frs.reqs.Values
      ensures Valid() && Grown()
      ensures View() == Completed(job.cfg, |handlers|, LetThrough(old(View())), halted.rest, order)
      ensures call == CallAfter(job.cfg, |handlers|, LetThrough(old(View())), halted.rest, halted.links)
      ensures call.turn == Goes ==> Lists(order, halted.links + LinksOf(job.cfg, halted.rest))
    {
      FinishShutdown();
      call, order := GoOn(halted.rest, halted.links);
    }

    /** The rest of a call that has `collected` links so far. The links are visited in whatever order the
        map yields them. */
    method GoOn(rscs: seq<Resource>, collected: set<Url>) returns (call: Halted, ghost order: seq<Url>)
      requires Valid()
      modifies this, job, frs, queue, frs.reqs.Values
      ensures Valid() && Grown()
      ensures View() == Completed(job.cfg, |handlers|, old(View()), rscs, order)
      ensures call == CallAfter(job.cfg, |handlers|, old(View()), rscs, collected)
      ensures call.turn == Goes ==> Lists(order, collected + LinksOf(job.cfg, rscs))
    {
      order := [];
      call := TakeResults(rscs, collected);
      if call.turn != Goes {
        return;
      }
      assert rscs[..|rscs|] == rscs;
      label taken:
      var rest := call.links;
      while rest != {}
        invariant Valid() && Grown()
        invariant rest <= call.links
        invariant Lists(order, call.links - rest)
        invariant View() == EnqueueLinks(job.cfg, old@taken(View()), order)
        decreases rest
      {
        var url :| url in rest;
        VisitLink(url);
        rest := rest - {url};
        assert (order + [url])[..|order|] == order;
        order := order + [url];
      }
    }

    /** The loop over resources. A `dequeue` that blocks halts the call; the links of that result count as
        collected, since it is going to collect them next. */
    method TakeResults(rscs: seq<Resource>, collected: set<Url>) returns (call: Halted)
      requires Valid()
      modifies this, job, frs, queue, frs.reqs.Values
      ensures Valid() && Grown()
      ensures call == CallAfter(job.cfg, |handlers|, old(View()), rscs, collected)
      ensures var n := Taken(job.cfg, |handlers|, old(View()), rscs);
              View() == DequeueAll(job.cfg, |handlers|, old(View()), rscs[..n])
    {
      ghost var before := View();
      var links, turn := collected, Goes;
      var k := 0;
      while k < |rscs| && turn == Goes
        invariant Valid() && Grown() && k <= |rscs|
        invariant links == collected + LinksOf(job.cfg, rscs[..k])
        invariant turn == Course(job.cfg, |handlers|, before, rscs[..k])
        invariant k == Taken(job.cfg, |handlers|, before, rscs[..k])
        invariant View() == DequeueAll(job.cfg, |handlers|, before, rscs[..k])
        decreases |rscs| - k
      {
        OneMoreResult(job.cfg, |handlers|, before, rscs, k);
        var found;
        turn, found := TakeResult(rscs[k]);
        links := links + found;
        k := k + 1;
      }
      call := Halted(rscs[k..], links, turn);
      HaltedHere(job.cfg, |handlers|, before, rscs, k);
    }

    /** One turn of the loop over resources. */
    method TakeResult(r: Resource) returns (turn: Turn, found: set<Url>)
      requires Valid()
      modifies this, job, frs, queue, frs.reqs.Values
      ensures Valid() && Grown()
      ensures View() == DequeueOwn(job.cfg, |handlers|, old(View()), r)
      ensures turn == TurnOfOwn(job.cfg, |handlers|, old(View()), r)
      ensures found == LinksOf(job.cfg, [r])
    {
      turn, found := Goes, {};
      if r.jobID != job.cfg.id {
        return;
      }
      turn := Dequeue(r);
      if job.cfg.crawl {
        found := CandidateLinks(r.links);
      }
      assert r in [r];
    }

    method CandidateLinks(urls: seq<Url>) returns (found: set<Url>)
      ensures found == set l | l in urls && Candidate(job.cfg, l)
    {
      found := {};
      for i := 0 to |urls|
        invariant found == set l | l in urls[..i] && Candidate(job.cfg, l)
      {
        var ok := UrlStringIsCandidate(job.cfg, urls[i]);
        if ok {
          found := found + {urls[i]};
        }
        assert forall l :: l in urls[..i + 1] <==> l in urls[..i] || l == urls[i];
      }
      assert urls[..|urls|] == urls;
    }

    /** One turn of the loop that reads seeds into the queue. The store is not consulted. */
    method Seed(url: Url)
      requires Valid()
      modifies this, frs, queue
      ensures Valid() && Grown()
      ensures View() == CoordinatorSpec.Enqueue(old(View()), url, NewRecord(job.cfg.id))
    {
      var r := new Request(job.cfg.id, url);
      Enqueue(r);
    }

    /** A worker takes the oldest request. */
    method TakeRequest() returns (r: Request)
      requires Valid() && queue.channel != []
      modifies queue
      ensures Valid() && Entry(r.jobID, r.url) == old(View()).queue[0]
      ensures View() == Popped(old(View()))
    {
      r := queue.Pop();
    }

    /** One tick of the done scan. */
    method DoneScan() returns (fired: bool)
      requires Valid()
      modifies this`stopping, this`senders, this`finalized
      ensures Valid()
      ensures fired == ScanFires(old(View()))
      ensures fired <==> old(queue.channel) == [] && old(processing) <= 0
      ensures View() == if fired then Raised(old(View())) else old(View())
    {
      var n := queue.Len();
      if n != 0 {
        return false;
      }
      var listed := frs.ListRequests(-1, 0);
      for i := 0 to |listed| {
        if !(listed[i].status == Done || listed[i].status == Failed) {
          continue;
        }
      }
      if processing > 0 {
        return false;
      }
      var _ := Shutdown();
      return true;
    }

    /** The background loop of `NewCoordinator`, one turn. */
    method ApplyChange()
      requires Valid() && processingChanges != []
      modifies this`processing, this`processingChanges
      ensures Valid() && View() == CoordinatorSpec.ApplyChange(old(View()))
    {
      processing := processing + processingChanges[0];
      processingChanges := processingChanges[1..];
    }

    /** A started handler goroutine gets to run. */
    method RunCall(call: Call)
      requires Valid() && call in calls && call.handler < |handlers|
      modifies this`calls, handlers[call.handler]
      ensures Valid() && View() == old(View()).(calls := old(calls) - multiset{call})
      ensures handlers[call.handler].resources == old(handlers[call.handler].resources) + [call.rsc]
    {
      calls := calls - multiset{call};
      handlers[call.handler].HandleResource(call.rsc);
    }
  }
}
