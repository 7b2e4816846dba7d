/** Over a finite set of URLs every run is finite, with an explicit bound on its length, and the
    number of fetches is bounded. Each step of a run spends at least one unit of a potential that
    is paid in by the seeds and the URLs. */
module CrawlTermination {
  import opened Wrappers
  import opened CrawlTypes
  import opened JobRules
  import opened CoordinatorSpec
  import opened Crawl
  import opened CrawlOutcome

  ghost predicate Distinct(us: seq<Url>) {
    forall i, j :: 0 <= i < j < |us| ==> us[i] != us[j]
  }

  /** Pushes a URL can still cause by itself: first push and retries if it is unseen, else the retries left. */
  function Unit(limit: nat, store: map<Url, Record>, u: Url): nat {
    if u !in store then limit + 1
    else if store[u].attempts < limit then limit - store[u].attempts
    else 0
  }

  function Fuel(limit: nat, us: seq<Url>, store: map<Url, Record>): nat {
    if us == [] then 0 else Fuel(limit, us[..|us| - 1], store) + Unit(limit, store, us[|us| - 1])
  }

  lemma {:induction false} FuelOfOthers(limit: nat, us: seq<Url>, store: map<Url, Record>, u: Url, rec: Record)
    requires u !in us
    ensures Fuel(limit, us, store[u := rec]) == Fuel(limit, us, store)
  {
    if us != [] {
      FuelOfOthers(limit, us[..|us| - 1], store, u, rec);
    }
  }

  lemma {:induction false} FuelUpdate(limit: nat, us: seq<Url>, store: map<Url, Record>, u: Url, rec: Record)
    requires Distinct(us) && u in us
    ensures Fuel(limit, us, store[u := rec]) + Unit(limit, store, u)
         == Fuel(limit, us, store) + Unit(limit, store[u := rec], u)
  {
    var init, last := us[..|us| - 1], us[|us| - 1];
    if last == u {
      FuelOfOthers(limit, init, store, u, rec);
    } else {
      FuelUpdate(limit, init, store, u, rec);
    }
  }

  lemma {:induction false} FuelAtStart(limit: nat, us: seq<Url>)
    ensures Fuel(limit, us, map[]) == |us| * (limit + 1)
  {
    if us != [] {
      FuelAtStart(limit, us[..|us| - 1]);
    }
  }

  /** The steps one push can lead to: its counter change, the pop, the report, the counter change of
      the report, one handler call per handler, and going on after a halt. */
  function PushCost(handlers: nat): nat {
    5 + handlers
  }

  function SeedCost(cfg: JobConfig, handlers: nat): nat {
    1 + (Limit(cfg) + 1) * PushCost(handlers)
  }

  function Potential(cfg: JobConfig, us: seq<Url>, s: Sys): int {
    var h := |s.boxes|;
    (if s.core.stopping then 0 else 2)
    + |s.todo| * SeedCost(cfg, h)
    + Fuel(Limit(cfg), us, s.core.store) * PushCost(h)
    + |s.core.queue| * (4 + h)
    + |s.inFlight| * (3 + h)
    + |s.core.changes|
    + |s.core.calls|
    + |s.halted|
    + s.outside
  }

  lemma ProductIsNat(a: nat, b: nat)
    ensures a * b >= 0
  {
  }

  lemma PotentialIsNat(cfg: JobConfig, us: seq<Url>, s: Sys)
    ensures Potential(cfg, us, s) >= 0
  {
    var h := |s.boxes|;
    ProductIsNat(Limit(cfg) + 1, PushCost(h));
    ProductIsNat(|s.todo|, SeedCost(cfg, h));
    ProductIsNat(Fuel(Limit(cfg), us, s.core.store), PushCost(h));
    ProductIsNat(|s.core.queue|, 4 + h);
    ProductIsNat(|s.inFlight|, 3 + h);
  }

  lemma PotentialAtStart(cfg: JobConfig, us: seq<Url>, seeds: seq<Url>, handlers: nat)
    ensures Potential(cfg, us, Init(seeds, handlers))
         == 2 + |seeds| * SeedCost(cfg, handlers) + (|us| * (Limit(cfg) + 1)) * PushCost(handlers)
  {
    FuelAtStart(Limit(cfg), us);
    var s := Init(seeds, handlers);
    assert |s.core.queue| == 0 && |s.inFlight| == 0 && |s.core.changes| == 0 && |s.core.calls| == 0;
    assert |s.boxes| == handlers;
  }

  /** The URLs of the state lie in `us`. */
  ghost predicate Inside(us: seq<Url>, s: Sys) {
    && (forall u :: u in s.core.store ==> u in us)
    && (forall u :: u in s.todo ==> u in us)
  }

  /** Everything but an empty report and a second shutdown. */
  predicate Progress(s: Sys, e: Event) {
    match e
    case Complete(rscs, order) => rscs != []
    case Scan => !s.core.stopping
    case Stop => !s.core.stopping
    case _ => true
  }

  /** The links a call looks up are among `us`. */
  predicate LinksInside(us: seq<Url>, e: Event) {
    e.Complete? || e.Resume? ==> forall u :: u in e.order ==> u in us
  }

  lemma {:induction false} CallsForSize(handlers: nat, r: Resource)
    ensures |CallsFor(handlers, r)| == handlers
  {
    if handlers > 0 {
      CallsForSize(handlers - 1, r);
    }
  }

  /** Less fuel by `d` is less potential by `d` push costs. */
  lemma Scale(a: int, b: int, d: int, w: nat)
    requires a + d <= b
    ensures a * w + d * w <= b * w
  {
    assert (b - a - d) * w >= 0;
  }

  /** Enqueueing `rec` under `u` is paid for by one unit of fuel, if the update frees one. */
  lemma EnqueueIsPaid(cfg: JobConfig, us: seq<Url>, s: Sys, u: Url, rec: Record)
    requires Distinct(us) && Inside(us, s) && u in us
    ensures var t := WithCore(s, Enqueue(s.core, u, rec));
            var gain := Unit(Limit(cfg), t.core.store, u) - Unit(Limit(cfg), s.core.store, u) + 1;
            Inside(us, t) && Potential(cfg, us, t) <= Potential(cfg, us, s) + gain * PushCost(|s.boxes|)
  {
    var t := WithCore(s, Enqueue(s.core, u, rec));
    var limit, w := Limit(cfg), PushCost(|s.boxes|);
    FuelUpdate(limit, us, s.core.store, u, t.core.store[u]);
    assert t.core.store == s.core.store[u := t.core.store[u]];
    var d := Unit(limit, s.core.store, u) - Unit(limit, t.core.store, u);
    Scale(Fuel(limit, us, t.core.store), Fuel(limit, us, s.core.store), d, w);
    assert (1 - d) * w == w - d * w;
    assert (|s.core.queue| + 1) * (4 + |s.boxes|) == |s.core.queue| * (4 + |s.boxes|) + 4 + |s.boxes|;
  }

  /** The potential does not look at the history. */
  lemma HistoryIsFree(cfg: JobConfig, us: seq<Url>, s: Sys, t: Sys)
    requires Inside(us, s) && t == s.(found := t.found, refused := t.refused)
    ensures Inside(us, t) && Potential(cfg, us, t) == Potential(cfg, us, s)
  {
  }

  lemma LinkIsPaid(cfg: JobConfig, us: seq<Url>, s: Sys, u: Url)
    requires Distinct(us) && Inside(us, s) && u in us
    ensures var t := OnLink(cfg, s, u); Inside(us, t) && Potential(cfg, us, t) <= Potential(cfg, us, s)
  {
    if u !in s.core.store {
      EnqueueIsPaid(cfg, us, s, u, NewRecord(cfg.id));
      HistoryIsFree(cfg, us, WithCore(s, Enqueue(s.core, u, NewRecord(cfg.id))), OnLink(cfg, s, u));
    }
  }

  lemma {:induction false} LinksArePaid(cfg: JobConfig, us: seq<Url>, s: Sys, order: seq<Url>)
    requires Distinct(us) && Inside(us, s) && forall u :: u in order ==> u in us
    ensures var t := OnLinks(cfg, s, order);
            Inside(us, t) && Potential(cfg, us, t) <= Potential(cfg, us, s) && |t.boxes| == |s.boxes|
  {
    if order != [] {
      LinksArePaid(cfg, us, s, order[..|order| - 1]);
      LinkIsPaid(cfg, us, OnLinks(cfg, s, order[..|order| - 1]), order[|order| - 1]);
    }
  }

  lemma SeedSpends(cfg: JobConfig, us: seq<Url>, s: Sys)
    requires Distinct(us) && Inside(us, s) && s.todo != []
    ensures var t := OnSeed(cfg, s); Inside(us, t) && Potential(cfg, us, t) < Potential(cfg, us, s)
  {
    var u, w := s.todo[0], PushCost(|s.boxes|);
    EnqueueIsPaid(cfg, us, s, u, NewRecord(cfg.id));
    var mid := WithCore(s, Enqueue(s.core, u, NewRecord(cfg.id)));
    var gain := Unit(Limit(cfg), mid.core.store, u) - Unit(Limit(cfg), s.core.store, u) + 1;
    Scale(gain, Limit(cfg) + 1, 0, w);
    assert |s.todo| * SeedCost(cfg, |s.boxes|) == (|s.todo| - 1) * SeedCost(cfg, |s.boxes|) + SeedCost(cfg, |s.boxes|);
    assert OnSeed(cfg, s).todo == s.todo[1..];
  }

  /** A judgement that does not enqueue may use the calls it starts. */
  lemma FinalJudgementIsPaid(cfg: JobConfig, us: seq<Url>, s: Sys, r: Resource)
    requires Distinct(us) && Inside(us, s) && r.url in s.core.store
    requires OkStatus(r.status) || Charged(s.core, r).attempts > cfg.maxAttempts
    ensures var t := WithCore(s, Judge(cfg, |s.boxes|, s.core, r));
            Inside(us, t) && Potential(cfg, us, t) <= Potential(cfg, us, s) + |s.boxes|
  {
    var t := WithCore(s, Judge(cfg, |s.boxes|, s.core, r));
    var rec := t.core.store[r.url];
    assert t.core.store == s.core.store[r.url := rec];
    assert Fuel(Limit(cfg), us, t.core.store) <= Fuel(Limit(cfg), us, s.core.store) by {
      FuelUpdate(Limit(cfg), us, s.core.store, r.url, rec);
    }
    Scale(Fuel(Limit(cfg), us, t.core.store), Fuel(Limit(cfg), us, s.core.store), 0, PushCost(|s.boxes|));
    CallsForSize(|s.boxes|, r);
    assert |t.core.calls| <= |s.core.calls| + |s.boxes|;
    assert t.core.queue == s.core.queue && t.core.changes == s.core.changes;
  }

  lemma RetryIsPaid(cfg: JobConfig, us: seq<Url>, s: Sys, r: Resource)
    requires Distinct(us) && Inside(us, s) && r.url in s.core.store
    requires Charged(s.core, r).attempts <= cfg.maxAttempts
    ensures var t := WithCore(s, Enqueue(s.core, r.url, Charged(s.core, r)));
            Inside(us, t) && Potential(cfg, us, t) <= Potential(cfg, us, s)
  {
    EnqueueIsPaid(cfg, us, s, r.url, Charged(s.core, r));
    var t := WithCore(s, Enqueue(s.core, r.url, Charged(s.core, r)));
    assert Unit(Limit(cfg), t.core.store, r.url) + 1 == Unit(Limit(cfg), s.core.store, r.url);
  }

  /** The judgement of a result may use the calls it starts, and nothing else. */
  lemma JudgeIsPaid(cfg: JobConfig, us: seq<Url>, s: Sys, r: Resource)
    requires Distinct(us) && Inside(us, s) && r.url in s.core.store
    ensures var t := WithCore(s, Judge(cfg, |s.boxes|, s.core, r));
            Inside(us, t) && Potential(cfg, us, t) <= Potential(cfg, us, s) + |s.boxes|
  {
    if OkStatus(r.status) || Charged(s.core, r).attempts > cfg.maxAttempts {
      FinalJudgementIsPaid(cfg, us, s, r);
    } else {
      RetryIsPaid(cfg, us, s, r);
    }
  }

  /** The deferred part of `dequeue` adds a counter change and can only lower the flag. */
  lemma DeferredIsPaid(cfg: JobConfig, us: seq<Url>, s: Sys, r: Resource)
    requires EntryOf(r) in s.inFlight
    ensures var mid := WithCore(s, Judge(cfg, |s.boxes|, s.core, r));
            var t := OnDequeue(cfg, s, r);
            && (Inside(us, mid) ==> Inside(us, t))
            && Potential(cfg, us, t) + 2 + |s.boxes| <= Potential(cfg, us, mid)
  {
    var h := |s.boxes|;
    OneMore(|s.inFlight| - 1, 3 + h);
    assert |OnDequeue(cfg, s, r).inFlight| == |s.inFlight| - 1;
  }

  lemma DequeueSpends(cfg: JobConfig, us: seq<Url>, s: Sys, r: Resource)
    requires Distinct(us) && Inside(us, s) && r.url in s.core.store && EntryOf(r) in s.inFlight
    ensures var t := OnDequeue(cfg, s, r);
            Inside(us, t) && Potential(cfg, us, t) + 2 <= Potential(cfg, us, s) && |t.boxes| == |s.boxes|
  {
    JudgeIsPaid(cfg, us, s, r);
    DeferredIsPaid(cfg, us, s, r);
  }

  lemma {:induction false} DequeuesSpend(cfg: JobConfig, us: seq<Url>, s: Sys, rscs: seq<Resource>)
    requires DequeueInv(cfg, s) && Answers(s, rscs) && Distinct(us) && Inside(us, s)
    ensures var t := OnDequeues(cfg, s, rscs);
            Inside(us, t) && Potential(cfg, us, t) + 2 * |rscs| <= Potential(cfg, us, s) && |t.boxes| == |s.boxes|
  {
    if rscs != [] {
      var init, r := rscs[..|rscs| - 1], rscs[|rscs| - 1];
      assert rscs == init + [r];
      AnswersPrefix(s, init, r);
      DequeuesSpend(cfg, us, s, init);
      var mid := OnDequeues(cfg, s, init);
      assert EntryOf(r) in mid.inFlight && r.url in mid.core.store by {
        DequeuesLog(cfg, s, init);
        DequeuesKeep(cfg, s, init);
        assert Outstanding(mid, EntryOf(r)) > 0;
      }
      DequeueSpends(cfg, us, mid, r);
    }
  }

  /** What a call spends on the results it gets to look at. */
  lemma TakenSpends(cfg: JobConfig, us: seq<Url>, s: Sys, rscs: seq<Resource>)
    requires DequeueInv(cfg, s) && MayReport(s, rscs) && Distinct(us) && Inside(us, s)
    ensures var n := Taken(cfg, |s.boxes|, s.core, rscs);
            var t := OnDequeues(cfg, s, rscs[..n]);
            Inside(us, t) && Potential(cfg, us, t) + 2 * n <= Potential(cfg, us, s)
  {
    CallTakes(cfg, s, rscs);
    DequeuesSpend(cfg, us, s, rscs[..Taken(cfg, |s.boxes|, s.core, rscs)]);
  }

  lemma HaltCosts(cfg: JobConfig, us: seq<Url>, t: Sys, call: Halted)
    requires Inside(us, t)
    ensures var t' := t.(halted := t.halted + [call]);
            Inside(us, t') && Potential(cfg, us, t') == Potential(cfg, us, t) + 1
  {
  }

  /** A call spends something, unless it has no results to look at. */
  lemma CallSpends(cfg: JobConfig, us: seq<Url>, s: Sys, rscs: seq<Resource>, links: set<Url>, order: seq<Url>)
    requires DequeueInv(cfg, s) && MayReport(s, rscs) && Distinct(us) && Inside(us, s)
    requires forall u :: u in order ==> u in us
    ensures var t := OnCall(cfg, s, rscs, links, order);
            && Inside(us, t)
            && Potential(cfg, us, t) <= Potential(cfg, us, s)
            && (rscs != [] ==> Potential(cfg, us, t) < Potential(cfg, us, s))
  {
    var call := CallAfter(cfg, |s.boxes|, s.core, rscs, links);
    var t := OnDequeues(cfg, s, rscs[..Taken(cfg, |s.boxes|, s.core, rscs)]);
    TakenSpends(cfg, us, s, rscs);
    if call.turn == Goes {
      LinksArePaid(cfg, us, t, order);
    } else {
      HaltCosts(cfg, us, t, call);
    }
  }

  lemma ResumeSpends(cfg: JobConfig, us: seq<Url>, s: Sys, k: nat, order: seq<Url>)
    requires Inv(cfg, s) && Enabled(cfg, s, Resume(k, order)) && Distinct(us) && Inside(us, s)
    requires forall u :: u in order ==> u in us
    ensures var t := Next(cfg, s, Resume(k, order)); Inside(us, t) && Potential(cfg, us, t) < Potential(cfg, us, s)
  {
    FreedKeeps(cfg, s, k);
    assert Potential(cfg, us, Freed(s, k)) == Potential(cfg, us, s) - 1;
    CallSpends(cfg, us, Freed(s, k), s.halted[k].rest, s.halted[k].links, order);
  }

  lemma StepSpends(cfg: JobConfig, us: seq<Url>, s: Sys, e: Event)
    requires Inv(cfg, s) && Enabled(cfg, s, e) && Progress(s, e)
    requires Distinct(us) && Inside(us, s) && LinksInside(us, e)
    ensures var t := Next(cfg, s, e);
            Inside(us, t) && Potential(cfg, us, t) < Potential(cfg, us, s)
  {
    match e
    case Seed => SeedSpends(cfg, us, s);
    case Complete(rscs, order) => CallSpends(cfg, us, s, rscs, {}, order);
    case Resume(k, order) => ResumeSpends(cfg, us, s, k, order);
    case _ => QuietStepSpends(cfg, us, s, e);
  }

  lemma OneMore(n: nat, k: nat)
    ensures (n + 1) * k == n * k + k
  {
  }

  /** Moving a copy to where it is worth less. */
  lemma MoveSpends(cfg: JobConfig, us: seq<Url>, s: Sys, e: Event)
    requires Enabled(cfg, s, e) && (e.Pop? || e.Lose?)
    ensures Potential(cfg, us, Next(cfg, s, e)) < Potential(cfg, us, s)
  {
    var t, h := Next(cfg, s, e), |s.boxes|;
    if e.Pop? {
      OneMore(|t.core.queue|, 4 + h);
      OneMore(|s.inFlight|, 3 + h);
      assert |t.inFlight| == |s.inFlight| + 1 && |s.core.queue| == |t.core.queue| + 1;
    } else {
      OneMore(|t.inFlight|, 3 + h);
      assert |s.inFlight| == |t.inFlight| + 1;
    }
  }

  lemma QuietStepSpends(cfg: JobConfig, us: seq<Url>, s: Sys, e: Event)
    requires Enabled(cfg, s, e) && Progress(s, e) && Inside(us, s)
    requires !e.Seed? && !e.Complete? && !e.Resume?
    ensures var t := Next(cfg, s, e);
            Inside(us, t) && Potential(cfg, us, t) < Potential(cfg, us, s)
  {
    if e.Pop? || e.Lose? {
      MoveSpends(cfg, us, s, e);
    }
  }

  /** Every event of the run makes progress and reports links inside `us`. */
  ghost predicate Busy(cfg: JobConfig, us: seq<Url>, s: Sys, run: seq<Event>) {
    forall i :: 0 <= i < |run| ==> Progress(After(cfg, s, run[..i]), run[i]) && LinksInside(us, run[i])
  }

  lemma {:induction false} RunSpends(
    cfg: JobConfig, us: seq<Url>, seeds: seq<Url>, handlers: nat, run: seq<Event>)
    requires Distinct(us) && forall u :: u in seeds ==> u in us
    requires Legal(cfg, Init(seeds, handlers), run) && Busy(cfg, us, Init(seeds, handlers), run)
    ensures Inside(us, After(cfg, Init(seeds, handlers), run))
    ensures |run| + Potential(cfg, us, After(cfg, Init(seeds, handlers), run))
         <= Potential(cfg, us, Init(seeds, handlers))
  {
    if run != [] {
      var init := run[..|run| - 1];
      assert forall i :: 0 <= i < |init| ==> init[..i] == run[..i] && init[i] == run[i];
      RunSpends(cfg, us, seeds, handlers, init);
      RunKeeps(cfg, seeds, handlers, init);
      assert run[..|init|] == init;
      var s, e := After(cfg, Init(seeds, handlers), init), run[|run| - 1];
      assert Enabled(cfg, s, e) && Progress(s, e) && LinksInside(us, e);
      StepSpends(cfg, us, s, e);
      assert After(cfg, Init(seeds, handlers), run) == Next(cfg, s, e);
    }
  }

  lemma RunsCostAtMost(cfg: JobConfig, us: seq<Url>, seeds: seq<Url>, handlers: nat, run: seq<Event>)
    requires Distinct(us) && forall u :: u in seeds ==> u in us
    requires Legal(cfg, Init(seeds, handlers), run) && Busy(cfg, us, Init(seeds, handlers), run)
    ensures |run| <= 2 + |seeds| * SeedCost(cfg, handlers) + |us| * (Limit(cfg) + 1) * PushCost(handlers)
  {
    RunSpends(cfg, us, seeds, handlers, run);
    PotentialIsNat(cfg, us, After(cfg, Init(seeds, handlers), run));
    PotentialAtStart(cfg, us, seeds, handlers);
  }

  /** Every run over finitely many URLs ends. */
  lemma RunsAreBounded(cfg: JobConfig, us: seq<Url>, seeds: seq<Url>, handlers: nat, run: seq<Event>)
    requires Distinct(us) && forall u :: u in seeds ==> u in us
    requires Legal(cfg, Init(seeds, handlers), run) && Busy(cfg, us, Init(seeds, handlers), run)
    ensures |run| <= 2 + |seeds| * (1 + (Limit(cfg) + 1) * (5 + handlers)) + |us| * (Limit(cfg) + 1) * (5 + handlers)
  {
    RunsCostAtMost(cfg, us, seeds, handlers, run);
    CostsAre(cfg, handlers);
  }

  lemma CostsAre(cfg: JobConfig, handlers: nat)
    ensures PushCost(handlers) == 5 + handlers && SeedCost(cfg, handlers) == 1 + (Limit(cfg) + 1) * (5 + handlers)
  {
  }

  // ---------------------------------------------------------------- the number of fetches

  /** A multiset over `us` that holds each of its entries at most `most` times. */
  lemma {:induction false} SizeBound(cfg: JobConfig, us: seq<Url>, m: multiset<Entry>, most: nat)
    requires forall e :: e in m ==> e.jobID == cfg.id && e.url in us
    requires forall e :: m[e] <= most
    ensures |m| <= |us| * most
  {
    if us == [] {
      assert m == multiset{};
    } else {
      var e := Entry(cfg.id, us[|us| - 1]);
      var rest := m[e := 0];
      forall x | x in rest
        ensures x.jobID == cfg.id && x.url in us[..|us| - 1]
      {
        assert x in m && x != e;
      }
      SizeBound(cfg, us[..|us| - 1], rest, most);
      assert |m| == |rest| + m[e];
      OneMore(|us| - 1, most);
    }
  }

  lemma SizeBoundAt(cfg: JobConfig, us: seq<Url>, pushes: multiset<Entry>)
    requires forall e :: e in pushes ==> e.jobID == cfg.id && e.url in us
    requires forall e :: pushes[e] <= Limit(cfg) + 1
    ensures |pushes| <= |us| * (Limit(cfg) + 1)
  {
    SizeBound(cfg, us, pushes, Limit(cfg) + 1);
  }

  /** Seeds are read before any result comes back. */
  ghost predicate SeedsFirst(cfg: JobConfig, s: Sys, run: seq<Event>) {
    forall i :: 0 <= i < |run| && run[i].Complete? ==> After(cfg, s, run[..i]).todo == []
  }

  /** With links found only after the seeds are in, a found link is no seed. */
  ghost predicate FoundAreNoSeeds(s: Sys) {
    && (s.todo != [] ==> s.found == [] && s.halted == [])
    && (forall u :: u in s.found ==> u !in s.seeded)
    && (forall u :: u in s.seeded ==> u in s.core.store)
  }

  lemma {:induction false} LinksFindNoSeeds(cfg: JobConfig, s: Sys, order: seq<Url>)
    requires FoundAreNoSeeds(s) && s.todo == []
    ensures FoundAreNoSeeds(OnLinks(cfg, s, order)) && OnLinks(cfg, s, order).todo == []
  {
    if order != [] {
      LinksFindNoSeeds(cfg, s, order[..|order| - 1]);
    }
  }

  lemma {:induction false} DequeuesFindNoSeeds(cfg: JobConfig, s: Sys, rscs: seq<Resource>)
    requires FoundAreNoSeeds(s)
    ensures FoundAreNoSeeds(OnDequeues(cfg, s, rscs))
  {
    if rscs != [] {
      DequeuesFindNoSeeds(cfg, s, rscs[..|rscs| - 1]);
    }
  }

  lemma CallFindsNoSeeds(cfg: JobConfig, s: Sys, rscs: seq<Resource>, links: set<Url>, order: seq<Url>)
    requires FoundAreNoSeeds(s) && s.todo == []
    ensures FoundAreNoSeeds(OnCall(cfg, s, rscs, links, order))
  {
    var n := Taken(cfg, |s.boxes|, s.core, rscs);
    DequeuesFindNoSeeds(cfg, s, rscs[..n]);
    DequeuesKeepSeeds(cfg, s, rscs[..n]);
    LinksFindNoSeeds(cfg, OnDequeues(cfg, s, rscs[..n]), order);
  }

  lemma StepFindsNoSeeds(cfg: JobConfig, s: Sys, e: Event)
    requires FoundAreNoSeeds(s) && Enabled(cfg, s, e)
    requires e.Complete? ==> s.todo == []
    ensures FoundAreNoSeeds(Next(cfg, s, e))
  {
    match e
    case Complete(rscs, order) => CallFindsNoSeeds(cfg, s, rscs, {}, order);
    case Resume(k, order) => CallFindsNoSeeds(cfg, Freed(s, k), s.halted[k].rest, s.halted[k].links, order);
    case _ =>
  }

  lemma {:induction false} SeedsFirstFindsNoSeeds(cfg: JobConfig, seeds: seq<Url>, handlers: nat, run: seq<Event>)
    requires Legal(cfg, Init(seeds, handlers), run) && SeedsFirst(cfg, Init(seeds, handlers), run)
    ensures FoundAreNoSeeds(After(cfg, Init(seeds, handlers), run))
  {
    if run != [] {
      var init := run[..|run| - 1];
      assert forall i :: 0 <= i < |init| ==> init[..i] == run[..i] && init[i] == run[i];
      SeedsFirstFindsNoSeeds(cfg, seeds, handlers, init);
      StepFindsNoSeeds(cfg, After(cfg, Init(seeds, handlers), init), run[|run| - 1]);
    }
  }

  lemma DistinctCountsOnce(us: seq<Url>, u: Url)
    requires Distinct(us)
    ensures multiset(us)[u] <= 1
    decreases |us|
  {
    if us != [] {
      assert us == us[..|us| - 1] + [us[|us| - 1]];
      DistinctCountsOnce(us[..|us| - 1], u);
      assert us[|us| - 1] !in us[..|us| - 1];
    }
  }

  /** With distinct seeds read first, a crawl of finitely many URLs pushes at most
      |URLs| * (MaxAttempts + 1) requests in all. */
  lemma FetchesAreBounded(cfg: JobConfig, us: seq<Url>, seeds: seq<Url>, handlers: nat, run: seq<Event>)
    requires Distinct(us) && Distinct(seeds) && forall u :: u in seeds ==> u in us
    requires Legal(cfg, Init(seeds, handlers), run) && Busy(cfg, us, Init(seeds, handlers), run)
    requires SeedsFirst(cfg, Init(seeds, handlers), run)
    ensures |After(cfg, Init(seeds, handlers), run).pushes| <= |us| * (Limit(cfg) + 1)
  {
    PushesAreInside(cfg, us, seeds, handlers, run);
    EachPushedAtMost(cfg, seeds, handlers, run);
    SizeBoundAt(cfg, us, After(cfg, Init(seeds, handlers), run).pushes);
  }

  lemma PushesAreInside(cfg: JobConfig, us: seq<Url>, seeds: seq<Url>, handlers: nat, run: seq<Event>)
    requires Distinct(us) && forall u :: u in seeds ==> u in us
    requires Legal(cfg, Init(seeds, handlers), run) && Busy(cfg, us, Init(seeds, handlers), run)
    ensures forall e :: e in After(cfg, Init(seeds, handlers), run).pushes ==> e.jobID == cfg.id && e.url in us
  {
    RunSpends(cfg, us, seeds, handlers, run);
    PushedEntriesAreTheJobs(cfg, seeds, handlers, run);
  }

  lemma EachPushedAtMost(cfg: JobConfig, seeds: seq<Url>, handlers: nat, run: seq<Event>)
    requires Distinct(seeds)
    requires Legal(cfg, Init(seeds, handlers), run) && SeedsFirst(cfg, Init(seeds, handlers), run)
    ensures forall e :: After(cfg, Init(seeds, handlers), run).pushes[e] <= Limit(cfg) + 1
  {
    var pushes := After(cfg, Init(seeds, handlers), run).pushes;
    PushedEntriesAreTheJobs(cfg, seeds, handlers, run);
    forall e
      ensures pushes[e] <= Limit(cfg) + 1
    {
      if e in pushes {
        assert e == Entry(cfg.id, e.url);
        SeedsFirstPushes(cfg, seeds, handlers, run, e.url);
      }
    }
  }

  lemma SeedsFirstPushes(cfg: JobConfig, seeds: seq<Url>, handlers: nat, run: seq<Event>, u: Url)
    requires Distinct(seeds)
    requires Legal(cfg, Init(seeds, handlers), run) && SeedsFirst(cfg, Init(seeds, handlers), run)
    ensures After(cfg, Init(seeds, handlers), run).pushes[Entry(cfg.id, u)] <= Limit(cfg) + 1
  {
    var t := After(cfg, Init(seeds, handlers), run);
    RunKeeps(cfg, seeds, handlers, run);
    SeedsFirstFindsNoSeeds(cfg, seeds, handlers, run);
    SeededIsAPrefix(cfg, seeds, handlers, run);
    DistinctCountsOnce(seeds, u);
    assert multiset(t.seeded + t.todo) == multiset(t.seeded) + multiset(t.todo);
    assert multiset(t.found)[u] <= 1;
    assert multiset(t.found)[u] > 0 ==> u in t.found;
    assert multiset(t.seeded)[u] > 0 ==> u in t.seeded;
    assert WithinBudget(cfg, t, u);
    BoundedBy(cfg, t, u, 1);
  }

  /** Every push was of one of the job's stored URLs. */
  ghost predicate PushesKnown(cfg: JobConfig, s: Sys) {
    forall e :: e in s.pushes ==> e.jobID == cfg.id && e.url in s.core.store
  }

  lemma {:induction false} DequeuesKeepPushesKnown(cfg: JobConfig, s: Sys, rscs: seq<Resource>)
    requires DequeueInv(cfg, s) && PushesKnown(cfg, s) && Answers(s, rscs)
    ensures PushesKnown(cfg, OnDequeues(cfg, s, rscs))
  {
    if rscs != [] {
      var init, r := rscs[..|rscs| - 1], rscs[|rscs| - 1];
      assert rscs == init + [r];
      AnswersPrefix(s, init, r);
      DequeuesKeepPushesKnown(cfg, s, init);
      DequeuesKeep(cfg, s, init);
      DequeuesLog(cfg, s, init);
      DequeueKeepsPushesKnown(cfg, OnDequeues(cfg, s, init), r);
    }
  }

  lemma DequeueKeepsPushesKnown(cfg: JobConfig, s: Sys, r: Resource)
    requires Known(cfg, s) && PushesKnown(cfg, s) && EntryOf(r) in s.inFlight
    ensures PushesKnown(cfg, OnDequeue(cfg, s, r))
  {
    forall e | e in OnDequeue(cfg, s, r).pushes
      ensures e.jobID == cfg.id && e.url in OnDequeue(cfg, s, r).core.store
    {
      DequeueCopies(cfg, s, r, e);
    }
  }

  lemma BlankEnqueueKeepsPushesKnown(cfg: JobConfig, s: Sys, u: Url)
    requires PushesKnown(cfg, s)
    ensures PushesKnown(cfg, WithCore(s, Enqueue(s.core, u, NewRecord(cfg.id))))
  {
    var t := WithCore(s, Enqueue(s.core, u, NewRecord(cfg.id)));
    forall e | e in t.pushes
      ensures e.jobID == cfg.id && e.url in t.core.store
    {
      EnqueueCopies(s, u, NewRecord(cfg.id), e);
    }
  }

  lemma {:induction false} LinksKeepPushesKnown(cfg: JobConfig, s: Sys, order: seq<Url>)
    requires PushesKnown(cfg, s)
    ensures PushesKnown(cfg, OnLinks(cfg, s, order))
  {
    if order != [] {
      LinksKeepPushesKnown(cfg, s, order[..|order| - 1]);
      BlankEnqueueKeepsPushesKnown(cfg, OnLinks(cfg, s, order[..|order| - 1]), order[|order| - 1]);
    }
  }

  lemma {:induction false} PushedEntriesAreTheJobs(cfg: JobConfig, seeds: seq<Url>, handlers: nat, run: seq<Event>)
    requires Legal(cfg, Init(seeds, handlers), run)
    ensures PushesKnown(cfg, After(cfg, Init(seeds, handlers), run))
  {
    if run != [] {
      var init := run[..|run| - 1];
      var s, e := After(cfg, Init(seeds, handlers), init), run[|run| - 1];
      PushedEntriesAreTheJobs(cfg, seeds, handlers, init);
      match e
      case Seed => BlankEnqueueKeepsPushesKnown(cfg, s, s.todo[0]);
      case Complete(rscs, order) =>
        RunKeeps(cfg, seeds, handlers, init);
        CallKeepsPushesKnown(cfg, s, rscs, {}, order);
      case Resume(k, order) =>
        RunKeeps(cfg, seeds, handlers, init);
        FreedKeeps(cfg, s, k);
        CallKeepsPushesKnown(cfg, Freed(s, k), s.halted[k].rest, s.halted[k].links, order);
      case _ =>
    }
  }

  lemma CallKeepsPushesKnown(cfg: JobConfig, s: Sys, rscs: seq<Resource>, links: set<Url>, order: seq<Url>)
    requires DequeueInv(cfg, s) && PushesKnown(cfg, s) && MayReport(s, rscs)
    ensures PushesKnown(cfg, OnCall(cfg, s, rscs, links, order))
  {
    var n := Taken(cfg, |s.boxes|, s.core, rscs);
    CallTakes(cfg, s, rscs);
    DequeuesKeepPushesKnown(cfg, s, rscs[..n]);
    LinksKeepPushesKnown(cfg, OnDequeues(cfg, s, rscs[..n]), order);
  }
}
