/** Crawl closure under full interleaving: however the goroutines race, once they have all returned
    the store holds exactly the least set containing the seeds and closed under followed links. */
module InterleavedClosure {
  import opened Wrappers
  import opened CrawlTypes
  import opened JobRules
  import opened CoordinatorSpec
  import opened LinkClosure
  import opened Interleaving

  /** The URLs a goroutine is going to see to: look up, or store. */
  ghost function Pending(cfg: JobConfig, heap: seq<Req>, t: Thread): set<Url> {
    match t
    case Batch(_, links) => links
    case Judging(f, _) => f.links + LinksOf(cfg, [f.r])
    case Debiting(f) => f.links + LinksOf(cfg, [f.r])
    case Checking(f) => f.links + LinksOf(cfg, [f.r])
    case Receiving(f) => f.links + LinksOf(cfg, [f.r])
    case Comparing(f) => f.links + LinksOf(cfg, [f.r])
    case Linking(links) => links
    case Seeding(urls) => set u | u in urls
    case Testing(ref, next) => {At(heap, ref).url} + Pending(cfg, heap, next)
    case Storing(ref, _, next) => {At(heap, ref).url} + Pending(cfg, heap, next)
    case Pushing(_, next) => Pending(cfg, heap, next)
    case Crediting(next) => Pending(cfg, heap, next)
    case Raising(next) => Pending(cfg, heap, next)
    case Measuring(next) => Pending(cfg, heap, next)
    case Sending(next) => Pending(cfg, heap, next)
    case Finalizing(next) => Pending(cfg, heap, next)
    case _ => {}
  }

  /** The job's own resources among `rscs` have URLs the store knows. */
  ghost predicate AllKnown(cfg: JobConfig, store: map<Url, nat>, rscs: seq<Resource>) {
    forall r :: r in rscs && r.jobID == cfg.id ==> r.url in store
  }

  ghost predicate FrameKnown(cfg: JobConfig, store: map<Url, nat>, f: Frame) {
    f.r.jobID == cfg.id && f.r.url in store && AllKnown(cfg, store, f.rest)
  }

  /** References are valid, and results in hand are for stored URLs. */
  ghost predicate Sound(cfg: JobConfig, sh: Shared, t: Thread) {
    match t
    case Batch(todo, _) => AllKnown(cfg, sh.store, todo)
    case Judging(f, ref) => FrameKnown(cfg, sh.store, f) && ref < |sh.heap| && sh.heap[ref].url == f.r.url
    case Debiting(f) => FrameKnown(cfg, sh.store, f)
    case Checking(f) => FrameKnown(cfg, sh.store, f)
    case Receiving(f) => FrameKnown(cfg, sh.store, f)
    case Comparing(f) => FrameKnown(cfg, sh.store, f)
    case Testing(ref, next) => ref < |sh.heap| && Sound(cfg, sh, next)
    case Storing(ref, _, next) => ref < |sh.heap| && Sound(cfg, sh, next)
    case Pushing(ref, next) => ref < |sh.heap| && Sound(cfg, sh, next)
    case Crediting(next) => Sound(cfg, sh, next)
    case Raising(next) => Sound(cfg, sh, next)
    case Measuring(next) => Sound(cfg, sh, next)
    case Sending(next) => Sound(cfg, sh, next)
    case Finalizing(next) => Sound(cfg, sh, next)
    case _ => true
  }

  lemma {:induction false} ExtendsSound(cfg: JobConfig, sh: Shared, sh': Shared, t: Thread)
    requires Extends(sh, sh') && Sound(cfg, sh, t)
    ensures Sound(cfg, sh', t) && Pending(cfg, sh'.heap, t) == Pending(cfg, sh.heap, t)
  {
    match t
    case Testing(_, next) => ExtendsSound(cfg, sh, sh', next);
    case Storing(_, _, next) => ExtendsSound(cfg, sh, sh', next);
    case Pushing(_, next) => ExtendsSound(cfg, sh, sh', next);
    case Crediting(next) => ExtendsSound(cfg, sh, sh', next);
    case Raising(next) => ExtendsSound(cfg, sh, sh', next);
    case Measuring(next) => ExtendsSound(cfg, sh, sh', next);
    case Sending(next) => ExtendsSound(cfg, sh, sh', next);
    case Finalizing(next) => ExtendsSound(cfg, sh, sh', next);
    case _ =>
  }

  /** What one access does to the store and to what the goroutine still has to see to. */
  ghost predicate Hands(cfg: JobConfig, sh: Shared, t: Thread, sh': Shared, t': Thread) {
    && Extends(sh, sh') && Wired(sh') && Sound(cfg, sh', t')
    && sh'.seeds == sh.seeds
    && (sh'.log == sh.log || (t'.Judging? && sh'.log == sh.log + [t'.f.r] && t'.f.r.jobID == cfg.id))
    && (forall u :: u in sh.store || u in Pending(cfg, sh.heap, t) ==>
          u in sh'.store || u in Pending(cfg, sh'.heap, t'))
    && (forall u :: u in sh'.store || u in Pending(cfg, sh'.heap, t') ==>
          || u in sh.store || u in Pending(cfg, sh.heap, t)
          || (sh'.log != sh.log && t'.Judging? && u in LinksOf(cfg, [t'.f.r])))
  }

  lemma TakeUpHands(cfg: JobConfig, sh: Shared, todo: seq<Resource>, links: set<Url>)
    requires todo != [] && Wired(sh) && Sound(cfg, sh, Batch(todo, links))
    ensures var (sh', t') := TakeUp(cfg, sh, todo, links); Hands(cfg, sh, Batch(todo, links), sh', t')
  {
    assert forall r :: r in todo[1..] ==> r in todo;
  }

  /** Writing a request's record extends the shared state and keeps it wired. */
  lemma WithExtends(sh: Shared, ref: nat, rec: Record)
    requires Wired(sh)
    ensures var sh' := sh.(heap := With(sh.heap, ref, rec)); Extends(sh, sh') && Wired(sh')
  {
  }

  lemma SettleHands(cfg: JobConfig, sh: Shared, f: Frame, ref: nat)
    requires Wired(sh) && Sound(cfg, sh, Judging(f, ref))
    ensures var (sh', t') := Settle(cfg, sh, f, ref); Hands(cfg, sh, Judging(f, ref), sh', t')
  {
    var q := At(sh.heap, ref);
    var rec := q.rec.(prevStatus := f.r.status, attempts := q.rec.attempts + 1);
    if OkStatus(f.r.status) {
      DoneHands(cfg, sh, f, ref, rec.(status := Done));
    } else if rec.attempts <= cfg.maxAttempts {
      RetryHands(cfg, sh, f, ref, rec);
    } else {
      GiveUpHands(cfg, sh, f, ref, rec.(status := Failed));
    }
  }

  lemma DoneHands(cfg: JobConfig, sh: Shared, f: Frame, ref: nat, rec: Record)
    requires Wired(sh) && Sound(cfg, sh, Judging(f, ref))
    ensures var sh' := sh.(heap := With(sh.heap, ref, rec), finished := sh.finished + 1);
            Hands(cfg, sh, Judging(f, ref), sh', Debiting(f))
  {
    WithExtends(sh, ref, rec);
  }

  lemma RetryHands(cfg: JobConfig, sh: Shared, f: Frame, ref: nat, rec: Record)
    requires Wired(sh) && Sound(cfg, sh, Judging(f, ref))
    ensures Hands(cfg, sh, Judging(f, ref), sh.(heap := With(sh.heap, ref, rec)), Testing(ref, Debiting(f)))
  {
    WithExtends(sh, ref, rec);
  }

  lemma GiveUpHands(cfg: JobConfig, sh: Shared, f: Frame, ref: nat, rec: Record)
    requires Wired(sh) && Sound(cfg, sh, Judging(f, ref))
    ensures var sh' := sh.(heap := With(sh.heap, ref, rec), store := sh.store[f.r.url := ref]);
            Hands(cfg, sh, Judging(f, ref), sh', Debiting(f))
  {
    WithExtends(sh, ref, rec);
  }

  lemma StoredExtends(sh: Shared, ref: nat, push: bool, next: Thread)
    requires Wired(sh) && ref < |sh.heap|
    ensures var sh' := Stored(sh, ref, push, next).0;
            && Extends(sh, sh') && Wired(sh')
            && forall u :: u in sh'.store <==> u in sh.store || u == sh.heap[ref].url
  {
    WithExtends(sh, ref, sh.heap[ref].rec.(status := if push then Queued else Failed));
  }

  lemma StoredHands(cfg: JobConfig, sh: Shared, ref: nat, push: bool, next: Thread)
    requires Wired(sh) && Sound(cfg, sh, Storing(ref, push, next))
    ensures var (sh', t') := Stored(sh, ref, push, next); Hands(cfg, sh, Storing(ref, push, next), sh', t')
  {
    var (sh', t') := Stored(sh, ref, push, next);
    StoredExtends(sh, ref, push, next);
    ExtendsSound(cfg, sh, sh', next);
    assert Pending(cfg, sh'.heap, t') == Pending(cfg, sh.heap, next);
  }

  lemma FreshHands(cfg: JobConfig, sh: Shared, t: Thread, url: Url, next: Thread)
    requires Wired(sh) && Sound(cfg, sh, next)
    requires Pending(cfg, sh.heap, t) == {url} + Pending(cfg, sh.heap, next)
    ensures var (sh', t') := Fresh(cfg, sh, url, next); Hands(cfg, sh, t, sh', t')
  {
    var (sh', t') := Fresh(cfg, sh, url, next);
    assert Extends(sh, sh');
    ExtendsSound(cfg, sh, sh', next);
  }

  lemma MoveHands(cfg: JobConfig, sh: Shared, t: Thread, link: Url)
    requires Wired(sh) && Sound(cfg, sh, t) && Shaped(t) && Unblocked(sh, t, link)
    ensures var (sh', t') := Move(cfg, sh, t, link); Hands(cfg, sh, t, sh', t')
  {
    match t
    case Batch(todo, links) =>
      if todo != [] {
        TakeUpHands(cfg, sh, todo, links);
      }
    case Judging(f, ref) => SettleHands(cfg, sh, f, ref);
    case Storing(ref, push, next) => StoredHands(cfg, sh, ref, push, next);
    case Linking(links) =>
      if links != {} && link !in sh.store {
        FreshHands(cfg, sh, t, link, Linking(links - {link}));
      }
    case Seeding(urls) =>
      if urls != [] {
        assert urls == [urls[0]] + urls[1..];
        FreshHands(cfg, sh, t, urls[0], Seeding(urls[1..]));
      }
    case _ => PlainMoveHands(cfg, sh, t, link);
  }

  /** Accesses that touch neither the store nor the heap. */
  lemma PlainMoveHands(cfg: JobConfig, sh: Shared, t: Thread, link: Url)
    requires Wired(sh) && Sound(cfg, sh, t) && Shaped(t)
    requires !t.Batch? && !t.Judging? && !t.Storing? && !t.Linking? && !t.Seeding?
    ensures var (sh', t') := Move(cfg, sh, t, link); Hands(cfg, sh, t, sh', t')
  {
    var (sh', t') := Move(cfg, sh, t, link);
    assert sh'.heap == sh.heap && sh'.store == sh.store && sh'.log == sh.log && sh'.seeds == sh.seeds;
    ExtendsSound(cfg, sh, sh', t);
    PlainMovePends(cfg, sh, t, link);
  }

  lemma PlainMovePends(cfg: JobConfig, sh: Shared, t: Thread, link: Url)
    requires Sound(cfg, sh, t) && Shaped(t)
    requires !t.Batch? && !t.Judging? && !t.Storing? && !t.Linking? && !t.Seeding?
    ensures var t' := Move(cfg, sh, t, link).1;
            Pending(cfg, sh.heap, t') == Pending(cfg, sh.heap, t) && Sound(cfg, sh, t')
  {
  }

  ghost predicate Required(cfg: JobConfig, sh: Shared, u: Url) {
    u in sh.seeds || exists r :: r in sh.log && Follows(cfg, r, u)
  }

  ghost predicate InHand(cfg: JobConfig, s: State, u: Url) {
    exists i :: 0 <= i < |s.threads| && u in Pending(cfg, s.sh.heap, s.threads[i])
  }

  ghost predicate AllSound(cfg: JobConfig, s: State) {
    && Wired(s.sh)
    && forall i :: 0 <= i < |s.threads| ==> Sound(cfg, s.sh, s.threads[i]) && Shaped(s.threads[i])
  }

  /** Seeds and followed links are stored, or some goroutine will see to them. */
  ghost predicate Covers(cfg: JobConfig, s: State) {
    forall u :: Required(cfg, s.sh, u) ==> u in s.sh.store || InHand(cfg, s, u)
  }

  /** Nothing is stored or in hand that a closed set could do without. */
  ghost predicate Grounded(cfg: JobConfig, s: State) {
    forall found, u :: Closed(cfg, s.sh.seeds, s.sh.log, found) && (u in s.sh.store || InHand(cfg, s, u)) ==> u in found
  }

  ghost predicate Spans(cfg: JobConfig, s: State) {
    AllSound(cfg, s) && Covers(cfg, s) && Grounded(cfg, s)
  }

  /** Workers report only URLs the store knows. */
  ghost predicate KnownReport(cfg: JobConfig, s: State, a: Action) {
    a.Report? ==> AllKnown(cfg, s.sh.store, a.rscs)
  }

  lemma ClosedUnderLess(
    cfg: JobConfig, seeds: seq<Url>, log: seq<Resource>, seeds': seq<Url>, log': seq<Resource>, found: iset<Url>)
    requires Closed(cfg, seeds', log', found)
    requires (forall u :: u in seeds ==> u in seeds') && (forall r :: r in log ==> r in log')
    ensures Closed(cfg, seeds, log, found)
  {
  }

  lemma RunKeepsSound(cfg: JobConfig, s: State, i: nat, link: Url)
    requires AllSound(cfg, s) && Enabled(s, Run(i, link))
    ensures AllSound(cfg, Next(cfg, s, Run(i, link)))
    ensures var s' := Next(cfg, s, Run(i, link));
            && Hands(cfg, s.sh, s.threads[i], s'.sh, s'.threads[i])
            && forall k :: 0 <= k < |s.threads| && k != i ==>
                 s'.threads[k] == s.threads[k]
                 && Pending(cfg, s'.sh.heap, s'.threads[k]) == Pending(cfg, s.sh.heap, s.threads[k])
  {
    var s' := Next(cfg, s, Run(i, link));
    MoveHands(cfg, s.sh, s.threads[i], link);
    MoveShaped(cfg, s.sh, s.threads[i], link);
    forall k | 0 <= k < |s.threads| && k != i
      ensures Sound(cfg, s'.sh, s'.threads[k])
      ensures Pending(cfg, s'.sh.heap, s'.threads[k]) == Pending(cfg, s.sh.heap, s.threads[k])
    {
      ExtendsSound(cfg, s.sh, s'.sh, s.threads[k]);
    }
  }

  lemma RunCovers(cfg: JobConfig, s: State, i: nat, link: Url)
    requires Spans(cfg, s) && Enabled(s, Run(i, link))
    ensures Covers(cfg, Next(cfg, s, Run(i, link)))
  {
    var s' := Next(cfg, s, Run(i, link));
    RunKeepsSound(cfg, s, i, link);
    forall u | Required(cfg, s'.sh, u)
      ensures u in s'.sh.store || InHand(cfg, s', u)
    {
      if Required(cfg, s.sh, u) {
        if u !in s.sh.store {
          var k :| 0 <= k < |s.threads| && u in Pending(cfg, s.sh.heap, s.threads[k]);
          if k != i {
            assert u in Pending(cfg, s'.sh.heap, s'.threads[k]);
          } else if u !in s'.sh.store {
            assert u in Pending(cfg, s'.sh.heap, s'.threads[i]);
          }
        }
      } else {
        NewlyRequired(cfg, s, s', i, u);
      }
    }
  }

  /** A link of the result just taken up is in the hands of the goroutine that took it up. */
  lemma NewlyRequired(cfg: JobConfig, s: State, s': State, i: nat, u: Url)
    requires i < |s.threads| == |s'.threads| && Hands(cfg, s.sh, s.threads[i], s'.sh, s'.threads[i])
    requires Required(cfg, s'.sh, u) && !Required(cfg, s.sh, u)
    ensures InHand(cfg, s', u)
  {
    var r :| r in s'.sh.log && Follows(cfg, r, u);
    assert r !in s.sh.log;
    var f := s'.threads[i].f;
    assert r == f.r && r in [f.r];
    assert u in Pending(cfg, s'.sh.heap, s'.threads[i]);
  }

  lemma RunGrounded(cfg: JobConfig, s: State, i: nat, link: Url)
    requires Spans(cfg, s) && Enabled(s, Run(i, link))
    ensures Grounded(cfg, Next(cfg, s, Run(i, link)))
  {
    var s' := Next(cfg, s, Run(i, link));
    RunKeepsSound(cfg, s, i, link);
    forall found, u | Closed(cfg, s'.sh.seeds, s'.sh.log, found) && (u in s'.sh.store || InHand(cfg, s', u))
      ensures u in found
    {
      ClosedUnderLess(cfg, s.sh.seeds, s.sh.log, s'.sh.seeds, s'.sh.log, found);
      if !(u in s.sh.store || InHand(cfg, s, u)) {
        OriginOfNew(cfg, s, s', i, u);
        var r := s'.threads[i].f.r;
        assert r in s'.sh.log && r.url in s'.sh.store && r.url in s.sh.store;
        assert Follows(cfg, r, u);
      }
    }
  }

  /** A URL that is new to the state is a link of the result just taken up, whose page was stored. */
  lemma OriginOfNew(cfg: JobConfig, s: State, s': State, i: nat, u: Url)
    requires AllSound(cfg, s) && i < |s.threads| == |s'.threads|
    requires Hands(cfg, s.sh, s.threads[i], s'.sh, s'.threads[i])
    requires forall k :: 0 <= k < |s.threads| && k != i ==>
               Pending(cfg, s'.sh.heap, s'.threads[k]) == Pending(cfg, s.sh.heap, s.threads[k])
    requires u in s'.sh.store || InHand(cfg, s', u)
    requires u !in s.sh.store && !InHand(cfg, s, u)
    ensures s'.sh.log != s.sh.log && s'.threads[i].Judging? && u in LinksOf(cfg, [s'.threads[i].f.r])
  {
    assert u !in Pending(cfg, s.sh.heap, s.threads[i]);
    if u !in s'.sh.store {
      var k :| 0 <= k < |s'.threads| && u in Pending(cfg, s'.sh.heap, s'.threads[k]);
      assert k == i;
    }
  }

  /** A state that differs only in goroutines that hold the same URLs, or in one new goroutine. */
  lemma SameHandsSpan(cfg: JobConfig, s: State, s': State)
    requires Spans(cfg, s) && AllSound(cfg, s')
    requires s'.sh.store == s.sh.store && s'.sh.log == s.sh.log
    requires forall u :: u in s'.sh.seeds ==> u in s.sh.seeds || InHand(cfg, s', u)
    requires forall u :: u in s.sh.seeds ==> u in s'.sh.seeds
    requires forall u :: InHand(cfg, s, u) ==> InHand(cfg, s', u)
    requires forall u :: InHand(cfg, s', u) ==> InHand(cfg, s, u) || u in s'.sh.seeds
    ensures Spans(cfg, s')
  {
    forall u | Required(cfg, s'.sh, u)
      ensures u in s'.sh.store || InHand(cfg, s', u)
    {
      assert Required(cfg, s.sh, u) || InHand(cfg, s', u);
    }
    forall found, u | Closed(cfg, s'.sh.seeds, s'.sh.log, found) && (u in s'.sh.store || InHand(cfg, s', u))
      ensures u in found
    {
      ClosedUnderLess(cfg, s.sh.seeds, s.sh.log, s'.sh.seeds, s'.sh.log, found);
    }
  }

  lemma MeetSpans(cfg: JobConfig, s: State, i: nat, j: nat)
    requires Spans(cfg, s) && Enabled(s, Meet(i, j))
    ensures Spans(cfg, Next(cfg, s, Meet(i, j)))
  {
    var s' := Next(cfg, s, Meet(i, j));
    assert forall k :: 0 <= k < |s.threads| ==>
      Pending(cfg, s'.sh.heap, s'.threads[k]) == Pending(cfg, s.sh.heap, s.threads[k]);
    SameHandsSpan(cfg, s, s');
  }

  /** A new goroutine, holding nothing but seeds. */
  lemma SpawnSpans(cfg: JobConfig, s: State, s': State, t: Thread, urls: seq<Url>)
    requires Spans(cfg, s) && s' == State(s.sh.(seeds := s.sh.seeds + urls), s.threads + [t])
    requires Sound(cfg, s'.sh, t) && Shaped(t) && Pending(cfg, s'.sh.heap, t) == set u | u in urls
    ensures Spans(cfg, s')
  {
    assert Extends(s.sh, s'.sh);
    forall k | 0 <= k < |s.threads|
      ensures Sound(cfg, s'.sh, s'.threads[k])
      ensures Pending(cfg, s'.sh.heap, s'.threads[k]) == Pending(cfg, s.sh.heap, s.threads[k])
    {
      ExtendsSound(cfg, s.sh, s'.sh, s.threads[k]);
    }
    assert s'.threads[|s.threads|] == t;
    forall u | InHand(cfg, s, u)
      ensures InHand(cfg, s', u)
    {
      var k :| 0 <= k < |s.threads| && u in Pending(cfg, s.sh.heap, s.threads[k]);
      assert u in Pending(cfg, s'.sh.heap, s'.threads[k]);
    }
    forall u | u in urls
      ensures InHand(cfg, s', u)
    {
      assert u in Pending(cfg, s'.sh.heap, s'.threads[|s.threads|]);
    }
    SameHandsSpan(cfg, s, s');
  }

  lemma QuietSpans(cfg: JobConfig, s: State, sh': Shared)
    requires Spans(cfg, s)
    requires sh'.store == s.sh.store && sh'.heap == s.sh.heap && sh'.log == s.sh.log && sh'.seeds == s.sh.seeds
    ensures Spans(cfg, s.(sh := sh'))
  {
    var s' := s.(sh := sh');
    forall k | 0 <= k < |s.threads|
      ensures Sound(cfg, s'.sh, s'.threads[k])
    {
      ExtendsSound(cfg, s.sh, s'.sh, s.threads[k]);
    }
    assert forall u :: InHand(cfg, s, u) <==> InHand(cfg, s', u);
    SameHandsSpan(cfg, s, s');
  }

  lemma StepSpans(cfg: JobConfig, s: State, a: Action)
    requires Spans(cfg, s) && Enabled(s, a) && KnownReport(cfg, s, a)
    ensures Spans(cfg, Next(cfg, s, a))
  {
    var s' := Next(cfg, s, a);
    match a
    case Run(i, link) =>
      RunKeepsSound(cfg, s, i, link);
      RunCovers(cfg, s, i, link);
      RunGrounded(cfg, s, i, link);
    case Meet(i, j) => MeetSpans(cfg, s, i, j);
    case Apply => QuietSpans(cfg, s, s'.sh);
    case Pop => QuietSpans(cfg, s, s'.sh);
    case Report(rscs) => SpawnSpans(cfg, s, s', Batch(rscs, {}), []);
    case Seed(urls) => SpawnSpans(cfg, s, s', Seeding(urls), urls);
    case Tick => SpawnSpans(cfg, s, s', Scanning, []);
    case CallShutdown => SpawnSpans(cfg, s, s', Raising(Idle), []);
  }

  lemma {:induction false} RunSpans(cfg: JobConfig, trace: seq<State>, acts: seq<Action>, k: nat)
    requires IsRun(cfg, trace, acts) && trace[0] == Init() && k < |trace|
    requires forall j :: 0 <= j < |acts| ==> KnownReport(cfg, trace[j], acts[j])
    ensures Spans(cfg, trace[k])
  {
    if k > 0 {
      RunSpans(cfg, trace, acts, k - 1);
      StepSpans(cfg, trace[k - 1], acts[k - 1]);
    }
  }

  /** Under full interleaving, with or without a shutdown and at every moment: the stored URLs are the least set
      that contains the seeds and is closed under the followed links of the results taken up, if and only if every
      URL that some goroutine is still going to see to is stored. */
  lemma StoreIsLeastClosedIffHandsAreEmpty(cfg: JobConfig, trace: seq<State>, acts: seq<Action>, k: nat)
    requires IsRun(cfg, trace, acts) && trace[0] == Init() && k < |trace|
    requires forall j :: 0 <= j < |acts| ==> KnownReport(cfg, trace[j], acts[j])
    ensures LeastClosed(cfg, trace[k].sh.seeds, trace[k].sh.log, trace[k].sh.store.Keys)
       <==> forall u :: InHand(cfg, trace[k], u) ==> u in trace[k].sh.store
  {
    RunSpans(cfg, trace, acts, k);
    SpansClosedIff(cfg, trace[k]);
  }

  lemma SpansClosedIff(cfg: JobConfig, s: State)
    requires Spans(cfg, s)
    ensures LeastClosed(cfg, s.sh.seeds, s.sh.log, s.sh.store.Keys)
       <==> forall u :: InHand(cfg, s, u) ==> u in s.sh.store
  {
    var keys := iset u | u in s.sh.store.Keys;
    if forall u :: InHand(cfg, s, u) ==> u in s.sh.store {
      forall u | u in s.sh.seeds
        ensures u in keys
      {
        assert Required(cfg, s.sh, u);
      }
      forall r, l | r in s.sh.log && r.url in keys && Follows(cfg, r, l)
        ensures l in keys
      {
        assert Required(cfg, s.sh, l);
      }
    }
    if Closed(cfg, s.sh.seeds, s.sh.log, keys) {
      assert forall u :: InHand(cfg, s, u) ==> u in keys;
    }
  }

  /** So it is, whenever all goroutines have returned. */
  lemma StoreIsLeastClosedUnderInterleaving(cfg: JobConfig, trace: seq<State>, acts: seq<Action>, k: nat)
    requires IsRun(cfg, trace, acts) && trace[0] == Init() && k < |trace|
    requires forall j :: 0 <= j < |acts| ==> KnownReport(cfg, trace[j], acts[j])
    requires forall i :: 0 <= i < |trace[k].threads| ==> trace[k].threads[i].Idle?
    ensures LeastClosed(cfg, trace[k].sh.seeds, trace[k].sh.log, trace[k].sh.store.Keys)
  {
    StoreIsLeastClosedIffHandsAreEmpty(cfg, trace, acts, k);
    assert forall u :: !InHand(cfg, trace[k], u);
  }
}
