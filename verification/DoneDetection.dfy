/** When the done scan is right under full interleaving. It decides by the queue and the counter; what it should
    decide by is whether the goroutines and workers under way can still take up a result or push a request. */
module DoneDetection {
  import opened Wrappers
  import opened CrawlTypes
  import opened JobRules
  import opened CoordinatorSpec
  import opened Interleaving
  import opened ShutdownProtocol
  import opened WorkerContract

  // ---------------------------------------------------------------- what the scan should find out

  /** Workers and goroutines can get from `w` to `w'`, without new seeds. */
  ghost predicate Leads(cfg: JobConfig, w: World, w': World) {
    exists ws: seq<World>, acts: seq<Action> ::
      && IsHistory(cfg, ws, acts) && ws[0] == w && ws[|ws| - 1] == w'
      && forall k :: 0 <= k < |acts| ==> !acts[k].Seed?
  }

  /** Nothing is left to be done: without new seeds, no result is ever looked at and no request pushed again. */
  ghost predicate IsOver(cfg: JobConfig, w: World) {
    forall w' :: Leads(cfg, w, w') ==> w'.s.sh.pushes == w.s.sh.pushes && w'.s.sh.log == w.s.sh.log
  }

  lemma LeadsToItself(cfg: JobConfig, w: World)
    ensures Leads(cfg, w, w)
  {
    var ws: seq<World>, acts: seq<Action> := [w], [];
    assert IsHistory(cfg, ws, acts);
  }

  lemma LeadsOn(cfg: JobConfig, w0: World, w: World, a: Action)
    requires Leads(cfg, w0, w) && Fair(cfg, w, a) && !a.Seed?
    ensures Leads(cfg, w0, Step(cfg, w, a))
  {
    var ws: seq<World>, acts: seq<Action> :|
      && IsHistory(cfg, ws, acts) && ws[0] == w0 && ws[|ws| - 1] == w
      && forall k :: 0 <= k < |acts| ==> !acts[k].Seed?;
    HistoryAppend(cfg, ws, acts, a);
    var ws', acts' := ws + [Step(cfg, w, a)], acts + [a];
    assert ws'[0] == w0 && ws'[|ws'| - 1] == Step(cfg, w, a);
  }

  // ---------------------------------------------------------------- what decides it

  /** The links of the result the goroutine is dealing with, or collected before, include one not stored. */
  ghost predicate LinksAhead(cfg: JobConfig, sh: Shared, f: Frame) {
    exists u :: u in f.links + LinksOf(cfg, [f.r]) && u !in sh.store
  }

  /** The result the goroutine holds is going to be followed by another attempt. */
  predicate Retries(cfg: JobConfig, sh: Shared, f: Frame, ref: nat) {
    !OkStatus(f.r.status) && At(sh.heap, ref).rec.attempts + 1 <= cfg.maxAttempts
  }

  /** The goroutine, which has no more results to look at, has a push ahead of it: inside `enqueue`, with a failed
      result to try again, or with a seed or an unknown link to enqueue, and no shutdown of its own in between. */
  ghost predicate HasPush(cfg: JobConfig, sh: Shared, t: Thread) {
    match t
    case Pushing(_, _) => true
    case Storing(_, push, next) => push || HasPush(cfg, sh, next)
    case Testing(_, next) => !sh.stopping || HasPush(cfg, sh, next)
    case Crediting(next) => HasPush(cfg, sh, next)
    case Linking(links) => !sh.stopping && exists u :: u in links && u !in sh.store
    case Batch(_, links) => !sh.stopping && exists u :: u in links && u !in sh.store
    case Seeding(urls) => !sh.stopping && urls != []
    case Judging(f, ref) =>
      !sh.stopping && (Retries(cfg, sh, f, ref) || (f.r.url != cfg.stopUrl && LinksAhead(cfg, sh, f)))
    case Debiting(f) => !sh.stopping && f.r.url != cfg.stopUrl && LinksAhead(cfg, sh, f)
    case Checking(f) => !sh.stopping && f.r.url != cfg.stopUrl && LinksAhead(cfg, sh, f)
    case Comparing(f) => !sh.stopping && f.r.url != cfg.stopUrl && LinksAhead(cfg, sh, f)
    case _ => false
  }

  // ---------------------------------------------------------------- nothing left: it stays that way

  /** Nothing queued, nothing with a worker, no result in hand and no push ahead. */
  ghost predicate Still(cfg: JobConfig, w: World) {
    && Sane(cfg, w) && w.s.sh.queue == [] && w.out == multiset{}
    && forall i :: 0 <= i < |w.s.threads| ==>
         TodoIn(w.s.threads[i]) == [] && !HasPush(cfg, w.s.sh, w.s.threads[i])
  }

  /** What can happen to the shared state from a goroutine's point of view only takes pushes away. */
  ghost predicate Later(sh: Shared, sh': Shared) {
    Extends(sh, sh') && Ages(sh, sh') && (sh.stopping ==> sh'.stopping)
  }

  lemma {:induction false} LaterHasNoPush(cfg: JobConfig, sh: Shared, sh': Shared, t: Thread)
    requires Later(sh, sh') && Shaped(t) && HoldsBelow(t, |sh.heap|) && !HasPush(cfg, sh, t)
    ensures !HasPush(cfg, sh', t)
  {
    assert forall u :: u in sh.store ==> u in sh.store.Keys;
    match t
    case Storing(_, _, next) => LaterHasNoPush(cfg, sh, sh', next);
    case Testing(_, next) => LaterHasNoPush(cfg, sh, sh', next);
    case Crediting(next) => LaterHasNoPush(cfg, sh, sh', next);
    case Judging(f, ref) =>
      if LinksAhead(cfg, sh', f) {
        var u :| u in f.links + LinksOf(cfg, [f.r]) && u !in sh'.store;
        assert u !in sh.store;
      }
    case _ =>
  }

  lemma SettleHasNoPush(cfg: JobConfig, sh: Shared, f: Frame, ref: nat)
    requires Linked(sh) && ref < |sh.heap| && !HasPush(cfg, sh, Judging(f, ref))
    ensures var (sh', t') := Settle(cfg, sh, f, ref); !HasPush(cfg, sh', t')
  {
    SettleAllocates(cfg, sh, f, ref);
    var (sh', t') := Settle(cfg, sh, f, ref);
    if t'.Debiting? {
      assert !HasPush(cfg, sh, Debiting(f));
      LaterHasNoPush(cfg, sh, sh', Debiting(f));
    }
  }

  lemma StoredHasNoPush(cfg: JobConfig, sh: Shared, ref: nat, next: Thread)
    requires Linked(sh) && ref < |sh.heap| && Plain(next) && !HasPush(cfg, sh, Storing(ref, false, next))
    ensures var (sh', t') := Stored(sh, ref, false, next); t' == next && !HasPush(cfg, sh', next)
  {
    PutAllocates(sh, ref, sh.heap[ref].rec.(status := Failed));
    LaterHasNoPush(cfg, sh, Stored(sh, ref, false, next).0, next);
  }

  /** Going on after `dequeue`, or on to the links. */
  lemma ResumeHasNoPush(cfg: JobConfig, sh: Shared, t: Thread, link: Url)
    requires (t.Comparing? || t.Batch? || t.Finalizing?) && Shaped(t) && TodoIn(t) == [] && !HasPush(cfg, sh, t)
    requires PastTheFlag(t) ==> sh.stopping
    ensures var (sh', t') := Move(cfg, sh, t, link); !HasPush(cfg, sh', t')
  {
  }

  /** Accesses of the shutdown, the done scan and the sends. */
  lemma SignalHasNoPush(cfg: JobConfig, sh: Shared, t: Thread, link: Url)
    requires Shaped(t) && !HasPush(cfg, sh, t) && (PastTheFlag(t) ==> sh.stopping)
    requires !t.Judging? && !t.Storing? && !t.Comparing? && !t.Batch? && !t.Finalizing? && !t.Crediting?
    requires Unblocked(sh, t, link)
    ensures var (sh', t') := Move(cfg, sh, t, link); !HasPush(cfg, sh', t')
  {
  }

  lemma MoveHasNoPush(cfg: JobConfig, sh: Shared, t: Thread, link: Url)
    requires Linked(sh) && Shaped(t) && HoldsBelow(t, |sh.heap|) && Unblocked(sh, t, link)
    requires TodoIn(t) == [] && !HasPush(cfg, sh, t) && (PastTheFlag(t) ==> sh.stopping)
    ensures var (sh', t') := Move(cfg, sh, t, link);
            && !HasPush(cfg, sh', t') && TodoIn(t') == []
            && sh'.pushes == sh.pushes && sh'.log == sh.log && sh'.queue == sh.queue && Later(sh, sh')
  {
    MoveAllocates(cfg, sh, t, link);
    QuietMoveTallies(cfg, sh, t, link);
    match t
    case Judging(f, ref) => SettleHasNoPush(cfg, sh, f, ref);
    case Storing(ref, push, next) => StoredHasNoPush(cfg, sh, ref, next);
    case Comparing(_) => ResumeHasNoPush(cfg, sh, t, link);
    case Batch(_, _) => ResumeHasNoPush(cfg, sh, t, link);
    case Finalizing(_) => ResumeHasNoPush(cfg, sh, t, link);
    case Crediting(next) => LaterHasNoPush(cfg, sh, sh.(changes := sh.changes + [1]), next);
    case _ => SignalHasNoPush(cfg, sh, t, link);
  }

  lemma RunStaysStill(cfg: JobConfig, w: World, i: nat, link: Url)
    requires Still(cfg, w) && Fair(cfg, w, Run(i, link))
    ensures var w' := Step(cfg, w, Run(i, link));
            Still(cfg, w') && w'.s.sh.pushes == w.s.sh.pushes && w'.s.sh.log == w.s.sh.log
  {
    var s, s' := w.s, Step(cfg, w, Run(i, link)).s;
    StepSane(cfg, w, Run(i, link));
    MoveHasNoPush(cfg, s.sh, s.threads[i], link);
    forall k | 0 <= k < |s'.threads|
      ensures TodoIn(s'.threads[k]) == [] && !HasPush(cfg, s'.sh, s'.threads[k])
    {
      if k != i {
        assert s'.threads[k] == s.threads[k] && HoldsBelow(s.threads[k], |s.sh.heap|) && Shaped(s.threads[k]);
        LaterHasNoPush(cfg, s.sh, s'.sh, s.threads[k]);
      }
    }
  }

  /** Steps that change nothing a push depends on. */
  lemma QuietStaysStill(cfg: JobConfig, w: World, a: Action)
    requires Still(cfg, w) && Fair(cfg, w, a) && !a.Run? && !a.Seed?
    ensures var w' := Step(cfg, w, a);
            Still(cfg, w') && w'.s.sh.pushes == w.s.sh.pushes && w'.s.sh.log == w.s.sh.log
  {
    var s, w' := w.s, Step(cfg, w, a);
    StepSane(cfg, w, a);
    if a.Report? {
      assert |multiset(UrlsOf(a.rscs))| == |a.rscs|;
      assert a.rscs == [];
    }
    assert Later(s.sh, w'.s.sh);
    forall k | 0 <= k < |w'.s.threads|
      ensures TodoIn(w'.s.threads[k]) == [] && !HasPush(cfg, w'.s.sh, w'.s.threads[k])
    {
      if k < |s.threads| {
        assert TodoIn(s.threads[k]) == [] && Shaped(s.threads[k]) && HoldsBelow(s.threads[k], |s.sh.heap|);
        LaterHasNoPush(cfg, s.sh, w'.s.sh, s.threads[k]);
      }
    }
  }

  lemma {:induction false} StaysStill(cfg: JobConfig, ws: seq<World>, acts: seq<Action>, k: nat)
    requires IsHistory(cfg, ws, acts) && k < |ws| && Still(cfg, ws[0])
    requires forall j :: 0 <= j < |acts| ==> !acts[j].Seed?
    ensures Still(cfg, ws[k])
    ensures ws[k].s.sh.pushes == ws[0].s.sh.pushes && ws[k].s.sh.log == ws[0].s.sh.log
  {
    if k > 0 {
      StaysStill(cfg, ws, acts, k - 1);
      if acts[k - 1].Run? {
        RunStaysStill(cfg, ws[k - 1], acts[k - 1].i, acts[k - 1].link);
      } else {
        QuietStaysStill(cfg, ws[k - 1], acts[k - 1]);
      }
    }
  }

  lemma StillIsOver(cfg: JobConfig, w: World)
    requires Still(cfg, w)
    ensures IsOver(cfg, w)
  {
    forall w' | Leads(cfg, w, w')
      ensures w'.s.sh.pushes == w.s.sh.pushes && w'.s.sh.log == w.s.sh.log
    {
      var ws: seq<World>, acts: seq<Action> :|
        && IsHistory(cfg, ws, acts) && ws[0] == w && ws[|ws| - 1] == w'
        && forall k :: 0 <= k < |acts| ==> !acts[k].Seed?;
      StaysStill(cfg, ws, acts, |ws| - 1);
    }
  }

  // ---------------------------------------------------------------- something left: it can be got to

  /** `w0` leads to `w`, and nothing has been pushed or looked at on the way. */
  ghost predicate Idles(cfg: JobConfig, w0: World, w: World) {
    Leads(cfg, w0, w) && w.s.sh.pushes == w0.s.sh.pushes && w.s.sh.log == w0.s.sh.log
  }

  lemma PushesNow(cfg: JobConfig, w0: World, w: World, i: nat)
    requires Idles(cfg, w0, w) && i < |w.s.threads| && w.s.threads[i].Pushing?
    ensures !IsOver(cfg, w0)
  {
    LeadsOn(cfg, w0, w, Run(i, ""));
    assert |Step(cfg, w, Run(i, "")).s.sh.pushes| == |w.s.sh.pushes| + 1;
  }

  lemma StoresThenPushes(cfg: JobConfig, w0: World, w: World, i: nat)
    requires Idles(cfg, w0, w) && i < |w.s.threads| && w.s.threads[i].Storing? && w.s.threads[i].push
    ensures !IsOver(cfg, w0)
  {
    LeadsOn(cfg, w0, w, Run(i, ""));
    PushesNow(cfg, w0, Step(cfg, w, Run(i, "")), i);
  }

  lemma TestsThenPushes(cfg: JobConfig, w0: World, w: World, i: nat)
    requires Idles(cfg, w0, w) && i < |w.s.threads| && w.s.threads[i].Testing? && !w.s.sh.stopping
    ensures !IsOver(cfg, w0)
  {
    LeadsOn(cfg, w0, w, Run(i, ""));
    StoresThenPushes(cfg, w0, Step(cfg, w, Run(i, "")), i);
  }

  lemma MissesThenPushes(cfg: JobConfig, w0: World, w: World, i: nat, u: Url)
    requires Idles(cfg, w0, w) && i < |w.s.threads| && w.s.threads[i].Linking? && !w.s.sh.stopping
    requires u in w.s.threads[i].links && u !in w.s.sh.store
    ensures !IsOver(cfg, w0)
  {
    LeadsOn(cfg, w0, w, Run(i, u));
    TestsThenPushes(cfg, w0, Step(cfg, w, Run(i, u)), i);
  }

  lemma TakesNow(cfg: JobConfig, w0: World, w: World, i: nat)
    requires Idles(cfg, w0, w) && i < |w.s.threads| && w.s.threads[i].Batch? && w.s.threads[i].todo != []
    requires w.s.threads[i].todo[0].jobID == cfg.id
    ensures !IsOver(cfg, w0)
  {
    LeadsOn(cfg, w0, w, Run(i, ""));
    assert |Step(cfg, w, Run(i, "")).s.sh.log| == |w.s.sh.log| + 1;
  }

  /** A goroutine at the head of a loop that has something left to do. */
  lemma LoopsOn(cfg: JobConfig, w0: World, w: World, i: nat)
    requires Idles(cfg, w0, w) && i < |w.s.threads| && !w.s.sh.stopping
    requires w.s.threads[i].Batch? || w.s.threads[i].Linking? || w.s.threads[i].Seeding?
    requires AllOwn(cfg, TodoIn(w.s.threads[i]))
    requires TodoIn(w.s.threads[i]) != [] || HasPush(cfg, w.s.sh, w.s.threads[i])
    ensures !IsOver(cfg, w0)
  {
    match w.s.threads[i]
    case Batch(todo, links) =>
      if todo != [] {
        TakesNow(cfg, w0, w, i);
      } else {
        var u :| u in links && u !in w.s.sh.store;
        LeadsOn(cfg, w0, w, Run(i, ""));
        MissesThenPushes(cfg, w0, Step(cfg, w, Run(i, "")), i, u);
      }
    case Linking(links) =>
      var u :| u in links && u !in w.s.sh.store;
      MissesThenPushes(cfg, w0, w, i, u);
    case Seeding(urls) =>
      LeadsOn(cfg, w0, w, Run(i, ""));
      TestsThenPushes(cfg, w0, Step(cfg, w, Run(i, "")), i);
  }

  /** A goroutine in `Shutdown`, over an empty queue, that has results to get back to. */
  lemma ShutsThenTakes(cfg: JobConfig, w0: World, w: World, i: nat)
    requires Idles(cfg, w0, w) && i < |w.s.threads| && w.s.threads[i].Raising? && w.s.sh.queue == []
    requires w.s.threads[i].next.Batch? && w.s.threads[i].next.todo != []
    requires w.s.threads[i].next.todo[0].jobID == cfg.id
    ensures !IsOver(cfg, w0)
  {
    LeadsOn(cfg, w0, w, Run(i, ""));
    var w1 := Step(cfg, w, Run(i, ""));
    LeadsOn(cfg, w0, w1, Run(i, ""));
    var w2 := Step(cfg, w1, Run(i, ""));
    LeadsOn(cfg, w0, w2, Run(i, ""));
    TakesNow(cfg, w0, Step(cfg, w2, Run(i, "")), i);
  }

  lemma ComparesOn(cfg: JobConfig, w0: World, w: World, i: nat)
    requires Idles(cfg, w0, w) && i < |w.s.threads| && w.s.threads[i].Comparing? && !w.s.sh.stopping
    requires w.s.sh.queue == [] && AllOwn(cfg, TodoIn(w.s.threads[i]))
    requires TodoIn(w.s.threads[i]) != [] || HasPush(cfg, w.s.sh, w.s.threads[i])
    ensures !IsOver(cfg, w0)
  {
    LeadsOn(cfg, w0, w, Run(i, ""));
    var w' := Step(cfg, w, Run(i, ""));
    if w.s.threads[i].f.r.url == cfg.stopUrl {
      ShutsThenTakes(cfg, w0, w', i);
    } else {
      LoopsOn(cfg, w0, w', i);
    }
  }

  lemma {:induction false} Flush(cfg: JobConfig, w0: World, w: World) returns (t: World)
    requires Idles(cfg, w0, w)
    ensures Idles(cfg, w0, t) && t.s.threads == w.s.threads && t.s.sh.changes == []
    ensures t.s.sh == w.s.sh.(processing := t.s.sh.processing, changes := [])
    decreases |w.s.sh.changes|
  {
    if w.s.sh.changes == [] {
      t := w;
    } else {
      LeadsOn(cfg, w0, w, Apply);
      t := Flush(cfg, w0, Step(cfg, w, Apply));
    }
  }

  lemma DebitsOn(cfg: JobConfig, w0: World, w: World, i: nat)
    requires Idles(cfg, w0, w) && i < |w.s.threads| && !w.s.sh.stopping
    requires w.s.threads[i].Debiting? || w.s.threads[i].Checking?
    requires w.s.sh.queue == [] && AllOwn(cfg, TodoIn(w.s.threads[i]))
    requires TodoIn(w.s.threads[i]) != [] || HasPush(cfg, w.s.sh, w.s.threads[i])
    ensures !IsOver(cfg, w0)
  {
    var w1 := w;
    if w.s.threads[i].Debiting? {
      w1 := Flush(cfg, w0, w);
      LeadsOn(cfg, w0, w1, Run(i, ""));
      w1 := Step(cfg, w1, Run(i, ""));
    }
    LeadsOn(cfg, w0, w1, Run(i, ""));
    ComparesOn(cfg, w0, Step(cfg, w1, Run(i, "")), i);
  }

  lemma JudgesOn(cfg: JobConfig, w0: World, w: World, i: nat)
    requires Idles(cfg, w0, w) && i < |w.s.threads| && w.s.threads[i].Judging? && !w.s.sh.stopping
    requires Linked(w.s.sh) && w.s.threads[i].ref < |w.s.sh.heap|
    requires At(w.s.sh.heap, w.s.threads[i].ref).url in w.s.sh.store
    requires w.s.sh.queue == [] && AllOwn(cfg, TodoIn(w.s.threads[i]))
    requires TodoIn(w.s.threads[i]) != [] || HasPush(cfg, w.s.sh, w.s.threads[i])
    ensures !IsOver(cfg, w0)
  {
    var f, ref := w.s.threads[i].f, w.s.threads[i].ref;
    LeadsOn(cfg, w0, w, Run(i, ""));
    var w' := Step(cfg, w, Run(i, ""));
    if Retries(cfg, w.s.sh, f, ref) {
      TestsThenPushes(cfg, w0, w', i);
    } else {
      assert w'.s.threads[i] == Debiting(f);
      assert w'.s.sh.store.Keys == w.s.sh.store.Keys;
      if LinksAhead(cfg, w.s.sh, f) {
        var u :| u in f.links + LinksOf(cfg, [f.r]) && u !in w.s.sh.store;
        assert u !in w'.s.sh.store.Keys;
      }
      DebitsOn(cfg, w0, w', i);
    }
  }

  lemma CreditsOn(cfg: JobConfig, w0: World, w: World, i: nat)
    requires Idles(cfg, w0, w) && i < |w.s.threads| && w.s.threads[i].Crediting? && !w.s.sh.stopping
    requires Shaped(w.s.threads[i]) && w.s.sh.queue == [] && AllOwn(cfg, TodoIn(w.s.threads[i]))
    requires TodoIn(w.s.threads[i]) != [] || HasPush(cfg, w.s.sh, w.s.threads[i])
    ensures !IsOver(cfg, w0)
  {
    var w1 := Flush(cfg, w0, w);
    LeadsOn(cfg, w0, w1, Run(i, ""));
    var w' := Step(cfg, w1, Run(i, ""));
    if w'.s.threads[i].Debiting? {
      DebitsOn(cfg, w0, w', i);
    } else {
      LoopsOn(cfg, w0, w', i);
    }
  }

  /** A goroutine inside `enqueue`, or about to judge a result. */
  lemma CallsOn(cfg: JobConfig, w: World, i: nat)
    requires Sane(cfg, w) && StoredPushed(w.s) && !w.s.sh.stopping && w.s.sh.queue == [] && i < |w.s.threads|
    requires TodoIn(w.s.threads[i]) != [] || HasPush(cfg, w.s.sh, w.s.threads[i])
    requires var t := w.s.threads[i]; t.Pushing? || t.Storing? || t.Testing? || t.Crediting? || t.Judging?
    ensures !IsOver(cfg, w)
  {
    LeadsToItself(cfg, w);
    var t := w.s.threads[i];
    assert Shaped(t) && HoldsBelow(t, |w.s.sh.heap|) && HeldOk(w.s.sh, t) && AllOwn(cfg, TodoIn(t));
    match t
    case Pushing(_, _) => PushesNow(cfg, w, w, i);
    case Storing(_, _, _) => StoresThenPushes(cfg, w, w, i);
    case Testing(_, _) => TestsThenPushes(cfg, w, w, i);
    case Crediting(_) => CreditsOn(cfg, w, w, i);
    case Judging(_, _) => JudgesOn(cfg, w, w, i);
  }

  /** A goroutine on its way into `Shutdown`, which has results to get back to. */
  lemma RaisesOn(cfg: JobConfig, w: World, i: nat)
    requires Sane(cfg, w) && w.s.sh.queue == [] && i < |w.s.threads|
    requires w.s.threads[i].Raising? && TodoIn(w.s.threads[i]) != []
    ensures !IsOver(cfg, w)
  {
    LeadsToItself(cfg, w);
    var t := w.s.threads[i];
    assert Shaped(t) && AllOwn(cfg, TodoIn(t));
    assert t.next.Batch? && TodoIn(t) == t.next.todo;
    assert t.next.todo[0] in TodoIn(t);
    ShutsThenTakes(cfg, w, w, i);
  }

  /** A goroutine with results in hand or a push ahead gets to one of them, running alone. */
  lemma GoesOn(cfg: JobConfig, w: World, i: nat)
    requires Sane(cfg, w) && StoredPushed(w.s) && !w.s.sh.stopping && w.s.sh.queue == [] && i < |w.s.threads|
    requires TodoIn(w.s.threads[i]) != [] || HasPush(cfg, w.s.sh, w.s.threads[i])
    ensures !IsOver(cfg, w)
  {
    LeadsToItself(cfg, w);
    var t := w.s.threads[i];
    assert AllOwn(cfg, TodoIn(t)) && (PastTheFlag(t) ==> w.s.sh.stopping);
    if t.Pushing? || t.Storing? || t.Testing? || t.Crediting? || t.Judging? {
      CallsOn(cfg, w, i);
    } else if t.Debiting? || t.Checking? {
      DebitsOn(cfg, w, w, i);
    } else if t.Comparing? {
      ComparesOn(cfg, w, w, i);
    } else if t.Raising? {
      RaisesOn(cfg, w, i);
    } else {
      LoopsOn(cfg, w, w, i);
    }
  }

  /** A request with a worker can still be answered. */
  lemma WorkersGoOn(cfg: JobConfig, w0: World, w: World)
    requires Idles(cfg, w0, w) && w.out != multiset{}
    ensures !IsOver(cfg, w0)
  {
    var u :| u in w.out;
    var r := Resource(cfg.id, u, 200, [], "");
    assert UrlsOf([r]) == [u];
    LeadsOn(cfg, w0, w, Report([r]));
    var w' := Step(cfg, w, Report([r]));
    TakesNow(cfg, w0, w', |w.s.threads|);
  }

  lemma QueueGoesOn(cfg: JobConfig, w: World)
    requires w.s.sh.queue != []
    ensures !IsOver(cfg, w)
  {
    LeadsToItself(cfg, w);
    LeadsOn(cfg, w, w, Pop);
    var w' := Step(cfg, w, Pop);
    assert At(w.s.sh.heap, w.s.sh.queue[0]).url in w'.out;
    WorkersGoOn(cfg, w, w');
  }

  // ---------------------------------------------------------------- the exact condition

  /** The counter, with the changes in the channel and those goroutines owe, stands at nothing. */
  ghost predicate CancelsOut(s: State) {
    s.sh.processing + Sum(s.sh.changes) + Total(Owed, s.threads) == 0
  }

  ghost predicate NobodyPushes(cfg: JobConfig, s: State) {
    forall i :: 0 <= i < |s.threads| ==> !HasPush(cfg, s.sh, s.threads[i])
  }

  ghost predicate NoTodos(s: State) {
    forall i :: 0 <= i < |s.threads| ==> TodoIn(s.threads[i]) == []
  }

  /** As many results looked at as requests pushed, exactly when none is queued, with a worker or in hand. */
  lemma AllLookedAtIff(cfg: JobConfig, w: World)
    requires Sane(cfg, w)
    ensures |w.s.sh.pushes| == |w.s.sh.log| <==>
              w.s.sh.queue == [] && w.out == multiset{} && NoTodos(w.s)
  {
    var pushes, log := multiset(w.s.sh.pushes), multiset(UrlsOf(w.s.sh.log));
    assert |pushes| == |w.s.sh.pushes| && |log| == |w.s.sh.log|;
    forall u
      ensures log[u] <= pushes[u]
    {
      TodoIsNat(w.s.threads, u);
      assert TallyOf(w, u);
    }
    SameSizeSameBag(log, pushes);
    if w.s.sh.queue == [] && w.out == multiset{} && NoTodos(w.s) {
      forall u
        ensures log[u] == pushes[u]
      {
        assert TallyOf(w, u);
        TotalOfZeros(TodoOf(u), w.s.threads);
      }
      assert log == pushes;
    } else if |pushes| == |log| {
      NothingBetween(w);
    }
  }

  lemma HeadCounts(us: seq<Url>)
    ensures us != [] ==> multiset(us)[us[0]] > 0
  {
    if us != [] {
      assert us[0] in multiset(us);
    }
  }

  lemma SameSizeSameBag(a: multiset<Url>, b: multiset<Url>)
    requires forall u :: a[u] <= b[u]
    ensures |a| == |b| ==> a == b
  {
    assert a <= b;
    assert b == a + (b - a);
    assert |b| == |a| + |b - a|;
    if |a| == |b| {
      assert b - a == multiset{};
    }
  }

  /** Nothing lies between pushes and results that are the same. */
  lemma NothingBetween(w: World)
    requires forall u :: TallyOf(w, u)
    requires multiset(w.s.sh.pushes) == multiset(UrlsOf(w.s.sh.log))
    ensures w.s.sh.queue == [] && w.out == multiset{} && NoTodos(w.s)
  {
    forall u
      ensures multiset(UrlsAt(w.s.sh.heap, w.s.sh.queue))[u] == 0 && w.out[u] == 0
      ensures Total(TodoOf(u), w.s.threads) == 0
    {
      TodoIsNat(w.s.threads, u);
      assert TallyOf(w, u);
    }
    HeadCounts(UrlsAt(w.s.sh.heap, w.s.sh.queue));
    forall i | 0 <= i < |w.s.threads|
      ensures TodoIn(w.s.threads[i]) == []
    {
      var todo := TodoIn(w.s.threads[i]);
      HeadCounts(UrlsOf(todo));
      forall u
        ensures multiset(UrlsOf(todo))[u] == 0
      {
        TodoAtLeast(w.s.threads, i, u);
      }
    }
  }

  /** Under any interleaving, before a shutdown: everything is done exactly when the counter, with the changes
      still to be applied and to be sent, stands at nothing and no goroutine has a push ahead of it. */
  lemma CrawlIsOverIff(cfg: JobConfig, ws: seq<World>, acts: seq<Action>, k: nat)
    requires IsHistory(cfg, ws, acts) && ws[0] == Start() && k < |ws| && !ws[k].s.sh.stopping
    ensures IsOver(cfg, ws[k]) <==> CancelsOut(ws[k].s) && NobodyPushes(cfg, ws[k].s)
  {
    var w := ws[k];
    HistorySane(cfg, ws, acts, k);
    HistoryPushes(cfg, ws, acts, k);
    LedgerHolds(cfg, States(ws), acts, k);
    AllLookedAtIff(cfg, w);
    if CancelsOut(w.s) && NobodyPushes(cfg, w.s) {
      StillIsOver(cfg, w);
    } else if w.s.sh.queue != [] {
      QueueGoesOn(cfg, w);
    } else if w.out != multiset{} {
      LeadsToItself(cfg, w);
      WorkersGoOn(cfg, w, w);
    } else {
      var i :| 0 <= i < |w.s.threads| && (TodoIn(w.s.threads[i]) != [] || HasPush(cfg, w.s.sh, w.s.threads[i]));
      GoesOn(cfg, w, i);
    }
  }

  /** The done scan, about to read the counter, goes on to shut down exactly when the counter is not positive. It
      is right to do so exactly when the changes still to be applied and to be sent make up for the counter and
      no goroutine has a push ahead of it. */
  lemma ScanIsRightUnderInterleavingIff(cfg: JobConfig, ws: seq<World>, acts: seq<Action>, k: nat, i: nat)
    requires IsHistory(cfg, ws, acts) && ws[0] == Start() && k < |ws| && !ws[k].s.sh.stopping
    requires i < |ws[k].s.threads| && ws[k].s.threads[i].Counting?
    ensures var s := ws[k].s;
            var shutsDown := Next(cfg, s, Run(i, "")).threads[i] == Raising(Idle);
            && (shutsDown <==> s.sh.processing <= 0)
            && (shutsDown ==>
                  (IsOver(cfg, ws[k]) <==>
                     Sum(s.sh.changes) + Total(Owed, s.threads) == -s.sh.processing && NobodyPushes(cfg, s)))
  {
    CrawlIsOverIff(cfg, ws, acts, k);
  }
}
