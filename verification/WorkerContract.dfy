/** Full interleaving with workers that keep their contract: every request taken off the queue is answered at most
    once, under its own URL and job. Nothing is lost on the way, so a crawl at rest has answered every page it
    stored. */
module WorkerContract {
  import opened Wrappers
  import opened CrawlTypes
  import opened JobRules
  import opened CoordinatorSpec
  import opened LinkClosure
  import opened Interleaving
  import opened InterleavedClosure
  import opened ShutdownProtocol

  /** A state, and the URLs of the requests that workers have taken and not reported. */
  datatype World = World(s: State, out: multiset<Url>)

  function UrlsOf(rscs: seq<Resource>): (us: seq<Url>)
    ensures |us| == |rscs| && forall k :: 0 <= k < |rscs| ==> us[k] == rscs[k].url
  {
    seq(|rscs|, k requires 0 <= k < |rscs| => rscs[k].url)
  }

  function UrlsAt(heap: seq<Req>, refs: seq<nat>): (us: seq<Url>)
    ensures |us| == |refs| && forall k :: 0 <= k < |refs| ==> us[k] == At(heap, refs[k]).url
  {
    seq(|refs|, k requires 0 <= k < |refs| => At(heap, refs[k]).url)
  }

  ghost predicate AllOwn(cfg: JobConfig, rscs: seq<Resource>) {
    forall r :: r in rscs ==> r.jobID == cfg.id
  }

  /** The worker contract. */
  ghost predicate Fair(cfg: JobConfig, w: World, a: Action) {
    Enabled(w.s, a) && (a.Report? ==> AllOwn(cfg, a.rscs) && multiset(UrlsOf(a.rscs)) <= w.out)
  }

  ghost function Step(cfg: JobConfig, w: World, a: Action): World
    requires Enabled(w.s, a)
  {
    World(Next(cfg, w.s, a),
          if a.Pop? then w.out + multiset{At(w.s.sh.heap, w.s.sh.queue[0]).url}
          else if a.Report? then w.out - multiset(UrlsOf(a.rscs))
          else w.out)
  }

  ghost predicate IsHistory(cfg: JobConfig, ws: seq<World>, acts: seq<Action>) {
    && |ws| == |acts| + 1
    && forall k :: 0 <= k < |acts| ==> Fair(cfg, ws[k], acts[k]) && ws[k + 1] == Step(cfg, ws[k], acts[k])
  }

  function Start(): World {
    World(Init(), multiset{})
  }

  lemma HistoryAppend(cfg: JobConfig, ws: seq<World>, acts: seq<Action>, a: Action)
    requires IsHistory(cfg, ws, acts) && Fair(cfg, ws[|ws| - 1], a)
    ensures IsHistory(cfg, ws + [Step(cfg, ws[|ws| - 1], a)], acts + [a])
  {
    var ws', acts' := ws + [Step(cfg, ws[|ws| - 1], a)], acts + [a];
    forall k | 0 <= k < |acts'|
      ensures Fair(cfg, ws'[k], acts'[k]) && ws'[k + 1] == Step(cfg, ws'[k], acts'[k])
    {
      if k < |acts| {
        assert Fair(cfg, ws[k], acts[k]) && ws[k + 1] == Step(cfg, ws[k], acts[k]);
      }
    }
  }

  /** Some history leads from `w0` to `w`. */
  ghost predicate Gets(cfg: JobConfig, w0: World, w: World) {
    exists ws: seq<World>, acts: seq<Action> :: IsHistory(cfg, ws, acts) && ws[0] == w0 && ws[|ws| - 1] == w
  }

  lemma GetsItself(cfg: JobConfig, w: World)
    ensures Gets(cfg, w, w)
  {
    var ws: seq<World>, acts: seq<Action> := [w], [];
    assert IsHistory(cfg, ws, acts);
  }

  lemma GetsOn(cfg: JobConfig, w0: World, w: World, a: Action)
    requires Gets(cfg, w0, w) && Fair(cfg, w, a)
    ensures Gets(cfg, w0, Step(cfg, w, a))
  {
    var ws: seq<World>, acts: seq<Action> :| IsHistory(cfg, ws, acts) && ws[0] == w0 && ws[|ws| - 1] == w;
    HistoryAppend(cfg, ws, acts, a);
    var ws' := ws + [Step(cfg, w, a)];
    assert ws'[0] == w0 && ws'[|ws'| - 1] == Step(cfg, w, a);
  }

  /** The background loop catches up. */
  lemma {:induction false} CatchUp(cfg: JobConfig, w0: World, w: World) returns (t: World)
    requires Gets(cfg, w0, w)
    ensures Gets(cfg, w0, t) && t.s.threads == w.s.threads && t.out == w.out
    ensures t.s.sh == w.s.sh.(processing := w.s.sh.processing + Sum(w.s.sh.changes), changes := [])
    decreases |w.s.sh.changes|
  {
    if w.s.sh.changes == [] {
      t := w;
    } else {
      GetsOn(cfg, w0, w, Apply);
      SumHead(w.s.sh.changes);
      t := CatchUp(cfg, w0, Step(cfg, w, Apply));
    }
  }

  /** The results a goroutine has been handed and not looked at. */
  function TodoIn(t: Thread): seq<Resource> {
    match t
    case Batch(todo, _) => todo
    case Judging(f, _) => f.rest
    case Debiting(f) => f.rest
    case Checking(f) => f.rest
    case Receiving(f) => f.rest
    case Comparing(f) => f.rest
    case Testing(_, next) => TodoIn(next)
    case Storing(_, _, next) => TodoIn(next)
    case Pushing(_, next) => TodoIn(next)
    case Crediting(next) => TodoIn(next)
    case Raising(next) => TodoIn(next)
    case Measuring(next) => TodoIn(next)
    case Sending(next) => TodoIn(next)
    case Finalizing(next) => TodoIn(next)
    case _ => []
  }

  function Hit(u: Url, v: Url): nat {
    if u == v then 1 else 0
  }

  /** How many results for `u` the goroutine has been handed and not looked at. */
  ghost function TodoOf(u: Url): Thread -> int {
    t => multiset(UrlsOf(TodoIn(t)))[u]
  }

  /** Per URL: pushes = queued + taken by workers + handed to goroutines + looked at. */
  ghost predicate TallyOf(w: World, u: Url) {
    multiset(w.s.sh.pushes)[u]
      == multiset(UrlsAt(w.s.sh.heap, w.s.sh.queue))[u] + w.out[u] + Total(TodoOf(u), w.s.threads)
         + multiset(UrlsOf(w.s.sh.log))[u]
  }

  lemma UrlsAppend(rscs: seq<Resource>, r: Resource, u: Url)
    ensures multiset(UrlsOf(rscs + [r]))[u] == multiset(UrlsOf(rscs))[u] + Hit(r.url, u)
  {
    assert UrlsOf(rscs + [r]) == UrlsOf(rscs) + [r.url];
  }

  lemma UrlsHead(rscs: seq<Resource>, u: Url)
    requires rscs != []
    ensures multiset(UrlsOf(rscs))[u] == multiset(UrlsOf(rscs[1..]))[u] + Hit(rscs[0].url, u)
  {
    assert UrlsOf(rscs) == [rscs[0].url] + UrlsOf(rscs[1..]);
  }

  lemma RefsAppend(heap: seq<Req>, refs: seq<nat>, ref: nat, u: Url)
    ensures multiset(UrlsAt(heap, refs + [ref]))[u] == multiset(UrlsAt(heap, refs))[u] + Hit(At(heap, ref).url, u)
  {
    assert UrlsAt(heap, refs + [ref]) == UrlsAt(heap, refs) + [At(heap, ref).url];
  }

  lemma RefsHead(heap: seq<Req>, refs: seq<nat>, u: Url)
    requires refs != []
    ensures multiset(UrlsAt(heap, refs))[u]
         == multiset(UrlsAt(heap, refs[1..]))[u] + Hit(At(heap, refs[0]).url, u)
  {
    assert UrlsAt(heap, refs) == [At(heap, refs[0]).url] + UrlsAt(heap, refs[1..]);
  }

  lemma SameRefs(sh: Shared, sh': Shared)
    requires Extends(sh, sh') && forall k :: 0 <= k < |sh.queue| ==> sh.queue[k] < |sh.heap|
    ensures UrlsAt(sh'.heap, sh.queue) == UrlsAt(sh.heap, sh.queue)
  {
  }

  /** What a goroutine adds to the pushes it adds to the queue, and what it adds to the results looked at comes
      from what it had been handed. */
  ghost predicate Moved(sh: Shared, t: Thread, sh': Shared, t': Thread, u: Url) {
    && multiset(sh'.pushes)[u] + multiset(UrlsAt(sh.heap, sh.queue))[u]
         == multiset(sh.pushes)[u] + multiset(UrlsAt(sh'.heap, sh'.queue))[u]
    && multiset(UrlsOf(TodoIn(t')))[u] + multiset(UrlsOf(sh'.log))[u]
         == multiset(UrlsOf(TodoIn(t)))[u] + multiset(UrlsOf(sh.log))[u]
  }

  lemma PushTallies(cfg: JobConfig, sh: Shared, t: Thread, u: Url)
    requires Linked(sh) && t.Pushing?
    ensures var (sh', t') := Move(cfg, sh, t, ""); Moved(sh, t, sh', t', u) && TodoIn(t') == TodoIn(t)
  {
    RefsAppend(sh.heap, sh.queue, t.ref, u);
  }

  lemma TakeUpTallies(cfg: JobConfig, sh: Shared, todo: seq<Resource>, links: set<Url>, u: Url)
    requires Linked(sh) && todo != [] && AllOwn(cfg, todo)
    ensures var (sh', t') := TakeUp(cfg, sh, todo, links);
            Moved(sh, Batch(todo, links), sh', t', u) && TodoIn(t') == todo[1..]
  {
    assert todo[0] in todo;
    var (sh', t') := TakeUp(cfg, sh, todo, links);
    TakeUpAllocates(cfg, sh, todo, links);
    SameRefs(sh, sh');
    UrlsHead(todo, u);
    UrlsAppend(sh.log, todo[0], u);
  }

  lemma QuietTallies(cfg: JobConfig, sh: Shared, t: Thread, link: Url, u: Url)
    requires Linked(sh) && Shaped(t) && HoldsBelow(t, |sh.heap|) && !t.Pushing? && (t.Batch? ==> t.todo == [])
    ensures var (sh', t') := Move(cfg, sh, t, link); Moved(sh, t, sh', t', u) && TodoIn(t') == TodoIn(t)
  {
    MoveAllocates(cfg, sh, t, link);
    QuietMoveTallies(cfg, sh, t, link);
    SameRefs(sh, Move(cfg, sh, t, link).0);
  }

  lemma MoveTallies(cfg: JobConfig, sh: Shared, t: Thread, link: Url, u: Url)
    requires Linked(sh) && Shaped(t) && HoldsBelow(t, |sh.heap|) && AllOwn(cfg, TodoIn(t))
    ensures var (sh', t') := Move(cfg, sh, t, link); AllOwn(cfg, TodoIn(t')) && Moved(sh, t, sh', t', u)
  {
    if t.Pushing? {
      PushTallies(cfg, sh, t, u);
      assert Move(cfg, sh, t, link) == Move(cfg, sh, t, "");
    } else if t.Batch? && t.todo != [] {
      TakeUpTallies(cfg, sh, t.todo, t.links, u);
      assert forall r :: r in t.todo[1..] ==> r in t.todo;
    } else {
      QuietTallies(cfg, sh, t, link, u);
    }
  }

  lemma QuietMoveTallies(cfg: JobConfig, sh: Shared, t: Thread, link: Url)
    requires Shaped(t) && !t.Pushing? && (t.Batch? ==> t.todo == [])
    ensures var (sh', t') := Move(cfg, sh, t, link);
            sh'.pushes == sh.pushes && sh'.queue == sh.queue && sh'.log == sh.log && TodoIn(t') == TodoIn(t)
  {
    if t.Judging? {
      assert Move(cfg, sh, t, link) == Settle(cfg, sh, t.f, t.ref);
    } else if t.Storing? {
      assert Move(cfg, sh, t, link) == Stored(sh, t.ref, t.push, t.next);
    } else {
      QuietMoveLists(cfg, sh, t, link);
      QuietMoveTodo(cfg, sh, t, link);
    }
  }

  lemma QuietMoveLists(cfg: JobConfig, sh: Shared, t: Thread, link: Url)
    requires !t.Pushing? && (t.Batch? ==> t.todo == []) && !t.Judging? && !t.Storing?
    ensures var sh' := Move(cfg, sh, t, link).0;
            sh'.pushes == sh.pushes && sh'.queue == sh.queue && sh'.log == sh.log
  {
  }

  lemma QuietMoveTodo(cfg: JobConfig, sh: Shared, t: Thread, link: Url)
    requires Shaped(t) && !t.Pushing? && (t.Batch? ==> t.todo == []) && !t.Judging? && !t.Storing?
    ensures TodoIn(Move(cfg, sh, t, link).1) == TodoIn(t)
  {
  }

  ghost predicate OwnTodos(cfg: JobConfig, s: State) {
    forall i :: 0 <= i < |s.threads| ==> AllOwn(cfg, TodoIn(s.threads[i]))
  }

  lemma RunTallies(cfg: JobConfig, w: World, i: nat, link: Url, u: Url)
    requires AllShaped(w.s) && Allocated(w.s) && OwnTodos(cfg, w.s) && Fair(cfg, w, Run(i, link)) && TallyOf(w, u)
    ensures TallyOf(Step(cfg, w, Run(i, link)), u)
  {
    var t' := Step(cfg, w, Run(i, link)).s.threads[i];
    MoveTallies(cfg, w.s.sh, w.s.threads[i], link, u);
    TotalUpdate(TodoOf(u), w.s.threads, i, t');
  }

  /** The todo of all goroutines after a new one has started. */
  lemma SpawnTodo(threads: seq<Thread>, t: Thread, u: Url)
    ensures Total(TodoOf(u), threads + [t]) == Total(TodoOf(u), threads) + multiset(UrlsOf(TodoIn(t)))[u]
  {
    TotalAppend(TodoOf(u), threads, t);
  }

  /** The todo of all goroutines when one moves on with the same results in hand. */
  lemma SameTodo(threads: seq<Thread>, i: nat, t: Thread, u: Url)
    requires i < |threads| && TodoIn(t) == TodoIn(threads[i])
    ensures Total(TodoOf(u), threads[i := t]) == Total(TodoOf(u), threads)
  {
    TotalUpdate(TodoOf(u), threads, i, t);
  }

  /** A report moves results from the workers to a new goroutine. */
  lemma ReportTallies(cfg: JobConfig, w: World, rscs: seq<Resource>, u: Url)
    requires Fair(cfg, w, Report(rscs)) && TallyOf(w, u)
    ensures TallyOf(Step(cfg, w, Report(rscs)), u)
  {
    var t := Batch(rscs, {});
    SpawnTodo(w.s.threads, t, u);
    assert TodoIn(t) == rscs;
    assert Step(cfg, w, Report(rscs)) == World(State(w.s.sh, w.s.threads + [t]), w.out - multiset(UrlsOf(rscs)));
    assert (w.out - multiset(UrlsOf(rscs)))[u] == w.out[u] - multiset(UrlsOf(rscs))[u];
  }

  /** A new goroutine with no results in hand. */
  lemma SpawnTallies(w: World, t: Thread, seeds: seq<Url>, u: Url)
    requires TallyOf(w, u) && TodoIn(t) == []
    ensures TallyOf(World(State(w.s.sh.(seeds := seeds), w.s.threads + [t]), w.out), u)
  {
    SpawnTodo(w.s.threads, t, u);
  }

  lemma MeetTallies(cfg: JobConfig, w: World, i: nat, j: nat, u: Url)
    requires Fair(cfg, w, Meet(i, j)) && TallyOf(w, u)
    ensures TallyOf(Step(cfg, w, Meet(i, j)), u)
  {
    var s, s' := w.s, Step(cfg, w, Meet(i, j)).s;
    var mid := s.threads[i := Finalizing(s.threads[i].next)];
    SameTodo(s.threads, i, mid[i], u);
    SameTodo(mid, j, Comparing(s.threads[j].f), u);
    assert s'.sh == s.sh;
  }

  lemma PopTallies(cfg: JobConfig, w: World, u: Url)
    requires Fair(cfg, w, Pop) && TallyOf(w, u)
    ensures TallyOf(Step(cfg, w, Pop), u)
  {
    RefsHead(w.s.sh.heap, w.s.sh.queue, u);
    var w', v := Step(cfg, w, Pop), At(w.s.sh.heap, w.s.sh.queue[0]).url;
    assert w'.s.sh.queue == w.s.sh.queue[1..] && w'.s.sh.heap == w.s.sh.heap && w'.s.threads == w.s.threads;
    assert (w.out + multiset{v})[u] == w.out[u] + Hit(v, u);
  }

  lemma ApplyTallies(cfg: JobConfig, w: World, u: Url)
    requires Fair(cfg, w, Apply) && TallyOf(w, u)
    ensures TallyOf(Step(cfg, w, Apply), u)
  {
    var w' := Step(cfg, w, Apply);
    assert w'.s.sh == w.s.sh.(processing := w'.s.sh.processing, changes := w'.s.sh.changes);
  }

  lemma SeedTallies(cfg: JobConfig, w: World, urls: seq<Url>, u: Url)
    requires TallyOf(w, u)
    ensures TallyOf(Step(cfg, w, Seed(urls)), u)
  {
    SpawnTallies(w, Seeding(urls), w.s.sh.seeds + urls, u);
  }

  lemma SignalTallies(cfg: JobConfig, w: World, a: Action, u: Url)
    requires TallyOf(w, u) && (a.Tick? || a.CallShutdown?)
    ensures TallyOf(Step(cfg, w, a), u)
  {
    var t := if a.Tick? then Scanning else Raising(Idle);
    assert Step(cfg, w, a) == World(State(w.s.sh, w.s.threads + [t]), w.out);
    assert TodoIn(t) == [];
    SpawnTodo(w.s.threads, t, u);
  }

  lemma StepTallies(cfg: JobConfig, w: World, a: Action, u: Url)
    requires AllShaped(w.s) && Allocated(w.s) && OwnTodos(cfg, w.s) && Fair(cfg, w, a) && TallyOf(w, u)
    ensures TallyOf(Step(cfg, w, a), u)
  {
    match a
    case Run(i, link) => RunTallies(cfg, w, i, link, u);
    case Meet(i, j) => MeetTallies(cfg, w, i, j, u);
    case Apply => ApplyTallies(cfg, w, u);
    case Pop => PopTallies(cfg, w, u);
    case Report(rscs) => ReportTallies(cfg, w, rscs, u);
    case Seed(urls) => SeedTallies(cfg, w, urls, u);
    case _ => SignalTallies(cfg, w, a, u);
  }

  lemma StepOwns(cfg: JobConfig, w: World, a: Action)
    requires AllShaped(w.s) && Allocated(w.s) && OwnTodos(cfg, w.s) && Fair(cfg, w, a)
    ensures OwnTodos(cfg, Step(cfg, w, a).s)
  {
    if a.Run? {
      MoveTallies(cfg, w.s.sh, w.s.threads[a.i], a.link, "");
    }
  }

  // ---------------------------------------------------------------- what is pushed is stored

  /** Pushed URLs are stored, also those being pushed. */
  ghost predicate PushesStored(s: State) {
    && (forall u :: u in s.sh.pushes ==> u in s.sh.store)
    && forall i :: 0 <= i < |s.threads| && s.threads[i].Pushing? ==>
         At(s.sh.heap, s.threads[i].ref).url in s.sh.store
  }

  lemma MoveStores(cfg: JobConfig, sh: Shared, t: Thread, link: Url)
    requires Linked(sh) && Shaped(t) && HoldsBelow(t, |sh.heap|)
    requires t.Pushing? ==> At(sh.heap, t.ref).url in sh.store
    ensures var (sh', t') := Move(cfg, sh, t, link);
            && (t'.Pushing? ==> At(sh'.heap, t'.ref).url in sh'.store)
            && forall u :: u in sh'.pushes ==> u in sh.pushes || u in sh'.store
  {
    MoveAllocates(cfg, sh, t, link);
  }

  lemma StepStores(cfg: JobConfig, s: State, a: Action)
    requires AllShaped(s) && Allocated(s) && PushesStored(s) && Enabled(s, a)
    ensures PushesStored(Next(cfg, s, a))
  {
    var s' := Next(cfg, s, a);
    StepAllocates(cfg, s, a);
    if a.Run? {
      MoveStores(cfg, s.sh, s.threads[a.i], a.link);
    }
    forall i | 0 <= i < |s'.threads| && s'.threads[i].Pushing?
      ensures At(s'.sh.heap, s'.threads[i].ref).url in s'.sh.store
    {
      if i < |s.threads| && !(a.Run? && i == a.i) {
        assert s'.threads[i] == s.threads[i];
        assert At(s'.sh.heap, s'.threads[i].ref).url == At(s.sh.heap, s.threads[i].ref).url;
        assert s.sh.store.Keys <= s'.sh.store.Keys;
      }
    }
  }

  // ---------------------------------------------------------------- what every history keeps

  ghost predicate Sane(cfg: JobConfig, w: World) {
    && AllShaped(w.s) && Allocated(w.s) && OwnTodos(cfg, w.s) && PushesStored(w.s)
    && (forall i :: 0 <= i < |w.s.threads| && PastTheFlag(w.s.threads[i]) ==> w.s.sh.stopping)
    && forall u :: TallyOf(w, u)
  }

  lemma StepSane(cfg: JobConfig, w: World, a: Action)
    requires Sane(cfg, w) && Fair(cfg, w, a)
    ensures Sane(cfg, Step(cfg, w, a))
  {
    StepShaped(cfg, w.s, a);
    StepAllocates(cfg, w.s, a);
    StepOwns(cfg, w, a);
    StepStores(cfg, w.s, a);
    StepPastTheFlag(cfg, w.s, a);
    forall u
      ensures TallyOf(Step(cfg, w, a), u)
    {
      assert TallyOf(w, u);
      StepTallies(cfg, w, a, u);
    }
  }

  lemma {:induction false} HistorySane(cfg: JobConfig, ws: seq<World>, acts: seq<Action>, k: nat)
    requires IsHistory(cfg, ws, acts) && ws[0] == Start() && k < |ws|
    ensures Sane(cfg, ws[k])
  {
    if k > 0 {
      HistorySane(cfg, ws, acts, k - 1);
      StepSane(cfg, ws[k - 1], acts[k - 1]);
    }
  }

  // ---------------------------------------------------------------- what is stored is pushed, before a shutdown

  /** A goroutine judges results of pushed requests only, and refuses none before the flag is raised. */
  predicate HeldOk(sh: Shared, t: Thread) {
    && (t.Judging? ==> At(sh.heap, t.ref).url in sh.pushes)
    && (t.Storing? && !t.push ==> sh.stopping)
  }

  /** The URL is pushed, or about to be. */
  predicate PushedBy(sh: Shared, t: Thread, u: Url) {
    u in sh.pushes || (t.Pushing? && At(sh.heap, t.ref).url == u)
  }

  ghost predicate StoredPushed(s: State) {
    && (forall i :: 0 <= i < |s.threads| ==> HeldOk(s.sh, s.threads[i]))
    && (!s.sh.stopping ==> forall u :: u in s.sh.store ==>
          u in s.sh.pushes || exists i :: 0 <= i < |s.threads| && PushedBy(s.sh, s.threads[i], u))
  }

  /** An access that stores or pushes nothing. */
  lemma QuietMovePushes(cfg: JobConfig, sh: Shared, t: Thread, link: Url)
    requires Linked(sh) && Shaped(t) && HoldsBelow(t, |sh.heap|) && HeldOk(sh, t)
    requires !t.Judging? && !t.Storing? && !t.Pushing?
    requires t.Batch? && t.todo != [] && t.todo[0].jobID == cfg.id ==>
               t.todo[0].url in sh.pushes && t.todo[0].url in sh.store
    ensures var (sh', t') := Move(cfg, sh, t, link);
            && HeldOk(sh', t') && sh'.pushes == sh.pushes && sh'.store == sh.store
            && (sh.stopping ==> sh'.stopping)
  {
  }

  lemma MovePushes(cfg: JobConfig, sh: Shared, t: Thread, link: Url)
    requires Linked(sh) && Shaped(t) && HoldsBelow(t, |sh.heap|) && HeldOk(sh, t)
    requires t.Batch? && t.todo != [] && t.todo[0].jobID == cfg.id ==>
               t.todo[0].url in sh.pushes && t.todo[0].url in sh.store
    ensures var (sh', t') := Move(cfg, sh, t, link);
            && HeldOk(sh', t')
            && (forall u :: u in sh.pushes ==> u in sh'.pushes)
            && (sh.stopping ==> sh'.stopping)
            && (!sh'.stopping ==> forall u :: (u in sh'.store && u !in sh.store) || PushedBy(sh, t, u) ==>
                  PushedBy(sh', t', u))
  {
    MoveAllocates(cfg, sh, t, link);
    if !t.Judging? && !t.Storing? && !t.Pushing? {
      QuietMovePushes(cfg, sh, t, link);
    }
  }

  /** A result that has been handed in is for a URL that has been pushed. */
  lemma HandedIsPushed(cfg: JobConfig, w: World, i: nat)
    requires Sane(cfg, w) && i < |w.s.threads| && w.s.threads[i].Batch? && w.s.threads[i].todo != []
    ensures var u := w.s.threads[i].todo[0].url; u in w.s.sh.pushes && u in w.s.sh.store
  {
    var todo := w.s.threads[i].todo;
    var u := todo[0].url;
    UrlsHead(todo, u);
    TodoAtLeast(w.s.threads, i, u);
    assert TallyOf(w, u);
  }

  lemma {:induction false} TodoIsNat(threads: seq<Thread>, u: Url)
    ensures Total(TodoOf(u), threads) >= 0
  {
    if threads != [] {
      TodoIsNat(threads[..|threads| - 1], u);
    }
  }

  lemma {:induction false} TodoAtLeast(threads: seq<Thread>, i: nat, u: Url)
    requires i < |threads|
    ensures Total(TodoOf(u), threads) >= multiset(UrlsOf(TodoIn(threads[i])))[u]
  {
    if i == |threads| - 1 {
      TodoIsNat(threads[..i], u);
    } else {
      TodoAtLeast(threads[..|threads| - 1], i, u);
    }
  }

  /** The other goroutines keep what they hold while one makes an access. */
  lemma OthersKeepPushes(s: State, s': State, i: nat)
    requires Allocated(s) && StoredPushed(s) && Extends(s.sh, s'.sh) && (s.sh.stopping ==> s'.sh.stopping)
    requires i < |s.threads| && |s'.threads| == |s.threads| && s'.threads == s.threads[i := s'.threads[i]]
    requires forall u :: u in s.sh.pushes ==> u in s'.sh.pushes
    ensures forall k :: 0 <= k < |s.threads| && k != i ==>
              && HeldOk(s'.sh, s'.threads[k])
              && forall u :: PushedBy(s.sh, s.threads[k], u) ==> PushedBy(s'.sh, s'.threads[k], u)
  {
    forall k | 0 <= k < |s.threads| && k != i
      ensures HeldOk(s'.sh, s'.threads[k])
      ensures forall u :: PushedBy(s.sh, s.threads[k], u) ==> PushedBy(s'.sh, s'.threads[k], u)
    {
      assert s'.threads[k] == s.threads[k] && HeldOk(s.sh, s.threads[k]) && HoldsBelow(s.threads[k], |s.sh.heap|);
    }
  }

  lemma RunPushes(cfg: JobConfig, w: World, i: nat, link: Url)
    requires Sane(cfg, w) && StoredPushed(w.s) && Fair(cfg, w, Run(i, link))
    ensures StoredPushed(Step(cfg, w, Run(i, link)).s)
  {
    var s, s' := w.s, Step(cfg, w, Run(i, link)).s;
    StepAllocates(cfg, s, Run(i, link));
    if s.threads[i].Batch? && s.threads[i].todo != [] {
      HandedIsPushed(cfg, w, i);
    }
    MovePushes(cfg, s.sh, s.threads[i], link);
    OthersKeepPushes(s, s', i);
    if !s'.sh.stopping {
      StoredStayPushed(s, s', i);
    }
  }

  /** Every URL stored by now is pushed by now, or in the hands of a goroutine that is going to. */
  lemma StoredStayPushed(s: State, s': State, i: nat)
    requires StoredPushed(s) && !s.sh.stopping && i < |s.threads| == |s'.threads|
    requires forall u :: u in s.sh.pushes ==> u in s'.sh.pushes
    requires forall k :: 0 <= k < |s.threads| && k != i ==>
               forall u :: PushedBy(s.sh, s.threads[k], u) ==> PushedBy(s'.sh, s'.threads[k], u)
    requires forall u :: (u in s'.sh.store && u !in s.sh.store) || PushedBy(s.sh, s.threads[i], u) ==>
               PushedBy(s'.sh, s'.threads[i], u)
    ensures forall u :: u in s'.sh.store ==>
              u in s'.sh.pushes || exists k :: 0 <= k < |s'.threads| && PushedBy(s'.sh, s'.threads[k], u)
  {
    forall u | u in s'.sh.store
      ensures u in s'.sh.pushes || exists k :: 0 <= k < |s'.threads| && PushedBy(s'.sh, s'.threads[k], u)
    {
      if u in s.sh.store && u !in s.sh.pushes {
        var k :| 0 <= k < |s.threads| && PushedBy(s.sh, s.threads[k], u);
        assert PushedBy(s'.sh, s'.threads[k], u);
      } else if u !in s.sh.store {
        assert PushedBy(s'.sh, s'.threads[i], u);
      }
    }
  }

  /** Steps that leave requests, store and pushes alone, and move no goroutine into or out of `enqueue`. */
  lemma QuietPushes(s: State, s': State)
    requires StoredPushed(s)
    requires s'.sh.heap == s.sh.heap && s'.sh.store == s.sh.store && s'.sh.pushes == s.sh.pushes
    requires s'.sh.stopping == s.sh.stopping && |s.threads| <= |s'.threads|
    requires forall k :: 0 <= k < |s'.threads| ==>
               if k < |s.threads| && (s.threads[k].Judging? || s.threads[k].Storing? || s.threads[k].Pushing?)
               then s'.threads[k] == s.threads[k]
               else !s'.threads[k].Judging? && !s'.threads[k].Storing? && !s'.threads[k].Pushing?
    ensures StoredPushed(s')
  {
    forall k | 0 <= k < |s'.threads|
      ensures HeldOk(s'.sh, s'.threads[k])
    {
      if k < |s.threads| {
        assert HeldOk(s.sh, s.threads[k]);
      }
    }
    if !s'.sh.stopping {
      forall u | u in s'.sh.store
        ensures u in s'.sh.pushes || exists k :: 0 <= k < |s'.threads| && PushedBy(s'.sh, s'.threads[k], u)
      {
        if u !in s.sh.pushes {
          var k :| 0 <= k < |s.threads| && PushedBy(s.sh, s.threads[k], u);
          assert PushedBy(s'.sh, s'.threads[k], u);
        }
      }
    }
  }

  /** The goroutines that are inside `enqueue` or judging stay where they are, unless one of them is run. */
  lemma QuietThreads(cfg: JobConfig, s: State, a: Action)
    requires Enabled(s, a) && !a.Run?
    ensures var s' := Next(cfg, s, a);
            && |s.threads| <= |s'.threads|
            && forall k :: 0 <= k < |s'.threads| ==>
                 if k < |s.threads| && (s.threads[k].Judging? || s.threads[k].Storing? || s.threads[k].Pushing?)
                 then s'.threads[k] == s.threads[k]
                 else !s'.threads[k].Judging? && !s'.threads[k].Storing? && !s'.threads[k].Pushing?
  {
  }

  lemma QuietData(cfg: JobConfig, s: State, a: Action)
    requires Enabled(s, a) && !a.Run?
    ensures var s' := Next(cfg, s, a);
            && s'.sh.heap == s.sh.heap && s'.sh.store == s.sh.store && s'.sh.pushes == s.sh.pushes
            && s'.sh.stopping == s.sh.stopping
  {
  }

  lemma StepPushes(cfg: JobConfig, w: World, a: Action)
    requires Sane(cfg, w) && StoredPushed(w.s) && Fair(cfg, w, a)
    ensures StoredPushed(Step(cfg, w, a).s)
  {
    if a.Run? {
      RunPushes(cfg, w, a.i, a.link);
    } else {
      QuietThreads(cfg, w.s, a);
      QuietData(cfg, w.s, a);
      QuietPushes(w.s, Next(cfg, w.s, a));
    }
  }

  lemma {:induction false} HistoryPushes(cfg: JobConfig, ws: seq<World>, acts: seq<Action>, k: nat)
    requires IsHistory(cfg, ws, acts) && ws[0] == Start() && k < |ws|
    ensures StoredPushed(ws[k].s)
  {
    if k > 0 {
      HistoryPushes(cfg, ws, acts, k - 1);
      HistorySane(cfg, ws, acts, k - 1);
      StepPushes(cfg, ws[k - 1], acts[k - 1]);
    }
  }

  // ---------------------------------------------------------------- a crawl at rest

  /** Nothing queued, nothing with a worker, every goroutine returned, and no shutdown. */
  ghost predicate AtRest(w: World) {
    && w.s.sh.queue == [] && w.out == multiset{} && !w.s.sh.stopping
    && forall i :: 0 <= i < |w.s.threads| ==> w.s.threads[i].Idle?
  }

  lemma AtRestAllAnswered(cfg: JobConfig, w: World)
    requires Sane(cfg, w) && StoredPushed(w.s) && AtRest(w)
    ensures forall u :: u in w.s.sh.store ==> Answered(w.s.sh.log, u)
  {
    forall u | u in w.s.sh.store
      ensures Answered(w.s.sh.log, u)
    {
      assert u in w.s.sh.pushes;
      assert TallyOf(w, u);
      TotalOfZeros(TodoOf(u), w.s.threads);
      assert u in UrlsOf(w.s.sh.log);
      var k :| 0 <= k < |w.s.sh.log| && UrlsOf(w.s.sh.log)[k] == u;
      assert w.s.sh.log[k] in w.s.sh.log;
    }
  }

  /** Workers that keep the contract report only URLs the store knows. */
  lemma FairReportsAreKnown(cfg: JobConfig, w: World, a: Action)
    requires Sane(cfg, w) && Fair(cfg, w, a)
    ensures KnownReport(cfg, w.s, a)
  {
    if a.Report? {
      forall r | r in a.rscs
        ensures r.url in w.s.sh.store
      {
        var k :| 0 <= k < |a.rscs| && a.rscs[k] == r;
        assert UrlsOf(a.rscs)[k] == r.url;
        assert r.url in multiset(UrlsOf(a.rscs));
        TodoIsNat(w.s.threads, r.url);
        assert TallyOf(w, r.url);
      }
    }
  }

  function States(ws: seq<World>): (trace: seq<State>)
    ensures |trace| == |ws| && forall k :: 0 <= k < |ws| ==> trace[k] == ws[k].s
  {
    seq(|ws|, k requires 0 <= k < |ws| => ws[k].s)
  }

  /** However the goroutines race: a crawl of a fixed link graph by workers that keep their contract has, once it
      has come to rest undisturbed, stored exactly the pages reachable from the seeds. */
  lemma InterleavedCrawlFindsTheReachablePages(
    cfg: JobConfig, graph: Url -> set<Url>, ws: seq<World>, acts: seq<Action>, k: nat)
    requires cfg.crawl && IsHistory(cfg, ws, acts) && ws[0] == Start() && k < |ws|
    requires AtRest(ws[k]) && Reports(graph, ws[k].s.sh.log)
    ensures forall u :: u in ws[k].s.sh.store <==> Reachable(cfg, graph, ws[k].s.sh.seeds, u)
  {
    var s, trace := ws[k].s, States(ws);
    HistorySane(cfg, ws, acts, k);
    HistoryPushes(cfg, ws, acts, k);
    AtRestAllAnswered(cfg, ws[k]);
    assert IsRun(cfg, trace, acts);
    forall j | 0 <= j < |acts|
      ensures KnownReport(cfg, trace[j], acts[j])
    {
      HistorySane(cfg, ws, acts, j);
      FairReportsAreKnown(cfg, ws[j], acts[j]);
    }
    StoreIsLeastClosedUnderInterleaving(cfg, trace, acts, k);
    LeastClosedIsReachable(cfg, graph, s.sh.seeds, s.sh.log, s.sh.store.Keys);
  }
}
