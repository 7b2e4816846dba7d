/** The bounded queue of `lib/queue.go` with any number of `Chan` forwarders: each worker gets its own
    channel, and a goroutine per worker moves requests from the shared buffer to it, one at a time. */
module Forwarders {

  const CAPACITY := 150

  /** `pushed` is everything ever pushed, `buffer` the shared channel. `owner[k]` is the forwarder that
      took the k-th request off the buffer. `held[i]` is what forwarder i has taken and not handed
      over yet, `handed[i]` what its worker has received. */
  datatype Queue<T> = Queue(
    pushed: seq<T>,
    buffer: seq<T>,
    owner: seq<nat>,
    held: seq<seq<T>>,
    handed: seq<seq<T>>)

  datatype Event<T> = Push(x: T) | Take(i: nat) | Hand(i: nat) | Open

  function Empty<T>(): Queue<T> {
    Queue([], [], [], [], [])
  }

  /** A send blocks on a full buffer, a receive on an empty one, and a forwarder holds at most one request. */
  predicate Enabled<T>(q: Queue<T>, e: Event<T>) {
    match e
    case Push(x) => |q.buffer| < CAPACITY
    case Take(i) => i < |q.held| && q.held[i] == [] && q.buffer != []
    case Hand(i) => i < |q.held| && i < |q.handed| && q.held[i] != []
    case Open => true
  }

  function Next<T>(q: Queue<T>, e: Event<T>): Queue<T> {
    if !Enabled(q, e) then q
    else
      match e
      case Push(x) => q.(pushed := q.pushed + [x], buffer := q.buffer + [x])
      case Take(i) => q.(buffer := q.buffer[1..], held := q.held[i := [q.buffer[0]]], owner := q.owner + [i])
      case Hand(i) => q.(held := q.held[i := []], handed := q.handed[i := q.handed[i] + q.held[i]])
      case Open => q.(held := q.held + [[]], handed := q.handed + [[]])
  }

  function After<T>(run: seq<Event<T>>): Queue<T> {
    if run == [] then Empty() else Next(After(run[..|run| - 1]), run[|run| - 1])
  }

  predicate Legal<T>(run: seq<Event<T>>) {
    run == [] || (Legal(run[..|run| - 1]) && Enabled(After(run[..|run| - 1]), run[|run| - 1]))
  }

  /** The requests forwarder `i` took, in the order it took them. */
  function Stream<T>(taken: seq<T>, owner: seq<nat>, i: nat): seq<T>
    requires |taken| == |owner|
  {
    if taken == [] then []
    else
      var n := |taken| - 1;
      Stream(taken[..n], owner[..n], i) + if owner[n] == i then [taken[n]] else []
  }

  ghost predicate Valid<T>(q: Queue<T>) {
    && |q.held| == |q.handed|
    && |q.owner| + |q.buffer| == |q.pushed|
    && q.buffer == q.pushed[|q.owner|..]
    && |q.buffer| <= CAPACITY
    && (forall k :: 0 <= k < |q.owner| ==> q.owner[k] < |q.held|)
    && forall i :: 0 <= i < |q.held| ==>
         |q.held[i]| <= 1 && q.handed[i] + q.held[i] == Stream(q.pushed[..|q.owner|], q.owner, i)
  }

  lemma StreamAppend<T>(taken: seq<T>, owner: seq<nat>, x: T, o: nat, i: nat)
    requires |taken| == |owner|
    ensures Stream(taken + [x], owner + [o], i) == Stream(taken, owner, i) + if o == i then [x] else []
  {
    assert (taken + [x])[..|taken|] == taken && (owner + [o])[..|owner|] == owner;
  }

  lemma {:induction false} StreamOfNobody<T>(taken: seq<T>, owner: seq<nat>, i: nat)
    requires |taken| == |owner| && forall k :: 0 <= k < |owner| ==> owner[k] != i
    ensures Stream(taken, owner, i) == []
  {
    if taken != [] {
      StreamOfNobody(taken[..|taken| - 1], owner[..|taken| - 1], i);
    }
  }

  lemma TakeKeeps<T>(q: Queue<T>, i: nat)
    requires Valid(q) && Enabled(q, Take(i))
    ensures Valid(Next(q, Take(i)))
  {
    var q', n := Next(q, Take(i)), |q.owner|;
    var x := q.buffer[0];
    assert q.pushed[..n + 1] == q.pushed[..n] + [x];
    forall j | 0 <= j < |q'.held|
      ensures |q'.held[j]| <= 1 && q'.handed[j] + q'.held[j] == Stream(q'.pushed[..n + 1], q'.owner, j)
    {
      StreamAppend(q.pushed[..n], q.owner, x, i, j);
    }
  }

  lemma StepKeeps<T>(q: Queue<T>, e: Event<T>)
    requires Valid(q) && Enabled(q, e)
    ensures Valid(Next(q, e))
  {
    var q', n := Next(q, e), |q.owner|;
    match e
    case Push(x) =>
      assert q'.pushed[..n] == q.pushed[..n];
    case Take(i) => TakeKeeps(q, i);
    case Hand(i) =>
    case Open => StreamOfNobody(q.pushed[..n], q.owner, |q.held|);
  }

  lemma {:induction false} RunKeeps<T>(run: seq<Event<T>>)
    requires Legal(run)
    ensures Valid(After(run))
  {
    if run != [] {
      RunKeeps(run[..|run| - 1]);
      StepKeeps(After(run[..|run| - 1]), run[|run| - 1]);
    }
  }

  // ---------------------------------------------------------------- order

  /** `sub` is obtained from `s` by leaving elements out: `at` says where its elements are. */
  ghost predicate Picks<T>(sub: seq<T>, s: seq<T>, at: seq<nat>) {
    && |at| == |sub|
    && (forall k :: 0 <= k < |at| ==> at[k] < |s| && s[at[k]] == sub[k])
    && forall k, l :: 0 <= k < l < |at| ==> at[k] < at[l]
  }

  ghost predicate Subsequence<T(!new)>(sub: seq<T>, s: seq<T>) {
    exists at :: Picks(sub, s, at)
  }

  lemma PicksInPrefix<T>(sub: seq<T>, s: seq<T>, n: nat, at: seq<nat>)
    requires n <= |s| && Picks(sub, s[..n], at)
    ensures Picks(sub, s, at)
  {
    forall k | 0 <= k < |at|
      ensures at[k] < |s| && s[at[k]] == sub[k]
    {
      assert s[..n][at[k]] == s[at[k]];
    }
  }

  /** The last element can be picked too. */
  lemma PicksLast<T>(sub: seq<T>, s: seq<T>, at: seq<nat>)
    requires s != [] && Picks(sub, s[..|s| - 1], at)
    ensures Picks(sub + [s[|s| - 1]], s, at + [|s| - 1])
  {
    var n := |s| - 1;
    PicksInPrefix(sub, s, n, at);
    var more := at + [n];
    forall k, l | 0 <= k < l < |more|
      ensures more[k] < more[l]
    {
      assert more[k] == at[k] < n;
    }
  }

  lemma {:induction false} StreamPicks<T>(taken: seq<T>, owner: seq<nat>, i: nat) returns (at: seq<nat>)
    requires |taken| == |owner|
    ensures Picks(Stream(taken, owner, i), taken, at)
  {
    if taken == [] {
      at := [];
    } else {
      var n := |taken| - 1;
      var before := Stream(taken[..n], owner[..n], i);
      at := StreamPicks(taken[..n], owner[..n], i);
      if owner[n] == i {
        PicksLast(before, taken, at);
        at := at + [n];
      } else {
        PicksInPrefix(before, taken, n, at);
        assert Stream(taken, owner, i) == before + [] == before;
      }
    }
  }

  /** What one worker has received is a subsequence of what was pushed, in push order. */
  lemma WorkersSeePushOrder<T(!new)>(run: seq<Event<T>>, i: nat)
    requires Legal(run) && i < |After(run).handed|
    ensures Subsequence(After(run).handed[i], After(run).pushed)
  {
    var q := After(run);
    RunKeeps(run);
    var at := StreamPicks(q.pushed[..|q.owner|], q.owner, i);
    assert q.handed[i] + q.held[i] == Stream(q.pushed[..|q.owner|], q.owner, i);
    var seen := at[..|q.handed[i]|];
    forall k | 0 <= k < |seen|
      ensures seen[k] < |q.pushed| && q.pushed[seen[k]] == q.handed[i][k]
    {
      assert (q.handed[i] + q.held[i])[k] == q.handed[i][k];
    }
    assert Picks(q.handed[i], q.pushed, seen);
  }

  lemma {:induction false} OnlyStream<T>(taken: seq<T>, owner: seq<nat>, i: nat)
    requires |taken| == |owner| && forall k :: 0 <= k < |owner| ==> owner[k] == i
    ensures Stream(taken, owner, i) == taken
  {
    if taken != [] {
      OnlyStream(taken[..|taken| - 1], owner[..|taken| - 1], i);
    }
  }

  /** With a single forwarder the queue is exactly first in, first out. */
  lemma OneForwarderIsFifo<T>(run: seq<Event<T>>)
    requires Legal(run) && |After(run).held| == 1
    ensures var q := After(run); |q.handed| == 1 && q.handed[0] + q.held[0] + q.buffer == q.pushed
  {
    RunKeeps(run);
    AllThroughOne(After(run));
  }

  lemma AllThroughOne<T>(q: Queue<T>)
    requires Valid(q) && |q.held| == 1
    ensures q.handed[0] + q.held[0] + q.buffer == q.pushed
  {
    var taken := q.pushed[..|q.owner|];
    assert q.handed[0] + q.held[0] == Stream(taken, q.owner, 0);
    OnlyStream(taken, q.owner, 0);
    assert q.pushed == taken + q.buffer;
  }

  // ---------------------------------------------------------------- conservation

  ghost function Collect<T>(parts: seq<seq<T>>): multiset<T> {
    if parts == [] then multiset{} else Collect(parts[..|parts| - 1]) + multiset(parts[|parts| - 1])
  }

  /** How often `y` occurs in the streams of the first `n` forwarders. */
  ghost function InStreams<T>(taken: seq<T>, owner: seq<nat>, n: nat, y: T): nat
    requires |taken| == |owner|
  {
    if n == 0 then 0 else InStreams(taken, owner, n - 1, y) + multiset(Stream(taken, owner, n - 1))[y]
  }

  lemma StreamCount<T>(taken: seq<T>, owner: seq<nat>, x: T, o: nat, i: nat, y: T)
    requires |taken| == |owner|
    ensures multiset(Stream(taken + [x], owner + [o], i))[y]
         == multiset(Stream(taken, owner, i))[y] + if o == i && x == y then 1 else 0
  {
    StreamAppend(taken, owner, x, o, i);
  }

  lemma {:induction false} InStreamsAppend<T>(taken: seq<T>, owner: seq<nat>, x: T, o: nat, n: nat, y: T)
    requires |taken| == |owner|
    ensures InStreams(taken + [x], owner + [o], n, y)
         == InStreams(taken, owner, n, y) + if o < n && x == y then 1 else 0
  {
    if n > 0 {
      InStreamsAppend(taken, owner, x, o, n - 1, y);
      StreamCount(taken, owner, x, o, n - 1, y);
    }
  }

  lemma {:induction false} InNoStream<T>(taken: seq<T>, owner: seq<nat>, n: nat, y: T)
    requires |taken| == |owner| == 0
    ensures InStreams(taken, owner, n, y) == 0
  {
    if n > 0 {
      InNoStream(taken, owner, n - 1, y);
    }
  }

  lemma {:induction false} InStreamsIsAll<T>(taken: seq<T>, owner: seq<nat>, n: nat, y: T)
    requires |taken| == |owner| && forall k :: 0 <= k < |owner| ==> owner[k] < n
    ensures InStreams(taken, owner, n, y) == multiset(taken)[y]
  {
    if taken == [] {
      InNoStream(taken, owner, n, y);
    } else {
      var m := |taken| - 1;
      var init, owners := taken[..m], owner[..m];
      InStreamsIsAll(init, owners, n, y);
      assert taken == init + [taken[m]];
      assert owner == owners + [owner[m]];
      OneMoreInStreams(init, owners, taken[m], owner[m], n, y, taken, owner);
    }
  }

  lemma OneMoreInStreams<T>(
    init: seq<T>, owners: seq<nat>, x: T, o: nat, n: nat, y: T, taken: seq<T>, owner: seq<nat>)
    requires |init| == |owners| && o < n && taken == init + [x] && owner == owners + [o]
    requires InStreams(init, owners, n, y) == multiset(init)[y]
    ensures InStreams(taken, owner, n, y) == multiset(taken)[y]
  {
    InStreamsAppend(init, owners, x, o, n, y);
    ConcatCount(init, [x], y);
  }

  lemma CollectStep<T>(parts: seq<seq<T>>, n: nat, y: T)
    requires 0 < n <= |parts|
    ensures Collect(parts[..n])[y] == Collect(parts[..n - 1])[y] + multiset(parts[n - 1])[y]
  {
    assert parts[..n][..n - 1] == parts[..n - 1];
  }

  lemma ConcatCount<T>(a: seq<T>, b: seq<T>, y: T)
    ensures multiset(a + b)[y] == multiset(a)[y] + multiset(b)[y]
  {
    assert multiset(a + b) == multiset(a) + multiset(b);
  }

  lemma {:induction false} CollectStreams<T>(q: Queue<T>, n: nat, y: T)
    requires Valid(q) && n <= |q.held|
    ensures Collect(q.handed[..n])[y] + Collect(q.held[..n])[y] == InStreams(q.pushed[..|q.owner|], q.owner, n, y)
  {
    if n > 0 {
      CollectStreams(q, n - 1, y);
      CollectStep(q.handed, n, y);
      CollectStep(q.held, n, y);
      ConcatCount(q.handed[n - 1], q.held[n - 1], y);
    }
  }

  /** Received and held requests are those taken from the buffer. */
  lemma CollectedIsTaken<T>(q: Queue<T>, y: T)
    requires Valid(q)
    ensures Collect(q.handed)[y] + Collect(q.held)[y] == multiset(q.pushed[..|q.owner|])[y]
  {
    CollectStreams(q, |q.held|, y);
    InStreamsIsAll(q.pushed[..|q.owner|], q.owner, |q.held|, y);
    assert q.handed[..|q.held|] == q.handed && q.held[..|q.held|] == q.held;
  }

  lemma CountsAgree<T>(q: Queue<T>, y: T)
    requires Valid(q)
    ensures multiset(q.pushed)[y] == Collect(q.handed)[y] + Collect(q.held)[y] + multiset(q.buffer)[y]
  {
    CollectedIsTaken(q, y);
    ConcatCount(q.pushed[..|q.owner|], q.buffer, y);
    assert q.pushed == q.pushed[..|q.owner|] + q.buffer;
  }

  lemma SameCounts<T>(all: multiset<T>, a: multiset<T>, b: multiset<T>, c: multiset<T>)
    requires forall y :: all[y] == a[y] + b[y] + c[y]
    ensures all == a + b + c
  {
    assert forall y :: all[y] == (a + b + c)[y];
  }

  /** Nothing is lost or duplicated: pushed = received + held by forwarders + buffered, with at most one
      request held per forwarder and at most 150 buffered. */
  lemma RequestsAreConserved<T>(run: seq<Event<T>>)
    requires Legal(run)
    ensures var q := After(run);
            && multiset(q.pushed) == Collect(q.handed) + Collect(q.held) + multiset(q.buffer)
            && |q.buffer| <= 150
            && (forall i :: 0 <= i < |q.held| ==> |q.held[i]| <= 1)
            && forall x :: Enabled(q, Push(x)) <==> |q.buffer| < 150
  {
    var q := After(run);
    RunKeeps(run);
    forall y
      ensures multiset(q.pushed)[y] == Collect(q.handed)[y] + Collect(q.held)[y] + multiset(q.buffer)[y]
    {
      CountsAgree(q, y);
    }
    SameCounts(multiset(q.pushed), Collect(q.handed), Collect(q.held), multiset(q.buffer));
  }

  /** And the buffer does take 150. */
  lemma {:induction false} BufferFills<T>(x: T, n: nat) returns (run: seq<Event<T>>)
    requires n <= 150
    ensures Legal(run) && |After(run).buffer| == n
  {
    if n == 0 {
      run := [];
    } else {
      var prior := BufferFills(x, n - 1);
      run := prior + [Push(x)];
      assert run[..|run| - 1] == prior;
    }
  }
}
