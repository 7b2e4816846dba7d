/** The dispatch loop of `LocalWorker.Start`: commands are dealt to the fetch queues in turn. */
module Dispatch {

  type Url = string

  /** The command of one fetch. */
  datatype Command = Command(jobID: string, url: Url)

  /** Every `p`-th command of `sent`, starting with number `j`. */
  function Dealt(sent: seq<Command>, p: nat, j: nat): seq<Command>
    requires j < p
  {
    if sent == [] then []
    else
      var n := |sent| - 1;
      Dealt(sent[..n], p, j) + if n % p == j then [sent[n]] else []
  }

  lemma DealtAppend(sent: seq<Command>, x: Command, p: nat, j: nat)
    requires j < p
    ensures Dealt(sent + [x], p, j) == Dealt(sent, p, j) + if |sent| % p == j then [x] else []
  {
    assert (sent + [x])[..|sent|] == sent;
  }

  class LocalWorker {
    /** one fetch queue per fetcher */
    const queues: array<seq<Command>>
    /** the queue the next command goes to */
    var i: nat
    /** commands handed to a queue so far */
    ghost var sent: seq<Command>

    ghost predicate Valid()
      reads this, queues
    {
      && queues.Length > 0
      && i == |sent| % queues.Length
      && forall j :: 0 <= j < queues.Length ==> queues[j] == Dealt(sent, queues.Length, j)
    }

    /** A parallelism of 0 is read as 1, and a negative one makes the Go code panic. */
    constructor (parallelism: nat)
      ensures Valid() && fresh(queues) && sent == []
      ensures queues.Length == if parallelism == 0 then 1 else parallelism
    {
      var p := if parallelism == 0 then 1 else parallelism;
      queues := new seq<Command>[p](_ => []);
      i := 0;
      sent := [];
    }

    /** One turn of the loop. `accepted` says whether the queue took the command. A request whose URL does not parse
        or whose send fails is dropped, and the next one goes to the same queue. */
    method Dispatch(cmd: Command, parses: bool, accepted: bool)
      requires Valid()
      modifies this, queues
      ensures Valid()
      ensures sent == old(sent) + (if parses && accepted then [cmd] else [])
      ensures !(parses && accepted) ==> i == old(i) && queues[..] == old(queues[..])
    {
      if !parses {
        return;
      }
      if !accepted {
        return;
      }
      forall j | 0 <= j < queues.Length
        ensures Dealt(sent + [cmd], queues.Length, j) == Dealt(sent, queues.Length, j) + if j == i then [cmd] else []
      {
        DealtAppend(sent, cmd, queues.Length, j);
      }
      queues[i] := queues[i] + [cmd];
      NextTurn(|sent|, queues.Length);
      i := (i + 1) % queues.Length;
      sent := sent + [cmd];
    }
  }

  lemma NextTurn(n: nat, p: nat)
    requires p > 0
    ensures (n + 1) % p == (n % p + 1) % p
    ensures n % p + 1 < p ==> (n + 1) % p == n % p + 1 && (n + 1) / p == n / p
    ensures n % p + 1 == p ==> (n + 1) % p == 0 && (n + 1) / p == n / p + 1
  {
    var q, r := n / p, n % p;
    assert n == q * p + r;
    if r + 1 < p {
      DivMod(n + 1, p, q, r + 1);
      DivMod(r + 1, p, 0, r + 1);
    } else {
      assert (q + 1) * p == q * p + p;
      DivMod(n + 1, p, q + 1, 0);
      DivMod(r + 1, p, 1, 0);
    }
  }

  /** Quotient and remainder are determined by the division equation. */
  lemma DivMod(n: nat, p: nat, q: nat, r: nat)
    requires p > 0 && r < p && n == q * p + r
    ensures n / p == q && n % p == r
  {
    var d: int := n / p - q;
    assert d * p == r - n % p;
    assert d >= 1 ==> d * p >= p;
    assert d <= -1 ==> d * p + p <= 0;
  }

  /** How many of the first `n` commands queue `j` of `p` gets. */
  function Share(n: nat, p: nat, j: nat): nat
    requires j < p
  {
    (n + p - 1 - j) / p
  }

  /** With n = q * p + r, every queue has q commands and the first r queues one more. */
  lemma ShareOf(n: nat, p: nat, j: nat, q: nat, r: nat)
    requires j < p && r < p && n == q * p + r
    ensures Share(n, p, j) == q + if j < r then 1 else 0
  {
    var m := n + p - 1 - j;
    if r <= j {
      DivMod(m, p, q, r + p - 1 - j);
    } else {
      assert (q + 1) * p == q * p + p;
      DivMod(m, p, q + 1, r - 1 - j);
    }
  }

  /** One more command goes to the queue whose turn it is and to no other. */
  lemma ShareStep(n: nat, p: nat, j: nat)
    requires j < p
    ensures Share(n + 1, p, j) == Share(n, p, j) + if n % p == j then 1 else 0
  {
    var q, r := n / p, n % p;
    ShareOf(n, p, j, q, r);
    if r + 1 < p {
      ShareOf(n + 1, p, j, q, r + 1);
    } else {
      assert (q + 1) * p == q * p + p;
      ShareOf(n + 1, p, j, q + 1, 0);
    }
  }

  /** Fair dispatch: after n sends over p queues, queue j has exactly (n + p - 1 - j) / p commands. */
  lemma {:induction false} QueueShares(sent: seq<Command>, p: nat, j: nat)
    requires j < p
    ensures |Dealt(sent, p, j)| == (|sent| + p - 1 - j) / p
  {
    if sent == [] {
      DivMod(p - 1 - j, p, 0, p - 1 - j);
    } else {
      QueueShares(sent[..|sent| - 1], p, j);
      ShareStep(|sent| - 1, p, j);
    }
  }

  /** So any two queues differ by at most one, the earlier ones being ahead. */
  lemma SharesAreEven(n: nat, p: nat, j: nat, k: nat)
    requires j <= k < p
    ensures Share(n, p, k) <= Share(n, p, j) <= Share(n, p, k) + 1
  {
    ShareOf(n, p, j, n / p, n % p);
    ShareOf(n, p, k, n / p, n % p);
  }

  /** Command number n goes to queue n % p, as its next. */
  lemma TurnOf(n: nat, p: nat, j: nat)
    requires j < p && n % p == j
    ensures j + Share(n, p, j) * p == n
  {
    ShareOf(n, p, j, n / p, j);
  }

  /** The k-th command of queue j is number j + k * p of all that were sent: queues are filled in turn. */
  lemma {:induction false} DealtInTurn(sent: seq<Command>, p: nat, j: nat, k: nat)
    requires j < p && k < |Dealt(sent, p, j)|
    ensures var n := j + k * p; n < |sent| && Dealt(sent, p, j)[k] == sent[n]
  {
    var n := |sent| - 1;
    if k < |Dealt(sent[..n], p, j)| {
      DealtInTurn(sent[..n], p, j, k);
    } else {
      QueueShares(sent[..n], p, j);
      TurnOf(n, p, j);
    }
  }

  lemma EvenDispatch(sent: seq<Command>, p: nat, j: nat, k: nat)
    requires j <= k < p
    ensures |Dealt(sent, p, k)| <= |Dealt(sent, p, j)| <= |Dealt(sent, p, k)| + 1
  {
    QueueShares(sent, p, j);
    QueueShares(sent, p, k);
    SharesAreEven(|sent|, p, j, k);
  }
}
