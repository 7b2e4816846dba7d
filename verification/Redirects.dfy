/** `resolvedResource` of `api/collection_handlers.go`: following the redirects of a stored page. */
module Redirects {
  import opened Wrappers

  type Url = string

  /** The part of a stored resource that resolution looks at, and a stand-in for the rest. */
  datatype Page = Page(redirectTo: Url, body: string)

  /** `collection.Get` at a fixed time, as a function of the URL: a page or an error. */
  datatype Lookup = Found(page: Page) | Missing(error: string)

  datatype Outcome = Resolved(page: Page) | NotFound(error: string) | TooManyRedirects

  const MAX_REDIRECTS := 20

  /** The URL after following `k` redirects from `url`, if there are that many. */
  function Hop(get: Url -> Lookup, url: Url, k: nat): Option<Url> {
    if k == 0 then Some(url)
    else
      match Hop(get, url, k - 1)
      case None => None
      case Some(prior) =>
        match get(prior)
        case Missing(_) => None
        case Found(page) => if page.redirectTo == "" then None else Some(page.redirectTo)
  }

  /** The chain of redirects has a page at its `k`-th URL that redirects no further. */
  predicate EndsAt(get: Url -> Lookup, url: Url, k: nat, page: Page) {
    Hop(get, url, k).Some? && get(Hop(get, url, k).value) == Found(page) && page.redirectTo == ""
  }

  /** The chain of redirects breaks off: its `k`-th URL cannot be looked up. */
  predicate BreaksAt(get: Url -> Lookup, url: Url, k: nat, error: string) {
    Hop(get, url, k).Some? && get(Hop(get, url, k).value) == Missing(error)
  }

  ghost predicate EndsWithin(get: Url -> Lookup, url: Url, room: nat, page: Page) {
    exists k: nat :: k < room && EndsAt(get, url, k, page)
  }

  ghost predicate BreaksWithin(get: Url -> Lookup, url: Url, room: nat, error: string) {
    exists k: nat :: k < room && BreaksAt(get, url, k, error)
  }

  /** The loop, with its count of redirects and of lookups. */
  method ResolvedResource(get: Url -> Lookup, url: Url) returns (out: Outcome, lookups: nat)
    ensures 1 <= lookups <= MAX_REDIRECTS
    ensures out.Resolved? ==> EndsAt(get, url, lookups - 1, out.page)
    ensures out.NotFound? ==> BreaksAt(get, url, lookups - 1, out.error)
    ensures out.TooManyRedirects? ==> lookups == MAX_REDIRECTS && Hop(get, url, MAX_REDIRECTS).Some?
    ensures out == Resolve(get, url)
  {
    var current := url;
    var redirects := 0;
    lookups := 0;
    while true
      invariant 0 <= redirects == lookups < MAX_REDIRECTS
      invariant Hop(get, url, redirects) == Some(current)
      invariant Resolve(get, url) == ResolveFrom(get, current, MAX_REDIRECTS - redirects)
      decreases MAX_REDIRECTS - redirects
    {
      var found := get(current);
      lookups := lookups + 1;
      if found.Missing? {
        out := NotFound(found.error);
        return;
      }
      if found.page.redirectTo != "" {
        current := found.page.redirectTo;
        redirects := redirects + 1;
        if redirects == MAX_REDIRECTS {
          out := TooManyRedirects;
          return;
        }
        continue;
      }
      out := Resolved(found.page);
      break;
    }
  }

  /** Follow RedirectTo, with room for `room` lookups. */
  function ResolveFrom(get: Url -> Lookup, url: Url, room: nat): Outcome
    decreases room
  {
    match get(url)
    case Missing(error) => NotFound(error)
    case Found(page) =>
      if page.redirectTo == "" then Resolved(page)
      else if room <= 1 then TooManyRedirects
      else ResolveFrom(get, page.redirectTo, room - 1)
  }

  function Resolve(get: Url -> Lookup, url: Url): Outcome {
    ResolveFrom(get, url, MAX_REDIRECTS)
  }

  lemma {:induction false} HopFromNext(get: Url -> Lookup, url: Url, next: Url, k: nat)
    requires Hop(get, url, 1) == Some(next)
    ensures Hop(get, url, k + 1) == Hop(get, next, k)
  {
    if k > 0 {
      HopFromNext(get, url, next, k - 1);
    }
  }

  lemma NothingPastTheEnd(get: Url -> Lookup, url: Url, k: nat)
    requires Hop(get, url, 1).None?
    ensures k > 0 ==> Hop(get, url, k).None?
    decreases k
  {
    if k > 1 {
      NothingPastTheEnd(get, url, k - 1);
    }
  }

  /** Resolution with room for `room` lookups succeeds exactly when the chain ends within
      `room - 1` redirects, fails to find exactly when it breaks off within as many, and gives up
      exactly when there are `room` redirects. */
  lemma {:induction false} ResolveFromMeaning(get: Url -> Lookup, url: Url, room: nat)
    requires room > 0
    ensures forall page :: ResolveFrom(get, url, room) == Resolved(page) <==> EndsWithin(get, url, room, page)
    ensures forall error :: ResolveFrom(get, url, room) == NotFound(error) <==> BreaksWithin(get, url, room, error)
    ensures ResolveFrom(get, url, room) == TooManyRedirects <==> Hop(get, url, room).Some?
    decreases room
  {
    if Hop(get, url, 1).None? {
      forall k: nat
        ensures k > 0 ==> Hop(get, url, k).None?
      {
        NothingPastTheEnd(get, url, k);
      }
      assert get(url).Missing? ==> BreaksAt(get, url, 0, get(url).error);
      assert get(url).Found? ==> EndsAt(get, url, 0, get(url).page);
    } else {
      var next := Hop(get, url, 1).value;
      assert Hop(get, url, 0) == Some(url);
      assert get(url) == Found(get(url).page) && get(url).page.redirectTo == next != "";
      forall k: nat
        ensures Hop(get, url, k + 1) == Hop(get, next, k)
      {
        HopFromNext(get, url, next, k);
      }
      if room == 1 {
        assert forall page, k: nat :: k < 1 ==> !EndsAt(get, url, k, page);
        assert forall error, k: nat :: k < 1 ==> !BreaksAt(get, url, k, error);
      } else {
        ResolveFromMeaning(get, next, room - 1);
        ShiftEnds(get, url, next, room);
        ShiftBreaks(get, url, next, room);
      }
    }
  }

  lemma ShiftEnds(get: Url -> Lookup, url: Url, next: Url, room: nat)
    requires room > 1 && Hop(get, url, 1) == Some(next)
    ensures forall page :: EndsWithin(get, url, room, page) <==> EndsWithin(get, next, room - 1, page)
  {
    forall k: nat
      ensures Hop(get, url, k + 1) == Hop(get, next, k)
    {
      HopFromNext(get, url, next, k);
    }
    forall page
      ensures EndsWithin(get, url, room, page) <==> EndsWithin(get, next, room - 1, page)
    {
      if k: nat :| k < room && EndsAt(get, url, k, page) {
        assert k != 0;
        assert EndsAt(get, next, k - 1, page);
      }
      if k: nat :| k < room - 1 && EndsAt(get, next, k, page) {
        assert EndsAt(get, url, k + 1, page);
      }
    }
  }

  lemma ShiftBreaks(get: Url -> Lookup, url: Url, next: Url, room: nat)
    requires room > 1 && Hop(get, url, 1) == Some(next)
    ensures forall error :: BreaksWithin(get, url, room, error) <==> BreaksWithin(get, next, room - 1, error)
  {
    forall k: nat
      ensures Hop(get, url, k + 1) == Hop(get, next, k)
    {
      HopFromNext(get, url, next, k);
    }
    forall error
      ensures BreaksWithin(get, url, room, error) <==> BreaksWithin(get, next, room - 1, error)
    {
      if k: nat :| k < room && BreaksAt(get, url, k, error) {
        assert k != 0;
        assert BreaksAt(get, next, k - 1, error);
      }
      if k: nat :| k < room - 1 && BreaksAt(get, next, k, error) {
        assert BreaksAt(get, url, k + 1, error);
      }
    }
  }

  /** The resolver: a page if and only if the chain ends within 19 redirects; the lookup's error if and
      only if it breaks off within 19; the limit error if and only if there are 20 redirects or more. */
  lemma ResolveMeaning(get: Url -> Lookup, url: Url)
    ensures forall page :: Resolve(get, url) == Resolved(page) <==> EndsWithin(get, url, 20, page)
    ensures forall error :: Resolve(get, url) == NotFound(error) <==> BreaksWithin(get, url, 20, error)
    ensures Resolve(get, url) == TooManyRedirects <==> Hop(get, url, 20).Some?
  {
    ResolveFromMeaning(get, url, 20);
  }

  /** The chain comes back to a URL it has visited. */
  ghost predicate Cyclic(get: Url -> Lookup, url: Url) {
    exists i: nat, j: nat :: i < j && Hop(get, url, i).Some? && Hop(get, url, i) == Hop(get, url, j)
  }

  lemma {:induction false} HopsAgree(get: Url -> Lookup, url: Url, i: nat, j: nat, k: nat)
    requires Hop(get, url, i) == Hop(get, url, j)
    ensures Hop(get, url, i + k) == Hop(get, url, j + k)
  {
    if k > 0 {
      HopsAgree(get, url, i, j, k - 1);
    }
  }

  lemma {:induction false} EarlierHopsExist(get: Url -> Lookup, url: Url, k: nat, n: nat)
    requires k <= n && Hop(get, url, n).Some?
    ensures Hop(get, url, k).Some?
    decreases n
  {
    if k < n {
      EarlierHopsExist(get, url, k, n - 1);
    }
  }

  /** A chain that repeats never ends: it has a hop for every number of redirects. */
  lemma {:induction false} CyclesNeverEnd(get: Url -> Lookup, url: Url, i: nat, j: nat, n: nat)
    requires i < j && Hop(get, url, i).Some? && Hop(get, url, i) == Hop(get, url, j)
    ensures Hop(get, url, n).Some?
    decreases n
  {
    if n <= j {
      EarlierHopsExist(get, url, n, j);
    } else {
      CyclesNeverEnd(get, url, i, j, n - (j - i));
      HopsAgree(get, url, i, j, n - j);
    }
  }

  /** Every cyclic chain is answered with the limit error. */
  lemma CyclesAreErrors(get: Url -> Lookup, url: Url)
    requires Cyclic(get, url)
    ensures Resolve(get, url) == TooManyRedirects
  {
    var i: nat, j: nat :| i < j && Hop(get, url, i).Some? && Hop(get, url, i) == Hop(get, url, j);
    CyclesNeverEnd(get, url, i, j, 20);
    ResolveMeaning(get, url);
  }

  /** The first `n` URLs of a chain that has that many. */
  function Visited(get: Url -> Lookup, url: Url, n: nat): (urls: seq<Url>)
    requires forall k: nat :: k < n ==> Hop(get, url, k).Some?
    ensures |urls| == n && forall k: nat :: k < n ==> Hop(get, url, k) == Some(urls[k])
  {
    seq(n, k requires 0 <= k < n => Hop(get, url, k).value)
  }

  /** Pigeonhole: more entries than values means a repetition. */
  lemma {:induction false} Repeats(urls: seq<Url>, pool: set<Url>)
    requires |urls| > |pool| && forall k :: 0 <= k < |urls| ==> urls[k] in pool
    ensures exists i, j :: 0 <= i < j < |urls| && urls[i] == urls[j]
    decreases |urls|
  {
    var n := |urls| - 1;
    if i :| 0 <= i < n && urls[i] == urls[n] {
    } else {
      Repeats(urls[..n], pool - {urls[n]});
      var i, j :| 0 <= i < j < n && urls[..n][i] == urls[..n][j];
      assert urls[i] == urls[j];
    }
  }

  /** On a collection with captures of fewer than 20 URLs the limit error means a real cycle. */
  lemma LimitMeansCycle(get: Url -> Lookup, url: Url, captured: set<Url>)
    requires forall u :: get(u).Found? ==> u in captured
    requires |captured| < 20
    ensures Resolve(get, url) == TooManyRedirects <==> Cyclic(get, url)
  {
    if Resolve(get, url) == TooManyRedirects {
      ResolveMeaning(get, url);
      forall k: nat | k <= 20
        ensures Hop(get, url, k).Some?
      {
        EarlierHopsExist(get, url, k, 20);
      }
      var urls := Visited(get, url, 20);
      forall k: nat | k < 20
        ensures urls[k] in captured
      {
        assert Hop(get, url, k + 1).Some?;
      }
      Repeats(urls, captured);
      var i: nat, j: nat :| i < j < 20 && urls[i] == urls[j];
      assert Hop(get, url, i) == Hop(get, url, j);
    }
    if Cyclic(get, url) {
      CyclesAreErrors(get, url);
    }
  }

  /** A chain of 20 redirects through distinct URLs. */
  function Chain(u: Url): Lookup {
    Found(Page(if |u| < 20 then u + "x" else "", ""))
  }

  lemma {:induction false} ChainHop(k: nat)
    requires k <= 20
    ensures Hop(Chain, "", k).Some? && |Hop(Chain, "", k).value| == k
  {
    if k > 0 {
      ChainHop(k - 1);
    }
  }

  /** The bound of 20 is sharp: a chain that does end, after 20 redirects, is refused all the same. */
  lemma LongChainsAreRefused()
    ensures Resolve(Chain, "") == TooManyRedirects && !Cyclic(Chain, "")
    ensures exists page :: EndsAt(Chain, "", 20, page)
  {
    ChainHop(20);
    ResolveMeaning(Chain, "");
    var last := Page("", "");
    assert EndsAt(Chain, "", 20, last);
    assert Hop(Chain, "", 21).None?;
    if Cyclic(Chain, "") {
      var i: nat, j: nat :| i < j && Hop(Chain, "", i).Some? && Hop(Chain, "", i) == Hop(Chain, "", j);
      CyclesNeverEnd(Chain, "", i, j, 21);
    }
  }
}
