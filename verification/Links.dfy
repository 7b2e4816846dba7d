/** Link extraction, from `ExtractDocLinks` in `lib/resource.go`. */
module Links {
  import opened Wrappers

  type Url = string

  /** Foreign code: resolving an href against a page URL, then normalizing, either of which may fail. */
  type Resolver = string -> Option<Url>

  ghost predicate NoDuplicates(s: seq<Url>) {
    forall i, j :: 0 <= i < j < |s| ==> s[i] != s[j]
  }

  /** The targets of the hrefs that resolve, in document order. */
  function Targets(resolve: Resolver, hrefs: seq<string>): seq<Url> {
    if hrefs == [] then []
    else
      var t := resolve(hrefs[|hrefs| - 1]);
      Targets(resolve, hrefs[..|hrefs| - 1]) + if t == None then [] else [t.value]
  }

  /** Ordered de-duplication after `prior`: `s` appended to `prior` without what is already there. */
  function AppendNew(prior: seq<Url>, s: seq<Url>): seq<Url> {
    if s == [] then prior
    else
      var before, x := AppendNew(prior, s[..|s| - 1]), s[|s| - 1];
      if x in before then before else before + [x]
  }

  /** The first href that resolves to `x`, or the number of hrefs if none does. */
  function LeastHref(resolve: Resolver, hrefs: seq<string>, x: Url): (i: nat)
    ensures i <= |hrefs|
    ensures i < |hrefs| ==> resolve(hrefs[i]) == Some(x)
    ensures forall j :: 0 <= j < i ==> resolve(hrefs[j]) != Some(x)
  {
    if hrefs == [] then 0
    else
      var i := LeastHref(resolve, hrefs[..|hrefs| - 1], x);
      if i < |hrefs| - 1 || resolve(hrefs[|hrefs| - 1]) == Some(x) then i else |hrefs|
  }

  class Resource {
    const url: Url
    var links: seq<Url>

    constructor (url: Url, links: seq<Url>)
      ensures this.url == url && this.links == links
    {
      this.url, this.links := url, links;
    }

    /** `parses` says whether the page's own URL parses; if not, nothing is extracted. */
    method ExtractDocLinks(parses: bool, resolve: Resolver, hrefs: seq<string>) returns (ok: bool)
      modifies this
      ensures ok == parses
      ensures links == if parses then AppendNew(old(links), Targets(resolve, hrefs)) else old(links)
      ensures parses ==> old(links) <= links
      ensures parses ==>
        forall x :: x in links <==> x in old(links) || exists i :: 0 <= i < |hrefs| && resolve(hrefs[i]) == Some(x)
      ensures parses ==>
        forall k, l :: |old(links)| <= k < l < |links| ==>
          LeastHref(resolve, hrefs, links[k]) < LeastHref(resolve, hrefs, links[l]) < |hrefs|
    {
      if !parses {
        return false;
      }
      ExtractedElements(links, resolve, hrefs);
      forall k, l: nat | |links| <= k < l < |AppendNew(links, Targets(resolve, hrefs))|
        ensures var all := AppendNew(links, Targets(resolve, hrefs));
                LeastHref(resolve, hrefs, all[k]) < LeastHref(resolve, hrefs, all[l]) < |hrefs|
      {
        ExtractedInOrder(links, resolve, hrefs, k, l);
      }
      for i := 0 to |hrefs|
        invariant links == AppendNew(old(links), Targets(resolve, hrefs[..i]))
      {
        assert hrefs[..i + 1][..i] == hrefs[..i];
        var before := Targets(resolve, hrefs[..i]);
        var address := resolve(hrefs[i]);
        if address == None {
          assert before + [] == before;
          continue;
        }
        assert Targets(resolve, hrefs[..i + 1]) == before + [address.value];
        assert (before + [address.value])[..|before|] == before;
        var known := Contains(address.value);
        if !known {
          links := links + [address.value];
        }
      }
      assert hrefs[..|hrefs|] == hrefs;
      return true;
    }

    /** The linear search through the links collected so far. */
    method Contains(str: Url) returns (found: bool)
      ensures found <==> str in links
    {
      for k := 0 to |links|
        invariant str !in links[..k]
      {
        if links[k] == str {
          return true;
        }
      }
      return false;
    }
  }

  /** The result keeps the prior links in front and holds exactly the prior links and the targets. */
  lemma {:induction false} AppendNewElements(prior: seq<Url>, s: seq<Url>)
    ensures prior <= AppendNew(prior, s)
    ensures forall x :: x in AppendNew(prior, s) <==> x in prior || x in s
  {
    if s != [] {
      AppendNewElements(prior, s[..|s| - 1]);
      assert forall x :: x in s <==> x in s[..|s| - 1] || x == s[|s| - 1];
    }
  }

  /** A target is what some href resolves to. */
  lemma {:induction false} TargetsMeans(resolve: Resolver, hrefs: seq<string>, x: Url)
    ensures x in Targets(resolve, hrefs) <==> exists i :: 0 <= i < |hrefs| && resolve(hrefs[i]) == Some(x)
  {
    if hrefs != [] {
      var init := hrefs[..|hrefs| - 1];
      TargetsMeans(resolve, init, x);
      if x in Targets(resolve, init) {
        var i :| 0 <= i < |init| && resolve(init[i]) == Some(x);
        assert resolve(hrefs[i]) == Some(x);
      }
      if i :| 0 <= i < |hrefs| && resolve(hrefs[i]) == Some(x) {
        assert i < |init| ==> resolve(init[i]) == Some(x);
      }
    }
  }

  /** The last href adds its target at the end, or nothing. */
  lemma OneMoreHref(prior: seq<Url>, resolve: Resolver, hrefs: seq<string>)
    requires hrefs != []
    ensures var init, last := hrefs[..|hrefs| - 1], resolve(hrefs[|hrefs| - 1]);
            var before, all := AppendNew(prior, Targets(resolve, init)), AppendNew(prior, Targets(resolve, hrefs));
            all == if last == None || last.value in before then before else before + [last.value]
  {
    var init, last := hrefs[..|hrefs| - 1], resolve(hrefs[|hrefs| - 1]);
    if last == None {
      assert Targets(resolve, hrefs) == Targets(resolve, init);
    } else {
      assert Targets(resolve, hrefs)[..|Targets(resolve, init)|] == Targets(resolve, init);
    }
  }

  /** Exactly the links that some href resolves to are added. */
  lemma ExtractedElements(prior: seq<Url>, resolve: Resolver, hrefs: seq<string>)
    ensures var all := AppendNew(prior, Targets(resolve, hrefs));
            && prior <= all
            && forall x :: x in all <==> x in prior || exists i :: 0 <= i < |hrefs| && resolve(hrefs[i]) == Some(x)
  {
    AppendNewElements(prior, Targets(resolve, hrefs));
    forall x
      ensures x in Targets(resolve, hrefs) <==> exists i :: 0 <= i < |hrefs| && resolve(hrefs[i]) == Some(x)
    {
      TargetsMeans(resolve, hrefs, x);
    }
  }

  /** An href that adds its target is the first that resolves to it. */
  lemma NewTargetIsFirst(prior: seq<Url>, resolve: Resolver, hrefs: seq<string>, x: Url)
    requires hrefs != [] && resolve(hrefs[|hrefs| - 1]) == Some(x)
    requires x !in AppendNew(prior, Targets(resolve, hrefs[..|hrefs| - 1]))
    ensures LeastHref(resolve, hrefs, x) == |hrefs| - 1
  {
    var init := hrefs[..|hrefs| - 1];
    ExtractedElements(prior, resolve, init);
    assert forall j :: 0 <= j < |init| ==> resolve(init[j]) != Some(x);
  }

  /** Each new link stands in the place of the first href that resolves to it. */
  lemma {:induction false} ExtractedInOrder(prior: seq<Url>, resolve: Resolver, hrefs: seq<string>, k: nat, l: nat)
    requires |prior| <= k <= l < |AppendNew(prior, Targets(resolve, hrefs))|
    ensures var all := AppendNew(prior, Targets(resolve, hrefs));
            && LeastHref(resolve, hrefs, all[l]) < |hrefs|
            && (k < l ==> LeastHref(resolve, hrefs, all[k]) < LeastHref(resolve, hrefs, all[l]))
  {
    if hrefs != [] {
      var init := hrefs[..|hrefs| - 1];
      var before := AppendNew(prior, Targets(resolve, init));
      OneMoreHref(prior, resolve, hrefs);
      if l < |before| {
        ExtractedInOrder(prior, resolve, init, k, l);
      } else {
        NewTargetIsFirst(prior, resolve, hrefs, resolve(hrefs[|hrefs| - 1]).value);
        if k < l {
          ExtractedInOrder(prior, resolve, init, k, k);
        }
      }
    }
  }

  /** It is free of duplicates if and only if the prior links were. */
  lemma {:induction false} AppendNewHasNoDuplicates(prior: seq<Url>, s: seq<Url>)
    ensures NoDuplicates(AppendNew(prior, s)) <==> NoDuplicates(prior)
  {
    AppendNewElements(prior, s);
    if s != [] {
      AppendNewElements(prior, s[..|s| - 1]);
      AppendNewHasNoDuplicates(prior, s[..|s| - 1]);
      if NoDuplicates(AppendNew(prior, s)) {
        var all := AppendNew(prior, s);
        assert forall i :: 0 <= i < |prior| ==> prior[i] == all[i];
      }
    }
  }

  function FirstIndex(s: seq<Url>, x: Url): (i: nat)
    requires x in s
    ensures i < |s| && s[i] == x && x !in s[..i]
  {
    if s[0] == x then 0 else 1 + FirstIndex(s[1..], x)
  }

  lemma {:induction false} FirstIndexInPrefix(s: seq<Url>, t: seq<Url>, x: Url)
    requires x in s && s <= t
    ensures FirstIndex(t, x) == FirstIndex(s, x)
  {
    if s[0] != x {
      FirstIndexInPrefix(s[1..], t[1..], x);
    }
  }

  /** First occurrences keep their order: starting from duplicate-free links, the link that stands
      earlier in the result is the one that occurred earlier among prior links and targets. */
  lemma {:induction false} FirstOccurrencesKeepOrder(prior: seq<Url>, s: seq<Url>, i: nat, j: nat)
    requires NoDuplicates(prior) && i < j < |AppendNew(prior, s)|
    ensures var all := AppendNew(prior, s);
            && all[i] in prior + s && all[j] in prior + s
            && FirstIndex(prior + s, all[i]) < FirstIndex(prior + s, all[j])
  {
    AppendNewElements(prior, s);
    var all := AppendNew(prior, s);
    assert all[i] in all && all[j] in all;
    if s == [] {
      assert prior + s == prior;
      assert FirstIndex(prior, prior[i]) == i && FirstIndex(prior, prior[j]) == j;
    } else {
      var init, x := s[..|s| - 1], s[|s| - 1];
      var before := AppendNew(prior, init);
      assert prior + s == prior + init + [x];
      AppendNewElements(prior, init);
      if j < |before| {
        FirstOccurrencesKeepOrder(prior, init, i, j);
        FirstIndexInPrefix(prior + init, prior + s, all[i]);
        FirstIndexInPrefix(prior + init, prior + s, all[j]);
      } else {
        assert all[i] in before && all[i] in prior + init;
        FirstIndexInPrefix(prior + init, prior + s, all[i]);
        assert x !in prior + init;
      }
    }
  }
}
