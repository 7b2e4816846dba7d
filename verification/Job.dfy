/** Candidate selection and seeding, from `lib/job.go`. */
module JobRules {
  import opened Wrappers
  import opened CrawlTypes

  predicate OccursAt(s: string, sub: string, i: int) {
    0 <= i <= |s| - |sub| && s[i..i + |sub|] == sub
  }

  /** `strings.Contains`. */
  ghost predicate Contains(s: string, sub: string) {
    exists i :: OccursAt(s, sub, i)
  }

  ghost predicate Ignored(cfg: JobConfig, url: Url) {
    exists p :: p in cfg.ignorePatterns && Contains(url, p)
  }

  /** `d` is the first configured domain with this host. */
  ghost predicate FirstWithHost(domains: seq<Location>, host: string, d: int) {
    && 0 <= d < |domains|
    && domains[d].host == host
    && forall j :: 0 <= j < d ==> domains[j].host != host
  }

  /** Should a link be crawled? No ignore pattern occurs in it, it parses, and the
      first configured domain with its host allows its path. */
  ghost predicate Candidate(cfg: JobConfig, url: Url) {
    && !Ignored(cfg, url)
    && cfg.parse(url).Some?
    && var loc := cfg.parse(url).value;
       exists d :: FirstWithHost(cfg.domains, loc.host, d) && (loc.path == "" || cfg.domains[d].path <= loc.path)
  }

  method ContainsString(s: string, sub: string) returns (found: bool)
    ensures found <==> Contains(s, sub)
  {
    found := false;
    var i := 0;
    while i + |sub| <= |s|
      invariant 0 <= i
      invariant forall k :: 0 <= k < i ==> !OccursAt(s, sub, k)
    {
      if OccursAt(s, sub, i) {
        return true;
      }
      i := i + 1;
    }
  }

  /** A pattern occurs in a string iff the string can be cut up around it. */
  lemma ContainsMeans(s: string, sub: string)
    ensures Contains(s, sub) <==> exists a, b :: s == a + sub + b
  {
    if Contains(s, sub) {
      var i :| OccursAt(s, sub, i);
      assert s == s[..i] + sub + s[i + |sub|..];
    }
    if exists a, b :: s == a + sub + b {
      var a, b :| s == a + sub + b;
      assert OccursAt(s, sub, |a|);
    }
  }

  /** What makes a link a candidate, in terms of its text, its host and its path alone. */
  lemma CandidateMeans(cfg: JobConfig, url: Url)
    ensures Candidate(cfg, url) <==>
      && (forall a, p, b :: p in cfg.ignorePatterns ==> url != a + p + b)
      && cfg.parse(url).Some?
      && var loc := cfg.parse(url).value;
         exists d :: 0 <= d < |cfg.domains| && cfg.domains[d].host == loc.host
           && (forall j :: 0 <= j < d ==> cfg.domains[j].host != loc.host)
           && (loc.path == "" || exists rest :: loc.path == cfg.domains[d].path + rest)
  {
    forall p | p in cfg.ignorePatterns
      ensures Contains(url, p) <==> exists a, b :: url == a + p + b
    {
      ContainsMeans(url, p);
    }
    if cfg.parse(url).Some? {
      var path := cfg.parse(url).value.path;
      forall d | 0 <= d < |cfg.domains|
        ensures cfg.domains[d].path <= path <==> exists rest :: path == cfg.domains[d].path + rest
      {
        PrefixMeans(cfg.domains[d].path, path);
      }
    }
  }

  lemma PrefixMeans(prefix: string, s: string)
    ensures prefix <= s <==> exists rest :: s == prefix + rest
  {
    if prefix <= s {
      assert s == prefix + s[|prefix|..];
    }
  }

  /** With one domain: a link below it is followed, a link to the bare host too, a link to any other path or any
      other host is not, and neither is anything with an ignored text at its start, in its middle or at its end. */
  lemma LinksBelowTheDomain(cfg: JobConfig, domain: Location, url: Url, rest: string, a: string, p: string, b: string)
    requires cfg.domains == [domain]
    ensures cfg.ignorePatterns == [] && cfg.parse(url) == Some(Location(domain.host, domain.path + rest)) ==>
              Candidate(cfg, url)
    ensures cfg.ignorePatterns == [] && cfg.parse(url) == Some(Location(domain.host, "")) ==> Candidate(cfg, url)
    ensures cfg.parse(url).Some? && cfg.parse(url).value.path != "" && !(domain.path <= cfg.parse(url).value.path) ==>
              !Candidate(cfg, url)
    ensures cfg.parse(url).Some? && cfg.parse(url).value.host != domain.host ==> !Candidate(cfg, url)
    ensures cfg.parse(url) == None ==> !Candidate(cfg, url)
    ensures p in cfg.ignorePatterns ==> !Candidate(cfg, a + p + b)
  {
    CandidateMeans(cfg, url);
    CandidateMeans(cfg, a + p + b);
    if cfg.parse(url).Some? {
      assert cfg.domains[0] == domain;
      PrefixMeans(domain.path, cfg.parse(url).value.path);
    }
  }

  method UrlStringIsCandidate(cfg: JobConfig, url: Url) returns (ok: bool)
    ensures ok <==> Candidate(cfg, url)
  {
    for k := 0 to |cfg.ignorePatterns|
      invariant forall j :: 0 <= j < k ==> !Contains(url, cfg.ignorePatterns[j])
    {
      var hit := ContainsString(url, cfg.ignorePatterns[k]);
      if hit {
        return false;
      }
    }
    var parsed := cfg.parse(url);
    if parsed == None {
      return false;
    }
    var loc := parsed.value;
    for k := 0 to |cfg.domains|
      invariant forall j :: 0 <= j < k ==> cfg.domains[j].host != loc.host
    {
      if cfg.domains[k].host == loc.host {
        assert FirstWithHost(cfg.domains, loc.host, k);
        return loc.path == "" || cfg.domains[k].path <= loc.path;
      }
    }
    return false;
  }

  /** A domain listed again with a second path changes nothing: only the first listing of a host counts. */
  lemma LaterDomainsOfAHostAreDead(cfg: JobConfig, url: Url, extra: Location)
    requires exists d :: 0 <= d < |cfg.domains| && cfg.domains[d].host == extra.host
    ensures Candidate(cfg.(domains := cfg.domains + [extra]), url) <==> Candidate(cfg, url)
  {
    var more := cfg.(domains := cfg.domains + [extra]);
    assert Ignored(more, url) <==> Ignored(cfg, url);
    if cfg.parse(url).Some? {
      var host := cfg.parse(url).value.host;
      forall d
        ensures FirstWithHost(more.domains, host, d) <==> FirstWithHost(cfg.domains, host, d)
      {
        if d == |cfg.domains| && host == extra.host {
          var d0 :| 0 <= d0 < |cfg.domains| && cfg.domains[d0].host == extra.host;
          assert more.domains[d0] == cfg.domains[d0];
        }
        if d < |cfg.domains| {
          assert forall j :: 0 <= j <= d ==> more.domains[j] == cfg.domains[j];
        }
      }
    }
  }

  /** Adding an ignore pattern never makes more links candidates, and the empty pattern rejects everything. */
  lemma IgnoringIsAntitone(cfg: JobConfig, url: Url, pattern: string)
    ensures Candidate(cfg.(ignorePatterns := cfg.ignorePatterns + [pattern]), url)
       <==> Candidate(cfg, url) && !Contains(url, pattern)
    ensures pattern == "" ==> !Candidate(cfg.(ignorePatterns := cfg.ignorePatterns + [pattern]), url)
  {
    var more := cfg.(ignorePatterns := cfg.ignorePatterns + [pattern]);
    assert more.ignorePatterns[|cfg.ignorePatterns|] == pattern;
    assert forall p :: p in more.ignorePatterns <==> p in cfg.ignorePatterns || p == pattern;
    assert Candidate(more, url) <==> Candidate(cfg, url) && !Contains(url, pattern);
    assert OccursAt(url, "", 0);
  }

  /** Where the seeds beyond the configured ones come from: nowhere, or a file that can or cannot be read. */
  datatype SeedsPath = NoPath | Unreadable | Lines(lines: seq<Url>)

  /** The seed channel: configured seeds first, then the lines of the seeds file, if there is one. A path
      that cannot be read fails the whole, configured seeds included. */
  method Seeds(cfg: JobConfig, path: SeedsPath) returns (seeds: Option<seq<Url>>)
    ensures path.Unreadable? <==> seeds == None
    ensures path.NoPath? ==> seeds == Some(cfg.seeds)
    ensures path.Lines? ==> seeds == Some(cfg.seeds + path.lines)
  {
    if path.Unreadable? {
      return None;
    }
    var channel: seq<Url> := [];
    for i := 0 to |cfg.seeds|
      invariant channel == cfg.seeds[..i]
    {
      channel := channel + [cfg.seeds[i]];
    }
    assert channel == cfg.seeds;
    if path.Lines? {
      for i := 0 to |path.lines|
        invariant channel == cfg.seeds + path.lines[..i]
      {
        channel := channel + [path.lines[i]];
      }
      assert path.lines[..|path.lines|] == path.lines;
    }
    return Some(channel);
  }
}
