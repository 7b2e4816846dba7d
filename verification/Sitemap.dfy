/** Sitemap generators and the request store on one Badger database: `lib/sitemap.go` and the Badger
    half of `lib/request_store.go`. */
module Sitemap {
  import opened Wrappers
  import opened KeySpace

  /** The fields of a resource that a sitemap keeps. */
  datatype SiteEntry = SiteEntry(url: string, title: string, timestamp: int, status: int, links: seq<string>)

  /** Foreign code: URL normalization and the JSON codec, either of which may fail. */
  datatype Codec = Codec(
    normalize: string -> Option<string>,
    marshal: SiteEntry -> Option<Bytes>,
    unmarshal: Bytes -> Option<SiteEntry>)

  /** Decoding undoes encoding. */
  ghost predicate RoundTrips(c: Codec) {
    forall e :: c.marshal(e).Some? ==> c.unmarshal(c.marshal(e).value) == Some(e)
  }

  const REQUEST_SPACE := "rs."

  function SpaceOf(prefix: string): Key {
    prefix + ":"
  }

  class Database {
    var entries: map<Key, Bytes>

    constructor ()
      ensures entries == map[]
    {
      entries := map[];
    }

    method Set(key: Key, value: Bytes)
      modifies this
      ensures entries == old(entries)[key := value]
    {
      entries := entries[key := value];
    }
  }

  /** The order in which an iterator visits the keys of the database. */
  ghost predicate Iterates(keys: seq<Key>, entries: map<Key, Bytes>) {
    Sorted(keys) && forall k :: k in keys <==> k in entries
  }

  /** Decoded values, if all of them decode. */
  function Decoded(c: Codec, m: map<Key, Bytes>): Option<map<string, SiteEntry>> {
    if forall n :: n in m ==> c.unmarshal(m[n]).Some? then Some(map n | n in m :: c.unmarshal(m[n]).value)
    else None
  }

  /** `sm` holds the decoded values of `m`. */
  ghost predicate Decodes(c: Codec, m: map<Key, Bytes>, sm: map<string, SiteEntry>) {
    && (forall n :: n in m ==> n in sm)
    && forall n :: n in sm ==> n in m && c.unmarshal(m[n]) == Some(sm[n])
  }

  lemma DecodedIs(c: Codec, m: map<Key, Bytes>, sm: map<string, SiteEntry>)
    requires Decodes(c, m, sm)
    ensures Decoded(c, m) == Some(sm)
  {
    assert sm == map n | n in m :: c.unmarshal(m[n]).value;
  }

  /** What that comes to for a generator: exactly the names that stand behind its prefix and a colon, each with its
      decoded value, or nothing if one of those values does not decode. */
  lemma SitemapMeans(c: Codec, entries: map<Key, Bytes>, prefix: string)
    ensures var sitemap := Decoded(c, Under(entries, prefix + ":"));
            && (sitemap == None <==>
                  exists n :: prefix + ":" + n in entries && c.unmarshal(entries[prefix + ":" + n]) == None)
            && (sitemap.Some? ==> forall n :: n in sitemap.value <==> prefix + ":" + n in entries)
            && (sitemap.Some? ==> forall n :: n in sitemap.value ==>
                  c.unmarshal(entries[prefix + ":" + n]) == Some(sitemap.value[n]))
  {
  }

  /** What handling `e` writes, if its URL and its encoding are good. */
  function WriteOf(c: Codec, prefix: string, e: SiteEntry): seq<Put> {
    match (c.normalize(e.url), c.marshal(e))
    case (Some(name), Some(value)) => [Put(SpaceOf(prefix), name, value)]
    case _ => []
  }

  function Written(entries: map<Key, Bytes>, puts: seq<Put>): map<Key, Bytes>
    decreases |puts|
  {
    if puts == [] then entries else Written(entries[puts[0].space + puts[0].name := puts[0].value], puts[1..])
  }

  /** The names of a space are those of the keys its scan visits. */
  lemma AllNamesSeen(keys: seq<Key>, entries: map<Key, Bytes>, space: Key, lo: nat, hi: nat, seen: set<Key>)
    requires Iterates(keys, entries) && lo <= hi <= |keys|
    requires forall i :: 0 <= i < |keys| ==> (space <= keys[i] <==> lo <= i < hi)
    requires forall j :: lo <= j < hi ==> keys[j][|space|..] in seen
    ensures forall n :: n in Under(entries, space) ==> n in seen
  {
    forall n | n in Under(entries, space)
      ensures n in seen
    {
      var k := space + n;
      assert k in keys && space <= k && k[|space|..] == n;
    }
  }

  /** A key with the generator's prefix stands for one name of its space. */
  lemma KeyIsUnder(keys: seq<Key>, entries: map<Key, Bytes>, space: Key, i: nat)
    requires Iterates(keys, entries) && i < |keys| && space <= keys[i]
    ensures var n, own := keys[i][|space|..], Under(entries, space);
            keys[i] in entries && n in own && own[n] == entries[keys[i]]
  {
    assert keys[i] in keys && keys[i] == space + keys[i][|space|..];
  }

  /** `sm` holds what has been decoded of the keys from `lo` to `i`. */
  ghost predicate ReadSoFar(
    c: Codec, own: map<Key, Bytes>, keys: seq<Key>, space: Key, lo: nat, i: nat, sm: map<string, SiteEntry>)
  {
    && i <= |keys|
    && (forall j :: lo <= j < i ==> space <= keys[j] && keys[j][|space|..] in sm)
    && forall n :: n in sm ==> n in own && c.unmarshal(own[n]) == Some(sm[n])
  }

  lemma ReadOneMore(
    c: Codec, own: map<Key, Bytes>, keys: seq<Key>, space: Key, lo: nat, i: nat, sm: map<string, SiteEntry>,
    n: string, e: SiteEntry)
    requires ReadSoFar(c, own, keys, space, lo, i, sm) && i < |keys| && space <= keys[i] && n == keys[i][|space|..]
    requires n in own && c.unmarshal(own[n]) == Some(e)
    ensures ReadSoFar(c, own, keys, space, lo, i + 1, sm[n := e])
  {
  }

  class SitemapGenerator {
    const prefix: string
    const db: Database
    const codec: Codec

    constructor (prefix: string, db: Database, codec: Codec)
      ensures this.prefix == prefix && this.db == db && this.codec == codec
    {
      this.prefix, this.db, this.codec := prefix, db, codec;
    }

    /** `updates` says whether the database accepts the write; if not, the failure is only logged. */
    method HandleResource(e: SiteEntry, updates: bool)
      modifies db
      ensures db.entries == if updates then Written(old(db.entries), WriteOf(codec, prefix, e)) else old(db.entries)
      ensures var (name, value) := (codec.normalize(e.url), codec.marshal(e));
              db.entries == if updates && name.Some? && value.Some?
                            then old(db.entries)[prefix + ":" + name.value := value.value] else old(db.entries)
    {
      var name := codec.normalize(e.url);
      if name == None {
        return;
      }
      var value := codec.marshal(e);
      if value == None {
        return;
      }
      if !updates {
        return;
      }
      db.Set(SpaceOf(prefix) + name.value, value.value);
      assert WriteOf(codec, prefix, e)[1..] == [];
    }

    /** Scans the generator's keys and decodes what it finds; a value that does not decode fails the whole. */
    method Generate(keys: seq<Key>) returns (sitemap: Option<map<string, SiteEntry>>)
      requires Iterates(keys, db.entries)
      ensures sitemap == Decoded(codec, Under(db.entries, SpaceOf(prefix)))
      ensures sitemap == None <==>
                exists n :: prefix + ":" + n in db.entries && codec.unmarshal(db.entries[prefix + ":" + n]) == None
      ensures sitemap.Some? ==> forall n :: n in sitemap.value <==> prefix + ":" + n in db.entries
      ensures sitemap.Some? ==> forall n :: n in sitemap.value ==>
                codec.unmarshal(db.entries[prefix + ":" + n]) == Some(sitemap.value[n])
    {
      SitemapMeans(codec, db.entries, prefix);
      var space := SpaceOf(prefix);
      ghost var own := Under(db.entries, space);
      var lo, hi := Scan(keys, space);
      var sm: map<string, SiteEntry> := map[];
      var i := lo;
      while i < hi
        invariant lo <= i <= hi && ReadSoFar(codec, own, keys, space, lo, i, sm)
      {
        var name := keys[i][|space|..];
        KeyIsUnder(keys, db.entries, space, i);
        var e := codec.unmarshal(db.entries[keys[i]]);
        if e == None {
          return None;
        }
        ReadOneMore(codec, own, keys, space, lo, i, sm, name, e.value);
        sm := sm[name := e.value];
        i := i + 1;
      }
      AllNamesSeen(keys, db.entries, space, lo, hi, sm.Keys);
      DecodedIs(codec, own, sm);
      return Some(sm);
    }
  }

  /** The Badger request store: keys are "rs." followed by the URL. A missing key comes back as
      Badger's own error, here `None`. */
  class BadgerRequestStore {
    const db: Database

    constructor (db: Database)
      ensures this.db == db
    {
      this.db := db;
    }

    method PutRequest(url: string, encoded: Bytes)
      modifies db
      ensures db.entries == Written(old(db.entries), [Put(REQUEST_SPACE, url, encoded)])
      ensures db.entries == old(db.entries)["rs." + url := encoded]
    {
      db.Set(REQUEST_SPACE + url, encoded);
    }

    method GetRequest(url: string) returns (encoded: Option<Bytes>)
      ensures encoded == (if "rs." + url in db.entries then Some(db.entries["rs." + url]) else None)
    {
      encoded := if REQUEST_SPACE + url in db.entries then Some(db.entries[REQUEST_SPACE + url]) else None;
    }

    /** The keys of requests are `keys[lo..lo + |listed|]`, and `listed` are their values, decoded. */
    ghost predicate ListedFrom<R>(decode: Bytes -> Option<R>, keys: seq<Key>, lo: nat, listed: seq<R>)
      reads this, db
      requires Iterates(keys, db.entries)
    {
      && lo + |listed| <= |keys|
      && (forall i :: 0 <= i < |keys| ==> (REQUEST_SPACE <= keys[i] <==> lo <= i < lo + |listed|))
      && forall i :: 0 <= i < |listed| ==>
           keys[lo + i] in db.entries && decode(db.entries[keys[lo + i]]) == Some(listed[i])
    }

    /** Limit and offset are ignored: the decoded values of all request keys, each once, in key order, or a
        failure if some value does not decode. */
    method ListRequests<R>(decode: Bytes -> Option<R>, keys: seq<Key>) returns (result: Option<seq<R>>)
      requires Iterates(keys, db.entries)
      ensures result == None <==>
                exists k :: k in db.entries && "rs." <= k && decode(db.entries[k]) == None
      ensures result.Some? ==> exists lo :: ListedFrom(decode, keys, lo, result.value)
    {
      var from, to := Scan(keys, REQUEST_SPACE);
      var listed: seq<R> := [];
      for i := from to to
        invariant |listed| == i - from
        invariant forall j :: 0 <= j < |listed| ==> decode(db.entries[keys[from + j]]) == Some(listed[j])
      {
        assert keys[i] in keys;
        var r := decode(db.entries[keys[i]]);
        if r == None {
          return None;
        }
        listed := listed + [r.value];
      }
      assert ListedFrom(decode, keys, from, listed);
      forall k | k in db.entries && REQUEST_SPACE <= k
        ensures decode(db.entries[k]).Some?
      {
        assert k in keys;
        var i :| 0 <= i < |keys| && keys[i] == k;
        var j := i - from;
        assert decode(db.entries[keys[from + j]]) == Some(listed[j]);
      }
      return Some(listed);
    }
  }

  // ---------------------------------------------------------------- isolation

  /** One write to the shared database: a generator handles an entry, or the request store puts a request. */
  datatype Write = Handle(prefix: string, entry: SiteEntry) | Store(url: string, encoded: Bytes)

  function PutsOf(c: Codec, w: Write): seq<Put> {
    match w
    case Handle(prefix, e) => WriteOf(c, prefix, e)
    case Store(url, encoded) => [Put(REQUEST_SPACE, url, encoded)]
  }

  function Puts(c: Codec, log: seq<Write>): seq<Put> {
    if log == [] then [] else Puts(c, log[..|log| - 1]) + PutsOf(c, log[|log| - 1])
  }

  /** The last entry a generator handled for each normalized URL. */
  function OwnLast(c: Codec, log: seq<Write>, prefix: string): map<string, SiteEntry> {
    if log == [] then map[]
    else
      var before := OwnLast(c, log[..|log| - 1], prefix);
      match log[|log| - 1]
      case Store(_, _) => before
      case Handle(p, e) =>
        if p == prefix && c.normalize(e.url).Some? && c.marshal(e).Some? then before[c.normalize(e.url).value := e]
        else before
  }

  /** The generators' prefixes contain no colon and do not start with "rs.". */
  ghost predicate GoodPrefix(prefix: string) {
    ':' !in prefix && !(REQUEST_SPACE <= prefix)
  }

  /** Where the first colon of `s` is. */
  function ColonAt(s: string): nat {
    if s == [] || s[0] == ':' then 0 else 1 + ColonAt(s[1..])
  }

  lemma {:induction false} SpaceHasItsColonAtTheEnd(p: string, rest: string)
    requires ':' !in p
    ensures ColonAt(SpaceOf(p) + rest) == |p|
  {
    if p != [] {
      SpaceHasItsColonAtTheEnd(p[1..], rest);
      assert (SpaceOf(p) + rest)[1..] == SpaceOf(p[1..]) + rest;
    }
  }

  lemma ExtendedSpaceIsEqual(p: string, q: string)
    requires ':' !in p && ':' !in q && SpaceOf(p) <= SpaceOf(q)
    ensures p == q
  {
    var rest := SpaceOf(q)[|p| + 1..];
    assert SpaceOf(q) == SpaceOf(p) + rest;
    assert SpaceOf(q) + [] == SpaceOf(q);
    SpaceHasItsColonAtTheEnd(p, rest);
    SpaceHasItsColonAtTheEnd(q, []);
    assert p == SpaceOf(p)[..|p|] && q == SpaceOf(q)[..|q|];
  }

  lemma ColonFreeSpacesMeetOnlyIfEqual(p: string, q: string)
    requires ':' !in p && ':' !in q
    ensures Meets(SpaceOf(p), SpaceOf(q)) <==> p == q
  {
    if SpaceOf(p) <= SpaceOf(q) {
      ExtendedSpaceIsEqual(p, q);
    }
    if SpaceOf(q) <= SpaceOf(p) {
      ExtendedSpaceIsEqual(q, p);
    }
  }

  lemma SpaceMeetsRequests(p: string)
    ensures Meets(SpaceOf(p), REQUEST_SPACE) <==> REQUEST_SPACE <= p
    ensures SpaceOf(p) != REQUEST_SPACE
  {
    var a := SpaceOf(p);
    assert a[|p|] == ':';
    assert a[..|p|] == p;
    assert REQUEST_SPACE <= a ==> a[0] == 'r' && a[1] == 's' && a[2] == '.';
  }

  /** Some key of a generator can be a request's exactly when the generator's prefix starts with "rs.". */
  lemma MeetsRequestsIff(p: string)
    ensures (exists name, url :: p + ":" + name == "rs." + url) <==> "rs." <= p
  {
    SpaceMeetsRequests(p);
    if "rs." <= p {
      var url := (p + ":")[3..];
      assert p + ":" + "" == "rs." + url;
    }
    if name, url :| p + ":" + name == "rs." + url {
      MeetsMeaning(SpaceOf(p), REQUEST_SPACE);
      assert SpaceOf(p) <= REQUEST_SPACE + url;
    }
  }

  /** One more entry of the generator's own, in the log and in its view of it. */
  lemma OneMoreOwn(c: Codec, before: seq<Put>, prefix: string, e: SiteEntry, own: map<string, SiteEntry>)
    requires RoundTrips(c) && c.normalize(e.url).Some? && c.marshal(e).Some?
    requires Decoded(c, LastIn(before, SpaceOf(prefix))) == Some(own)
    ensures Decoded(c, LastIn(before + WriteOf(c, prefix, e), SpaceOf(prefix)))
         == Some(own[c.normalize(e.url).value := e])
  {
    var put := Put(SpaceOf(prefix), c.normalize(e.url).value, c.marshal(e).value);
    assert (before + [put])[..|before|] == before;
    DecodedUpdate(c, LastIn(before, SpaceOf(prefix)), put.name, e);
  }

  /** A write of another generator, or one that fails, leaves the generator's view alone. */
  lemma OneMoreForeign(c: Codec, before: seq<Put>, prefix: string, p: string, e: SiteEntry)
    requires ':' !in prefix && ':' !in p
    requires p != prefix || c.normalize(e.url) == None || c.marshal(e) == None
    ensures LastIn(before + WriteOf(c, p, e), SpaceOf(prefix)) == LastIn(before, SpaceOf(prefix))
  {
    if c.normalize(e.url).Some? && c.marshal(e).Some? {
      ColonFreeSpacesMeetOnlyIfEqual(p, prefix);
      LastInSkips(before, Put(SpaceOf(p), c.normalize(e.url).value, c.marshal(e).value), SpaceOf(prefix));
    } else {
      assert before + [] == before;
    }
  }

  /** A request that is stored leaves it alone too. */
  lemma OneMoreStore(before: seq<Put>, prefix: string, url: string, encoded: Bytes)
    ensures LastIn(before + [Put(REQUEST_SPACE, url, encoded)], SpaceOf(prefix)) == LastIn(before, SpaceOf(prefix))
  {
    SpaceMeetsRequests(prefix);
    LastInSkips(before, Put(REQUEST_SPACE, url, encoded), SpaceOf(prefix));
  }

  lemma OwnLastOneMore(c: Codec, init: seq<Write>, w: Write, prefix: string)
    ensures OwnLast(c, init + [w], prefix)
         == if w.Handle? && w.prefix == prefix && c.normalize(w.entry.url).Some? && c.marshal(w.entry).Some?
            then OwnLast(c, init, prefix)[c.normalize(w.entry.url).value := w.entry] else OwnLast(c, init, prefix)
  {
    assert (init + [w])[..|init|] == init;
  }

  /** What one more write does to the generator's view. */
  lemma OneMoreWrite(c: Codec, init: seq<Write>, before: seq<Put>, w: Write, prefix: string)
    requires RoundTrips(c) && ':' !in prefix && (w.Handle? ==> ':' !in w.prefix)
    requires Decoded(c, LastIn(before, SpaceOf(prefix))) == Some(OwnLast(c, init, prefix))
    ensures Decoded(c, LastIn(before + PutsOf(c, w), SpaceOf(prefix))) == Some(OwnLast(c, init + [w], prefix))
  {
    OwnLastOneMore(c, init, w, prefix);
    match w
    case Store(url, encoded) => OneMoreStore(before, prefix, url, encoded);
    case Handle(p, e) =>
      if p == prefix && c.normalize(e.url).Some? && c.marshal(e).Some? {
        OneMoreOwn(c, before, prefix, e, OwnLast(c, init, prefix));
      } else {
        OneMoreForeign(c, before, prefix, p, e);
      }
  }

  lemma NothingWritten(c: Codec, prefix: string)
    ensures Decoded(c, LastIn(Puts(c, []), SpaceOf(prefix))) == Some(OwnLast(c, [], prefix))
  {
    assert Puts(c, []) == [] && LastIn([], SpaceOf(prefix)) == map[];
  }

  lemma PutsOneMore(c: Codec, init: seq<Write>, w: Write)
    ensures Puts(c, init + [w]) == Puts(c, init) + PutsOf(c, w)
  {
    assert (init + [w])[..|init|] == init;
  }

  /** What a generator sees of the database is what it handled last. */
  ghost predicate SeesOwnLast(c: Codec, puts: seq<Put>, prefix: string, own: map<string, SiteEntry>) {
    Decoded(c, LastIn(puts, SpaceOf(prefix))) == Some(own)
  }

  lemma LastWrite(c: Codec, log: seq<Write>, init: seq<Write>, w: Write, prefix: string)
    requires RoundTrips(c) && ':' !in prefix && (w.Handle? ==> ':' !in w.prefix) && log == init + [w]
    requires SeesOwnLast(c, Puts(c, init), prefix, OwnLast(c, init, prefix))
    ensures SeesOwnLast(c, Puts(c, log), prefix, OwnLast(c, log, prefix))
  {
    OneMoreWrite(c, init, Puts(c, init), w, prefix);
    PutsOneMore(c, init, w);
  }

  lemma {:induction false} OwnLastIsLastIn(c: Codec, log: seq<Write>, prefix: string)
    requires RoundTrips(c) && ':' !in prefix
    requires forall i :: 0 <= i < |log| && log[i].Handle? ==> ':' !in log[i].prefix
    ensures SeesOwnLast(c, Puts(c, log), prefix, OwnLast(c, log, prefix))
  {
    if log == [] {
      NothingWritten(c, prefix);
    } else {
      var init, w := log[..|log| - 1], log[|log| - 1];
      OwnLastIsLastIn(c, init, prefix);
      LastWrite(c, log, init, w, prefix);
    }
  }

  lemma LastInSkips(log: seq<Put>, put: Put, space: Key)
    requires put.space != space
    ensures LastIn(log + [put], space) == LastIn(log, space)
  {
    assert (log + [put])[..|log|] == log;
  }

  lemma DecodedUpdate(c: Codec, m: map<Key, Bytes>, name: Key, e: SiteEntry)
    requires RoundTrips(c) && c.marshal(e).Some? && Decoded(c, m).Some?
    ensures Decoded(c, m[name := c.marshal(e).value]) == Some(Decoded(c, m).value[name := e])
  {
    var m' := m[name := c.marshal(e).value];
    assert forall n :: n in m' ==> c.unmarshal(m'[n]).Some?;
    assert (map n | n in m' :: c.unmarshal(m'[n]).value) == (map n | n in m :: c.unmarshal(m[n]).value)[name := e];
  }

  lemma {:induction false} PutsAreApart(c: Codec, log: seq<Write>, prefix: string)
    requires GoodPrefix(prefix) && forall w :: w in log && w.Handle? ==> GoodPrefix(w.prefix)
    ensures forall p :: p in Puts(c, log) ==> p.space == SpaceOf(prefix) || !Meets(SpaceOf(prefix), p.space)
  {
    if log != [] {
      var init, w := log[..|log| - 1], log[|log| - 1];
      PutsAreApart(c, init, prefix);
      match w
      case Store(_, _) => SpaceMeetsRequests(prefix);
      case Handle(p, e) => ColonFreeSpacesMeetOnlyIfEqual(prefix, p);
    }
  }

  /** Namespace isolation: on a database shared by any number of generators with colon-free prefixes
      that do not start with "rs." and by the request store, what `Generate` yields is exactly the
      last entry its own generator handled for each normalized URL, in whatever order all writes came. */
  lemma GenerateYieldsOwnLastEntries(c: Codec, log: seq<Write>, prefix: string)
    requires RoundTrips(c) && GoodPrefix(prefix)
    requires forall w :: w in log && w.Handle? ==> GoodPrefix(w.prefix)
    ensures Decoded(c, Under(Contents(Puts(c, log)), SpaceOf(prefix))) == Some(OwnLast(c, log, prefix))
  {
    PutsAreApart(c, log, prefix);
    ScanSeesOwnLastWrites(Puts(c, log), SpaceOf(prefix));
    OwnLastIsLastIn(c, log, prefix);
  }

  /** The last encoding put for each URL. */
  function LastStored(log: seq<Write>): map<string, Bytes> {
    if log == [] then map[]
    else
      var before, w := LastStored(log[..|log| - 1]), log[|log| - 1];
      if w.Store? then before[w.url := w.encoded] else before
  }

  lemma {:induction false} LastStoredIsLastIn(c: Codec, log: seq<Write>)
    ensures LastIn(Puts(c, log), REQUEST_SPACE) == LastStored(log)
  {
    if log != [] {
      var init, w := log[..|log| - 1], log[|log| - 1];
      LastStoredIsLastIn(c, init);
      match w
      case Store(url, encoded) =>
        assert (Puts(c, init) + PutsOf(c, w))[..|Puts(c, init)|] == Puts(c, init);
      case Handle(p, e) =>
        SpaceMeetsRequests(p);
        if PutsOf(c, w) == [] {
          assert Puts(c, init) + [] == Puts(c, init);
        } else {
          LastInSkips(Puts(c, init), PutsOf(c, w)[0], REQUEST_SPACE);
        }
    }
  }

  /** The other side of isolation: the request store reads back exactly the last request put for each
      URL, if no generator's prefix starts with "rs.". */
  lemma {:induction false} RequestsReadBackLastPuts(c: Codec, log: seq<Write>)
    requires forall w :: w in log && w.Handle? ==> !(REQUEST_SPACE <= w.prefix)
    ensures Under(Contents(Puts(c, log)), REQUEST_SPACE) == LastStored(log)
  {
    RequestPutsAreApart(c, log);
    ScanSeesOwnLastWrites(Puts(c, log), REQUEST_SPACE);
    LastStoredIsLastIn(c, log);
  }

  lemma {:induction false} RequestPutsAreApart(c: Codec, log: seq<Write>)
    requires forall w :: w in log && w.Handle? ==> !(REQUEST_SPACE <= w.prefix)
    ensures forall p :: p in Puts(c, log) ==> p.space == REQUEST_SPACE || !Meets(REQUEST_SPACE, p.space)
  {
    if log != [] {
      RequestPutsAreApart(c, log[..|log| - 1]);
      match log[|log| - 1]
      case Store(_, _) =>
      case Handle(p, _) => SpaceMeetsRequests(p);
    }
  }

  lemma {:induction false} WrittenIsContents(log: seq<Put>, puts: seq<Put>)
    ensures Written(Contents(log), puts) == Contents(log + puts)
    decreases |puts|
  {
    if puts == [] {
      assert log + puts == log;
    } else {
      assert (log + [puts[0]])[..|log|] == log;
      WrittenIsContents(log + [puts[0]], puts[1..]);
      assert log + [puts[0]] + puts[1..] == log + puts;
    }
  }

  /** The database after one more write of the log is what `HandleResource` or `PutRequest` makes of it. */
  lemma ContentsFollowTheMethods(c: Codec, log: seq<Write>, w: Write)
    ensures Contents(Puts(c, log + [w])) == Written(Contents(Puts(c, log)), PutsOf(c, w))
  {
    assert (log + [w])[..|log|] == log;
    WrittenIsContents(Puts(c, log), PutsOf(c, w));
  }

  /** The database after a single write of the request store. */
  lemma OneStore(c: Codec, url: string, encoded: Bytes)
    ensures Puts(c, [Store(url, encoded)]) == [Put(REQUEST_SPACE, url, encoded)]
  {
    var log := [Store(url, encoded)];
    assert log[..0] == [];
    assert Puts(c, []) == [];
  }

  lemma StoredIsMisread(c: Codec, p: string, url: string, encoded: Bytes, m: map<Key, Bytes>)
    requires m != map[]
    ensures Decoded(c, m) != Some(OwnLast(c, [Store(url, encoded)], p))
  {
    var log := [Store(url, encoded)];
    assert log[..0] == [] && OwnLast(c, log, p) == map[];
    var n :| n in m;
    if Decoded(c, m).Some? {
      assert n in Decoded(c, m).value;
    }
  }

  /** A generator whose prefix starts with "rs." can trip over a stored request: it decodes one as an entry of
      its own, or fails because one does not decode. */
  lemma RequestPrefixMisreads(c: Codec, p: string, encoded: Bytes)
    requires REQUEST_SPACE <= p
    ensures exists url :: var log := [Store(url, encoded)];
              Decoded(c, Under(Contents(Puts(c, log)), SpaceOf(p))) != Some(OwnLast(c, log, p))
  {
    SpaceMeetsRequests(p);
    MeetingSpacesLeak(SpaceOf(p), REQUEST_SPACE, encoded);
    var url :| Under(Contents([Put(REQUEST_SPACE, url, encoded)]), SpaceOf(p)) != map[];
    OneStore(c, url, encoded);
    StoredIsMisread(c, p, url, encoded, Under(Contents([Put(REQUEST_SPACE, url, encoded)]), SpaceOf(p)));
  }
}
