/** One sorted key space shared by several writers, each under its own prefix: the prefix scan and
    when it sees exactly its own writer's keys. Keys are byte strings, one `char` per byte. */
module KeySpace {

  type Key = string
  type Bytes = string

  /** Lexicographic order. */
  predicate Less(a: Key, b: Key) {
    b != [] && (a == [] || a[0] < b[0] || (a[0] == b[0] && Less(a[1..], b[1..])))
  }

  /** A key is below another when, after a common start, it ends first or goes on with a smaller byte. */
  lemma {:induction false} LessMeans(a: Key, b: Key)
    ensures Less(a, b) <==>
      exists i :: 0 <= i <= |a| && i < |b| && a[..i] == b[..i] && (i == |a| || a[i] < b[i])
  {
    forall i | 0 < i <= |a| && i < |b| && a[..i] == b[..i]
      ensures a[0] == b[0] && a[1..][..i - 1] == b[1..][..i - 1]
    {
      assert a[0] == a[..i][0] && b[0] == b[..i][0];
      assert a[1..][..i - 1] == a[..i][1..] && b[1..][..i - 1] == b[..i][1..];
    }
    if a != [] && b != [] && a[0] == b[0] {
      LessMeans(a[1..], b[1..]);
      if i :| 0 <= i < |a| && i < |b| - 1 && a[1..][..i] == b[1..][..i] && (i == |a| - 1 || a[1..][i] < b[1..][i]) {
        assert a[..i + 1] == [a[0]] + a[1..][..i] && b[..i + 1] == [b[0]] + b[1..][..i];
      }
    } else {
      assert a[..0] == b[..0];
    }
  }

  ghost predicate Sorted(keys: seq<Key>) {
    forall i, j :: 0 <= i < j < |keys| ==> Less(keys[i], keys[j])
  }

  /** A key with a prefix is not below the prefix. */
  lemma {:induction false} PrefixIsLeast(prefix: Key, k: Key)
    requires prefix <= k
    ensures !Less(k, prefix)
  {
    if prefix != [] && k != [] {
      PrefixIsLeast(prefix[1..], k[1..]);
    }
  }

  /** The keys with a prefix are an interval: between the prefix and one of them lie only such keys. */
  lemma {:induction false} PrefixIsAnInterval(prefix: Key, k: Key, later: Key)
    requires !Less(k, prefix) && Less(k, later) && prefix <= later
    ensures prefix <= k
  {
    if prefix != [] {
      if k[0] == prefix[0] {
        PrefixIsAnInterval(prefix[1..], k[1..], later[1..]);
      }
    }
  }

  /** Seek to the first key that is not below the prefix, then advance while the prefix matches. On
      sorted keys this visits a contiguous run, made of exactly the keys with the prefix. */
  method Scan(keys: seq<Key>, prefix: Key) returns (lo: nat, hi: nat)
    requires Sorted(keys)
    ensures lo <= hi <= |keys|
    ensures forall i :: 0 <= i < |keys| ==> (prefix <= keys[i] <==> lo <= i < hi)
  {
    lo := 0;
    while lo < |keys| && Less(keys[lo], prefix)
      invariant lo <= |keys|
      invariant forall i :: 0 <= i < lo ==> Less(keys[i], prefix)
    {
      lo := lo + 1;
    }
    hi := lo;
    while hi < |keys| && prefix <= keys[hi]
      invariant lo <= hi <= |keys|
      invariant forall i :: lo <= i < hi ==> prefix <= keys[i]
    {
      hi := hi + 1;
    }
    forall i | 0 <= i < |keys| && prefix <= keys[i]
      ensures lo <= i < hi
    {
      PrefixIsLeast(prefix, keys[i]);
      if hi < i {
        BelowAfter(prefix, keys[lo], keys[hi]);
        PrefixIsAnInterval(prefix, keys[hi], keys[i]);
      }
    }
  }

  /** Order against the prefix is kept by going up. */
  lemma {:induction false} BelowAfter(prefix: Key, k: Key, later: Key)
    requires !Less(k, prefix) && (Less(k, later) || k == later)
    ensures !Less(later, prefix)
  {
    if k != later && prefix != [] && later != [] && later[0] == prefix[0] {
      if k != [] && k[0] == later[0] {
        BelowAfter(prefix[1..], k[1..], later[1..]);
      }
    }
  }

  // ---------------------------------------------------------------- namespaces

  /** A write under the prefix `space`. */
  datatype Put = Put(space: Key, name: Key, value: Bytes)

  function Contents(log: seq<Put>): map<Key, Bytes> {
    if log == [] then map[]
    else
      var p := log[|log| - 1];
      Contents(log[..|log| - 1])[p.space + p.name := p.value]
  }

  /** What a scan of `prefix` yields: the rest of each key, with its value. */
  function Under(db: map<Key, Bytes>, prefix: Key): (m: map<Key, Bytes>)
    ensures forall n :: n in m <==> prefix + n in db
    ensures forall n :: n in m ==> m[n] == db[prefix + n]
  {
    var names := set k | k in db && prefix <= k :: k[|prefix|..];
    assert forall n :: prefix + n in db ==> (prefix + n)[|prefix|..] == n;
    assert forall k :: k in db && prefix <= k ==> prefix + k[|prefix|..] == k;
    map n | n in names :: db[prefix + n]
  }

  /** The last value written under each name of one space. */
  function LastIn(log: seq<Put>, space: Key): map<Key, Bytes> {
    if log == [] then map[]
    else
      var p, before := log[|log| - 1], LastIn(log[..|log| - 1], space);
      if p.space == space then before[p.name := p.value] else before
  }

  /** Two spaces can hold the same key. */
  predicate Meets(a: Key, b: Key) {
    a <= b || b <= a
  }

  /** A key of space `b` can be taken for one of space `a` exactly when one prefix extends the other. */
  lemma MeetsMeaning(a: Key, b: Key)
    ensures (exists n :: a <= b + n) <==> Meets(a, b)
  {
    if Meets(a, b) {
      var n := if b <= a then a[|b|..] else [];
      assert a <= b + n;
    }
    if n :| a <= b + n {
      if |a| <= |b| {
        assert a == (b + n)[..|a|] == b[..|a|];
      } else {
        assert b == a[..|b|];
      }
    }
  }

  /** A write to a key of the space changes one name of its scan. */
  lemma OwnWrite(db: map<Key, Bytes>, space: Key, name: Key, value: Bytes)
    ensures Under(db[space + name := value], space) == Under(db, space)[name := value]
  {
    var after := Under(db[space + name := value], space);
    forall n
      ensures n in after <==> n == name || n in Under(db, space)
      ensures n in after ==> after[n] == if n == name then value else db[space + n]
    {
      assert (space + n)[|space|..] == n && (space + name)[|space|..] == name;
    }
  }

  /** A write to a key without the prefix changes nothing in the scan. */
  lemma ForeignWrite(db: map<Key, Bytes>, space: Key, key: Key, value: Bytes)
    requires !(space <= key)
    ensures Under(db[key := value], space) == Under(db, space)
  {
    var after := Under(db[key := value], space);
    forall n
      ensures n in after <==> n in Under(db, space)
      ensures n in after ==> after[n] == db[space + n]
    {
      assert space <= space + n;
    }
  }

  /** Whatever the order of the writes, the scan of a space that meets no other yields exactly the
      last value written to each of its names. */
  lemma {:induction false} ScanSeesOwnLastWrites(log: seq<Put>, space: Key)
    requires forall p :: p in log ==> p.space == space || !Meets(space, p.space)
    ensures Under(Contents(log), space) == LastIn(log, space)
  {
    if log != [] {
      var init, p := log[..|log| - 1], log[|log| - 1];
      ScanSeesOwnLastWrites(init, space);
      if p.space == space {
        OwnWrite(Contents(init), space, p.name, p.value);
      } else {
        MeetsMeaning(space, p.space);
        ForeignWrite(Contents(init), space, p.space + p.name, p.value);
      }
    }
  }

  /** The condition is needed: a single write to another space that meets this one can show up in its scan. */
  lemma MeetingSpacesLeak(space: Key, other: Key, value: Bytes)
    requires space != other && Meets(space, other)
    ensures exists n :: LastIn([Put(other, n, value)], space) == map[]
                     && Under(Contents([Put(other, n, value)]), space) != map[]
  {
    MeetsMeaning(space, other);
    var n :| space <= other + n;
    var log := [Put(other, n, value)];
    assert log[..0] == [];
    assert Contents(log) == map[other + n := value];
    var rest := (other + n)[|space|..];
    assert space + rest == other + n;
    assert rest in Under(Contents(log), space);
    assert LastIn(log, space) == map[];
  }
}
