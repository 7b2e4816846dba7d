/** Response headers as a flat list and back, from `lib/resource.go`: `rawHeadersSlice` and `HeadersMap`. */
module Headers {
  import opened Wrappers

  /** `strings.Join(values, ",")`. */
  function Joined(values: seq<string>): string {
    if values == [] then ""
    else if |values| == 1 then values[0]
    else values[0] + "," + Joined(values[1..])
  }

  /** The header map with the values of each key joined. */
  function JoinedMap(header: map<string, seq<string>>): map<string, string> {
    map k | k in header :: Joined(header[k])
  }

  /** [key, value, key, value, ...] in the order in which the map yields its keys. */
  function Flat(header: map<string, seq<string>>, order: seq<string>): (flat: seq<string>)
    requires forall k :: k in order ==> k in header
    ensures |flat| == 2 * |order|
  {
    if order == [] then []
    else
      var k := order[|order| - 1];
      Flat(header, order[..|order| - 1]) + [k, Joined(header[k])]
  }

  /** Cuts a string at its commas. */
  function Split(s: string): (parts: seq<string>)
    ensures parts != []
  {
    if s == [] then [""]
    else
      var parts := Split(s[1..]);
      if s[0] == ',' then [""] + parts else [[s[0]] + parts[0]] + parts[1..]
  }

  lemma {:induction false} SplitAtFirstComma(v: string, rest: string)
    requires ',' !in v
    ensures Split(v) == [v] && Split(v + "," + rest) == [v] + Split(rest)
  {
    if v == [] {
      assert v + "," + rest == "," + rest && ("," + rest)[1..] == rest;
    } else {
      SplitAtFirstComma(v[1..], rest);
      assert (v + "," + rest)[1..] == v[1..] + "," + rest;
      assert [v[0]] + v[1..] == v;
    }
  }

  /** No value is lost: cutting at the commas undoes joining, unless a value has a comma of its own or there are
      no values. */
  lemma {:induction false} SplitUndoesJoin(values: seq<string>)
    requires values != [] && forall v :: v in values ==> ',' !in v
    ensures Split(Joined(values)) == values
  {
    if |values| == 1 {
      SplitAtFirstComma(values[0], "");
      assert values == [values[0]];
    } else {
      SplitUndoesJoin(values[1..]);
      SplitAtFirstComma(values[0], Joined(values[1..]));
      assert values == [values[0]] + values[1..];
    }
  }

  /** Whatever the values are, one more is added behind a comma. */
  lemma {:induction false} JoinedOneMore(values: seq<string>, v: string)
    ensures Joined(values + [v]) == if values == [] then v else Joined(values) + "," + v
  {
    if values == [] {
      assert values + [v] == [v];
    } else {
      JoinedOneMore(values[1..], v);
      assert (values + [v])[1..] == values[1..] + [v];
      if |values| > 1 {
        assert Joined(values) == values[0] + "," + Joined(values[1..]);
      }
    }
  }

  /** The flat list alternates keys and their joined values. */
  lemma {:induction false} FlatAlternates(header: map<string, seq<string>>, order: seq<string>, i: nat)
    requires (forall k :: k in order ==> k in header) && i < |order|
    ensures var flat := Flat(header, order); flat[2 * i] == order[i] && flat[2 * i + 1] == Joined(header[order[i]])
  {
    if i < |order| - 1 {
      FlatAlternates(header, order[..|order| - 1], i);
    }
  }

  method RawHeadersSlice(header: map<string, seq<string>>) returns (flat: seq<string>)
    ensures exists order :: Lists(order, header.Keys) && flat == Flat(header, order)
  {
    flat := [];
    ghost var order: seq<string> := [];
    var rest := header.Keys;
    while rest != {}
      invariant rest <= header.Keys
      invariant Lists(order, header.Keys - rest)
      invariant flat == Flat(header, order)
      decreases rest
    {
      var k :| k in rest;
      rest := rest - {k};
      assert (order + [k])[..|order|] == order;
      order := order + [k];
      flat := flat + [k, Joined(header[k])];
    }
  }

  /** The value after the last occurrence of each key. */
  function Paired(flat: seq<string>): map<string, string>
    requires |flat| % 2 == 0
  {
    if flat == [] then map[]
    else Paired(flat[..|flat| - 2])[flat[|flat| - 2] := flat[|flat| - 1]]
  }

  /** The map that is read back has exactly the keys that stand at even places. */
  lemma {:induction false} PairedKeys(flat: seq<string>, k: string)
    requires |flat| % 2 == 0
    ensures k in Paired(flat) <==> exists i :: 0 <= i < |flat| && i % 2 == 0 && flat[i] == k
  {
    if flat != [] {
      var init := flat[..|flat| - 2];
      PairedKeys(init, k);
      assert forall i :: 0 <= i < |init| ==> init[i] == flat[i];
    }
  }

  /** Each key has the value that follows its last occurrence. */
  lemma {:induction false} LastPairWins(flat: seq<string>, i: nat)
    requires |flat| % 2 == 0 && i < |flat| && i % 2 == 0
    requires forall j :: i < j < |flat| && j % 2 == 0 ==> flat[j] != flat[i]
    ensures flat[i] in Paired(flat) && Paired(flat)[flat[i]] == flat[i + 1]
  {
    if i < |flat| - 2 {
      LastPairWins(flat[..|flat| - 2], i);
    }
  }

  /** Reads the pairs back. A list of odd length makes the Go code index past its end. */
  method HeadersMap(flat: seq<string>) returns (headers: map<string, string>)
    requires |flat| % 2 == 0
    ensures headers == Paired(flat)
  {
    headers := map[];
    for i := 0 to |flat|
      invariant headers == Paired(flat[..if i % 2 == 0 then i else i + 1])
    {
      if i % 2 == 0 {
        assert flat[..i + 2][..i] == flat[..i];
        headers := headers[flat[i] := flat[i + 1]];
      }
    }
    assert flat[..|flat|] == flat;
  }

  /** Header round trip: flattening and reading back gives the joined map, whatever the map's iteration order. */
  lemma RoundTrip(header: map<string, seq<string>>, order: seq<string>)
    requires Lists(order, header.Keys)
    ensures Paired(Flat(header, order)) == JoinedMap(header)
  {
    PairedFlat(header, order);
    var back := Paired(Flat(header, order));
    assert forall k :: k in back <==> k in header;
    assert forall k :: k in back ==> back[k] == Joined(header[k]);
  }

  /** Flattening, reading back and cutting at the commas gives the values of each key again. */
  lemma ValuesSurvive(header: map<string, seq<string>>, order: seq<string>, k: string)
    requires Lists(order, header.Keys) && k in header
    requires header[k] != [] && forall v :: v in header[k] ==> ',' !in v
    ensures var back := Paired(Flat(header, order)); k in back && Split(back[k]) == header[k]
  {
    RoundTrip(header, order);
    SplitUndoesJoin(header[k]);
  }

  lemma {:induction false} PairedFlat(header: map<string, seq<string>>, order: seq<string>)
    requires forall k :: k in order ==> k in header
    ensures Paired(Flat(header, order)) == map k | k in order :: Joined(header[k])
  {
    if order != [] {
      var init, k := order[..|order| - 1], order[|order| - 1];
      PairedFlat(header, init);
      var flat := Flat(header, order);
      assert flat[..|flat| - 2] == Flat(header, init);
      assert forall x :: x in order <==> x in init || x == k;
    }
  }
}
