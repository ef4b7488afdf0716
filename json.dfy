/** The optional value used throughout the model. */
module Wrappers {
  datatype Option<+T> = None | Some(value: T)
}

/**
 JSON values as the server holds them once a message or a request body has been
 parsed. Objects keep their members in insertion order, as a Python dict does,
 because that order decides the order in which the server applies and broadcasts
 the members of a packet.
 */
module Json {

  datatype Json =
    | JNull
    | JBool(b: bool)
    | JNumber(n: int)
    | JString(s: string)
    | JArray(items: seq<Json>)
    | JObject(fields: seq<(string, Json)>)

  /** `dict()`: the value `get` returns for an entity that was never written. */
  const EmptyObject: Json := JObject([])

  /** The handshake token a client sends as the value of its first packet. */
  const Hello: Json := JString("HELLO")

  /** The member names of an object, in insertion order. */
  function Keys(fields: seq<(string, Json)>): (ks: seq<string>)
    ensures |ks| == |fields|
  {
    if fields == [] then [] else [fields[0].0] + Keys(fields[1..])
  }

  /** No member name occurs twice: what every dict the server builds satisfies. */
  predicate DistinctKeys(fields: seq<(string, Json)>)
  {
    fields == [] || (fields[0].0 !in Keys(fields[1..]) && DistinctKeys(fields[1..]))
  }

  /**
   What `json.loads` can produce: no object, at any depth, has the same member
   name twice (a later duplicate overwrites the earlier one in the dict).
   */
  predicate WellFormed(j: Json)
  {
    match j
    case JArray(items) => forall i :: 0 <= i < |items| ==> WellFormed(items[i])
    case JObject(fields) => DistinctKeys(fields) && forall i :: 0 <= i < |fields| ==> WellFormed(fields[i].1)
    case _ => true
  }

  /** Every member of an object `json.loads` produced holds such a value. */
  lemma MemberWellFormed(fields: seq<(string, Json)>, i: nat)
    requires WellFormed(JObject(fields)) && i < |fields|
    ensures WellFormed(fields[i].1)
  {
  }

  /** What the members of an object map their names to, forgetting the order. */
  function AsMap(fields: seq<(string, Json)>): map<string, Json>
  {
    if fields == [] then map[] else AsMap(fields[1..])[fields[0].0 := fields[0].1]
  }

  lemma {:induction false} AsMapDomain(fields: seq<(string, Json)>, k: string)
    ensures k in AsMap(fields) <==> k in Keys(fields)
  {
    if fields != [] {
      AsMapDomain(fields[1..], k);
    }
  }

  /**
   `d[k] = v` on a dict: a name already present keeps its position and takes the
   new value; a new name is added last.
   */
  function Assign(fields: seq<(string, Json)>, k: string, v: Json): (r: seq<(string, Json)>)
    ensures Keys(r) == if k in Keys(fields) then Keys(fields) else Keys(fields) + [k]
    ensures DistinctKeys(fields) ==> DistinctKeys(r) && AsMap(r) == AsMap(fields)[k := v]
  {
    if fields == [] then [(k, v)]
    else if fields[0].0 == k then [(k, v)] + fields[1..]
    else [fields[0]] + Assign(fields[1..], k, v)
  }

  /** `d[k] = v` on a dict parsed from JSON, with a value parsed from JSON, gives such a dict again. */
  lemma {:induction false} AssignWellFormed(fields: seq<(string, Json)>, k: string, v: Json)
    requires WellFormed(JObject(fields)) && WellFormed(v)
    ensures WellFormed(JObject(Assign(fields, k, v)))
  {
    var r := Assign(fields, k, v);
    if fields == [] {
    } else if fields[0].0 == k {
      forall i | 0 <= i < |r| ensures WellFormed(r[i].1) {
        if i > 0 {
          assert r[i] == fields[i];
        }
      }
    } else {
      var rest := fields[1..];
      forall i | 0 <= i < |rest| ensures WellFormed(rest[i].1) {
        assert rest[i] == fields[i + 1];
      }
      AssignWellFormed(rest, k, v);
      var tail := Assign(rest, k, v);
      assert r == [fields[0]] + tail;
      forall i | 0 <= i < |r| ensures WellFormed(r[i].1) {
        if i > 0 {
          assert r[i] == tail[i - 1];
        }
      }
    }
  }

  /**
   The members of an object after `d[k] = v` for every pair of `body`, in order:
   its names are the old names and the body's, and no other.
   */
  function Merge(fields: seq<(string, Json)>, body: seq<(string, Json)>): (r: seq<(string, Json)>)
    ensures forall k :: k in Keys(r) <==> k in Keys(fields) || k in Keys(body)
    decreases |body|
  {
    if body == [] then fields else Merge(Assign(fields, body[0].0, body[0].1), body[1..])
  }

  /**
   Assigning the members of a dict one by one yields the old object overridden by
   the new members: `{**old, **body}` in Python's terms.
   */
  lemma {:induction false} MergeOverrides(fields: seq<(string, Json)>, body: seq<(string, Json)>)
    requires DistinctKeys(fields) && DistinctKeys(body)
    ensures DistinctKeys(Merge(fields, body))
    ensures AsMap(Merge(fields, body)) == AsMap(fields) + AsMap(body)
    decreases |body|
  {
    if body != [] {
      var k, v := body[0].0, body[0].1;
      var rest := body[1..];
      var stepped := Assign(fields, k, v);
      MergeOverrides(stepped, rest);
      assert Merge(fields, body) == Merge(stepped, rest);
      AsMapDomain(rest, k);
      var m, b := AsMap(fields), AsMap(rest);
      assert AsMap(body) == b[k := v];
      assert AsMap(stepped) == m[k := v];
      OverrideThenAdd(m, b, k, v);
    }
  }

  lemma OverrideThenAdd(m: map<string, Json>, b: map<string, Json>, k: string, v: Json)
    requires k !in b
    ensures m[k := v] + b == m + b[k := v]
  {
  }

  /** Merging keeps every old member where it was and adds the new names after them. */
  lemma {:induction false} MergeKeepsOrder(fields: seq<(string, Json)>, body: seq<(string, Json)>)
    ensures |Keys(fields)| <= |Keys(Merge(fields, body))|
    ensures Keys(Merge(fields, body))[..|fields|] == Keys(fields)
    decreases |body|
  {
    if body != [] {
      var stepped := Assign(fields, body[0].0, body[0].1);
      var merged := Merge(stepped, body[1..]);
      MergeKeepsOrder(stepped, body[1..]);
      assert Keys(stepped)[..|fields|] == Keys(fields);
      PrefixOfPrefix(Keys(fields), Keys(stepped), Keys(merged));
    }
  }

  lemma PrefixOfPrefix(a: seq<string>, b: seq<string>, c: seq<string>)
    requires |a| <= |b| <= |c| && b[..|a|] == a && c[..|b|] == b
    ensures c[..|a|] == a
  {
    assert c[..|a|] == c[..|b|][..|a|];
  }
}
