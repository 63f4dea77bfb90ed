/**
  The part of serde_json's `Value` that the tool relies on: the value
  datatype, the read-only accessors (`get`, `v[key]`, `as_str`, `as_object`,
  `as_array`) and the panicking assignment through `IndexMut`
  (`root[a][b] = x`).  Parsing and pretty-printing are not defined here: the
  operations that need them take them as function parameters.
*/
module Json {
  import opened Wrappers
  import opened Assoc

  datatype Json =
    | JNull
    | JBool(b: bool)
    | JNumber(text: string)
    | JString(s: string)
    | JArray(items: seq<Json>)
    | JObject(members: Entries<Json>)

  /** `serde_json::from_str`: text to a value, or the parser's error message. */
  type Parser = string -> Result<Json>

  /** `serde_json::to_string_pretty`, which cannot fail on a `Value`. */
  type Printer = Json -> string

  /** `Value::get(key)`: the member of an object, None for a non-object. */
  function Member(v: Json, k: string): (r: Option<Json>)
    ensures r.Some? <==> v.JObject? && k in Keys(v.members)
  {
    if v.JObject? then Get(v.members, k) else None
  }

  /** `v[key]` read-only: the member, or `Null` when absent or not an object. */
  function At(v: Json, k: string): (r: Json)
    ensures Member(v, k).Some? ==> r == Member(v, k).value
    ensures Member(v, k).None? ==> r == JNull
  {
    Member(v, k).UnwrapOr(JNull)
  }

  /** A chain of read-only indexing `v[p0][p1]...`. */
  function AtPath(v: Json, path: seq<string>): Json
    decreases |path|
  {
    if path == [] then v else AtPath(At(v, path[0]), path[1..])
  }

  function AsStr(v: Json): Option<string> {
    if v.JString? then Some(v.s) else None
  }

  function AsObject(v: Json): Option<Entries<Json>> {
    if v.JObject? then Some(v.members) else None
  }

  function AsArray(v: Json): Option<seq<Json>> {
    if v.JArray? then Some(v.items) else None
  }

  /**
    Whether `v[p0][p1]... = x` runs without panicking: `IndexMut` turns a
    `Null` into an empty object and panics on any other non-object.
  */
  predicate Settable(v: Json, path: seq<string>)
    decreases |path|
  {
    path == [] || ((v.JNull? || v.JObject?) && Settable(At(v, path[0]), path[1..]))
  }

  /**
    The value after `v[p0][p1]... = x`, or None where serde_json panics.
    Each step replaces a `Null` by an empty object, then inserts (or
    overwrites) the key with the assigned sub-value.
  */
  function IndexSet(v: Json, path: seq<string>, x: Json): (r: Option<Json>)
    decreases |path|
    ensures r.Some? <==> Settable(v, path)
    ensures r.Some? ==> AtPath(r.value, path) == x
    ensures r.Some? && path != [] ==> r.value.JObject?
    ensures r.Some? && path != [] ==>
      forall k :: k != path[0] ==> Member(r.value, k) == Member(v, k)
  {
    if path == [] then Some(x)
    else if !(v.JNull? || v.JObject?) then None
    else
      var members := if v.JNull? then [] else v.members;
      var child := At(v, path[0]);
      match IndexSet(child, path[1..], x)
      case None => None
      case Some(c) =>
        var r := JObject(Put(members, path[0], c));
        PutGet(members, path[0], c);
        Some(r)
  }

  lemma {:induction false} IndexSetIdempotent(v: Json, path: seq<string>, x: Json)
    requires IndexSet(v, path, x).Some?
    ensures IndexSet(IndexSet(v, path, x).value, path, x) == IndexSet(v, path, x)
    decreases |path|
  {
    if path != [] {
      var r := IndexSet(v, path, x).value;
      var members := if v.JNull? then [] else v.members;
      var child := At(v, path[0]);
      var c := IndexSet(child, path[1..], x).value;
      assert r == JObject(Put(members, path[0], c));
      IndexSetIdempotent(child, path[1..], x);
      PutGet(members, path[0], c);
      PutIdempotent(members, path[0], c);
    }
  }

  /** The assigned path's first step holds the result of the assignment one level down. */
  lemma IndexSetChild(v: Json, path: seq<string>, x: Json)
    requires path != [] && IndexSet(v, path, x).Some?
    ensures IndexSet(At(v, path[0]), path[1..], x).Some?
    ensures At(IndexSet(v, path, x).value, path[0]) == IndexSet(At(v, path[0]), path[1..], x).value
  {
    var members := if v.JNull? then [] else v.members;
    PutGet(members, path[0], IndexSet(At(v, path[0]), path[1..], x).value);
  }

  /** A one- or two-step path is plain indexing. */
  lemma AtPathSteps(v: Json, a: string, b: string)
    ensures AtPath(v, [a]) == At(v, a)
    ensures AtPath(v, [a, b]) == At(At(v, a), b)
  {
    assert [a][1..] == [];
    assert [a, b][1..] == [b];
    assert AtPath(v, [a, b]) == AtPath(At(v, a), [b]);
    assert AtPath(At(v, a), [b]) == AtPath(At(At(v, a), b), []);
  }
}
