/**
  Discovery and merge (src/discovery.rs): every known config location is
  read, parsed and turned into canonical `McpServer` records.  The pure part
  (transport inference, tolerant field parsing, key selection, the
  first-seen-wins merge of the global client) is given by functions; the
  scanners that push onto a shared `DiscoveryResult` are methods proved
  against them.
*/
module Discovery {
  import opened Wrappers
  import opened Assoc
  import opened Json
  import opened Types
  import opened FileSystem

  // ---------------------------------------------------------------------
  // Tolerant field parsing
  // ---------------------------------------------------------------------

  /** `as_str().unwrap_or("")`. */
  function StrOrEmpty(v: Json): (r: string)
    ensures v.JString? ==> r == v.s
    ensures !v.JString? ==> r == ""
  {
    AsStr(v).UnwrapOr("")
  }

  /** `filter_map(Value::as_str)`: the string elements of an array, in order. */
  function StringElems(items: seq<Json>): (r: seq<string>)
    ensures |r| <= |items|
    ensures forall s :: s in r <==> JString(s) in items
  {
    if items == [] then []
    else
      assert items == [items[0]] + items[1..];
      (if items[0].JString? then [items[0].s] else []) + StringElems(items[1..])
  }

  /** StringElems keeps the strings of each part, in order, and drops the rest. */
  lemma {:induction false} StringElemsAppend(xs: seq<Json>, ys: seq<Json>)
    ensures StringElems(xs + ys) == StringElems(xs) + StringElems(ys)
  {
    if xs == [] {
      assert xs + ys == ys;
    } else {
      var h := if xs[0].JString? then [xs[0].s] else [];
      assert (xs + ys)[0] == xs[0];
      assert (xs + ys)[1..] == xs[1..] + ys;
      assert StringElems(xs + ys) == h + StringElems(xs[1..] + ys);
      StringElemsAppend(xs[1..], ys);
      assert StringElems(xs) == h + StringElems(xs[1..]);
      ConcatAssoc(h, StringElems(xs[1..]), StringElems(ys));
    }
  }

  /** The string-valued entries of an object, in order. */
  function StringEntries(ms: Entries<Json>): (r: StrMap)
    ensures |r| <= |ms|
    ensures forall k, s :: (k, s) in r <==> (k, JString(s)) in ms
  {
    if ms == [] then []
    else
      assert ms == [ms[0]] + ms[1..];
      (if ms[0].1.JString? then [(ms[0].0, ms[0].1.s)] else []) + StringEntries(ms[1..])
  }

  /**
    `parse_string_map`: None unless the value is present and an object;
    otherwise exactly its string-valued entries.
  */
  function ParseStringMap(v: Option<Json>): (r: Option<StrMap>)
    ensures r.Some? <==> v.Some? && v.value.JObject?
    ensures r.Some? ==> forall k, s :: (k, s) in r.value <==> (k, JString(s)) in v.value.members
  {
    match v
    case Some(JObject(ms)) => Some(StringEntries(ms))
    case _ => None
  }

  /** The `type` member when it is a string, else "". */
  function TypeTag(obj: Json): string {
    match Member(obj, "type")
    case Some(JString(t)) => t
    case _ => ""
  }

  /** The `args` array's string elements, or [] when `args` is absent or not an array. */
  function ArgsOf(obj: Json): (r: seq<string>)
    ensures Member(obj, "args").None? || !Member(obj, "args").value.JArray? ==> r == []
    ensures forall s :: s in r <==> Member(obj, "args").Some? && AsArray(Member(obj, "args").value).Some?
                                     && JString(s) in Member(obj, "args").value.items
  {
    match Member(obj, "args")
    case Some(JArray(items)) => StringElems(items)
    case _ => []
  }

  /**
    `parse_transport`: an explicit `type` of "http" or "sse" wins; then a
    `command` member or `type` "stdio" means stdio; then a `url` member means
    http; anything else is Unknown.  Missing or non-string fields read as "".
  */
  function ParseTransport(obj: Json): Transport
  {
    var t := TypeTag(obj);
    if t == "http" then
      Http(StrOrEmpty(At(obj, "url")), ParseStringMap(Member(obj, "headers")))
    else if t == "sse" then
      Sse(StrOrEmpty(At(obj, "url")))
    else if Member(obj, "command").Some? || t == "stdio" then
      Stdio(StrOrEmpty(At(obj, "command")), ArgsOf(obj))
    else if Member(obj, "url").Some? then
      Http(StrOrEmpty(At(obj, "url")), ParseStringMap(Member(obj, "headers")))
    else
      Unknown
  }

  /**
    The four rules of `parse_transport`, in the order they apply: an explicit
    "http" or "sse" type; then a `command` member or type "stdio"; then a
    `url` member, read as http; and otherwise Unknown.  Each variant's fields
    are read tolerantly: a missing or non-string field is "".
  */
  lemma ParseTransportRules(obj: Json)
    ensures ParseTransport(obj).Http? <==>
              TypeTag(obj) == "http" ||
              (TypeTag(obj) !in {"sse", "stdio"} && Member(obj, "command").None? && Member(obj, "url").Some?)
    ensures ParseTransport(obj).Sse? <==> TypeTag(obj) == "sse"
    ensures ParseTransport(obj).Stdio? <==>
              TypeTag(obj) !in {"http", "sse"} && (Member(obj, "command").Some? || TypeTag(obj) == "stdio")
    ensures ParseTransport(obj).Unknown? <==>
              TypeTag(obj) !in {"http", "sse", "stdio"} && Member(obj, "command").None? && Member(obj, "url").None?
    ensures ParseTransport(obj).Http? ==>
              ParseTransport(obj) == Http(StrOrEmpty(At(obj, "url")), ParseStringMap(Member(obj, "headers")))
    ensures ParseTransport(obj).Sse? ==> ParseTransport(obj) == Sse(StrOrEmpty(At(obj, "url")))
    ensures ParseTransport(obj).Stdio? ==> ParseTransport(obj) == Stdio(StrOrEmpty(At(obj, "command")), ArgsOf(obj))
  {
  }

  /**
    An explicit `type` of "http" or "sse" decides the transport: objects that
    agree on it and on `url` and `headers` parse alike, whatever `command`
    and `args` they carry.
  */
  lemma TypedTransportIgnoresCommand(a: Json, b: Json)
    requires TypeTag(a) in {"http", "sse"} && TypeTag(b) == TypeTag(a)
    requires Member(b, "url") == Member(a, "url") && Member(b, "headers") == Member(a, "headers")
    ensures ParseTransport(a) == ParseTransport(b)
    ensures TypeTag(a) == "http" <==> ParseTransport(a).Http?
    ensures TypeTag(a) == "http" ==> ParseTransport(a) == Http(StrOrEmpty(At(a, "url")), ParseStringMap(Member(a, "headers")))
    ensures TypeTag(a) == "sse" ==> ParseTransport(a) == Sse(StrOrEmpty(At(a, "url")))
  {
  }

  /**
    Without an http or sse type, a `command` member or the type "stdio"
    gives a stdio transport read from `command` and `args` alone: `url` and
    `headers` are then ignored.
  */
  lemma StdioTransportIgnoresUrl(a: Json, b: Json)
    requires TypeTag(a) !in {"http", "sse"} && (Member(a, "command").Some? || TypeTag(a) == "stdio")
    requires TypeTag(b) == TypeTag(a)
    requires Member(b, "command") == Member(a, "command") && Member(b, "args") == Member(a, "args")
    ensures ParseTransport(a) == ParseTransport(b)
    ensures ParseTransport(a) == Stdio(StrOrEmpty(At(a, "command")), ArgsOf(a))
  {
  }

  // ---------------------------------------------------------------------
  // Server maps
  // ---------------------------------------------------------------------

  /** The record for the entry `name: obj`, fresh from a scan. */
  function ToServer(name: string, obj: Json, client: ClientKind, source: string): McpServer {
    McpServer(name, client, source, ParseTransport(obj), ParseStringMap(Member(obj, "env")), Unchecked, None)
  }

  /**
    `parse_server_map`: one record per object-valued entry, in entry order;
    entries whose value is not an object are skipped.
  */
  function ParseServerMap(ms: Entries<Json>, client: ClientKind, source: string): (r: seq<McpServer>)
  {
    if ms == [] then []
    else
      (if ms[0].1.JObject? then [ToServer(ms[0].0, ms[0].1, client, source)] else []) + ParseServerMap(ms[1..], client, source)
  }

  /** Exactly the object-valued entries become records, each by ToServer. */
  lemma {:induction false} ParseServerMapMembers(ms: Entries<Json>, client: ClientKind, source: string)
    ensures forall e :: e in ms && e.1.JObject? ==> ToServer(e.0, e.1, client, source) in ParseServerMap(ms, client, source)
    ensures forall s :: s in ParseServerMap(ms, client, source) ==>
              exists e :: e in ms && e.1.JObject? && s == ToServer(e.0, e.1, client, source)
  {
    if ms != [] {
      ParseServerMapMembers(ms[1..], client, source);
      assert ms == [ms[0]] + ms[1..];
    }
  }

  /** Every record is fresh, named by a key of the map and attributed to its file. */
  lemma {:induction false} ParseServerMapFields(ms: Entries<Json>, client: ClientKind, source: string)
    ensures forall s :: s in ParseServerMap(ms, client, source) ==>
              s.client == client && s.sourcePath == source && s.health == Unchecked && s.lastChecked == None
    ensures forall s :: s in ParseServerMap(ms, client, source) ==> s.name in Keys(ms)
  {
    if ms != [] {
      ParseServerMapFields(ms[1..], client, source);
      assert Keys(ms) == [ms[0].0] + Keys(ms[1..]);
    }
  }

  /** ParseServerMap works entry by entry, so it distributes over concatenation. */
  lemma {:induction false} ParseServerMapAppend(a: Entries<Json>, b: Entries<Json>, client: ClientKind, source: string)
    ensures ParseServerMap(a + b, client, source) == ParseServerMap(a, client, source) + ParseServerMap(b, client, source)
  {
    if a == [] {
      assert a + b == b;
    } else {
      var h := if a[0].1.JObject? then [ToServer(a[0].0, a[0].1, client, source)] else [];
      assert (a + b)[0] == a[0];
      assert (a + b)[1..] == a[1..] + b;
      ParseServerMapAppend(a[1..], b, client, source);
      var x, y := ParseServerMap(a[1..], client, source), ParseServerMap(b, client, source);
      assert ParseServerMap(a + b, client, source) == h + (x + y);
      assert ParseServerMap(a, client, source) == h + x;
      ConcatAssoc(h, x, y);
    }
  }

  /** No two records share a name. */
  predicate DistinctNames(ss: seq<McpServer>) {
    forall i, j :: 0 <= i < j < |ss| ==> ss[i].name != ss[j].name
  }

  /** The names of the records, in order. */
  function Names(ss: seq<McpServer>): (r: seq<string>)
    ensures |r| == |ss| && forall i :: 0 <= i < |ss| ==> r[i] == ss[i].name
  {
    seq(|ss|, i requires 0 <= i < |ss| => ss[i].name)
  }

  lemma NamesCons(x: McpServer, ss: seq<McpServer>)
    ensures Names([x] + ss) == [x.name] + Names(ss)
  {
  }

  /** Putting a record with a new name in front keeps the names distinct. */
  lemma DistinctCons(x: McpServer, ss: seq<McpServer>)
    requires DistinctNames(ss) && x.name !in Names(ss)
    ensures DistinctNames([x] + ss)
  {
    var r := [x] + ss;
    forall i, j | 0 <= i < j < |r| ensures r[i].name != r[j].name {
      assert r[j] == ss[j - 1] && Names(ss)[j - 1] == ss[j - 1].name;
      if i > 0 {
        assert r[i] == ss[i - 1];
      }
    }
  }

  /** The names of the records, as a set (the scanner's `seen`). */
  function NameSet(ss: seq<McpServer>): set<string> {
    set x | x in Names(ss)
  }

  /** An object with unique keys yields records with distinct names. */
  lemma {:induction false} ParseServerMapDistinct(ms: Entries<Json>, client: ClientKind, source: string)
    requires UniqueKeys(ms)
    ensures DistinctNames(ParseServerMap(ms, client, source))
  {
    if ms != [] {
      UniqueTail(ms);
      var tail := ms[1..];
      ParseServerMapDistinct(tail, client, source);
      var rest := ParseServerMap(tail, client, source);
      if ms[0].1.JObject? {
        ParseServerMapFields(tail, client, source);
        var x := ToServer(ms[0].0, ms[0].1, client, source);
        assert x.name !in Names(rest) by {
          forall i | 0 <= i < |rest| ensures Names(rest)[i] != x.name {
            assert rest[i] in rest;
          }
        }
        DistinctCons(x, rest);
        assert ParseServerMap(ms, client, source) == [x] + rest;
      } else {
        assert ParseServerMap(ms, client, source) == rest;
      }
    }
  }

  // ---------------------------------------------------------------------
  // The global client's merge
  // ---------------------------------------------------------------------

  /**
    The records of `recs` whose names were not seen before: neither in
    `seen` nor earlier in `recs` (first-seen-wins).
  */
  function FirstSeen(recs: seq<McpServer>, seen: set<string>): seq<McpServer>
  {
    if recs == [] then []
    else if recs[0].name in seen then FirstSeen(recs[1..], seen)
    else [recs[0]] + FirstSeen(recs[1..], seen + {recs[0].name})
  }

  /** The merge keeps each new name once and never a seen one. */
  lemma {:induction false} FirstSeenProps(recs: seq<McpServer>, seen: set<string>)
    ensures DistinctNames(FirstSeen(recs, seen))
    ensures forall x :: x in Names(FirstSeen(recs, seen)) <==> x in Names(recs) && x !in seen
    ensures forall s :: s in FirstSeen(recs, seen) ==> s in recs
  {
    if recs != [] {
      var x, tail := recs[0], recs[1..];
      assert recs == [x] + tail;
      NamesCons(x, tail);
      if x.name in seen {
        FirstSeenProps(tail, seen);
      } else {
        FirstSeenProps(tail, seen + {x.name});
        var rest := FirstSeen(tail, seen + {x.name});
        NamesCons(x, rest);
        DistinctCons(x, rest);
      }
    }
  }

  /** Feeding one more record to the merge: it is kept exactly when its name is new. */
  lemma {:induction false} FirstSeenSnoc(recs: seq<McpServer>, x: McpServer, seen: set<string>)
    ensures FirstSeen(recs + [x], seen) ==
            FirstSeen(recs, seen) + (if x.name in seen || x.name in Names(FirstSeen(recs, seen)) then [] else [x])
  {
    if recs == [] {
      assert [x][1..] == [];
    } else {
      var y := recs[0];
      assert (recs + [x])[0] == y;
      assert (recs + [x])[1..] == recs[1..] + [x];
      if y.name in seen {
        FirstSeenSnoc(recs[1..], x, seen);
      } else {
        FirstSeenSnoc(recs[1..], x, seen + {y.name});
        var rest := FirstSeen(recs[1..], seen + {y.name});
        assert Names([y] + rest) == [y.name] + Names(rest);
      }
    }
  }

  /** Every input name outside `seen` is kept, and by its first record. */
  lemma {:induction false} FirstSeenKeepsFirst(recs: seq<McpServer>, seen: set<string>, i: nat)
    requires i < |recs| && recs[i].name !in seen
    requires forall j :: 0 <= j < i ==> recs[j].name != recs[i].name
    ensures recs[i] in FirstSeen(recs, seen)
  {
    if i > 0 {
      var y := recs[0];
      assert recs[1..][i - 1] == recs[i];
      if y.name in seen {
        FirstSeenKeepsFirst(recs[1..], seen, i - 1);
      } else {
        FirstSeenKeepsFirst(recs[1..], seen + {y.name}, i - 1);
      }
    }
  }

  /** The server map of a project entry (`project_val["mcpServers"]` as an object). */
  function ProjectServers(project: Json, source: string): seq<McpServer> {
    match AsObject(At(project, "mcpServers"))
    case Some(m) => ParseServerMap(m, ClaudeCodeGlobal, source)
    case None => []
  }

  /** Every project's records, in project order, before deduplication. */
  function ProjectRecords(projects: Entries<Json>, source: string): seq<McpServer> {
    if projects == [] then []
    else ProjectServers(projects[0].1, source) + ProjectRecords(projects[1..], source)
  }

  lemma {:induction false} ProjectRecordsSnoc(projects: Entries<Json>, j: nat, source: string)
    requires j < |projects|
    ensures ProjectRecords(projects[..j + 1], source) ==
            ProjectRecords(projects[..j], source) + ProjectServers(projects[j].1, source)
    decreases j
  {
    if j == 0 {
      assert projects[..1][1..] == [];
    } else {
      assert projects[..j + 1][0] == projects[0];
      assert projects[..j][0] == projects[0];
      assert projects[..j + 1][1..] == projects[1..][..j];
      assert projects[..j][1..] == projects[1..][..j - 1];
      ProjectRecordsSnoc(projects[1..], j - 1, source);
      assert projects[1..][j - 1] == projects[j];
    }
  }

  /** The root `mcpServers` records of `~/.claude.json`. */
  function GlobalRootServers(root: Json, source: string): seq<McpServer> {
    match AsObject(At(root, "mcpServers"))
    case Some(m) => ParseServerMap(m, ClaudeCodeGlobal, source)
    case None => []
  }

  /** The project records of `~/.claude.json`, before deduplication. */
  function GlobalProjectRecords(root: Json, source: string): seq<McpServer> {
    match AsObject(At(root, "projects"))
    case Some(ps) => ProjectRecords(ps, source)
    case None => []
  }

  /**
    What the scan of `~/.claude.json` emits: every root record, then each
    project record whose name no earlier record carried.
  */
  function GlobalServers(root: Json, source: string): seq<McpServer> {
    var rootRecs := GlobalRootServers(root, source);
    rootRecs + FirstSeen(GlobalProjectRecords(root, source), NameSet(rootRecs))
  }

  /** The server map under `key` has unique keys, as a parsed serde `Map` does. */
  predicate RootMapUnique(root: Json, key: string) {
    AsObject(At(root, key)).Some? ==> UniqueKeys(AsObject(At(root, key)).value)
  }

  /** Two name-distinct lists with no name in common concatenate to a name-distinct list. */
  lemma DistinctConcat(a: seq<McpServer>, b: seq<McpServer>)
    requires DistinctNames(a) && DistinctNames(b)
    requires forall i :: 0 <= i < |b| ==> b[i].name !in Names(a)
    ensures DistinctNames(a + b)
  {
    var r := a + b;
    forall i, j | 0 <= i < j < |r| ensures r[i].name != r[j].name {
      if j >= |a| {
        assert r[j] == b[j - |a|];
        if i < |a| {
          assert Names(a)[i] == r[i].name;
        } else {
          assert r[i] == b[i - |a|];
        }
      }
    }
  }

  /** Within the global client's namespace names are pairwise distinct. */
  lemma GlobalNamesDistinct(root: Json, source: string)
    requires RootMapUnique(root, "mcpServers")
    ensures DistinctNames(GlobalServers(root, source))
  {
    var rootRecs := GlobalRootServers(root, source);
    var m := AsObject(At(root, "mcpServers"));
    if m.Some? {
      ParseServerMapDistinct(m.value, ClaudeCodeGlobal, source);
    }
    var recs := GlobalProjectRecords(root, source);
    var seen := NameSet(rootRecs);
    FirstSeenProps(recs, seen);
    var tail := FirstSeen(recs, seen);
    forall i | 0 <= i < |tail| ensures tail[i].name !in Names(rootRecs) {
      assert Names(tail)[i] == tail[i].name;
      assert tail[i].name in Names(tail);
      assert tail[i].name !in seen;
    }
    DistinctConcat(rootRecs, tail);
  }

  /**
    A root entry and any number of project entries with the same name yield
    exactly one global record, the root entry's.
  */
  lemma RootEntryWins(root: Json, source: string, s: McpServer)
    requires RootMapUnique(root, "mcpServers")
    requires s in GlobalRootServers(root, source)
    ensures s in GlobalServers(root, source)
    ensures forall t :: t in GlobalServers(root, source) && t.name == s.name ==> t == s
  {
    GlobalNamesDistinct(root, source);
    var r := GlobalServers(root, source);
    var rootRecs := GlobalRootServers(root, source);
    var i :| 0 <= i < |rootRecs| && rootRecs[i] == s;
    assert r[i] == s;
    forall t | t in r && t.name == s.name ensures t == s {
      var j :| 0 <= j < |r| && r[j] == t;
      assert r[j].name == r[i].name;
    }
  }

  /**
    A project entry whose name is new (to the root and to earlier projects)
    is emitted; one whose name a root entry carries is not.
  */
  lemma ProjectEntryKeptIffUnseen(root: Json, source: string, i: nat)
    requires i < |GlobalProjectRecords(root, source)|
    requires forall j :: 0 <= j < i ==>
               GlobalProjectRecords(root, source)[j].name != GlobalProjectRecords(root, source)[i].name
    ensures GlobalProjectRecords(root, source)[i].name !in NameSet(GlobalRootServers(root, source)) ==>
            GlobalProjectRecords(root, source)[i] in GlobalServers(root, source)
    ensures GlobalProjectRecords(root, source)[i].name in NameSet(GlobalRootServers(root, source)) ==>
            forall t :: t in GlobalServers(root, source) && t.name == GlobalProjectRecords(root, source)[i].name
                        ==> t in GlobalRootServers(root, source)
  {
    var recs := GlobalProjectRecords(root, source);
    var rootRecs := GlobalRootServers(root, source);
    if recs[i].name !in NameSet(rootRecs) {
      FirstSeenKeepsFirst(recs, NameSet(rootRecs), i);
    } else {
      FirstSeenProps(recs, NameSet(rootRecs));
      var tail := FirstSeen(recs, NameSet(rootRecs));
      forall t | t in tail ensures t.name != recs[i].name {
        var k :| 0 <= k < |tail| && tail[k] == t;
        assert Names(tail)[k] == t.name;
      }
    }
  }

  // ---------------------------------------------------------------------
  // Key selection of the other clients
  // ---------------------------------------------------------------------

  /** `scan_wrapped`: the `mcpServers` object if there is one. */
  function WrappedServers(root: Json, client: ClientKind, source: string): seq<McpServer> {
    match AsObject(At(root, "mcpServers"))
    case Some(m) => ParseServerMap(m, client, source)
    case None => []
  }

  /**
    A wrapped file yields a record exactly for each object-valued member of
    its `mcpServers` object, and nothing when `mcpServers` is not an object.
  */
  lemma WrappedServersRecords(root: Json, client: ClientKind, source: string)
    ensures !At(root, "mcpServers").JObject? ==> WrappedServers(root, client, source) == []
    ensures At(root, "mcpServers").JObject? ==>
              forall s :: s in WrappedServers(root, client, source) <==>
                exists e :: e in At(root, "mcpServers").members && e.1.JObject? && s == ToServer(e.0, e.1, client, source)
  {
    if At(root, "mcpServers").JObject? {
      ParseServerMapMembers(At(root, "mcpServers").members, client, source);
    }
  }

  /**
    `scan_mcp_json`: the `mcpServers` object when it is one (wrapped form),
    otherwise every object-valued top-level key (flat form).
  */
  function McpJsonServers(root: Json, source: string): seq<McpServer>
  {
    match AsObject(At(root, "mcpServers"))
    case Some(m) => ParseServerMap(m, ClaudeCodeProject, source)
    case None =>
      match AsObject(root)
      case Some(obj) => ParseServerMap(obj, ClaudeCodeProject, source)
      case None => []
  }

  /** `scan_vscode`: the `servers` object, else the `mcpServers` object. */
  function VsCodeServers(root: Json, source: string): seq<McpServer>
  {
    match AsObject(At(root, "servers"))
    case Some(m) => ParseServerMap(m, VsCodeProject, source)
    case None => WrappedServers(root, VsCodeProject, source)
  }

  /** The shape `.mcp.json` is read in: wrapped wins over flat. */
  lemma McpJsonShapes(root: Json, source: string)
    ensures At(root, "mcpServers").JObject? ==>
              McpJsonServers(root, source) == ParseServerMap(At(root, "mcpServers").members, ClaudeCodeProject, source)
    ensures !At(root, "mcpServers").JObject? && root.JObject? ==>
              McpJsonServers(root, source) == ParseServerMap(root.members, ClaudeCodeProject, source)
    ensures !At(root, "mcpServers").JObject? && !root.JObject? ==> McpJsonServers(root, source) == []
  {
  }

  /** VS Code's `servers` key wins over `mcpServers`. */
  lemma VsCodeShapes(root: Json, source: string)
    ensures At(root, "servers").JObject? ==>
              VsCodeServers(root, source) == ParseServerMap(At(root, "servers").members, VsCodeProject, source)
    ensures !At(root, "servers").JObject? ==> VsCodeServers(root, source) == WrappedServers(root, VsCodeProject, source)
  {
  }

  /** In the wrapped form of `.mcp.json` the other top-level members do not matter. */
  lemma McpJsonWrappedIgnoresRest(a: Json, b: Json, source: string)
    requires At(a, "mcpServers").JObject? && At(b, "mcpServers") == At(a, "mcpServers")
    ensures McpJsonServers(a, source) == McpJsonServers(b, source)
  {
    McpJsonShapes(a, source);
    McpJsonShapes(b, source);
  }

  /**
    In the flat form of `.mcp.json` there is a record exactly for each
    object-valued top-level member, under that member's name.
  */
  lemma McpJsonFlatRecords(root: Json, source: string)
    requires root.JObject? && !At(root, "mcpServers").JObject?
    ensures forall s :: s in McpJsonServers(root, source) <==>
              exists e :: e in root.members && e.1.JObject? && s == ToServer(e.0, e.1, ClaudeCodeProject, source)
  {
    McpJsonShapes(root, source);
    ParseServerMapMembers(root.members, ClaudeCodeProject, source);
  }

  /** When VS Code's `servers` is an object, `mcpServers` and every other member do not matter. */
  lemma VsCodeServersWins(a: Json, b: Json, source: string)
    requires At(a, "servers").JObject? && At(b, "servers") == At(a, "servers")
    ensures VsCodeServers(a, source) == VsCodeServers(b, source)
  {
    VsCodeShapes(a, source);
    VsCodeShapes(b, source);
  }

  /** Otherwise VS Code reads its records from `mcpServers` alone. */
  lemma VsCodeFallbackIgnoresRest(a: Json, b: Json, source: string)
    requires !At(a, "servers").JObject? && !At(b, "servers").JObject?
    requires At(b, "mcpServers") == At(a, "mcpServers")
    ensures VsCodeServers(a, source) == VsCodeServers(b, source)
  {
    VsCodeShapes(a, source);
    VsCodeShapes(b, source);
  }

  /** The records one client's file yields, by that client's shape. */
  function SourceServers(client: ClientKind, root: Json, source: string): seq<McpServer> {
    match client
    case ClaudeCodeGlobal => GlobalServers(root, source)
    case ClaudeCodeProject => McpJsonServers(root, source)
    case VsCodeProject => VsCodeServers(root, source)
    case _ => WrappedServers(root, client, source)
  }

  lemma {:induction false} ProjectRecordsOwned(projects: Entries<Json>, source: string)
    ensures forall s :: s in ProjectRecords(projects, source) ==>
              s.client == ClaudeCodeGlobal && s.sourcePath == source
  {
    if projects != [] {
      ProjectRecordsOwned(projects[1..], source);
      var p := projects[0].1;
      if At(p, "mcpServers").JObject? {
        ParseServerMapFields(At(p, "mcpServers").members, ClaudeCodeGlobal, source);
      }
    }
  }

  /** Every record a file yields is attributed to that file and its client. */
  lemma SourceServersOwned(client: ClientKind, root: Json, source: string)
    ensures forall s :: s in SourceServers(client, root, source) ==> s.client == client && s.sourcePath == source
  {
    var wrapped := At(root, "mcpServers");
    if wrapped.JObject? {
      ParseServerMapFields(wrapped.members, client, source);
    }
    match client
    case ClaudeCodeGlobal =>
      var rootRecs := GlobalRootServers(root, source);
      var recs := GlobalProjectRecords(root, source);
      FirstSeenProps(recs, NameSet(rootRecs));
      ProjectRecordsOwned(AsObject(At(root, "projects")).UnwrapOr([]), source);
      assert GlobalServers(root, source) == rootRecs + FirstSeen(recs, NameSet(rootRecs));
    case ClaudeCodeProject =>
      McpJsonShapes(root, source);
      if root.JObject? {
        ParseServerMapFields(root.members, client, source);
      }
    case VsCodeProject =>
      VsCodeShapes(root, source);
      if At(root, "servers").JObject? {
        ParseServerMapFields(At(root, "servers").members, client, source);
      }
    case _ =>
  }

  // ---------------------------------------------------------------------
  // Reading a source
  // ---------------------------------------------------------------------

  /** What reading and parsing one config file gives. */
  datatype ReadOutcome = Skipped | Malformed(message: string) | Parsed(root: Json)

  /**
    `read_json_with_errors`: an absent or unreadable file is skipped
    silently; a file that does not parse is reported as "<path>: <error>".
  */
  function ReadSource(files: Files, parse: Parser, path: Path): ReadOutcome
  {
    if path !in files then Skipped
    else match files[path]
      case Unreadable(_) => Skipped
      case Readable(text) =>
        match parse(text)
        case Ok(v) => Parsed(v)
        case Err(e) => Malformed(path + ": " + e)
  }

  /** The records and errors one scanned file contributes. */
  datatype Found = Found(servers: seq<McpServer>, errors: seq<string>)

  function ScanOutcome(files: Files, parse: Parser, client: ClientKind, path: Path): (r: Found)
    ensures r.errors == ReadErrors(ReadSource(files, parse, path))
  {
    match ReadSource(files, parse, path)
    case Skipped => Found([], [])
    case Malformed(m) => Found([], [m])
    case Parsed(root) => Found(SourceServers(client, root, path), [])
  }

  /** The one error a malformed file reports. */
  function ReadErrors(o: ReadOutcome): seq<string> {
    if o.Malformed? then [o.message] else []
  }

  /** A scanner reads only its own file: what other files hold does not change its contribution. */
  lemma ScanOutcomeLocal(f1: Files, f2: Files, parse: Parser, client: ClientKind, path: Path)
    requires (path in f1 <==> path in f2) && (path in f1 ==> f1[path] == f2[path])
    ensures ScanOutcome(f1, parse, client, path) == ScanOutcome(f2, parse, client, path)
  {
  }

  // ---------------------------------------------------------------------
  // The locations and the whole scan
  // ---------------------------------------------------------------------

  /** `PathBuf::join` of a relative path. */
  function Join(dir: Path, rel: string): Path {
    if dir != "" && dir[|dir| - 1] == '/' then dir + rel else dir + "/" + rel
  }

  /** Where each client keeps its file. */
  datatype Locations = Locations(
    claudeJson: Path,
    mcpJson: Path,
    cursorGlobal: Path,
    cursorProject: Path,
    vscode: Path,
    windsurf: Path,
    desktopCandidates: seq<Path>)

  /** The standard locations under a home directory (or "/" without one) and a working directory. */
  function StandardLocations(home: Option<Path>, cwd: Path): Locations {
    var h := home.UnwrapOr("/");
    Locations(
      Join(h, ".claude.json"),
      Join(cwd, ".mcp.json"),
      Join(h, ".cursor/mcp.json"),
      Join(cwd, ".cursor/mcp.json"),
      Join(cwd, ".vscode/mcp.json"),
      Join(h, ".codeium/windsurf/mcp_config.json"),
      [Join(h, "Library/Application Support/Claude/claude_desktop_config.json"),
       Join(h, ".config/Claude/claude_desktop_config.json")])
  }

  /** The first candidate that exists (readable or not). */
  function FirstExisting(files: Files, candidates: seq<Path>): Option<Path> {
    if candidates == [] then None
    else if candidates[0] in files then Some(candidates[0])
    else FirstExisting(files, candidates[1..])
  }

  /**
    The candidate found exists and every earlier candidate is missing; None
    means no candidate exists.
  */
  lemma {:induction false} FirstExistingSpec(files: Files, candidates: seq<Path>)
    ensures var r := FirstExisting(files, candidates);
            (r.Some? ==> r.value in files) &&
            (r.None? ==> forall p :: p in candidates ==> p !in files) &&
            (r.Some? ==> exists i :: 0 <= i < |candidates| && candidates[i] == r.value &&
                                     forall j :: 0 <= j < i ==> candidates[j] !in files)
  {
    if candidates != [] && candidates[0] !in files {
      var r := FirstExisting(files, candidates[1..]);
      FirstExistingSpec(files, candidates[1..]);
      if r.Some? {
        var i :| 0 <= i < |candidates[1..]| && candidates[1..][i] == r.value
                 && forall j :: 0 <= j < i ==> candidates[1..][j] !in files;
        assert candidates[i + 1] == r.value;
        forall j | 0 <= j < i + 1 ensures candidates[j] !in files {
          if j > 0 { assert candidates[j] == candidates[1..][j - 1]; }
        }
      } else {
        assert forall p :: p in candidates ==> p == candidates[0] || p in candidates[1..];
      }
    } else if candidates != [] {
      assert candidates[0] == FirstExisting(files, candidates).value;
    }
  }

  /** The files scanned, in scan order, with the client each belongs to. */
  function Sources(files: Files, locs: Locations): seq<(ClientKind, Path)> {
    FixedSources(locs)
    + match FirstExisting(files, locs.desktopCandidates)
      case Some(p) => [(ClaudeDesktop, p)]
      case None => []
  }

  /** Each source's contribution, one per source. */
  function Outcomes(files: Files, parse: Parser, sources: seq<(ClientKind, Path)>): (r: seq<Found>)
    ensures |r| == |sources|
    ensures forall i :: 0 <= i < |sources| ==> r[i] == ScanOutcome(files, parse, sources[i].0, sources[i].1)
  {
    seq(|sources|, i requires 0 <= i < |sources| => ScanOutcome(files, parse, sources[i].0, sources[i].1))
  }

  /** The contributions concatenated in order. */
  function Concat(outs: seq<Found>): Found {
    if outs == [] then Found([], [])
    else
      var init := Concat(outs[..|outs| - 1]);
      var last := outs[|outs| - 1];
      Found(init.servers + last.servers, init.errors + last.errors)
  }

  lemma {:induction false} ConcatAppend(a: seq<Found>, b: seq<Found>)
    ensures Concat(a + b).servers == Concat(a).servers + Concat(b).servers
    ensures Concat(a + b).errors == Concat(a).errors + Concat(b).errors
    decreases |b|
  {
    if b == [] {
      assert a + b == a;
    } else {
      var b' := b[..|b| - 1];
      assert (a + b)[..|a + b| - 1] == a + b';
      assert (a + b)[|a + b| - 1] == b[|b| - 1];
      ConcatAppend(a, b');
    }
  }

  /** What the whole scan finds: every source's records and errors, in order. */
  function Gather(files: Files, parse: Parser, sources: seq<(ClientKind, Path)>): Found {
    Concat(Outcomes(files, parse, sources))
  }

  /**
    A malformed file adds exactly its own error message and no records;
    the sources before and after it contribute exactly what they would alone.
  */
  lemma ErrorIsolation(files: Files, parse: Parser, sources: seq<(ClientKind, Path)>, k: nat)
    requires k < |sources|
    requires ReadSource(files, parse, sources[k].1).Malformed?
    ensures Gather(files, parse, sources).servers ==
            Gather(files, parse, sources[..k]).servers + Gather(files, parse, sources[k + 1..]).servers
    ensures Gather(files, parse, sources).errors ==
            Gather(files, parse, sources[..k]).errors + [ReadSource(files, parse, sources[k].1).message]
            + Gather(files, parse, sources[k + 1..]).errors
  {
    var outs := Outcomes(files, parse, sources);
    var pre, post := sources[..k], sources[k + 1..];
    OutcomesSlice(files, parse, sources, 0, k);
    OutcomesSlice(files, parse, sources, k + 1, |sources|);
    assert outs[..k] == Outcomes(files, parse, pre);
    assert outs[k + 1..] == Outcomes(files, parse, post);
    MalformedOutcome(files, parse, sources[k].0, sources[k].1);
    assert outs[k] == Found([], [ReadSource(files, parse, sources[k].1).message]);
    ConcatSplit(outs, k);
    assert Concat(outs[..k]).servers + outs[k].servers == Concat(outs[..k]).servers;
    assert Gather(files, parse, pre) == Concat(outs[..k]);
    assert Gather(files, parse, post) == Concat(outs[k + 1..]);
  }

  /**
    A missing or unreadable file adds nothing, neither records nor an error:
    the scan is that of the sources before it followed by those after it.
  */
  lemma SkippedIsolation(files: Files, parse: Parser, sources: seq<(ClientKind, Path)>, k: nat)
    requires k < |sources|
    requires sources[k].1 !in files || files[sources[k].1].Unreadable?
    ensures Gather(files, parse, sources).servers ==
            Gather(files, parse, sources[..k]).servers + Gather(files, parse, sources[k + 1..]).servers
    ensures Gather(files, parse, sources).errors ==
            Gather(files, parse, sources[..k]).errors + Gather(files, parse, sources[k + 1..]).errors
  {
    var outs := Outcomes(files, parse, sources);
    var pre, post := sources[..k], sources[k + 1..];
    OutcomesSlice(files, parse, sources, 0, k);
    OutcomesSlice(files, parse, sources, k + 1, |sources|);
    assert outs[..k] == Outcomes(files, parse, pre);
    assert outs[k + 1..] == Outcomes(files, parse, post);
    assert outs[k] == Found([], []);
    ConcatSplit(outs, k);
    assert Concat(outs[..k]).servers + outs[k].servers == Concat(outs[..k]).servers;
    assert Concat(outs[..k]).errors + outs[k].errors == Concat(outs[..k]).errors;
    assert Gather(files, parse, pre) == Concat(outs[..k]);
    assert Gather(files, parse, post) == Concat(outs[k + 1..]);
  }

  /** Over the same locations, an unreadable file is scanned exactly as if it were absent. */
  lemma UnreadableIsAbsent(files: Files, parse: Parser, sources: seq<(ClientKind, Path)>, p: Path, e: string)
    ensures Gather(files[p := Unreadable(e)], parse, sources) == Gather(files - {p}, parse, sources)
  {
    var f1, f2 := files[p := Unreadable(e)], files - {p};
    forall i | 0 <= i < |sources|
      ensures ScanOutcome(f1, parse, sources[i].0, sources[i].1) == ScanOutcome(f2, parse, sources[i].0, sources[i].1)
    {
      if sources[i].1 != p {
        ScanOutcomeLocal(f1, f2, parse, sources[i].0, sources[i].1);
      }
    }
    assert Outcomes(f1, parse, sources) == Outcomes(f2, parse, sources);
  }

  /** The outcomes of a slice of the sources are that slice of the outcomes. */
  lemma OutcomesSlice(files: Files, parse: Parser, sources: seq<(ClientKind, Path)>, i: nat, j: nat)
    requires i <= j <= |sources|
    ensures Outcomes(files, parse, sources)[i..j] == Outcomes(files, parse, sources[i..j])
  {
  }

  /** A malformed file contributes its message and nothing else. */
  lemma MalformedOutcome(files: Files, parse: Parser, client: ClientKind, path: Path)
    requires ReadSource(files, parse, path).Malformed?
    ensures ScanOutcome(files, parse, client, path) == Found([], [ReadSource(files, parse, path).message])
  {
  }

  /** A record found in any one source is in the merged list: no deduplication across clients. */
  lemma GatherKeepsEverySource(files: Files, parse: Parser, sources: seq<(ClientKind, Path)>, k: nat, s: McpServer)
    requires k < |sources|
    requires s in ScanOutcome(files, parse, sources[k].0, sources[k].1).servers
    ensures s in Gather(files, parse, sources).servers
  {
    var outs := Outcomes(files, parse, sources);
    ConcatSplit(outs, k);
  }

  /** The concatenation around one element. */
  lemma ConcatSplit(outs: seq<Found>, k: nat)
    requires k < |outs|
    ensures Concat(outs).servers == Concat(outs[..k]).servers + outs[k].servers + Concat(outs[k + 1..]).servers
    ensures Concat(outs).errors == Concat(outs[..k]).errors + outs[k].errors + Concat(outs[k + 1..]).errors
  {
    var pre, post := outs[..k + 1], outs[k + 1..];
    assert outs == pre + post;
    ConcatAppend(pre, post);
    assert Concat(pre) == Found(Concat(outs[..k]).servers + outs[k].servers, Concat(outs[..k]).errors + outs[k].errors) by {
      assert pre[..|pre| - 1] == outs[..k];
      assert pre[|pre| - 1] == outs[k];
    }
  }

  /** Adding one more scan to the merged result. */
  lemma GatherSnoc(files: Files, parse: Parser, sources: seq<(ClientKind, Path)>, k: nat)
    requires k < |sources|
    ensures Gather(files, parse, sources[..k + 1]) ==
            Found(Gather(files, parse, sources[..k]).servers + ScanOutcome(files, parse, sources[k].0, sources[k].1).servers,
                  Gather(files, parse, sources[..k]).errors + ScanOutcome(files, parse, sources[k].0, sources[k].1).errors)
  {
    var outs := Outcomes(files, parse, sources[..k + 1]);
    assert outs[..k] == Outcomes(files, parse, sources[..k]);
  }

  /**
    `Path::exists` is true of an unreadable file, so an unreadable first
    Claude Desktop candidate is the one scanned: it adds nothing, and the
    second candidate is never read.
  */
  lemma UnreadableDesktopShadows(files: Files, parse: Parser, locs: Locations)
    requires |locs.desktopCandidates| == 2
    requires locs.desktopCandidates[0] in files && files[locs.desktopCandidates[0]].Unreadable?
    ensures Sources(files, locs) == FixedSources(locs) + [(ClaudeDesktop, locs.desktopCandidates[0])]
    ensures Gather(files, parse, Sources(files, locs)) == Gather(files, parse, FixedSources(locs))
  {
    var ss := Sources(files, locs);
    var k := |FixedSources(locs)|;
    GatherSnoc(files, parse, ss, k);
    assert ss[..k + 1] == ss && ss[..k] == FixedSources(locs);
  }

  // ---------------------------------------------------------------------
  // Active clients
  // ---------------------------------------------------------------------

  /** The kinds that own at least one record. */
  function OwnedKinds(servers: seq<McpServer>): (r: set<ClientKind>)
    ensures forall k :: k in r <==> exists s :: s in servers && s.client == k
  {
    set s | s in servers :: s.client
  }

  /** The kinds of `ks`, in `ks` order, that are in `owned`. */
  function FilterOwned(ks: seq<ClientKind>, owned: set<ClientKind>): (r: seq<ClientKind>)
    ensures forall k :: k in r <==> k in ks && k in owned
  {
    if ks == [] then []
    else
      assert ks == [ks[0]] + ks[1..];
      (if ks[0] in owned then [ks[0]] else []) + FilterOwned(ks[1..], owned)
  }

  /** The position of a kind in `ClientKind::all()`. */
  function KindIndex(k: ClientKind): (i: nat)
    ensures i < |AllKinds()| && AllKinds()[i] == k
  {
    match k
    case ClaudeCodeGlobal => 0
    case ClaudeCodeProject => 1
    case CursorGlobal => 2
    case CursorProject => 3
    case VsCodeProject => 4
    case Windsurf => 5
    case ClaudeDesktop => 6
  }

  /** Kinds whose positions in `ClientKind::all()` strictly increase along the list. */
  predicate Increasing(r: seq<ClientKind>) {
    forall i, j :: 0 <= i < j < |r| ==> KindIndex(r[i]) < KindIndex(r[j])
  }

  /** Kinds that all sit at position `base` or later in `ClientKind::all()`. */
  predicate From(r: seq<ClientKind>, base: nat) {
    forall i :: 0 <= i < |r| ==> KindIndex(r[i]) >= base
  }

  /** A run of `ClientKind::all()` starting at position `base`. */
  predicate RunFrom(ks: seq<ClientKind>, base: nat) {
    forall i :: 0 <= i < |ks| ==> KindIndex(ks[i]) == base + i
  }

  /** FilterOwned keeps the relative order of its source list. */
  lemma {:induction false} FilterOwnedOrdered(ks: seq<ClientKind>, owned: set<ClientKind>, base: nat)
    requires RunFrom(ks, base)
    ensures Increasing(FilterOwned(ks, owned)) && From(FilterOwned(ks, owned), base)
  {
    if ks != [] {
      var tail := ks[1..];
      assert RunFrom(tail, base + 1) by {
        forall i | 0 <= i < |tail| ensures KindIndex(tail[i]) == base + 1 + i {
          assert tail[i] == ks[i + 1];
        }
      }
      FilterOwnedOrdered(tail, owned, base + 1);
      var rest := FilterOwned(tail, owned);
      if ks[0] in owned {
        assert FilterOwned(ks, owned) == [ks[0]] + rest;
        ConsOrdered(ks[0], rest, base);
      } else {
        assert FilterOwned(ks, owned) == rest;
        assert From(rest, base);
      }
    }
  }

  /** A kind at position `base` followed by an ordered run of later kinds is ordered. */
  lemma ConsOrdered(k: ClientKind, rest: seq<ClientKind>, base: nat)
    requires KindIndex(k) == base
    requires Increasing(rest) && From(rest, base + 1)
    ensures Increasing([k] + rest) && From([k] + rest, base)
  {
    var r := [k] + rest;
    forall i, j | 0 <= i < j < |r| ensures KindIndex(r[i]) < KindIndex(r[j]) {
      assert r[j] == rest[j - 1];
      if i > 0 { assert r[i] == rest[i - 1]; }
    }
    forall i | 0 <= i < |r| ensures KindIndex(r[i]) >= base {
      if i > 0 { assert r[i] == rest[i - 1]; }
    }
  }

  /**
    The active clients: exactly the kinds owning a record, each once, in
    `ClientKind::all()` order regardless of the order records were found in.
  */
  function ActiveClients(servers: seq<McpServer>): (r: seq<ClientKind>)
    ensures forall k :: k in r <==> exists s :: s in servers && s.client == k
    ensures DistinctKinds(r)
    ensures forall i, j :: 0 <= i < j < |r| ==> KindIndex(r[i]) < KindIndex(r[j])
  {
    AllKindsComplete();
    var all := AllKinds();
    forall i | 0 <= i < |all| ensures KindIndex(all[i]) == i {
      if i == 0 {} else if i == 1 {} else if i == 2 {} else if i == 3 {}
      else if i == 4 {} else if i == 5 {} else {}
    }
    FilterOwnedOrdered(all, OwnedKinds(servers), 0);
    FilterOwned(all, OwnedKinds(servers))
  }

  // ---------------------------------------------------------------------
  // The scanners over a shared result
  // ---------------------------------------------------------------------

  /** `DiscoveryResult`: the records, the active clients and the parse errors. */
  class DiscoveryResult {
    var servers: seq<McpServer>
    var activeClients: seq<ClientKind>
    var errors: seq<string>

    constructor ()
      ensures servers == [] && activeClients == [] && errors == []
    {
      servers := [];
      activeClients := [];
      errors := [];
    }
  }

  /** `read_json_with_errors`: the parsed root and its source path, recording a parse error. */
  method ReadJsonWithErrors(files: Files, parse: Parser, path: Path, result: DiscoveryResult)
    returns (r: Option<(Json, string)>)
    modifies result
    ensures result.servers == old(result.servers) && result.activeClients == old(result.activeClients)
    ensures ReadSource(files, parse, path).Parsed? <==> r.Some?
    ensures r.Some? ==> r.value == (ReadSource(files, parse, path).root, path)
    ensures result.errors == old(result.errors) + ReadErrors(ReadSource(files, parse, path))
  {
    if path !in files || files[path].Unreadable? {
      return None;
    }
    var text := files[path].text;
    match parse(text)
    case Ok(v) =>
      r := Some((v, path));
    case Err(e) =>
      result.errors := result.errors + [path + ": " + e];
      r := None;
  }

  /** A parsed file contributes its records and no error. */
  lemma ParsedOutcome(files: Files, parse: Parser, client: ClientKind, path: Path)
    ensures ReadSource(files, parse, path).Parsed? ==>
              ScanOutcome(files, parse, client, path) == Found(SourceServers(client, ReadSource(files, parse, path).root, path), [])
    ensures !ReadSource(files, parse, path).Parsed? ==> ScanOutcome(files, parse, client, path).servers == []
  {
  }

  /**
    The body of the project loop of `scan_claude_code_global`: push each
    record whose name `seen` does not hold yet, and record the name.
  */
  method MergeUnseen(recs: seq<McpServer>, seen0: set<string>, result: DiscoveryResult) returns (seen: set<string>)
    modifies result
    ensures result.servers == old(result.servers) + FirstSeen(recs, seen0)
    ensures seen == seen0 + NameSet(FirstSeen(recs, seen0))
    ensures result.errors == old(result.errors) && result.activeClients == old(result.activeClients)
  {
    seen := seen0;
    var k := 0;
    while k < |recs|
      invariant 0 <= k <= |recs|
      invariant result.servers == old(result.servers) + FirstSeen(recs[..k], seen0)
      invariant seen == seen0 + NameSet(FirstSeen(recs[..k], seen0))
      invariant result.errors == old(result.errors) && result.activeClients == old(result.activeClients)
    {
      var server := recs[k];
      assert recs[..k + 1] == recs[..k] + [server];
      MergeStep(recs[..k], server, seen0);
      if server.name !in seen {
        seen := seen + {server.name};
        result.servers := result.servers + [server];
      }
      k := k + 1;
    }
    assert recs[..k] == recs;
  }

  /**
    The root loop of `scan_claude_code_global`: push every record and record
    its name.
  */
  method PushRecording(recs: seq<McpServer>, result: DiscoveryResult) returns (seen: set<string>)
    modifies result
    ensures result.servers == old(result.servers) + recs
    ensures seen == NameSet(recs)
    ensures result.errors == old(result.errors) && result.activeClients == old(result.activeClients)
  {
    seen := {};
    var i := 0;
    while i < |recs|
      invariant 0 <= i <= |recs|
      invariant result.servers == old(result.servers) + recs[..i]
      invariant seen == NameSet(recs[..i])
      invariant result.errors == old(result.errors) && result.activeClients == old(result.activeClients)
    {
      assert recs[..i + 1] == recs[..i] + [recs[i]];
      assert Names(recs[..i + 1]) == Names(recs[..i]) + [recs[i].name];
      seen := seen + {recs[i].name};
      result.servers := result.servers + [recs[i]];
      i := i + 1;
    }
    assert recs[..i] == recs;
  }

  /** Merging one more project continues the merge of the projects before it. */
  lemma MergeProjectStep(ps: Entries<Json>, j: nat, src: string, seen0: set<string>)
    requires j < |ps|
    ensures var before := FirstSeen(ProjectRecords(ps[..j], src), seen0);
            var seen := seen0 + NameSet(before);
            var added := FirstSeen(ProjectServers(ps[j].1, src), seen);
            FirstSeen(ProjectRecords(ps[..j + 1], src), seen0) == before + added &&
            seen0 + NameSet(FirstSeen(ProjectRecords(ps[..j + 1], src), seen0)) == seen + NameSet(added)
  {
    var before := ProjectRecords(ps[..j], src);
    var recs := ProjectServers(ps[j].1, src);
    ProjectRecordsSnoc(ps, j, src);
    FirstSeenAppend(before, recs, seen0);
    NameSetAppend(FirstSeen(before, seen0), FirstSeen(recs, seen0 + NameSet(FirstSeen(before, seen0))));
  }

  /** The project loop of `scan_claude_code_global`: merge each project's servers in turn. */
  method MergeProjects(ps: Entries<Json>, src: string, seen0: set<string>, result: DiscoveryResult)
    returns (seen: set<string>)
    modifies result
    ensures result.servers == old(result.servers) + FirstSeen(ProjectRecords(ps, src), seen0)
    ensures seen == seen0 + NameSet(FirstSeen(ProjectRecords(ps, src), seen0))
    ensures result.errors == old(result.errors) && result.activeClients == old(result.activeClients)
  {
    seen := seen0;
    var j := 0;
    assert ps[..0] == [] && NameSet([]) == {};
    while j < |ps|
      invariant 0 <= j <= |ps|
      invariant result.servers == old(result.servers) + FirstSeen(ProjectRecords(ps[..j], src), seen0)
      invariant seen == seen0 + NameSet(FirstSeen(ProjectRecords(ps[..j], src), seen0))
      invariant result.errors == old(result.errors) && result.activeClients == old(result.activeClients)
    {
      var recs := ProjectServers(ps[j].1, src);
      ghost var before := FirstSeen(ProjectRecords(ps[..j], src), seen0);
      ghost var added := FirstSeen(recs, seen);
      MergeProjectStep(ps, j, src, seen0);
      seen := MergeUnseen(recs, seen, result);
      ConcatAssoc(old(result.servers), before, added);
      j := j + 1;
    }
    assert ps[..j] == ps;
  }

  /** `scan_claude_code_global`: root entries first, then unseen project entries. */
  method ScanClaudeCodeGlobal(files: Files, parse: Parser, path: Path, result: DiscoveryResult)
    modifies result
    ensures result.servers == old(result.servers) + ScanOutcome(files, parse, ClaudeCodeGlobal, path).servers
    ensures result.errors == old(result.errors) + ScanOutcome(files, parse, ClaudeCodeGlobal, path).errors
    ensures result.activeClients == old(result.activeClients)
  {
    var read := ReadJsonWithErrors(files, parse, path, result);
    if read.None? {
      ParsedOutcome(files, parse, ClaudeCodeGlobal, path);
      return;
    }
    var (root, src) := read.value;
    ghost var start := result.servers;
    var rootRecs := GlobalRootServers(root, src);
    var seen := PushRecording(rootRecs, result);
    ghost var rootSeen := seen;

    ghost var tail := FirstSeen(GlobalProjectRecords(root, src), rootSeen);
    var projects := AsObject(At(root, "projects"));
    if projects.Some? {
      seen := MergeProjects(projects.value, src, seen, result);
    } else {
      assert tail == [];
      assert result.servers == (start + rootRecs) + tail;
    }
    ConcatAssoc(start, rootRecs, tail);
    ParsedOutcome(files, parse, ClaudeCodeGlobal, path);
    assert ScanOutcome(files, parse, ClaudeCodeGlobal, path).servers == rootRecs + tail;
  }

  lemma NameSetAppend(a: seq<McpServer>, b: seq<McpServer>)
    ensures NameSet(a + b) == NameSet(a) + NameSet(b)
  {
    assert Names(a + b) == Names(a) + Names(b);
  }

  /** Merging two runs of records is merging the second against what the first left seen. */
  lemma {:induction false} FirstSeenAppend(a: seq<McpServer>, b: seq<McpServer>, seen: set<string>)
    ensures FirstSeen(a + b, seen) == FirstSeen(a, seen) + FirstSeen(b, seen + NameSet(FirstSeen(a, seen)))
  {
    if a == [] {
      assert a + b == b;
      assert seen + NameSet([]) == seen;
    } else {
      var y := a[0];
      assert (a + b)[0] == y;
      assert (a + b)[1..] == a[1..] + b;
      if y.name in seen {
        FirstSeenAppend(a[1..], b, seen);
      } else {
        FirstSeenAppend(a[1..], b, seen + {y.name});
        var rest := FirstSeen(a[1..], seen + {y.name});
        assert Names([y] + rest) == [y.name] + Names(rest);
        assert seen + NameSet([y] + rest) == seen + {y.name} + NameSet(rest);
      }
    }
  }

  /** One step of the project merge, phrased over the scanner's `seen` set. */
  lemma MergeStep(recs: seq<McpServer>, x: McpServer, rootSeen: set<string>)
    ensures var kept := FirstSeen(recs, rootSeen);
            var seen := rootSeen + NameSet(kept);
            FirstSeen(recs + [x], rootSeen) == kept + (if x.name in seen then [] else [x]) &&
            rootSeen + NameSet(FirstSeen(recs + [x], rootSeen)) == seen + {x.name}
  {
    FirstSeenSnoc(recs, x, rootSeen);
    var kept := FirstSeen(recs, rootSeen);
    var seen := rootSeen + NameSet(kept);
    if x.name !in seen {
      assert Names(kept + [x]) == Names(kept) + [x.name];
      assert NameSet(kept + [x]) == NameSet(kept) + {x.name};
    } else {
      assert FirstSeen(recs + [x], rootSeen) == kept;
      assert seen + {x.name} == seen;
    }
  }

  /** `scan_mcp_json`: wrapped or flat `.mcp.json`. */
  method ScanMcpJson(files: Files, parse: Parser, path: Path, result: DiscoveryResult)
    modifies result
    ensures result.servers == old(result.servers) + ScanOutcome(files, parse, ClaudeCodeProject, path).servers
    ensures result.errors == old(result.errors) + ScanOutcome(files, parse, ClaudeCodeProject, path).errors
    ensures result.activeClients == old(result.activeClients)
  {
    var read := ReadJsonWithErrors(files, parse, path, result);
    if read.Some? {
      var (root, src) := read.value;
      var wrapped := AsObject(At(root, "mcpServers"));
      if wrapped.Some? {
        result.servers := result.servers + ParseServerMap(wrapped.value, ClaudeCodeProject, src);
      } else {
        var flat := AsObject(root);
        if flat.Some? {
          result.servers := result.servers + ParseServerMap(flat.value, ClaudeCodeProject, src);
        }
      }
    }
  }

  /** `scan_wrapped`: the `mcpServers` object of a wrapped config. */
  method ScanWrapped(files: Files, parse: Parser, path: Path, client: ClientKind, result: DiscoveryResult)
    requires client !in {ClaudeCodeGlobal, ClaudeCodeProject, VsCodeProject}
    modifies result
    ensures result.servers == old(result.servers) + ScanOutcome(files, parse, client, path).servers
    ensures result.errors == old(result.errors) + ScanOutcome(files, parse, client, path).errors
    ensures result.activeClients == old(result.activeClients)
  {
    var read := ReadJsonWithErrors(files, parse, path, result);
    if read.Some? {
      var (root, src) := read.value;
      var mcp := AsObject(At(root, "mcpServers"));
      if mcp.Some? {
        result.servers := result.servers + ParseServerMap(mcp.value, client, src);
      }
    }
  }

  /** `scan_vscode`: `servers`, falling back to `mcpServers`. */
  method ScanVsCode(files: Files, parse: Parser, path: Path, result: DiscoveryResult)
    modifies result
    ensures result.servers == old(result.servers) + ScanOutcome(files, parse, VsCodeProject, path).servers
    ensures result.errors == old(result.errors) + ScanOutcome(files, parse, VsCodeProject, path).errors
    ensures result.activeClients == old(result.activeClients)
  {
    ParsedOutcome(files, parse, VsCodeProject, path);
    var read := ReadJsonWithErrors(files, parse, path, result);
    if read.Some? {
      var (root, src) := read.value;
      VsCodeShapes(root, src);
      var servers := AsObject(At(root, "servers"));
      if servers.None? {
        servers := AsObject(At(root, "mcpServers"));
      }
      if servers.Some? {
        result.servers := result.servers + ParseServerMap(servers.value, VsCodeProject, src);
      }
    }
  }

  /** `scan_claude_desktop`: only the first existing candidate is scanned. */
  method ScanClaudeDesktop(files: Files, parse: Parser, candidates: seq<Path>, result: DiscoveryResult)
    modifies result
    ensures FirstExisting(files, candidates).None? ==>
              result.servers == old(result.servers) && result.errors == old(result.errors)
    ensures FirstExisting(files, candidates).Some? ==>
              var found := ScanOutcome(files, parse, ClaudeDesktop, FirstExisting(files, candidates).value);
              result.servers == old(result.servers) + found.servers &&
              result.errors == old(result.errors) + found.errors
    ensures result.activeClients == old(result.activeClients)
  {
    var i := 0;
    while i < |candidates|
      invariant 0 <= i <= |candidates|
      invariant FirstExisting(files, candidates) == FirstExisting(files, candidates[i..])
      invariant result.servers == old(result.servers) && result.errors == old(result.errors)
      invariant result.activeClients == old(result.activeClients)
    {
      if candidates[i] in files {
        ScanWrapped(files, parse, candidates[i], ClaudeDesktop, result);
        return;
      }
      assert candidates[i..][1..] == candidates[i + 1..];
      i := i + 1;
    }
  }

  /** The six locations scanned unconditionally, in scan order. */
  function FixedSources(locs: Locations): seq<(ClientKind, Path)> {
    [(ClaudeCodeGlobal, locs.claudeJson),
     (ClaudeCodeProject, locs.mcpJson),
     (CursorGlobal, locs.cursorGlobal),
     (CursorProject, locs.cursorProject),
     (VsCodeProject, locs.vscode),
     (Windsurf, locs.windsurf)]
  }

  /** The scanner that reads a client's file, chosen by the client's file shape. */
  method ScanSource(files: Files, parse: Parser, client: ClientKind, path: Path, result: DiscoveryResult)
    modifies result
    ensures result.servers == old(result.servers) + ScanOutcome(files, parse, client, path).servers
    ensures result.errors == old(result.errors) + ScanOutcome(files, parse, client, path).errors
    ensures result.activeClients == old(result.activeClients)
  {
    match client {
      case ClaudeCodeGlobal => ScanClaudeCodeGlobal(files, parse, path, result);
      case ClaudeCodeProject => ScanMcpJson(files, parse, path, result);
      case VsCodeProject => ScanVsCode(files, parse, path, result);
      case _ => ScanWrapped(files, parse, path, client, result);
    }
  }

  /**
    `discover`: scan every location in order (the global file, `.mcp.json`,
    Cursor's two files, VS Code's, Windsurf's, then Claude Desktop's first
    existing candidate), then derive the active clients from the records.
    The six fixed calls are walked as one loop over `FixedSources`, each
    entry dispatched to its scanner by `ScanSource`.
  */
  method Discover(files: Files, parse: Parser, locs: Locations) returns (result: DiscoveryResult)
    ensures fresh(result)
    ensures result.servers == Gather(files, parse, Sources(files, locs)).servers
    ensures result.errors == Gather(files, parse, Sources(files, locs)).errors
    ensures result.activeClients == ActiveClients(result.servers)
  {
    ghost var ss := Sources(files, locs);
    var fixed := FixedSources(locs);
    assert fixed == ss[..6];
    result := new DiscoveryResult();
    var k := 0;
    assert Gather(files, parse, ss[..0]) == Found([], []) by {
      assert ss[..0] == [];
    }
    while k < |fixed|
      invariant 0 <= k <= |fixed|
      invariant result.servers == Gather(files, parse, ss[..k]).servers
      invariant result.errors == Gather(files, parse, ss[..k]).errors
    {
      ScanSource(files, parse, fixed[k].0, fixed[k].1, result);
      GatherSnoc(files, parse, ss, k);
      k := k + 1;
    }
    ScanClaudeDesktop(files, parse, locs.desktopCandidates, result);
    if FirstExisting(files, locs.desktopCandidates).Some? {
      GatherSnoc(files, parse, ss, 6);
      assert ss[..7] == ss;
    } else {
      assert ss[..6] == ss;
    }
    result.activeClients := ActiveClients(result.servers);
  }
}
