/**
  Config mutation (src/config_writer.rs): the stdio server value the add
  wizard builds, the per-client insert and remove rules on a document, and
  the read, backup and atomic-write steps over the file system.

  The document is a JSON value; serde's in-place `IndexMut` and
  `Map::remove` become `IndexSet`, `Put` and `Delete` on values.  The steps
  with effects (`create_dir_all`, `copy`, `write`, `rename`) are methods over
  a `FileSystem`, each proved against a pure description of its outcome and
  of the files it leaves behind.
*/
module ConfigWriter {
  import opened Wrappers
  import opened Assoc
  import opened Json
  import opened Types
  import opened FileSystem
  import opened Discovery

  // ---------------------------------------------------------------------
  // build_server_value
  // ---------------------------------------------------------------------

  /** The arguments as JSON strings, in order. */
  function StringArray(args: seq<string>): (r: seq<Json>)
    ensures |r| == |args| && forall i :: 0 <= i < |args| ==> r[i] == JString(args[i])
  {
    seq(|args|, i requires 0 <= i < |args| => JString(args[i]))
  }

  /** The entries with each value as a JSON string, keys and order kept. */
  function StringObject(env: StrMap): (r: Entries<Json>)
    ensures |r| == |env| && forall i :: 0 <= i < |env| ==> r[i] == (env[i].0, JString(env[i].1))
  {
    seq(|env|, i requires 0 <= i < |env| => (env[i].0, JString(env[i].1)))
  }

  /** Reading back the string elements of a built `args` array gives the arguments. */
  lemma {:induction false} StringElemsOfArray(args: seq<string>)
    ensures StringElems(StringArray(args)) == args
  {
    if args != [] {
      var items := StringArray(args);
      assert items[1..] == StringArray(args[1..]);
      StringElemsOfArray(args[1..]);
      assert args == [args[0]] + args[1..];
    }
  }

  /** Reading back the string entries of a built `env` object gives the entries. */
  lemma {:induction false} StringEntriesOfObject(env: StrMap)
    ensures StringEntries(StringObject(env)) == env
  {
    if env != [] {
      var ms := StringObject(env);
      assert ms[1..] == StringObject(env[1..]);
      StringEntriesOfObject(env[1..]);
      assert env == [env[0]] + env[1..];
    }
  }

  /**
    The shape `build_server_value` produces: an object with a string
    `command`, an `args` array exactly when there are arguments, an `env`
    object exactly when there are variables, and no `type`.
  */
  predicate StdioShape(v: Json, command: string, args: seq<string>, env: StrMap) {
    v.JObject? &&
    Member(v, "command") == Some(JString(command)) &&
    Member(v, "args") == (if args == [] then None else Some(JArray(StringArray(args)))) &&
    Member(v, "env") == (if env == [] then None else Some(JObject(StringObject(env)))) &&
    Member(v, "type") == None
  }

  /**
    Round trip: parsing a value of that shape as discovery does yields the
    same stdio command and arguments, and the same environment (None when
    it was empty).
  */
  lemma StdioShapeRoundTrip(v: Json, command: string, args: seq<string>, env: StrMap)
    requires StdioShape(v, command, args, env)
    ensures ParseTransport(v) == Stdio(command, args)
    ensures ParseStringMap(Member(v, "env")) == if env == [] then None else Some(env)
  {
    assert TypeTag(v) == "";
    StringElemsOfArray(args);
    StringEntriesOfObject(env);
  }

  /** Inserting a fresh member appends its key and leaves the three named members alone. */
  lemma PutFreshMember(ms: Entries<Json>, k: string, x: Json, q1: string, q2: string, q3: string)
    requires k !in Keys(ms) && q1 != k && q2 != k && q3 != k
    ensures Keys(Put(ms, k, x)) == Keys(ms) + [k]
    ensures Get(Put(ms, k, x), k) == Some(x)
    ensures Get(Put(ms, k, x), q1) == Get(ms, q1)
    ensures Get(Put(ms, k, x), q2) == Get(ms, q2)
    ensures Get(Put(ms, k, x), q3) == Get(ms, q3)
  {
    PutGet(ms, k, x);
    PutKeys(ms, k, x);
  }

  /** The member names of a stdio server value are pairwise different. */
  lemma ServerKeysDistinct()
    ensures "command" != "args" && "command" != "env" && "command" != "type"
    ensures "args" != "env" && "args" != "type" && "env" != "type"
  {
    assert "args"[0] != "type"[0];
  }

  /**
    `build_server_value`: `command` first, then `args` only when there are
    arguments, then `env` only when there are variables, and nothing else.
  */
  method BuildServerValue(command: string, args: seq<string>, env: StrMap) returns (v: Json)
    ensures StdioShape(v, command, args, env)
    ensures Keys(v.members) == ["command"] + (if args == [] then [] else ["args"]) + (if env == [] then [] else ["env"])
  {
    ServerKeysDistinct();
    var obj: Entries<Json> := Put([], "command", JString(command));
    assert obj == [("command", JString(command))];
    ghost var argsPart: seq<string> := [];
    if args != [] {
      var a := JArray(StringArray(args));
      PutFreshMember(obj, "args", a, "command", "env", "type");
      obj := Put(obj, "args", a);
      argsPart := ["args"];
    }
    assert Keys(obj) == ["command"] + argsPart;
    if env != [] {
      var e := JObject(StringObject(env));
      PutFreshMember(obj, "env", e, "command", "args", "type");
      obj := Put(obj, "env", e);
      assert Keys(obj) == ["command"] + argsPart + ["env"];
    } else {
      assert Keys(obj) == ["command"] + argsPart + [];
    }
    v := JObject(obj);
  }

  // ---------------------------------------------------------------------
  // The insert rule of add_server
  // ---------------------------------------------------------------------

  /**
    Where `add_server` puts the entry: under the servers key `key`, except
    that a project file without `mcpServers` is flat and takes it at the root.
  */
  function InsertPath(client: ClientKind, key: string, root: Json, name: string): (p: seq<string>)
    ensures 1 <= |p| <= 2 && p[|p| - 1] == name
  {
    if client == ClaudeCodeProject then
      if Member(root, "mcpServers").Some? then ["mcpServers", name] else [name]
    else [key, name]
  }

  /** `if root.get(key).is_none() { root[key] = json!({}) }`. */
  function EnsureObjectAt(root: Json, key: string): Option<Json> {
    if Member(root, key).None? then IndexSet(root, [key], JObject([])) else Some(root)
  }

  /**
    The document after `add_server` sets `name` to `value`, or None where
    serde's `IndexMut` panics.
  */
  function InsertServer(client: ClientKind, key: string, root: Json, name: string, value: Json): Option<Json> {
    if client == ClaudeCodeProject then
      IndexSet(root, InsertPath(client, key, root, name), value)
    else
      match EnsureObjectAt(root, key)
      case None => None
      case Some(prepared) => IndexSet(prepared, [key, name], value)
  }

  /**
    The insert panics exactly when the document is neither null nor an
    object, or when the value at the servers key is neither null nor an object.
  */
  lemma InsertServerPanics(client: ClientKind, key: string, root: Json, name: string, value: Json)
    ensures var p := InsertPath(client, key, root, name);
            InsertServer(client, key, root, name, value).None? <==>
              !(root.JNull? || root.JObject?) ||
              (|p| == 2 && !(At(root, p[0]).JNull? || At(root, p[0]).JObject?))
  {
    var p := InsertPath(client, key, root, name);
    var panics := InsertServer(client, key, root, name, value).None?;
    var bad := !(root.JNull? || root.JObject?) || (|p| == 2 && !(At(root, p[0]).JNull? || At(root, p[0]).JObject?));
    if client == ClaudeCodeProject {
      assert panics <==> bad by {
        SettableSteps(root, p[0], name);
        assert InsertServer(client, key, root, name, value) == IndexSet(root, p, value);
      }
    } else if Member(root, key).Some? {
      assert panics <==> bad by {
        SettableSteps(root, key, name);
      }
    } else if root.JNull? || root.JObject? {
      assert panics <==> bad by {
        var prepared := IndexSet(root, [key], JObject([])).value;
        SettableSteps(root, key, name);
        SettableSteps(prepared, key, name);
        AtPathSteps(prepared, key, name);
        assert At(prepared, key) == JObject([]);
        assert At(root, key) == JNull;
      }
    } else {
      assert panics <==> bad by {
        SettableSteps(root, key, name);
      }
    }
  }

  /** A one- or two-step assignment panics exactly where a step meets a non-object. */
  lemma SettableSteps(v: Json, a: string, b: string)
    ensures Settable(v, [a]) <==> v.JNull? || v.JObject?
    ensures Settable(v, [a, b]) <==> (v.JNull? || v.JObject?) && (At(v, a).JNull? || At(v, a).JObject?)
  {
    assert [a][1..] == [] && Settable(At(v, a), []);
    assert [a, b][1..] == [b] && [b][1..] == [] && Settable(At(At(v, a), b), []);
    assert Settable(At(v, a), [b]) <==> At(v, a).JNull? || At(v, a).JObject?;
  }

  /**
    A successful insert sets the entry, leaves every other member of the
    document alone and, under the servers object, every other server alone
    (a servers object that was absent or null starts out empty).
  */
  lemma InsertServerEffect(client: ClientKind, key: string, root: Json, name: string, value: Json)
    requires InsertServer(client, key, root, name, value).Some?
    ensures var r := InsertServer(client, key, root, name, value).value;
            var p := InsertPath(client, key, root, name);
            r.JObject? && AtPath(r, p) == value && Member(r, p[0]).Some? &&
            (forall k :: k != p[0] ==> Member(r, k) == Member(root, k)) &&
            (|p| == 2 ==> forall n :: n != name ==> Member(At(r, p[0]), n) == Member(At(root, p[0]), n))
  {
    var p := InsertPath(client, key, root, name);
    if client == ClaudeCodeProject {
      SetEffect(root, p, value);
    } else {
      var prepared := EnsureObjectAt(root, key).value;
      SetEffect(prepared, p, value);
      if Member(root, key).None? {
        SetEffect(root, [key], JObject([]));
        AtPathSteps(prepared, key, name);
        assert forall k :: k != key ==> Member(prepared, k) == Member(root, k);
        assert forall n :: Member(At(prepared, key), n) == None == Member(At(root, key), n);
      }
    }
  }

  /** An assignment one or two levels deep, and what it leaves alone. */
  lemma SetEffect(v: Json, p: seq<string>, x: Json)
    requires 1 <= |p| <= 2 && IndexSet(v, p, x).Some?
    ensures var r := IndexSet(v, p, x).value;
            r.JObject? && AtPath(r, p) == x && Member(r, p[0]).Some? &&
            (forall k :: k != p[0] ==> Member(r, k) == Member(v, k)) &&
            (|p| == 2 ==> forall n :: n != p[1] ==> Member(At(r, p[0]), n) == Member(At(v, p[0]), n))
  {
    var members := if v.JNull? then [] else v.members;
    PutGet(members, p[0], IndexSet(At(v, p[0]), p[1..], x).value);
    if |p| == 2 {
      IndexSetChild(v, p, x);
    }
  }

  /**
    Adding the same server twice leaves the document as adding it once,
    except for a server named `mcpServers` in a flat project file (see
    InsertFlatNotIdempotent).
  */
  lemma InsertServerIdempotent(client: ClientKind, key: string, root: Json, name: string, value: Json)
    requires InsertServer(client, key, root, name, value).Some?
    requires client == ClaudeCodeProject ==> name != "mcpServers"
    ensures InsertServer(client, key, InsertServer(client, key, root, name, value).value, name, value) ==
            InsertServer(client, key, root, name, value)
  {
    var r := InsertServer(client, key, root, name, value).value;
    var p := InsertPath(client, key, root, name);
    InsertServerEffect(client, key, root, name, value);
    if client == ClaudeCodeProject {
      assert Member(r, "mcpServers").Some? <==> Member(root, "mcpServers").Some?;
      assert InsertPath(client, key, r, name) == p;
      IndexSetIdempotent(root, p, value);
    } else {
      var prepared := EnsureObjectAt(root, key).value;
      assert Member(r, key).Some?;
      assert EnsureObjectAt(r, key) == Some(r);
      IndexSetIdempotent(prepared, p, value);
    }
  }

  /**
    Adding a server named `mcpServers` to an empty flat project file, then
    adding it again, nests a second copy inside the first: the second add
    takes the file for a wrapped one.
  */
  lemma InsertFlatNotIdempotent()
    ensures var v := JObject([("command", JString("x"))]);
            var once := InsertServer(ClaudeCodeProject, "mcpServers", JObject([]), "mcpServers", v);
            once == Some(JObject([("mcpServers", v)])) &&
            InsertServer(ClaudeCodeProject, "mcpServers", once.value, "mcpServers", v) != once
  {
    var v := JObject([("command", JString("x"))]);
    var once := JObject([("mcpServers", v)]);
    assert InsertServer(ClaudeCodeProject, "mcpServers", JObject([]), "mcpServers", v) == Some(once);
    var twice := InsertServer(ClaudeCodeProject, "mcpServers", once, "mcpServers", v).value;
    assert At(At(twice, "mcpServers"), "mcpServers") == v;
    assert At(At(once, "mcpServers"), "mcpServers") == JNull;
  }

  // ---------------------------------------------------------------------
  // The remove rule of remove_server
  // ---------------------------------------------------------------------

  /**
    `if let Some(obj) = v.get_mut(k).and_then(Value::as_object_mut) { obj.remove(name) }`:
    drop `name` from the object held at `k`; anything else is left alone.
  */
  function RemoveUnder(v: Json, k: string, name: string): Json {
    match Member(v, k)
    case Some(JObject(ms)) => JObject(Put(v.members, k, JObject(Delete(ms, name))))
    case _ => v
  }

  /** The object at `k`, if there is one, has no entry `name`. */
  predicate Lacks(v: Json, k: string, name: string) {
    match Member(v, k)
    case Some(JObject(ms)) => name !in Keys(ms)
    case _ => true
  }

  /** RemoveUnder drops `name` under `k`, keeps every other server there and every other member. */
  lemma RemoveUnderEffect(v: Json, k: string, name: string)
    ensures Lacks(RemoveUnder(v, k, name), k, name)
    ensures forall k' :: k' != k ==> Member(RemoveUnder(v, k, name), k') == Member(v, k')
    ensures forall n :: n != name ==> Member(At(RemoveUnder(v, k, name), k), n) == Member(At(v, k), n)
    ensures (Member(v, k).Some? && Member(v, k).value.JObject?) <==>
            (Member(RemoveUnder(v, k, name), k).Some? && Member(RemoveUnder(v, k, name), k).value.JObject?)
  {
    if Member(v, k).Some? && Member(v, k).value.JObject? {
      var ms := Member(v, k).value.members;
      DeleteGet(ms, name);
      PutGet(v.members, k, JObject(Delete(ms, name)));
    }
  }

  /** Where nothing is left to remove, RemoveUnder changes nothing. */
  lemma RemoveUnderNoop(v: Json, k: string, name: string)
    requires Lacks(v, k, name)
    ensures RemoveUnder(v, k, name) == v
  {
    if Member(v, k).Some? && Member(v, k).value.JObject? {
      DeleteGet(Member(v, k).value.members, name);
      PutSame(v.members, k, Member(v, k).value);
    }
  }

  /** Every project's `mcpServers` loses `name`; the project keys stay. */
  function StripProjects(ps: Entries<Json>, name: string): (r: Entries<Json>)
    ensures |r| == |ps| && forall i :: 0 <= i < |ps| ==> r[i] == (ps[i].0, RemoveUnder(ps[i].1, "mcpServers", name))
  {
    seq(|ps|, i requires 0 <= i < |ps| => (ps[i].0, RemoveUnder(ps[i].1, "mcpServers", name)))
  }

  /** A project found through the stripped list is the stripped project. */
  lemma {:induction false} StripProjectsGet(ps: Entries<Json>, name: string, pk: string)
    ensures Get(StripProjects(ps, name), pk) ==
            if Get(ps, pk).Some? then Some(RemoveUnder(Get(ps, pk).value, "mcpServers", name)) else None
  {
    if ps != [] {
      var r := StripProjects(ps, name);
      assert r[1..] == StripProjects(ps[1..], name);
      StripProjectsGet(ps[1..], name, pk);
    }
  }

  lemma {:induction false} StripProjectsIdempotent(ps: Entries<Json>, name: string)
    ensures StripProjects(StripProjects(ps, name), name) == StripProjects(ps, name)
  {
    var once := StripProjects(ps, name);
    forall i | 0 <= i < |ps|
      ensures RemoveUnder(once[i].1, "mcpServers", name) == once[i].1
    {
      RemoveUnderEffect(ps[i].1, "mcpServers", name);
      RemoveUnderNoop(once[i].1, "mcpServers", name);
    }
  }

  /** The `projects` object of the global file with every project stripped. */
  function StripAllProjects(v: Json, name: string): Json {
    match Member(v, "projects")
    case Some(JObject(ps)) => JObject(Put(v.members, "projects", JObject(StripProjects(ps, name))))
    case _ => v
  }

  /** The document after `remove_server` drops `name` for `client`. */
  function Removed(client: ClientKind, key: string, root: Json, name: string): Json {
    match client
    case ClaudeCodeGlobal => StripAllProjects(RemoveUnder(root, "mcpServers", name), name)
    case ClaudeCodeProject =>
      if Member(root, "mcpServers").Some? && Member(root, "mcpServers").value.JObject? then
        RemoveUnder(root, "mcpServers", name)
      else if root.JObject? then JObject(Delete(root.members, name))
      else root
    case _ => RemoveUnder(root, key, name)
  }

  /**
    For the global file: the root `mcpServers` and every project's
    `mcpServers` lose `name`; their other servers, the project keys and every
    other member of the document are kept.
  */
  lemma RemovedGlobal(root: Json, name: string, key: string, pk: string)
    ensures var r := Removed(ClaudeCodeGlobal, key, root, name);
            Lacks(r, "mcpServers", name) &&
            (forall n :: n != name ==> Member(At(r, "mcpServers"), n) == Member(At(root, "mcpServers"), n)) &&
            (forall k :: k != "mcpServers" && k != "projects" ==> Member(r, k) == Member(root, k)) &&
            (At(root, "projects").JObject? ==>
               Member(At(r, "projects"), pk).Some? == Member(At(root, "projects"), pk).Some? &&
               (Member(At(root, "projects"), pk).Some? ==>
                  At(At(r, "projects"), pk) == RemoveUnder(At(At(root, "projects"), pk), "mcpServers", name)))
  {
    var r1 := RemoveUnder(root, "mcpServers", name);
    var r := StripAllProjects(r1, name);
    RemoveUnderEffect(root, "mcpServers", name);
    StripAllProjectsEffect(r1, name, pk);
    assert At(r, "mcpServers") == At(r1, "mcpServers");
    assert At(r1, "projects") == At(root, "projects");
  }

  /** Stripping the projects touches only the `projects` member, project by project. */
  lemma StripAllProjectsEffect(v: Json, name: string, pk: string)
    ensures forall k :: k != "projects" ==> Member(StripAllProjects(v, name), k) == Member(v, k)
    ensures At(v, "projects").JObject? ==>
              Member(At(StripAllProjects(v, name), "projects"), pk).Some? == Member(At(v, "projects"), pk).Some? &&
              (Member(At(v, "projects"), pk).Some? ==>
                 At(At(StripAllProjects(v, name), "projects"), pk) == RemoveUnder(At(At(v, "projects"), pk), "mcpServers", name))
  {
    if At(v, "projects").JObject? {
      var ps := At(v, "projects").members;
      StripProjectsGet(ps, name, pk);
      PutGet(v.members, "projects", JObject(StripProjects(ps, name)));
    }
  }

  /**
    For a project file: a wrapped file loses `name` under `mcpServers`; any
    other object loses its root member `name`; other members stay.
  */
  lemma RemovedProject(root: Json, name: string, key: string)
    ensures var r := Removed(ClaudeCodeProject, key, root, name);
            (At(root, "mcpServers").JObject? ==>
               Lacks(r, "mcpServers", name) &&
               (forall n :: n != name ==> Member(At(r, "mcpServers"), n) == Member(At(root, "mcpServers"), n)) &&
               (forall k :: k != "mcpServers" ==> Member(r, k) == Member(root, k))) &&
            (!At(root, "mcpServers").JObject? ==>
               Member(r, name) == None && (forall k :: k != name ==> Member(r, k) == Member(root, k)))
  {
    RemoveUnderEffect(root, "mcpServers", name);
    if root.JObject? {
      DeleteGet(root.members, name);
    }
  }

  /** For every other client the servers object at `key` loses `name`, and nothing else changes. */
  lemma RemovedOther(client: ClientKind, root: Json, name: string, key: string)
    requires client != ClaudeCodeGlobal && client != ClaudeCodeProject
    ensures var r := Removed(client, key, root, name);
            Lacks(r, key, name) &&
            (forall n :: n != name ==> Member(At(r, key), n) == Member(At(root, key), n)) &&
            (forall k :: k != key ==> Member(r, k) == Member(root, k))
  {
    RemoveUnderEffect(root, key, name);
  }

  /** Stripping the projects twice strips them once. */
  lemma StripAllProjectsIdempotent(v: Json, name: string)
    ensures StripAllProjects(StripAllProjects(v, name), name) == StripAllProjects(v, name)
  {
    var r := StripAllProjects(v, name);
    if Member(v, "projects").Some? && Member(v, "projects").value.JObject? {
      var ps := Member(v, "projects").value.members;
      var stripped := JObject(StripProjects(ps, name));
      PutGet(v.members, "projects", stripped);
      assert Member(r, "projects") == Some(stripped);
      StripProjectsIdempotent(ps, name);
      PutSame(r.members, "projects", stripped);
    }
  }

  /** Removing twice leaves the document as removing once. */
  lemma RemovedIdempotent(client: ClientKind, key: string, root: Json, name: string)
    ensures Removed(client, key, Removed(client, key, root, name), name) == Removed(client, key, root, name)
  {
    var r := Removed(client, key, root, name);
    match client
    case ClaudeCodeGlobal =>
      var r1 := RemoveUnder(root, "mcpServers", name);
      RemoveUnderEffect(root, "mcpServers", name);
      StripAllProjectsEffect(r1, name, "");
      assert Member(r, "mcpServers") == Member(r1, "mcpServers");
      assert Lacks(r, "mcpServers", name);
      RemoveUnderNoop(r, "mcpServers", name);
      StripAllProjectsIdempotent(r1, name);
    case ClaudeCodeProject =>
      RemovedProjectIdempotent(root, key, name);
    case _ =>
      RemoveUnderEffect(root, key, name);
      RemoveUnderNoop(r, key, name);
  }

  lemma RemovedProjectIdempotent(root: Json, key: string, name: string)
    ensures Removed(ClaudeCodeProject, key, Removed(ClaudeCodeProject, key, root, name), name) ==
            Removed(ClaudeCodeProject, key, root, name)
  {
    var r := Removed(ClaudeCodeProject, key, root, name);
    if Member(root, "mcpServers").Some? && Member(root, "mcpServers").value.JObject? {
      RemoveUnderEffect(root, "mcpServers", name);
      RemoveUnderNoop(r, "mcpServers", name);
    } else if root.JObject? {
      DeleteGet(root.members, name);
      assert !(Member(r, "mcpServers").Some? && Member(r, "mcpServers").value.JObject?);
      DeleteIdempotent(root.members, name);
    }
  }

  /** Assigning `v[k][name]` where `v[k]` is an object puts the entry into that object. */
  lemma SetUnderObject(root: Json, k: string, name: string, value: Json)
    requires Member(root, k).Some? && Member(root, k).value.JObject?
    ensures IndexSet(root, [k, name], value) ==
              Some(JObject(Put(root.members, k, JObject(Put(Member(root, k).value.members, name, value)))))
  {
    var ms := Member(root, k).value.members;
    assert [k, name][1..] == [name];
    assert [name][1..] == [];
    assert IndexSet(At(root, k), [name], value) == Some(JObject(Put(ms, name, value)));
  }

  /** Setting a fresh entry under an object member, then removing it, restores the document. */
  lemma RemoveUnderUndoesSet(root: Json, k: string, name: string, value: Json)
    requires Member(root, k).Some? && Member(root, k).value.JObject?
    requires name !in Keys(Member(root, k).value.members)
    ensures IndexSet(root, [k, name], value).Some?
    ensures RemoveUnder(IndexSet(root, [k, name], value).value, k, name) == root
  {
    var ms := Member(root, k).value.members;
    var c := JObject(Put(ms, name, value));
    SetUnderObject(root, k, name, value);
    var r := JObject(Put(root.members, k, c));
    PutGet(root.members, k, c);
    DeletePutFresh(ms, name, value);
    assert RemoveUnder(r, k, name) == JObject(Put(Put(root.members, k, c), k, JObject(ms)));
    PutPut(root.members, k, c, JObject(ms));
    PutSame(root.members, k, JObject(ms));
  }

  /**
    Removing a server just added under an existing servers object that did
    not hold that name gives back the original document.
  */
  lemma RemoveUndoesInsert(client: ClientKind, key: string, root: Json, name: string, value: Json)
    requires client != ClaudeCodeGlobal
    requires var k := if client == ClaudeCodeProject then "mcpServers" else key;
             Member(root, k).Some? && Member(root, k).value.JObject? &&
             name !in Keys(Member(root, k).value.members)
    ensures InsertServer(client, key, root, name, value).Some?
    ensures Removed(client, key, InsertServer(client, key, root, name, value).value, name) == root
  {
    var k := if client == ClaudeCodeProject then "mcpServers" else key;
    RemoveUnderUndoesSet(root, k, name, value);
    var r := IndexSet(root, [k, name], value).value;
    IndexSetChild(root, [k, name], value);
    assert InsertServer(client, key, root, name, value) == Some(r);
    if client == ClaudeCodeProject {
      assert At(r, "mcpServers").JObject?;
    }
  }

  /** The project loop of `remove_server`, updating each project in place. */
  method StripEveryProject(ps: Entries<Json>, name: string) returns (r: Entries<Json>)
    ensures r == StripProjects(ps, name)
  {
    r := ps;
    var i := 0;
    while i < |r|
      invariant 0 <= i <= |r| == |ps|
      invariant forall j :: 0 <= j < i ==> r[j] == (ps[j].0, RemoveUnder(ps[j].1, "mcpServers", name))
      invariant forall j :: i <= j < |r| ==> r[j] == ps[j]
    {
      r := r[i := (r[i].0, RemoveUnder(r[i].1, "mcpServers", name))];
      i := i + 1;
    }
  }

  /** The in-memory part of `remove_server`. */
  method RemoveFromDocument(client: ClientKind, key: string, root: Json, name: string) returns (r: Json)
    ensures r == Removed(client, key, root, name)
  {
    match client
    case ClaudeCodeGlobal =>
      r := RemoveUnder(root, "mcpServers", name);
      var projects := Member(r, "projects");
      if projects.Some? && projects.value.JObject? {
        var stripped := StripEveryProject(projects.value.members, name);
        r := JObject(Put(r.members, "projects", JObject(stripped)));
      }
    case ClaudeCodeProject =>
      var wrapped := Member(root, "mcpServers");
      if wrapped.Some? && wrapped.value.JObject? {
        r := RemoveUnder(root, "mcpServers", name);
      } else if root.JObject? {
        r := JObject(Delete(root.members, name));
      } else {
        r := root;
      }
    case _ =>
      r := RemoveUnder(root, key, name);
  }

  // ---------------------------------------------------------------------
  // read_or_empty, backup, write_atomic
  // ---------------------------------------------------------------------

  /** `read_or_empty`: a missing file reads as `{}`, an unreadable or invalid one is an error. */
  function ReadOrEmpty(files: Files, parse: Parser, path: Path): (r: Result<Json>)
    ensures path !in files ==> r == Ok(JObject([]))
    ensures r.Err? <==> path in files && (files[path].Unreadable? || parse(files[path].text).Err?)
    ensures path in files && r.Ok? ==> parse(files[path].text) == Ok(r.value)
  {
    if path !in files then Ok(JObject([]))
    else match files[path]
      case Unreadable(e) => Err("failed to read " + path + ": " + e)
      case Readable(text) =>
        match parse(text)
        case Ok(v) => Ok(v)
        case Err(e) => Err("invalid JSON in " + path + ": " + e)
  }

  /** Why `backup` fails: the file exists and copying it to its `.bak` sibling fails. */
  predicate BackupFails(files: Files, faults: map<(Op, Path), string>, path: Path) {
    path in files && (CopyTo, WithExtension(path, "bak")) in faults
  }

  /** The files after a successful `backup`: the `.bak` sibling holds a copy of an existing file. */
  function BackedUp(files: Files, path: Path): Files {
    if path in files then files[WithExtension(path, "bak") := files[path]] else files
  }

  /** `backup`: copy an existing file to its `.bak` sibling; a missing file needs no backup. */
  method Backup(fs: FileSystem, path: Path) returns (r: Result<()>)
    modifies fs
    ensures r.Err? <==> BackupFails(old(fs.files), fs.faults, path)
    ensures r.Err? ==> fs.files == old(fs.files)
    ensures r.Err? ==> r.error == "failed to create backup " + WithExtension(path, "bak") + ": " +
                                  fs.faults[(CopyTo, WithExtension(path, "bak"))]
    ensures r.Ok? ==> fs.files == BackedUp(old(fs.files), path)
  {
    if path in fs.files {
      var bak := WithExtension(path, "bak");
      var copied := fs.Copy(path, bak);
      if copied.Err? {
        return Err("failed to create backup " + bak + ": " + copied.error);
      }
    }
    r := Ok(());
  }

  /** How an add or remove ends: written, refused with a message, or a panic inside serde. */
  datatype WriteOutcome = Written | Failed(message: string) | Panicked

  /**
    `write_atomic`: the serialised document goes to the `.tmp` sibling, which
    is then renamed over the destination.  A failed write leaves every file
    as it was; a failed rename leaves the temporary behind.
  */
  function Commit(files: Files, faults: map<(Op, Path), string>, path: Path, text: string): (WriteOutcome, Files) {
    var tmp := WithExtension(path, "tmp");
    if (WriteTo, tmp) in faults then
      (Failed("failed to write " + tmp + ": " + faults[(WriteTo, tmp)]), files)
    else if (RenameFrom, tmp) in faults then
      (Failed("failed to rename " + tmp + " to " + path + ": " + faults[(RenameFrom, tmp)]), files[tmp := Readable(text)])
    else
      (Written, (files - {tmp})[path := Readable(text)])
  }

  method WriteAtomic(fs: FileSystem, path: Path, doc: Json, pretty: Printer) returns (r: WriteOutcome)
    modifies fs
    ensures (r, fs.files) == Commit(old(fs.files), fs.faults, path, pretty(doc))
  {
    var text := pretty(doc);
    var tmp := WithExtension(path, "tmp");
    var wrote := fs.Write(tmp, text);
    if wrote.Err? {
      return Failed("failed to write " + tmp + ": " + wrote.error);
    }
    ghost var written := fs.files;
    var renamed := fs.Rename(tmp, path);
    if renamed.Err? {
      return Failed("failed to rename " + tmp + " to " + path + ": " + renamed.error);
    }
    assert fs.files == (old(fs.files) - {tmp})[path := Readable(text)];
    r := Written;
  }

  /** Whether `create_dir_all` of the destination's parent fails. */
  predicate DirFails(faults: map<(Op, Path), string>, path: Path) {
    Parent(path).Some? && (CreateDir, Parent(path).value) in faults
  }

  function DirError(faults: map<(Op, Path), string>, path: Path): string
    requires DirFails(faults, path)
  {
    "failed to create directory " + Parent(path).value + ": " + faults[(CreateDir, Parent(path).value)]
  }

  /**
    `add_server`, step by step: the path, the parent directory, the read,
    the backup, the insert, the atomic write.  Every failure ends the
    operation where it happens.
  */
  function AddSpec(files: Files, faults: map<(Op, Path), string>, client: ClientKind, key: string,
                   configPath: Option<Path>, name: string, value: Json, parse: Parser, pretty: Printer): (WriteOutcome, Files)
  {
    match configPath
    case None => (Failed("could not determine config path"), files)
    case Some(path) =>
      if DirFails(faults, path) then (Failed(DirError(faults, path)), files)
      else match ReadOrEmpty(files, parse, path)
        case Err(e) => (Failed(e), files)
        case Ok(root) =>
          if BackupFails(files, faults, path) then
            (Failed("failed to create backup " + WithExtension(path, "bak") + ": " + faults[(CopyTo, WithExtension(path, "bak"))]), files)
          else match InsertServer(client, key, root, name, value)
            case None => (Panicked, BackedUp(files, path))
            case Some(doc) => Commit(BackedUp(files, path), faults, path, pretty(doc))
  }

  /** `remove_server`: the path, the read, the backup, the removal, the atomic write. */
  function RemoveSpec(files: Files, faults: map<(Op, Path), string>, client: ClientKind, key: string,
                      configPath: Option<Path>, name: string, parse: Parser, pretty: Printer): (WriteOutcome, Files)
  {
    match configPath
    case None => (Failed("could not determine config path"), files)
    case Some(path) =>
      match ReadOrEmpty(files, parse, path)
      case Err(e) => (Failed(e), files)
      case Ok(root) =>
        if BackupFails(files, faults, path) then
          (Failed("failed to create backup " + WithExtension(path, "bak") + ": " + faults[(CopyTo, WithExtension(path, "bak"))]), files)
        else Commit(BackedUp(files, path), faults, path, pretty(Removed(client, key, root, name)))
  }

  /** `add_server` over the file system. */
  method AddServer(fs: FileSystem, client: ClientKind, key: string, configPath: Option<Path>,
                   name: string, value: Json, parse: Parser, pretty: Printer) returns (r: WriteOutcome)
    modifies fs
    ensures (r, fs.files) == AddSpec(old(fs.files), fs.faults, client, key, configPath, name, value, parse, pretty)
  {
    if configPath.None? {
      return Failed("could not determine config path");
    }
    var path := configPath.value;
    var parent := Parent(path);
    if parent.Some? {
      var made := fs.CreateDirAll(parent.value);
      if made.Err? {
        assert DirFails(fs.faults, path);
        return Failed("failed to create directory " + parent.value + ": " + made.error);
      }
    }
    assert !DirFails(fs.faults, path);
    ghost var files0 := fs.files;
    ghost var spec := AddSpec(files0, fs.faults, client, key, configPath, name, value, parse, pretty);
    var read := ReadOrEmpty(fs.files, parse, path);
    if read.Err? {
      assert spec == (Failed(read.error), files0);
      return Failed(read.error);
    }
    var backed := Backup(fs, path);
    if backed.Err? {
      assert spec == (Failed(backed.error), files0);
      return Failed(backed.error);
    }
    assert fs.files == BackedUp(files0, path);
    var doc := InsertServer(client, key, read.value, name, value);
    assert !BackupFails(files0, fs.faults, path) && spec == 
      match doc
      case None => (Panicked, BackedUp(files0, path))
      case Some(d) => Commit(BackedUp(files0, path), fs.faults, path, pretty(d));
    if doc.None? {
      return Panicked;
    }
    r := WriteAtomic(fs, path, doc.value, pretty);
  }

  /** `remove_server` over the file system. */
  method RemoveServer(fs: FileSystem, client: ClientKind, key: string, configPath: Option<Path>,
                      name: string, parse: Parser, pretty: Printer) returns (r: WriteOutcome)
    modifies fs
    ensures (r, fs.files) == RemoveSpec(old(fs.files), fs.faults, client, key, configPath, name, parse, pretty)
  {
    if configPath.None? {
      return Failed("could not determine config path");
    }
    var path := configPath.value;
    ghost var files0 := fs.files;
    var read := ReadOrEmpty(fs.files, parse, path);
    if read.Err? {
      return Failed(read.error);
    }
    var backed := Backup(fs, path);
    if backed.Err? {
      return Failed(backed.error);
    }
    assert !BackupFails(files0, fs.faults, path) && fs.files == BackedUp(files0, path);
    var doc := RemoveFromDocument(client, key, read.value, name);
    r := WriteAtomic(fs, path, doc, pretty);
    assert (r, fs.files) == Commit(BackedUp(files0, path), fs.faults, path, pretty(doc));
  }

  // ---------------------------------------------------------------------
  // What the steps guarantee
  // ---------------------------------------------------------------------

  /** Two file maps agree on `q`. */
  predicate SameAt(a: Files, b: Files, q: Path) {
    (q in a <==> q in b) && (q in a ==> a[q] == b[q])
  }

  /**
    Of a `.json` destination, the write step either replaces the
    destination with the text and removes the temporary, or leaves the
    destination as it was; apart from the temporary nothing else changes.
  */
  lemma CommitEffect(files: Files, faults: map<(Op, Path), string>, path: Path, text: string)
    requires EndsWith(path, ".json")
    ensures var (r, after) := Commit(files, faults, path, text);
            var tmp := WithExtension(path, "tmp");
            (r.Written? ==> path in after && after[path] == Readable(text) && tmp !in after) &&
            (!r.Written? ==> r.Failed? && SameAt(after, files, path)) &&
            (forall q :: q != path && q != tmp ==> SameAt(after, files, q))
  {
    var tmp := WithExtension(path, "tmp");
    SiblingsDistinct(path);
    var (r, after) := Commit(files, faults, path, text);
    if (WriteTo, tmp) in faults {
      assert after == files;
    } else if (RenameFrom, tmp) in faults {
      assert after == files[tmp := Readable(text)];
    } else {
      assert after == (files - {tmp})[path := Readable(text)];
    }
  }

  /**
    The ordering of `add_server`: a failure to find the path, create the
    directory, read the file or back it up leaves every file as it was;
    whatever happens, the destination changes only when the outcome is
    Written, and then it holds the serialised document with the new entry.
  */
  lemma AddOrdering(files: Files, faults: map<(Op, Path), string>, client: ClientKind, key: string,
                    path: Path, name: string, value: Json, parse: Parser, pretty: Printer)
    requires EndsWith(path, ".json")
    ensures var (r, after) := AddSpec(files, faults, client, key, Some(path), name, value, parse, pretty);
            var bak := WithExtension(path, "bak");
            (DirFails(faults, path) || ReadOrEmpty(files, parse, path).Err? || BackupFails(files, faults, path) ==>
               r.Failed? && after == files) &&
            (!r.Written? ==> SameAt(after, files, path)) &&
            (r.Written? ==>
               InsertServer(client, key, ReadOrEmpty(files, parse, path).value, name, value).Some? &&
               after[path] == Readable(pretty(InsertServer(client, key, ReadOrEmpty(files, parse, path).value, name, value).value))) &&
            (r.Written? && path in files ==> bak in after && after[bak] == files[path])
  {
    SiblingsDistinct(path);
    var bak := WithExtension(path, "bak");
    var spec := AddSpec(files, faults, client, key, Some(path), name, value, parse, pretty);
    if DirFails(faults, path) || ReadOrEmpty(files, parse, path).Err? || BackupFails(files, faults, path) {
      assert spec.0.Failed? && spec.1 == files;
    } else {
      var root := ReadOrEmpty(files, parse, path).value;
      var backed := BackedUp(files, path);
      assert SameAt(backed, files, path);
      match InsertServer(client, key, root, name, value)
      case None =>
        assert spec == (Panicked, backed);
      case Some(doc) =>
        assert spec == Commit(backed, faults, path, pretty(doc));
        CommitEffect(backed, faults, path, pretty(doc));
        if path in files {
          assert bak in backed && backed[bak] == files[path];
          assert SameAt(spec.1, backed, bak);
        }
    }
  }

  /** The same ordering for `remove_server`, whose new document is Removed. */
  lemma RemoveOrdering(files: Files, faults: map<(Op, Path), string>, client: ClientKind, key: string,
                       path: Path, name: string, parse: Parser, pretty: Printer)
    requires EndsWith(path, ".json")
    ensures var (r, after) := RemoveSpec(files, faults, client, key, Some(path), name, parse, pretty);
            var bak := WithExtension(path, "bak");
            (ReadOrEmpty(files, parse, path).Err? || BackupFails(files, faults, path) ==> r.Failed? && after == files) &&
            (!r.Written? ==> SameAt(after, files, path)) &&
            (r.Written? ==>
               ReadOrEmpty(files, parse, path).Ok? &&
               after[path] == Readable(pretty(Removed(client, key, ReadOrEmpty(files, parse, path).value, name)))) &&
            (r.Written? && path in files ==> bak in after && after[bak] == files[path])
  {
    SiblingsDistinct(path);
    var bak := WithExtension(path, "bak");
    var spec := RemoveSpec(files, faults, client, key, Some(path), name, parse, pretty);
    if ReadOrEmpty(files, parse, path).Err? || BackupFails(files, faults, path) {
      assert spec.0.Failed? && spec.1 == files;
    } else {
      var root := ReadOrEmpty(files, parse, path).value;
      var backed := BackedUp(files, path);
      assert SameAt(backed, files, path);
      var text := pretty(Removed(client, key, root, name));
      assert spec == Commit(backed, faults, path, text);
      CommitEffect(backed, faults, path, text);
      if path in files {
        assert bak in backed && backed[bak] == files[path];
        assert SameAt(spec.1, backed, bak);
      }
    }
  }

  /**
    When the parser reads back the printed text as the document, reading
    the destination after a successful write gives that document.
  */
  lemma CommitReadBack(files: Files, faults: map<(Op, Path), string>, path: Path, doc: Json,
                       parse: Parser, pretty: Printer)
    requires EndsWith(path, ".json")
    requires parse(pretty(doc)) == Ok(doc)
    ensures var (r, after) := Commit(files, faults, path, pretty(doc));
            r.Written? ==> ReadOrEmpty(after, parse, path) == Ok(doc)
  {
    CommitEffect(files, faults, path, pretty(doc));
  }
}
