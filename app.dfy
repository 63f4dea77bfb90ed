/**
  The dashboard state of src/app.rs: the server list with its selection
  and scroll position, starting health probes and applying their answers,
  the transient status line, and the batch add / remove / sync runs.
  Key routing is not modelled; the operations it triggers are.
*/
module App {
  import opened Wrappers
  import opened Assoc
  import opened Json
  import opened Types
  import opened FileSystem
  import opened Discovery
  import opened ConfigWriter
  import opened Wizard

  /** `usize::saturating_sub`. */
  function SatSub(a: nat, b: nat): (r: nat)
    ensures a >= b ==> r == a - b
    ensures a < b ==> r == 0
  {
    if a >= b then a - b else 0
  }

  /** The selection `refresh` keeps over `n` records: unchanged while on the list, else the last record (0 when there are none). */
  function Clamp(sel: nat, n: nat): (r: nat)
    ensures r <= SatSub(n, 1)
    ensures sel < n ==> r == sel
    ensures sel >= n ==> r == SatSub(n, 1)
  {
    if sel < n then sel else SatSub(n, 1)
  }

  /** Frames a status message stays on screen (about three seconds at 200 ms per frame). */
  const StatusFrames: nat := 15

  // ---------------------------------------------------------------------
  // Health bookkeeping
  // ---------------------------------------------------------------------

  /** The indices of the stdio servers, in order (`enumerate().filter(is_stdio)`). */
  function StdioIndices(servers: seq<McpServer>): (r: seq<nat>)
    ensures forall j :: 0 <= j < |r| ==> r[j] < |servers| && servers[r[j]].transport.Stdio?
    ensures forall j, k :: 0 <= j < k < |r| ==> r[j] < r[k]
    decreases |servers|
  {
    if servers == [] then []
    else
      var n := |servers| - 1;
      StdioIndices(servers[..n]) + (if servers[n].transport.Stdio? then [n] else [])
  }

  /** Every stdio server is listed. */
  lemma {:induction false} StdioIndicesComplete(servers: seq<McpServer>, i: nat)
    requires i < |servers| && servers[i].transport.Stdio?
    ensures i in StdioIndices(servers)
    decreases |servers|
  {
    var n := |servers| - 1;
    if i < n {
      assert servers[..n][i] == servers[i];
      StdioIndicesComplete(servers[..n], i);
    }
  }

  /** The slot a started probe shows. */
  function MarkChecking(s: McpServer): McpServer {
    s.(health := Checking)
  }

  /** The list after `check_all`: every stdio server Checking, the others as they were. */
  function CheckedAll(servers: seq<McpServer>): (r: seq<McpServer>)
    ensures |r| == |servers|
    ensures forall i :: 0 <= i < |servers| ==>
              r[i] == if servers[i].transport.Stdio? then MarkChecking(servers[i]) else servers[i]
  {
    seq(|servers|, i requires 0 <= i < |servers| =>
      if servers[i].transport.Stdio? then MarkChecking(servers[i]) else servers[i])
  }

  /** The probes started for the given slots, each with the record it got before being marked. */
  function Launches(servers: seq<McpServer>, idxs: seq<nat>): (r: seq<(nat, McpServer)>)
    requires forall j :: 0 <= j < |idxs| ==> idxs[j] < |servers|
    ensures |r| == |idxs| && forall j :: 0 <= j < |idxs| ==> r[j] == (idxs[j], servers[idxs[j]])
  {
    seq(|idxs|, j requires 0 <= j < |idxs| => (idxs[j], servers[idxs[j]]))
  }

  /** One more started probe extends the launches by its slot and record. */
  lemma LaunchesSnoc(servers: seq<McpServer>, idxs: seq<nat>, i: nat)
    requires forall j :: 0 <= j < |idxs| ==> idxs[j] < |servers|
    requires i < |servers|
    ensures Launches(servers, idxs + [i]) == Launches(servers, idxs) + [(i, servers[i])]
  {
    var l := Launches(servers, idxs + [i]);
    assert forall j :: 0 <= j < |idxs| ==> l[j] == Launches(servers, idxs)[j];
  }

  /** One answer: an in-range slot takes its status and time, any other answer is dropped. */
  function ApplyOne(servers: seq<McpServer>, res: HealthResult): (r: seq<McpServer>)
    ensures |r| == |servers|
  {
    if res.serverIndex < |servers| then
      servers[res.serverIndex := servers[res.serverIndex].(health := res.status, lastChecked := Some(res.checkedAt))]
    else servers
  }

  /** The answers applied in order. */
  function ApplyHealth(servers: seq<McpServer>, queue: seq<HealthResult>): (r: seq<McpServer>)
    ensures |r| == |servers|
    decreases |queue|
  {
    if queue == [] then servers
    else ApplyOne(ApplyHealth(servers, queue[..|queue| - 1]), queue[|queue| - 1])
  }

  /** The last answer for slot `i`, if any. */
  function LastFor(queue: seq<HealthResult>, i: nat): (r: Option<HealthResult>)
    ensures r.Some? ==> r.value in queue && r.value.serverIndex == i
    ensures r.None? ==> forall j :: 0 <= j < |queue| ==> queue[j].serverIndex != i
    decreases |queue|
  {
    if queue == [] then None
    else if queue[|queue| - 1].serverIndex == i then Some(queue[|queue| - 1])
    else
      var r := LastFor(queue[..|queue| - 1], i);
      assert forall j :: 0 <= j < |queue| - 1 ==> queue[j] == queue[..|queue| - 1][j];
      r
  }

  /**
    After draining, each slot shows the last answer addressed to it (status
    and time); a slot no answer addressed keeps its record.
  */
  lemma {:induction false} ApplyHealthLastWins(servers: seq<McpServer>, queue: seq<HealthResult>, i: nat)
    requires i < |servers|
    ensures ApplyHealth(servers, queue)[i] ==
              match LastFor(queue, i)
              case None => servers[i]
              case Some(res) => servers[i].(health := res.status, lastChecked := Some(res.checkedAt))
    decreases |queue|
  {
    if queue != [] {
      var init := queue[..|queue| - 1];
      ApplyHealthLastWins(servers, init, i);
      if queue[|queue| - 1].serverIndex != i {
        assert LastFor(queue, i) == LastFor(init, i);
      } else {
        var prev := ApplyHealth(servers, init);
        assert prev[i].name == servers[i].name;
        assert ApplyHealth(servers, queue)[i] == prev[i].(health := queue[|queue| - 1].status,
                                                           lastChecked := Some(queue[|queue| - 1].checkedAt));
      }
    }
  }

  /** Answers never change anything but health and check time. */
  lemma {:induction false} ApplyHealthKeepsRecords(servers: seq<McpServer>, queue: seq<HealthResult>, i: nat)
    requires i < |servers|
    ensures var s := ApplyHealth(servers, queue)[i];
            s.name == servers[i].name && s.client == servers[i].client &&
            s.sourcePath == servers[i].sourcePath && s.transport == servers[i].transport && s.env == servers[i].env
    decreases |queue|
  {
    ApplyHealthLastWins(servers, queue, i);
  }

  // ---------------------------------------------------------------------
  // The status line
  // ---------------------------------------------------------------------

  /** `tick_status` on the pair (message, frames left). */
  function Tick(msg: Option<string>, timer: nat): (r: (Option<string>, nat))
    ensures timer == 0 ==> r == (msg, 0)
    ensures timer > 0 ==> r.1 == timer - 1
    ensures timer > 0 ==> r.0 == if timer == 1 then None else msg
  {
    if timer > 0 then
      var t := timer - 1;
      (if t == 0 then None else msg, t)
    else (msg, timer)
  }

  /** `k` ticks in a row. */
  function Ticks(msg: Option<string>, timer: nat, k: nat): (Option<string>, nat)
    decreases k
  {
    if k == 0 then (msg, timer)
    else
      var (m, t) := Tick(msg, timer);
      Ticks(m, t, k - 1)
  }

  /** A message that was just set stays for the first 14 ticks and is cleared by the 15th. */
  lemma {:induction false} StatusLifetime(msg: string, timer: nat, k: nat)
    requires 0 < timer && k <= timer
    ensures Ticks(Some(msg), timer, k) == (if k == timer then None else Some(msg), timer - k)
    decreases k
  {
    if k > 0 {
      if timer == 1 {
        assert Ticks(Some(msg), timer, k) == Ticks(None, 0, 0);
      } else {
        StatusLifetime(msg, timer - 1, k - 1);
      }
    }
  }

  // ---------------------------------------------------------------------
  // Which clients declare a server
  // ---------------------------------------------------------------------

  /** `clients_with_server`: the client of every record named `name`, in list order. */
  function WithServer(servers: seq<McpServer>, name: string): (r: seq<ClientKind>)
    ensures |r| <= |servers|
  {
    if servers == [] then []
    else (if servers[0].name == name then [servers[0].client] else []) + WithServer(servers[1..], name)
  }

  lemma {:induction false} WithServerMembers(servers: seq<McpServer>, name: string, k: ClientKind)
    ensures k in WithServer(servers, name) <==>
              exists i :: 0 <= i < |servers| && servers[i].name == name && servers[i].client == k
  {
    if servers != [] {
      WithServerMembers(servers[1..], name, k);
      if exists i :: 0 <= i < |servers[1..]| && servers[1..][i].name == name && servers[1..][i].client == k {
        var i :| 0 <= i < |servers[1..]| && servers[1..][i].name == name && servers[1..][i].client == k;
        assert servers[i + 1] == servers[1..][i];
      }
      if exists i :: 0 <= i < |servers| && servers[i].name == name && servers[i].client == k {
        var i :| 0 <= i < |servers| && servers[i].name == name && servers[i].client == k;
        if i > 0 { assert servers[1..][i - 1] == servers[i]; }
      }
    }
  }

  /** The clients are listed in the order of their records. */
  lemma {:induction false} WithServerAppend(a: seq<McpServer>, b: seq<McpServer>, name: string)
    ensures WithServer(a + b, name) == WithServer(a, name) + WithServer(b, name)
  {
    if a == [] {
      assert a + b == b;
    } else {
      assert (a + b)[0] == a[0] && (a + b)[1..] == a[1..] + b;
      WithServerAppend(a[1..], b, name);
      ConcatAssoc(if a[0].name == name then [a[0].client] else [], WithServer(a[1..], name), WithServer(b, name));
    }
  }

  /** The kinds of `ks` not in `have`, in the order of `ks`. */
  function Without(ks: seq<ClientKind>, have: set<ClientKind>): (r: seq<ClientKind>)
    ensures |r| <= |ks|
    ensures forall k :: k in r <==> k in ks && k !in have
  {
    if ks == [] then []
    else (if ks[0] in have then [] else [ks[0]]) + Without(ks[1..], have)
  }

  /** Filtering keeps the order of the writable list. */
  lemma {:induction false} WithoutAppend(a: seq<ClientKind>, b: seq<ClientKind>, have: set<ClientKind>)
    ensures Without(a + b, have) == Without(a, have) + Without(b, have)
  {
    if a == [] {
      assert a + b == b;
    } else {
      assert (a + b)[0] == a[0] && (a + b)[1..] == a[1..] + b;
      WithoutAppend(a[1..], b, have);
      ConcatAssoc(if a[0] in have then [] else [a[0]], Without(a[1..], have), Without(b, have));
    }
  }

  function KindSet(ks: seq<ClientKind>): (r: set<ClientKind>)
    ensures forall k :: k in r <==> k in ks
  {
    set k | k in ks
  }

  /** `clients_without_server`: the writable clients that do not declare `name`. */
  function WithoutServer(writable: seq<ClientKind>, servers: seq<McpServer>, name: string): seq<ClientKind> {
    Without(writable, KindSet(WithServer(servers, name)))
  }

  /** Each writable client either declares the server or is offered for sync, never both. */
  lemma SyncCandidates(writable: seq<ClientKind>, servers: seq<McpServer>, name: string, k: ClientKind)
    requires k in writable
    ensures k in WithoutServer(writable, servers, name) <==>
              !exists i :: 0 <= i < |servers| && servers[i].name == name && servers[i].client == k
  {
    WithServerMembers(servers, name, k);
  }

  // ---------------------------------------------------------------------
  // Batch runs
  // ---------------------------------------------------------------------

  /** Where each client keeps its servers: `servers_key` and `config_path`. */
  datatype ClientFiles = ClientFiles(serversKey: ClientKind -> string, configPath: ClientKind -> Option<Path>)

  /**
    The tally of a batch: successes, the errors as "<label>: <error>", and
    whether a serde panic ended the run (and the program) early.
  */
  datatype Tally = Tally(successes: nat, errors: seq<string>, panicked: bool)

  /** One client's outcome added to the tally. */
  function Record(t: Tally, c: ClientKind, o: WriteOutcome): (r: Tally)
    ensures o.Written? ==> r == t.(successes := t.successes + 1)
    ensures o.Failed? ==> r == t.(errors := t.errors + [Label(c) + ": " + o.message])
    ensures o.Panicked? ==> r == t.(panicked := true)
  {
    match o
    case Written => t.(successes := t.successes + 1)
    case Failed(m) => t.(errors := t.errors + [Label(c) + ": " + m])
    case Panicked => t.(panicked := true)
  }

  /** What one client's write does to the files. */
  type Step = (Files, ClientKind) -> (WriteOutcome, Files)

  /** `add_server` of `name` with `value` for a client. */
  function Adding(faults: map<(Op, Path), string>, cf: ClientFiles, name: string, value: Json,
                  parse: Parser, pretty: Printer): Step
  {
    (f: Files, c: ClientKind) => AddSpec(f, faults, c, cf.serversKey(c), cf.configPath(c), name, value, parse, pretty)
  }

  /** `remove_server` of `name` for a client. */
  function Removing(faults: map<(Op, Path), string>, cf: ClientFiles, name: string,
                    parse: Parser, pretty: Printer): Step
  {
    (f: Files, c: ClientKind) => RemoveSpec(f, faults, c, cf.serversKey(c), cf.configPath(c), name, parse, pretty)
  }

  /**
    The clients in turn, each seeing the files the previous one left; every
    error is collected, and only a panic stops the run.
  */
  function Batch(files: Files, clients: seq<ClientKind>, step: Step): (Tally, Files)
    decreases |clients|
  {
    if clients == [] then (Tally(0, [], false), files)
    else
      var c := clients[|clients| - 1];
      var (t, f) := Batch(files, clients[..|clients| - 1], step);
      if t.panicked then (t, f)
      else
        var (o, f') := step(f, c);
        (Record(t, c, o), f')
  }

  /** Whether some error line is attributed to a client of the batch. */
  predicate Attributed(e: string, clients: seq<ClientKind>) {
    exists c :: c in clients && |Label(c) + ": "| <= |e| && e[..|Label(c) + ": "|] == Label(c) + ": "
  }

  /** The tally accounts for every attempted client: without a panic, for all of them. */
  predicate Accounts(t: Tally, clients: seq<ClientKind>) {
    (!t.panicked ==> t.successes + |t.errors| == |clients|) &&
    (t.panicked ==> t.successes + |t.errors| < |clients|) &&
    forall j :: 0 <= j < |t.errors| ==> Attributed(t.errors[j], clients)
  }

  lemma RecordAccounts(t: Tally, clients: seq<ClientKind>, o: WriteOutcome)
    requires clients != [] && Accounts(t, clients[..|clients| - 1]) && !t.panicked
    ensures Accounts(Record(t, clients[|clients| - 1], o), clients)
  {
    var c := clients[|clients| - 1];
    var init := clients[..|clients| - 1];
    var r := Record(t, c, o);
    forall j | 0 <= j < |r.errors|
      ensures Attributed(r.errors[j], clients)
    {
      if j < |t.errors| {
        assert r.errors[j] == t.errors[j];
        var c' :| c' in init && |Label(c') + ": "| <= |t.errors[j]| && t.errors[j][..|Label(c') + ": "|] == Label(c') + ": ";
        assert c' in clients;
      } else {
        assert r.errors[j] == Label(c) + ": " + o.message;
        assert c in clients;
      }
    }
  }

  /**
    Without a panic, successes and errors together number the clients;
    every error names its client.
  */
  lemma {:induction false} BatchAccounts(files: Files, clients: seq<ClientKind>, step: Step)
    ensures Accounts(Batch(files, clients, step).0, clients)
    decreases |clients|
  {
    if clients != [] {
      var init := clients[..|clients| - 1];
      BatchAccounts(files, init, step);
      var (t, f) := Batch(files, init, step);
      if !t.panicked {
        RecordAccounts(t, clients, step(f, clients[|clients| - 1]).0);
      } else {
        assert forall c :: c in init ==> c in clients;
        forall j | 0 <= j < |t.errors|
          ensures Attributed(t.errors[j], clients)
        {
          assert Attributed(t.errors[j], init);
        }
      }
    }
  }

  /** One more client extends the batch by one step, unless it has already panicked. */
  lemma BatchNext(files: Files, clients: seq<ClientKind>, i: nat, step: Step)
    requires i < |clients|
    ensures Batch(files, clients[..i + 1], step) ==
              var (t, f) := Batch(files, clients[..i], step);
              if t.panicked then (t, f)
              else var (o, f') := step(f, clients[i]); (Record(t, clients[i], o), f')
  {
    assert clients[..i + 1][..i] == clients[..i];
  }

  /** The loop step of a batch: recording one more client's outcome extends the batch by that client. */
  lemma BatchAdvance(files: Files, clients: seq<ClientKind>, i: nat, step: Step,
                     t: Tally, f: Files, o: WriteOutcome, f': Files)
    requires i < |clients| && !t.panicked
    requires (t, f) == Batch(files, clients[..i], step)
    requires (o, f') == step(f, clients[i])
    ensures (Record(t, clients[i], o), f') == Batch(files, clients[..i + 1], step)
  {
    BatchNext(files, clients, i, step);
  }

  /** A batch that has panicked after `i` clients ends as it stood then. */
  lemma BatchStopped(files: Files, clients: seq<ClientKind>, i: nat, step: Step)
    requires i <= |clients| && Batch(files, clients[..i], step).0.panicked
    ensures Batch(files, clients, step) == Batch(files, clients[..i], step)
  {
    assert clients[..i] + clients[i..] == clients;
    PanicStops(files, clients[..i], clients[i..], step);
  }

  /** After a panic nothing further is attempted. */
  lemma {:induction false} PanicStops(files: Files, pre: seq<ClientKind>, rest: seq<ClientKind>, step: Step)
    requires Batch(files, pre, step).0.panicked
    ensures Batch(files, pre + rest, step) == Batch(files, pre, step)
    decreases |rest|
  {
    if rest != [] {
      var all := pre + rest;
      assert all[..|all| - 1] == pre + rest[..|rest| - 1];
      PanicStops(files, pre, rest[..|rest| - 1], step);
    } else {
      assert pre + rest == pre;
    }
  }

  /** One client's `add_server`, as a step of the batch. */
  method AddOne(fs: FileSystem, c: ClientKind, cf: ClientFiles, name: string, value: Json,
                parse: Parser, pretty: Printer) returns (o: WriteOutcome)
    modifies fs
    ensures (o, fs.files) == Adding(fs.faults, cf, name, value, parse, pretty)(old(fs.files), c)
  {
    o := AddServer(fs, c, cf.serversKey(c), cf.configPath(c), name, value, parse, pretty);
  }

  /** The `for client in &clients` loop of `execute_add` and `execute_sync`. */
  method AddToClients(fs: FileSystem, clients: seq<ClientKind>, cf: ClientFiles, name: string, value: Json,
                      parse: Parser, pretty: Printer) returns (t: Tally)
    modifies fs
    ensures (t, fs.files) == Batch(old(fs.files), clients, Adding(fs.faults, cf, name, value, parse, pretty))
  {
    ghost var step := Adding(fs.faults, cf, name, value, parse, pretty);
    t := Tally(0, [], false);
    var i := 0;
    while i < |clients| && !t.panicked
      invariant 0 <= i <= |clients|
      invariant (t, fs.files) == Batch(old(fs.files), clients[..i], step)
    {
      var c := clients[i];
      ghost var f := fs.files;
      var o := AddOne(fs, c, cf, name, value, parse, pretty);
      BatchAdvance(old(fs.files), clients, i, step, t, f, o, fs.files);
      t := Record(t, c, o);
      i := i + 1;
    }
    if t.panicked {
      BatchStopped(old(fs.files), clients, i, step);
    } else {
      assert clients[..i] == clients;
    }
  }

  /** One client's `remove_server`, as a step of the batch; removal never panics. */
  method RemoveOne(fs: FileSystem, c: ClientKind, cf: ClientFiles, name: string,
                   parse: Parser, pretty: Printer) returns (o: WriteOutcome)
    modifies fs
    ensures (o, fs.files) == Removing(fs.faults, cf, name, parse, pretty)(old(fs.files), c)
    ensures !o.Panicked?
  {
    o := RemoveServer(fs, c, cf.serversKey(c), cf.configPath(c), name, parse, pretty);
  }

  /**
    The loop of `execute_remove` (for the clients this model knows).
    Removal assigns nothing through `IndexMut`, so it never panics.
  */
  method RemoveFromClients(fs: FileSystem, clients: seq<ClientKind>, cf: ClientFiles, name: string,
                           parse: Parser, pretty: Printer) returns (t: Tally)
    modifies fs
    ensures (t, fs.files) == Batch(old(fs.files), clients, Removing(fs.faults, cf, name, parse, pretty))
    ensures !t.panicked
  {
    ghost var step := Removing(fs.faults, cf, name, parse, pretty);
    t := Tally(0, [], false);
    var i := 0;
    while i < |clients|
      invariant 0 <= i <= |clients| && !t.panicked
      invariant (t, fs.files) == Batch(old(fs.files), clients[..i], step)
    {
      var c := clients[i];
      BatchNext(old(fs.files), clients, i, step);
      var o := RemoveOne(fs, c, cf, name, parse, pretty);
      t := Record(t, c, o);
      i := i + 1;
    }
    assert clients[..i] == clients;
  }

  /** Decimal digits of `n`, as `format!("{}", n)` prints them. */
  function NatToString(n: nat): (r: string)
    ensures r != []
    ensures forall i :: 0 <= i < |r| ==> '0' <= r[i] <= '9'
    decreases n
  {
    var d := [(('0' as int) + n % 10) as char];
    if n < 10 then d else NatToString(n / 10) + d
  }

  /** The number a string of decimal digits denotes, most significant digit first. */
  function DigitsValue(s: string): int
    decreases |s|
  {
    if s == [] then 0 else 10 * DigitsValue(s[..|s| - 1]) + ((s[|s| - 1] as int) - ('0' as int))
  }

  /** The printed digits denote `n`, with a leading zero only for 0 itself. */
  lemma {:induction false} NatToStringValue(n: nat)
    ensures DigitsValue(NatToString(n)) == n
    ensures NatToString(n)[0] == '0' <==> n == 0
    decreases n
  {
    if n >= 10 {
      NatToStringValue(n / 10);
      var s := NatToString(n / 10);
      var d := [(('0' as int) + n % 10) as char];
      assert NatToString(n) == s + d;
      assert (s + d)[..|s + d| - 1] == s;
      assert (s + d)[0] == s[0];
    }
  }

  /** Distinct counts print differently. */
  lemma NatToStringInjective(m: nat, n: nat)
    requires NatToString(m) == NatToString(n)
    ensures m == n
  {
    NatToStringValue(m);
    NatToStringValue(n);
  }

  /** `Vec::join(sep)`. */
  function JoinWith(ss: seq<string>, sep: string): string
    decreases |ss|
  {
    if ss == [] then []
    else if |ss| == 1 then ss[0]
    else ss[0] + sep + JoinWith(ss[1..], sep)
  }

  /** Joining one more piece appends the separator and that piece, as `Vec::join` does. */
  lemma {:induction false} JoinWithSnoc(ss: seq<string>, x: string, sep: string)
    requires ss != []
    ensures JoinWith(ss + [x], sep) == JoinWith(ss, sep) + sep + x
    decreases |ss|
  {
    if |ss| == 1 {
      assert (ss + [x])[1..] == [x];
    } else {
      assert (ss + [x])[0] == ss[0] && (ss + [x])[1..] == ss[1..] + [x];
      JoinWithSnoc(ss[1..], x, sep);
    }
  }

  /**
    The status line after a batch: a count when every client succeeded,
    otherwise every error, joined by "; ".
  */
  function BatchStatus(verb: string, prep: string, name: string, t: Tally): (r: string)
    ensures t.errors != [] ==> r == "Errors: " + JoinWith(t.errors, "; ")
    ensures t.errors == [] ==>
              r == verb + " \"" + name + "\" " + prep + " " + NatToString(t.successes) + " client" +
                   (if t.successes == 1 then "" else "s")
  {
    if t.errors == [] then
      verb + " \"" + name + "\" " + prep + " " + NatToString(t.successes) + " client" +
      (if t.successes == 1 then "" else "s")
    else "Errors: " + JoinWith(t.errors, "; ")
  }

  // ---------------------------------------------------------------------
  // The application state
  // ---------------------------------------------------------------------

  class App {
    var result: DiscoveryResult
    var selected: nat
    var scrollOffset: nat
    var showErrors: bool
    var checkingCount: nat
    var statusMessage: Option<string>
    var statusTimer: nat
    /** The health probes started, in order: the slot and the record handed to the probe. */
    var launched: seq<(nat, McpServer)>
    const locs: Locations

    /**
      The dashboard holds a discovery of `files`: every record and error of
      the scan, and exactly the clients owning a record as the active ones.
    */
    predicate Shows(files: Files, parse: Parser)
      reads this, result
    {
      result.servers == Gather(files, parse, Sources(files, locs)).servers &&
      result.errors == Gather(files, parse, Sources(files, locs)).errors &&
      result.activeClients == ActiveClients(result.servers)
    }

    /** `App::new`: discover once, nothing selected beyond the first row, no probes. */
    constructor (fs: FileSystem, parse: Parser, locs: Locations)
      ensures this.locs == locs
      ensures Shows(fs.files, parse)
      ensures selected == 0 && scrollOffset == 0 && !showErrors && checkingCount == 0
      ensures statusMessage == None && statusTimer == 0 && launched == []
    {
      var r := Discover(fs.files, parse, locs);
      result := r;
      this.locs := locs;
      selected, scrollOffset := 0, 0;
      showErrors := false;
      checkingCount := 0;
      statusMessage, statusTimer := None, 0;
      launched := [];
    }

    /** `refresh`: rediscover, keep the selection on the list, and scroll the details back to the top. */
    method Refresh(fs: FileSystem, parse: Parser)
      modifies this
      ensures fresh(result) && Shows(fs.files, parse)
      ensures selected == Clamp(old(selected), |result.servers|) && scrollOffset == 0
      ensures checkingCount == old(checkingCount) && launched == old(launched)
      ensures statusMessage == old(statusMessage) && statusTimer == old(statusTimer) && showErrors == old(showErrors)
    {
      var r := Discover(fs.files, parse, locs);
      result := r;
      if selected >= |result.servers| {
        selected := SatSub(|result.servers|, 1);
      }
      scrollOffset := 0;
    }

    /** `selected_server`. */
    function SelectedServer(): (r: Option<McpServer>)
      reads this, result
      ensures r.Some? <==> selected < |result.servers|
    {
      if selected < |result.servers| then Some(result.servers[selected]) else None
    }

    /** `move_up`: the scroll position resets only when the selection moves. */
    method MoveUp()
      modifies this
      ensures selected == CursorUp(old(selected))
      ensures scrollOffset == if selected != old(selected) then 0 else old(scrollOffset)
      ensures result == old(result) && checkingCount == old(checkingCount) && launched == old(launched)
      ensures statusMessage == old(statusMessage) && statusTimer == old(statusTimer) && showErrors == old(showErrors)
    {
      if selected > 0 {
        selected := selected - 1;
        scrollOffset := 0;
      }
    }

    /** `move_down`: never past the last server. */
    method MoveDown()
      modifies this
      ensures selected == CursorDown(old(selected), |result.servers|)
      ensures scrollOffset == if selected != old(selected) then 0 else old(scrollOffset)
      ensures result == old(result) && checkingCount == old(checkingCount) && launched == old(launched)
      ensures statusMessage == old(statusMessage) && statusTimer == old(statusTimer) && showErrors == old(showErrors)
    {
      if selected + 1 < |result.servers| {
        selected := selected + 1;
        scrollOffset := 0;
      }
    }

    method ScrollDetailUp()
      modifies this
      ensures scrollOffset == SatSub(old(scrollOffset), 1)
      ensures result == old(result) && selected == old(selected) && checkingCount == old(checkingCount)
      ensures launched == old(launched) && statusMessage == old(statusMessage) && statusTimer == old(statusTimer)
      ensures showErrors == old(showErrors)
    {
      scrollOffset := SatSub(scrollOffset, 1);
    }

    method ScrollDetailDown()
      modifies this
      ensures scrollOffset == old(scrollOffset) + 1
      ensures result == old(result) && selected == old(selected) && checkingCount == old(checkingCount)
      ensures launched == old(launched) && statusMessage == old(statusMessage) && statusTimer == old(statusTimer)
      ensures showErrors == old(showErrors)
    {
      scrollOffset := scrollOffset + 1;
    }

    /** `check_selected`: start one probe, for a stdio server under the selection. */
    method CheckSelected()
      modifies this, result
      ensures result == old(result) && result.errors == old(result.errors) && selected == old(selected)
      ensures var idx := selected;
              var ss := old(result.servers);
              if idx < |ss| && ss[idx].transport.Stdio? then
                result.servers == ss[idx := MarkChecking(ss[idx])] &&
                checkingCount == old(checkingCount) + 1 && launched == old(launched) + [(idx, ss[idx])]
              else
                result.servers == ss && checkingCount == old(checkingCount) && launched == old(launched)
      ensures result.activeClients == old(result.activeClients) && scrollOffset == old(scrollOffset)
      ensures statusMessage == old(statusMessage) && statusTimer == old(statusTimer) && showErrors == old(showErrors)
    {
      var idx := selected;
      if idx >= |result.servers| {
        return;
      }
      if !result.servers[idx].transport.Stdio? {
        return;
      }
      var server := result.servers[idx];
      result.servers := result.servers[idx := MarkChecking(server)];
      checkingCount := checkingCount + 1;
      launched := launched + [(idx, server)];
    }

    /** `check_all`: one probe per stdio server, in list order. */
    method CheckAll()
      modifies this, result
      ensures result == old(result) && result.errors == old(result.errors) && selected == old(selected)
      ensures result.servers == CheckedAll(old(result.servers))
      ensures checkingCount == old(checkingCount) + |StdioIndices(old(result.servers))|
      ensures launched == old(launched) + Launches(old(result.servers), StdioIndices(old(result.servers)))
      ensures result.activeClients == old(result.activeClients) && scrollOffset == old(scrollOffset)
      ensures statusMessage == old(statusMessage) && statusTimer == old(statusTimer) && showErrors == old(showErrors)
    {
      var ss := result.servers;
      var targets := StdioIndices(result.servers);
      var k := 0;
      while k < |targets|
        invariant 0 <= k <= |targets| && result == old(result) && result.errors == old(result.errors)
        invariant selected == old(selected)
        invariant result.activeClients == old(result.activeClients) && scrollOffset == old(scrollOffset)
        invariant statusMessage == old(statusMessage) && statusTimer == old(statusTimer) && showErrors == old(showErrors)
        invariant |result.servers| == |ss|
        invariant forall i :: 0 <= i < |ss| ==>
                    result.servers[i] == if i in targets[..k] then MarkChecking(ss[i]) else ss[i]
        invariant checkingCount == old(checkingCount) + k
        invariant launched == old(launched) + Launches(ss, targets[..k])
      {
        var i := targets[k];
        assert targets[..k + 1] == targets[..k] + [i];
        LaunchesSnoc(ss, targets[..k], i);
        result.servers := result.servers[i := MarkChecking(ss[i])];
        checkingCount := checkingCount + 1;
        launched := launched + [(i, ss[i])];
        k := k + 1;
      }
      assert targets[..k] == targets;
      forall i | 0 <= i < |ss|
        ensures result.servers[i] == CheckedAll(ss)[i]
      {
        if ss[i].transport.Stdio? {
          StdioIndicesComplete(ss, i);
        }
      }
    }

    /** `poll_health`: apply every answer waiting in the channel, in arrival order. */
    method PollHealth(queue: seq<HealthResult>)
      modifies this, result
      ensures result == old(result) && result.errors == old(result.errors) && selected == old(selected)
      ensures result.servers == ApplyHealth(old(result.servers), queue)
      ensures checkingCount == SatSub(old(checkingCount), |queue|)
      ensures launched == old(launched)
      ensures result.activeClients == old(result.activeClients) && scrollOffset == old(scrollOffset)
      ensures statusMessage == old(statusMessage) && statusTimer == old(statusTimer) && showErrors == old(showErrors)
    {
      var i := 0;
      while i < |queue|
        invariant 0 <= i <= |queue| && result == old(result) && result.errors == old(result.errors)
        invariant selected == old(selected) && launched == old(launched)
        invariant result.servers == ApplyHealth(old(result.servers), queue[..i])
        invariant checkingCount == SatSub(old(checkingCount), i)
        invariant result.activeClients == old(result.activeClients) && scrollOffset == old(scrollOffset)
        invariant statusMessage == old(statusMessage) && statusTimer == old(statusTimer) && showErrors == old(showErrors)
      {
        var res := queue[i];
        assert queue[..i + 1][..i] == queue[..i] && queue[..i + 1][i] == res;
        if res.serverIndex < |result.servers| {
          var s := result.servers[res.serverIndex];
          result.servers := result.servers[res.serverIndex := s.(health := res.status, lastChecked := Some(res.checkedAt))];
        }
        checkingCount := SatSub(checkingCount, 1);
        i := i + 1;
      }
      assert queue[..i] == queue;
    }

    /** `set_status`. */
    method SetStatus(msg: string)
      modifies this
      ensures statusMessage == Some(msg) && statusTimer == StatusFrames
      ensures result == old(result) && selected == old(selected) && scrollOffset == old(scrollOffset)
      ensures checkingCount == old(checkingCount) && launched == old(launched) && showErrors == old(showErrors)
    {
      statusMessage := Some(msg);
      statusTimer := StatusFrames;
    }

    /** `tick_status`. */
    method TickStatus()
      modifies this
      ensures (statusMessage, statusTimer) == Tick(old(statusMessage), old(statusTimer))
      ensures result == old(result) && selected == old(selected) && scrollOffset == old(scrollOffset)
      ensures checkingCount == old(checkingCount) && launched == old(launched) && showErrors == old(showErrors)
    {
      if statusTimer > 0 {
        statusTimer := statusTimer - 1;
        if statusTimer == 0 {
          statusMessage := None;
        }
      }
    }

    /** `clients_with_server`. */
    function ClientsWithServer(name: string): seq<ClientKind>
      reads this, result
    {
      WithServer(result.servers, name)
    }

    /** `clients_without_server` over the writable clients. */
    function ClientsWithoutServer(writable: seq<ClientKind>, name: string): seq<ClientKind>
      reads this, result
    {
      WithoutServer(writable, result.servers, name)
    }

    /** `server_to_value`: a stdio server's config value, `{}` for the others. */
    method ServerToValue(server: McpServer) returns (v: Json)
      ensures server.transport.Stdio? ==>
                StdioShape(v, server.transport.command, server.transport.args, server.env.UnwrapOr([]))
      ensures !server.transport.Stdio? ==> v == JObject([])
    {
      match server.transport
      case Stdio(command, args) =>
        v := BuildServerValue(command, args, server.env.UnwrapOr([]));
      case _ =>
        v := JObject([]);
    }

    /** The common end of the batch runs: report, back to the list, rediscover. */
    method Conclude(fs: FileSystem, parse: Parser, msg: string)
      modifies this
      ensures statusMessage == Some(msg) && statusTimer == StatusFrames
      ensures fresh(result) && Shows(fs.files, parse)
      ensures selected == Clamp(old(selected), |result.servers|) && scrollOffset == 0
      ensures checkingCount == old(checkingCount) && launched == old(launched) && showErrors == old(showErrors)
    {
      SetStatus(msg);
      Refresh(fs, parse);
    }

    /** Add `name` with `value` to every client, then report under `verb` and rediscover. */
    method AddAndReport(fs: FileSystem, clients: seq<ClientKind>, cf: ClientFiles, name: string, value: Json,
                        verb: string, parse: Parser, pretty: Printer) returns (t: Tally)
      modifies this, fs
      ensures (t, fs.files) == Batch(old(fs.files), clients, Adding(fs.faults, cf, name, value, parse, pretty))
      ensures !t.panicked ==> statusMessage == Some(BatchStatus(verb, "to", name, t)) && statusTimer == StatusFrames
      ensures !t.panicked ==> fresh(result) && Shows(fs.files, parse)
      ensures !t.panicked ==> selected == Clamp(old(selected), |result.servers|) && scrollOffset == 0
      ensures t.panicked ==> result == old(result) && result.servers == old(result.servers) &&
                             result.errors == old(result.errors) && result.activeClients == old(result.activeClients)
      ensures t.panicked ==> selected == old(selected) && scrollOffset == old(scrollOffset) &&
                             statusMessage == old(statusMessage) && statusTimer == old(statusTimer)
      ensures checkingCount == old(checkingCount) && launched == old(launched) && showErrors == old(showErrors)
    {
      t := AddToClients(fs, clients, cf, name, value, parse, pretty);
      if !t.panicked {
        Conclude(fs, parse, BatchStatus(verb, "to", name, t));
      }
    }

    /** `build_server_value` on the wizard's answers. */
    static method WizardValue(wiz: AddWizard) returns (value: Json)
      ensures StdioShape(value, wiz.command, wiz.Arguments(), wiz.Environment())
    {
      value := BuildServerValue(wiz.command, wiz.Arguments(), wiz.Environment());
    }

    /**
      `execute_add`: write the wizard's server to every checked client, put
      the tally on the status line and rediscover.  A serde panic ends the
      program, so after one the dashboard state is left as it was.
    */
    method ExecuteAdd(fs: FileSystem, wiz: AddWizard, cf: ClientFiles, parse: Parser, pretty: Printer)
      returns (name: string, value: Json, t: Tally)
      modifies this, fs
      ensures name == Trim(wiz.name)
      ensures StdioShape(value, wiz.command, wiz.Arguments(), wiz.Environment())
      ensures (t, fs.files) == Batch(old(fs.files), wiz.SelectedClients(),
                                     Adding(fs.faults, cf, name, value, parse, pretty))
      ensures !t.panicked ==> statusMessage == Some(BatchStatus("Added", "to", name, t)) && statusTimer == StatusFrames
      ensures !t.panicked ==> fresh(result) && Shows(fs.files, parse)
      ensures !t.panicked ==> selected == Clamp(old(selected), |result.servers|) && scrollOffset == 0
      ensures t.panicked ==> result == old(result) && result.servers == old(result.servers) &&
                             result.errors == old(result.errors) && result.activeClients == old(result.activeClients)
      ensures t.panicked ==> selected == old(selected) && scrollOffset == old(scrollOffset) &&
                             statusMessage == old(statusMessage) && statusTimer == old(statusTimer)
      ensures checkingCount == old(checkingCount) && launched == old(launched) && showErrors == old(showErrors)
    {
      name := Trim(wiz.name);
      value := WizardValue(wiz);
      t := AddAndReport(fs, wiz.SelectedClients(), cf, name, value, "Added", parse, pretty);
    }

    /** `execute_remove` for the checked clients. */
    method ExecuteRemove(fs: FileSystem, rm: RemoveConfirm, cf: ClientFiles, parse: Parser, pretty: Printer)
      returns (t: Tally)
      modifies this, fs
      ensures (t, fs.files) == Batch(old(fs.files), rm.SelectedClients(),
                                           Removing(fs.faults, cf, rm.serverName, parse, pretty))
      ensures !t.panicked
      ensures statusMessage == Some(BatchStatus("Removed", "from", rm.serverName, t)) && statusTimer == StatusFrames
      ensures fresh(result) && Shows(fs.files, parse)
      ensures selected == Clamp(old(selected), |result.servers|) && scrollOffset == 0
      ensures checkingCount == old(checkingCount) && launched == old(launched) && showErrors == old(showErrors)
    {
      t := RemoveFromClients(fs, rm.SelectedClients(), cf, rm.serverName, parse, pretty);
      Conclude(fs, parse, BatchStatus("Removed", "from", rm.serverName, t));
    }

    /** `execute_sync`: copy the chosen server's value to the checked clients. */
    method ExecuteSync(fs: FileSystem, sync: SyncSelect, cf: ClientFiles, parse: Parser, pretty: Printer)
      returns (t: Tally)
      modifies this, fs
      ensures (t, fs.files) == Batch(old(fs.files), sync.SelectedClients(),
                                     Adding(fs.faults, cf, sync.serverName, sync.serverValue, parse, pretty))
      ensures !t.panicked ==> statusMessage == Some(BatchStatus("Synced", "to", sync.serverName, t)) && statusTimer == StatusFrames
      ensures !t.panicked ==> fresh(result) && Shows(fs.files, parse)
      ensures !t.panicked ==> selected == Clamp(old(selected), |result.servers|) && scrollOffset == 0
      ensures t.panicked ==> result == old(result) && result.servers == old(result.servers) &&
                             result.errors == old(result.errors) && result.activeClients == old(result.activeClients)
      ensures t.panicked ==> selected == old(selected) && scrollOffset == old(scrollOffset) &&
                             statusMessage == old(statusMessage) && statusTimer == old(statusTimer)
      ensures checkingCount == old(checkingCount) && launched == old(launched) && showErrors == old(showErrors)
    {
      t := AddAndReport(fs, sync.SelectedClients(), cf, sync.serverName, sync.serverValue, "Synced", parse, pretty);
    }
  }
}
