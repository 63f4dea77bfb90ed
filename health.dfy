/**
  The health probe of src/health.rs: classifying the bytes a stdio server
  writes after the `initialize` request, the reader loop that accumulates
  them, the fallback at end of stream, and the mapping of the reader's
  answer (or the deadline) to a HealthStatus.  Spawning, threads, channels
  and the clock are not modelled: the probe's environment is given as a
  spawn outcome, the sequence of reads, and whether an answer arrived
  before the deadline.
*/
module Health {
  import opened Wrappers
  import opened Assoc
  import opened Json
  import opened Types

  newtype byte = b: int | 0 <= b < 256

  /**
    The conversions the probe borrows from the standard library:
    `std::str::from_utf8`, `serde_json::from_str` and `String::from_utf8_lossy`.
  */
  datatype Codec = Codec(
    decode: seq<byte> -> Option<string>,
    parse: Parser,
    lossy: seq<byte> -> string)

  /** `str::find(c)`: the index of the first `c`, or -1. */
  function IndexOf(s: string, c: char): (r: int)
    ensures -1 <= r < |s|
  {
    if s == [] then -1
    else if s[0] == c then 0
    else
      var t := IndexOf(s[1..], c);
      if t < 0 then -1 else t + 1
  }

  /** The index found holds `c` and no earlier position does; -1 means `c` does not occur. */
  lemma {:induction false} IndexOfSpec(s: string, c: char)
    ensures IndexOf(s, c) >= 0 ==> s[IndexOf(s, c)] == c
    ensures forall i :: 0 <= i < |s| && (IndexOf(s, c) < 0 || i < IndexOf(s, c)) ==> s[i] != c
  {
    if s != [] && s[0] != c {
      IndexOfSpec(s[1..], c);
      assert forall i :: 1 <= i < |s| ==> s[i] == s[1..][i - 1];
    }
  }

  /** `as_str().unwrap_or(default)`. */
  function StrOr(v: Json, default: string): string {
    if v.JString? then v.s else default
  }

  /**
    What a parsed reply says: a `result` member means the server answered
    the handshake, an `error` member (without `result`) means it refused it,
    anything else is not an answer yet.
  */
  function Classify(val: Json): Option<HealthStatus> {
    if Member(val, "result").Some? then
      var info := At(At(val, "result"), "serverInfo");
      Some(Healthy(StrOr(At(info, "name"), "unknown"), StrOr(At(info, "version"), "unknown")))
    else match Member(val, "error")
      case Some(err) => Some(Error("server error: " + StrOr(At(err, "message"), "unknown error")))
      case None => None
  }

  /**
    A reply is an answer exactly when it has a `result` or an `error`
    member; the server's name and version are read at
    `result.serverInfo.name` and `result.serverInfo.version`, the error
    text at `error.message`, each defaulting when it is not a string.
  */
  lemma ClassifySpec(val: Json)
    ensures Classify(val).Some? <==> Member(val, "result").Some? || Member(val, "error").Some?
    ensures Member(val, "result").Some? ==>
              Classify(val) == Some(Healthy(StrOr(AtPath(val, ["result", "serverInfo", "name"]), "unknown"),
                                            StrOr(AtPath(val, ["result", "serverInfo", "version"]), "unknown")))
    ensures Member(val, "result").None? && Member(val, "error").Some? ==>
              Classify(val) == Some(Error("server error: " + StrOr(At(Member(val, "error").value, "message"), "unknown error")))
    ensures Classify(val).Some? ==> Classify(val).value.Healthy? || Classify(val).value.Error?
    ensures Classify(val).Some? && Classify(val).value.Healthy? <==> Member(val, "result").Some?
    ensures Classify(val).Some? && Classify(val).value.Error? ==>
              Member(val, "result").None? && Member(val, "error").Some? &&
              "server error: " <= Classify(val).value.message
  {
    AtPathNested(val, "result", "serverInfo", "name");
    AtPathNested(val, "result", "serverInfo", "version");
  }

  lemma AtPathNested(v: Json, a: string, b: string, c: string)
    ensures AtPath(v, [a, b, c]) == At(At(At(v, a), b), c)
  {
    assert [a, b, c][1..] == [b, c];
    AtPathSteps(At(v, a), b, c);
  }

  /** `try_parse_response` once the bytes are text: the JSON starts at the first `{`. */
  function TryParseText(text: string, parse: Parser): Option<HealthStatus> {
    var start := IndexOf(text, '{');
    if start < 0 then None else ParseReply(text[start..], parse)
  }

  /** The verdict on text that starts at the reply's opening brace: None when it is not JSON. */
  function ParseReply(json: string, parse: Parser): Option<HealthStatus> {
    match parse(json)
    case Ok(val) => Classify(val)
    case Err(_) => None
  }

  /** `try_parse_response`: None unless the bytes are UTF-8 holding a reply. */
  function TryParse(data: seq<byte>, codec: Codec): Option<HealthStatus> {
    match codec.decode(data)
    case None => None
    case Some(text) => TryParseText(text, codec.parse)
  }

  /** An answer is always a verdict: a healthy server or an error, never a pending state. */
  lemma TryParseVerdict(data: seq<byte>, codec: Codec)
    ensures TryParse(data, codec).Some? ==>
              TryParse(data, codec).value.Healthy? || TryParse(data, codec).value.Error?
  {
  }

  /** A `result` member decides the outcome even when an `error` member is present too. */
  lemma ResultWins(val: Json)
    requires Member(val, "result").Some? && Member(val, "error").Some?
    ensures Classify(val).Some? && Classify(val).value.Healthy?
  {
  }

  /** A non-string (or absent) name and version both read as "unknown". */
  lemma HealthyDefaults(val: Json)
    requires Member(val, "result").Some? && !At(At(val, "result"), "serverInfo").JObject?
    ensures Classify(val) == Some(Healthy("unknown", "unknown"))
  {
  }

  lemma {:induction false} IndexOfAppend(p: string, s: string, c: char)
    requires c !in p
    ensures IndexOf(p + s, c) == if IndexOf(s, c) < 0 then -1 else |p| + IndexOf(s, c)
    decreases |p|
  {
    if p == [] {
      assert p + s == s;
    } else {
      assert (p + s)[0] == p[0] && (p + s)[1..] == p[1..] + s;
      IndexOfAppend(p[1..], s, c);
    }
  }

  /** Whatever comes before the first `{` (framing headers, log lines) never changes the verdict. */
  lemma PrefixIrrelevant(prefix: string, text: string, parse: Parser)
    requires '{' !in prefix
    ensures TryParseText(prefix + text, parse) == TryParseText(text, parse)
  {
    IndexOfAppend(prefix, text, '{');
    var start := IndexOf(text, '{');
    var whole := prefix + text;
    if start >= 0 {
      assert whole[|prefix| + start..] == text[start..];
      assert TryParseText(whole, parse) == ParseReply(text[start..], parse);
      assert TryParseText(text, parse) == ParseReply(text[start..], parse);
    } else {
      assert TryParseText(whole, parse) == None == TryParseText(text, parse);
    }
  }

  // ---------------------------------------------------------------------
  // The reader thread
  // ---------------------------------------------------------------------

  /** One `read` on the server's stdout: some bytes (none means end of stream) or an I/O error. */
  datatype ReadStep = Chunk(bytes: seq<byte>) | ReadFailed(message: string)

  /** Parsing at end of stream gives up with a preview of at most this many bytes. */
  const PreviewLimit: nat := 200

  /** The reader's last attempt once the stream has ended. */
  function AtEof(output: seq<byte>, codec: Codec): (r: Result<HealthStatus>)
    ensures TryParse(output, codec).Some? ==> r == Ok(TryParse(output, codec).value)
    ensures TryParse(output, codec).None? && output == [] ==> r == Err("no response from server")
    ensures TryParse(output, codec).None? && output != [] ==>
              exists n :: 0 < n <= PreviewLimit && n <= |output| &&
                (n == PreviewLimit || n == |output|) &&
                r == Err("invalid response: " + codec.lossy(output[..n]))
  {
    match TryParse(output, codec)
    case Some(status) => Ok(status)
    case None =>
      if output == [] then Err("no response from server")
      else
        var n := if |output| < PreviewLimit then |output| else PreviewLimit;
        Err("invalid response: " + codec.lossy(output[..n]))
  }

  /**
    What the reader thread sends, having accumulated `output` so far: each
    chunk is appended and the buffer re-examined; the first answer, the first
    read error or the end of the stream finishes it.
  */
  function Reader(stream: seq<ReadStep>, output: seq<byte>, codec: Codec): Result<HealthStatus>
    decreases |stream|
  {
    if stream == [] then AtEof(output, codec)
    else match stream[0]
      case ReadFailed(e) => Err(e)
      case Chunk(b) =>
        if b == [] then AtEof(output, codec)
        else match TryParse(output + b, codec)
          case Some(status) => Ok(status)
          case None => Reader(stream[1..], output + b, codec)
  }

  /** The reader loop over `stdout`, buffering with `extend_from_slice`. */
  method ReadResponse(stream: seq<ReadStep>, codec: Codec) returns (reply: Result<HealthStatus>)
    ensures reply == Reader(stream, [], codec)
  {
    var output: seq<byte> := [];
    var i := 0;
    while i < |stream|
      invariant 0 <= i <= |stream|
      invariant Reader(stream[i..], output, codec) == Reader(stream, [], codec)
    {
      assert stream[i..][1..] == stream[i + 1..];
      match stream[i]
      case ReadFailed(e) =>
        return Err(e);
      case Chunk(b) =>
        if b == [] {
          break;
        }
        output := output + b;
        var status := TryParse(output, codec);
        if status.Some? {
          return Ok(status.value);
        }
      i := i + 1;
    }
    reply := AtEof(output, codec);
  }

  /** The bytes of a run of chunks, in order. */
  function Flatten(steps: seq<ReadStep>): seq<byte> {
    if steps == [] then []
    else (if steps[0].Chunk? then steps[0].bytes else []) + Flatten(steps[1..])
  }

  /** Every step of `pre` is a non-empty chunk after which, from `output`, no answer is found yet. */
  predicate Silent(pre: seq<ReadStep>, output: seq<byte>, codec: Codec)
    decreases |pre|
  {
    pre == [] ||
    (pre[0].Chunk? && pre[0].bytes != [] &&
     TryParse(output + pre[0].bytes, codec).None? &&
     Silent(pre[1..], output + pre[0].bytes, codec))
  }

  /**
    The reader stops at the first chunk after which the buffer holds an
    answer: whatever the server writes afterwards, or whether it then fails
    or closes its output, does not matter.
  */
  lemma {:induction false} ReaderStopsAtAnswer(pre: seq<ReadStep>, b: seq<byte>, rest: seq<ReadStep>,
                                               output: seq<byte>, codec: Codec)
    requires Silent(pre, output, codec)
    requires b != [] && TryParse(output + Flatten(pre) + b, codec).Some?
    ensures Reader(pre + [Chunk(b)] + rest, output, codec) == Ok(TryParse(output + Flatten(pre) + b, codec).value)
    decreases |pre|
  {
    var s := pre + [Chunk(b)] + rest;
    if pre == [] {
      assert s[0] == Chunk(b);
      assert output + Flatten(pre) + b == output + b;
    } else {
      var c := pre[0].bytes;
      assert s[0] == pre[0] && s[1..] == pre[1..] + [Chunk(b)] + rest;
      assert Flatten(pre) == c + Flatten(pre[1..]);
      ConcatAssoc(output, c, Flatten(pre[1..]));
      assert output + Flatten(pre) + b == (output + c) + Flatten(pre[1..]) + b;
      ReaderStopsAtAnswer(pre[1..], b, rest, output + c, codec);
    }
  }

  /** A reader error is the I/O error, the "no response" message, or an "invalid response" preview. */
  lemma {:induction false} ReaderErrors(stream: seq<ReadStep>, output: seq<byte>, codec: Codec)
    ensures var r := Reader(stream, output, codec);
            r.Ok? ==> r.value.Healthy? || r.value.Error?
    ensures var r := Reader(stream, output, codec);
            r.Err? ==> ReadFailed(r.error) in stream || r.error == "no response from server" ||
                       (|r.error| >= 18 && r.error[..18] == "invalid response: ")
    decreases |stream|
  {
    var r := Reader(stream, output, codec);
    if stream == [] || (stream[0].Chunk? && stream[0].bytes == []) {
      TryParseVerdict(output, codec);
      if r.Err? && r.error != "no response from server" {
        var n :| 0 < n <= PreviewLimit && n <= |output| &&
                 r == Err("invalid response: " + codec.lossy(output[..n]));
        assert r.error[..18] == "invalid response: ";
      }
    } else if stream[0].Chunk? {
      var out := output + stream[0].bytes;
      TryParseVerdict(out, codec);
      if TryParse(out, codec).None? {
        ReaderErrors(stream[1..], out, codec);
        if r.Err? && ReadFailed(r.error) in stream[1..] {
          var j :| 0 <= j < |stream[1..]| && stream[1..][j] == ReadFailed(r.error);
          assert stream[j + 1] == ReadFailed(r.error);
        }
      }
    } else {
      assert stream[0] == ReadFailed(r.error);
    }
  }

  /**
    When nothing at all was read the reader reports "no response from
    server": the empty buffer decodes to the empty text, which holds no `{`.
  */
  lemma SilentServer(rest: seq<ReadStep>, codec: Codec)
    requires codec.decode([]) == Some([])
    ensures Reader([], [], codec) == Err("no response from server")
    ensures Reader([Chunk([])] + rest, [], codec) == Err("no response from server")
  {
    assert ([Chunk([])] + rest)[0] == Chunk([]);
  }

  // ---------------------------------------------------------------------
  // check_stdio and check_server
  // ---------------------------------------------------------------------

  /** `recv_timeout`: the reader's message, or None once the five-second deadline passed. */
  function ProbeStatus(reply: Option<Result<HealthStatus>>): (r: HealthStatus)
    ensures reply.None? ==> r == Timeout
    ensures reply.Some? && reply.value.Ok? ==> r == reply.value.value
    ensures reply.Some? && reply.value.Err? ==> r == Error(reply.value.error)
  {
    match reply
    case None => Timeout
    case Some(Ok(status)) => status
    case Some(Err(e)) => Error(e)
  }

  /** How `Command::spawn` and `child.stdout.take()` end. */
  datatype Spawn = Spawned | CommandNotFound | SpawnFailed(message: string) | NoStdout

  /** The environment of one probe: the spawn, what the server writes, and the race against the deadline. */
  datatype Probe = Probe(spawn: Spawn, stream: seq<ReadStep>, answeredInTime: bool)

  /** `check_stdio`. */
  function CheckStdio(command: string, probe: Probe, codec: Codec): (r: HealthStatus)
    ensures probe.spawn == CommandNotFound ==> r == Error("command not found: " + command)
    ensures probe.spawn.SpawnFailed? ==> r == Error(probe.spawn.message)
    ensures probe.spawn == NoStdout ==> r == Error("failed to capture stdout")
    ensures probe.spawn == Spawned && !probe.answeredInTime ==> r == Timeout
    ensures probe.spawn == Spawned && probe.answeredInTime ==> r == ProbeStatus(Some(Reader(probe.stream, [], codec)))
  {
    match probe.spawn
    case CommandNotFound => Error("command not found: " + command)
    case SpawnFailed(e) => Error(e)
    case NoStdout => Error("failed to capture stdout")
    case Spawned =>
      ProbeStatus(if probe.answeredInTime then Some(Reader(probe.stream, [], codec)) else None)
  }

  /** `check_server` (and the body of `spawn_health_check`'s thread). */
  function CheckServer(index: nat, server: McpServer, probe: Probe, codec: Codec, now: Instant): (r: HealthResult)
    ensures r.serverIndex == index && r.checkedAt == now
    ensures !server.transport.Stdio? ==> r.status == Error("health check only supports stdio servers")
    ensures server.transport.Stdio? ==> r.status == CheckStdio(server.transport.command, probe, codec)
  {
    var status :=
      match server.transport
      case Stdio(command, _) => CheckStdio(command, probe, codec)
      case _ => Error("health check only supports stdio servers");
    HealthResult(index, status, now)
  }

  /** A finished probe never leaves the slot Unchecked or Checking. */
  lemma CheckServerSettles(index: nat, server: McpServer, probe: Probe, codec: Codec, now: Instant)
    ensures var s := CheckServer(index, server, probe, codec, now).status;
            s.Healthy? || s.Error? || s.Timeout?
  {
    ReaderErrors(probe.stream, [], codec);
  }
}
