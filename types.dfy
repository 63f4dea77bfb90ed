/**
  The client registry and the record types shared by discovery, the health
  probe, the config writer and the dashboard (src/types.rs).
*/
module Types {
  import opened Wrappers
  import opened Assoc

  /** A host application whose configuration file declares MCP servers. */
  datatype ClientKind =
    | ClaudeCodeGlobal
    | ClaudeCodeProject
    | CursorGlobal
    | CursorProject
    | VsCodeProject
    | Windsurf
    | ClaudeDesktop

  /** The short column label of the client matrix. */
  function Label(k: ClientKind): (r: string)
    ensures 0 < |r| <= 10
  {
    match k
    case ClaudeCodeGlobal => "CC-Global"
    case ClaudeCodeProject => "CC-Project"
    case CursorGlobal => "Cursor"
    case CursorProject => "Cur-Proj"
    case VsCodeProject => "VSCode"
    case Windsurf => "Windsurf"
    case ClaudeDesktop => "Desktop"
  }

  /** `ClientKind::all()`: every kind, in display order. */
  function AllKinds(): seq<ClientKind> {
    [ClaudeCodeGlobal, ClaudeCodeProject, CursorGlobal, CursorProject,
     VsCodeProject, Windsurf, ClaudeDesktop]
  }

  /** No kind occurs twice. */
  predicate DistinctKinds(ks: seq<ClientKind>) {
    forall i, j :: 0 <= i < j < |ks| ==> ks[i] != ks[j]
  }

  lemma AllKindsComplete()
    ensures |AllKinds()| == 7 && AllKinds()[0] == ClaudeCodeGlobal
    ensures DistinctKinds(AllKinds())
    ensures forall k: ClientKind :: k in AllKinds()
  {
    var all := AllKinds();
    assert all[0] == ClaudeCodeGlobal && all[1] == ClaudeCodeProject;
    assert all[2] == CursorGlobal && all[3] == CursorProject;
    assert all[4] == VsCodeProject && all[5] == Windsurf && all[6] == ClaudeDesktop;
    forall k: ClientKind ensures k in all {
      match k
      case ClaudeCodeGlobal => assert all[0] == k;
      case ClaudeCodeProject => assert all[1] == k;
      case CursorGlobal => assert all[2] == k;
      case CursorProject => assert all[3] == k;
      case VsCodeProject => assert all[4] == k;
      case Windsurf => assert all[5] == k;
      case ClaudeDesktop => assert all[6] == k;
    }
  }

  /** Distinct kinds carry distinct labels. */
  lemma LabelInjective(a: ClientKind, b: ClientKind)
    ensures Label(a) == Label(b) ==> a == b
  {
  }

  /** A `HashMap<String, String>` such as `env` or `headers`. */
  type StrMap = Entries<string>

  /** How a server is reached. */
  datatype Transport =
    | Http(url: string, headers: Option<StrMap>)
    | Sse(url: string)
    | Stdio(command: string, args: seq<string>)
    | Unknown

  /** `Transport::kind_label`. */
  function KindLabel(t: Transport): (r: string)
    ensures t.Http? <==> r == "http"
    ensures t.Sse? <==> r == "sse"
    ensures t.Stdio? <==> r == "stdio"
    ensures t.Unknown? <==> r == "unknown"
  {
    match t
    case Http(_, _) => "http"
    case Sse(_) => "sse"
    case Stdio(_, _) => "stdio"
    case Unknown => "unknown"
  }

  /** The state of one server slot's health probe. */
  datatype HealthStatus =
    | Unchecked
    | Checking
    | Healthy(serverName: string, serverVersion: string)
    | Timeout
    | Error(message: string)

  /** A point in time (`Instant`), kept opaque. */
  datatype Instant = Instant(ticks: nat)

  /** One server declaration found in one config file. */
  datatype McpServer = McpServer(
    name: string,
    client: ClientKind,
    sourcePath: string,
    transport: Transport,
    env: Option<StrMap>,
    health: HealthStatus,
    lastChecked: Option<Instant>)

  /** A probe's answer for the slot at `serverIndex`. */
  datatype HealthResult = HealthResult(serverIndex: nat, status: HealthStatus, checkedAt: Instant)
}
