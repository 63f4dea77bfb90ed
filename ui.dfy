/**
  The pure parts of src/ui.rs: `truncate` over UTF-8 byte lengths, the
  height of the client matrix, and the derivation of the matrix itself
  (unique names in discovery order, the name-to-clients lookup, header,
  rows and column widths).  Widgets, styles and layout are not modelled.
*/
module Ui {
  import opened Wrappers
  import opened Types
  import opened Discovery

  // ---------------------------------------------------------------------
  // UTF-8 lengths
  // ---------------------------------------------------------------------

  /** Bytes of a character in UTF-8. */
  function CharLen(c: char): (n: nat)
    ensures 1 <= n <= 4
    ensures n == 1 <==> (c as int) < 0x80
  {
    if (c as int) < 0x80 then 1
    else if (c as int) < 0x800 then 2
    else if (c as int) < 0x1_0000 then 3
    else 4
  }

  /** `str::len`: the length in bytes. */
  function ByteLen(s: string): nat
    decreases |s|
  {
    if s == [] then 0 else CharLen(s[0]) + ByteLen(s[1..])
  }

  lemma {:induction false} ByteLenAppend(a: string, b: string)
    ensures ByteLen(a + b) == ByteLen(a) + ByteLen(b)
    decreases |a|
  {
    if a == [] {
      assert a + b == b;
    } else {
      assert (a + b)[0] == a[0] && (a + b)[1..] == a[1..] + b;
      ByteLenAppend(a[1..], b);
    }
  }

  /** Every character takes at least one byte; only ASCII takes exactly one. */
  lemma {:induction false} ByteLenAtLeast(s: string)
    ensures ByteLen(s) >= |s|
    ensures ByteLen(s) == |s| <==> forall i :: 0 <= i < |s| ==> (s[i] as int) < 0x80
    decreases |s|
  {
    if s != [] {
      ByteLenAtLeast(s[1..]);
      assert forall i :: 1 <= i < |s| ==> s[i] == s[1..][i - 1];
    }
  }

  /** A longer prefix has at least one more byte per extra character. */
  lemma PrefixBytes(s: string, i: nat, j: nat)
    requires i <= j <= |s|
    ensures ByteLen(s[..i]) + (j - i) <= ByteLen(s[..j])
  {
    assert s[..j] == s[..i] + s[i..j];
    ByteLenAppend(s[..i], s[i..j]);
    ByteLenAtLeast(s[i..j]);
  }

  /** The number of characters whose encoding is exactly `b` bytes, when `b` falls on a character boundary. */
  function BoundaryAt(s: string, b: nat): (r: Option<nat>)
    ensures r.Some? ==> r.value <= |s|
    decreases |s|
  {
    if b == 0 then Some(0)
    else if s == [] || CharLen(s[0]) > b then None
    else match BoundaryAt(s[1..], b - CharLen(s[0]))
      case None => None
      case Some(k) => Some(k + 1)
  }

  lemma {:induction false} BoundaryAtSpec(s: string, b: nat)
    ensures BoundaryAt(s, b).Some? ==> ByteLen(s[..BoundaryAt(s, b).value]) == b
    ensures BoundaryAt(s, b).None? ==> forall k :: 0 <= k <= |s| ==> ByteLen(s[..k]) != b
    decreases |s|
  {
    if b == 0 {
      assert s[..0] == [];
    } else if s == [] {
    } else {
      var n := CharLen(s[0]);
      forall k | 1 <= k <= |s|
        ensures ByteLen(s[..k]) == n + ByteLen(s[1..][..k - 1])
      {
        assert s[..k][0] == s[0] && s[..k][1..] == s[1..][..k - 1];
      }
      assert s[..0] == [];
      if n <= b {
        BoundaryAtSpec(s[1..], b - n);
      }
    }
  }

  /** The most characters whose encoding fits in `b` bytes. */
  function FitChars(s: string, b: nat): (k: nat)
    ensures k <= |s|
    decreases |s|
  {
    if s == [] || CharLen(s[0]) > b then 0 else 1 + FitChars(s[1..], b - CharLen(s[0]))
  }

  lemma {:induction false} FitCharsSpec(s: string, b: nat)
    ensures ByteLen(s[..FitChars(s, b)]) <= b
    ensures FitChars(s, b) < |s| ==> ByteLen(s[..FitChars(s, b) + 1]) > b
    decreases |s|
  {
    var k := FitChars(s, b);
    if s == [] {
    } else if CharLen(s[0]) > b {
      assert s[..1] == [s[0]] && [s[0]][1..] == [];
      assert s[..0] == [];
    } else {
      var n := CharLen(s[0]);
      FitCharsSpec(s[1..], b - n);
      assert s[..k][0] == s[0] && s[..k][1..] == s[1..][..k - 1];
      if k < |s| {
        assert s[..k + 1][0] == s[0] && s[..k + 1][1..] == s[1..][..k];
      }
    }
  }

  // ---------------------------------------------------------------------
  // truncate
  // ---------------------------------------------------------------------

  /** The horizontal ellipsis, three bytes in UTF-8. */
  const Ellipsis: string := "\U{2026}"

  /**
    `truncate` as written: the text when it has at most `max` bytes,
    otherwise its first `max - 1` bytes and an ellipsis.  Slicing a `str`
    inside a character panics, which is None here.
  */
  function TruncateAsWritten(s: string, max: nat): Option<string>
    requires max >= 1
  {
    if ByteLen(s) <= max then Some(s)
    else match BoundaryAt(s, max - 1)
      case None => None
      case Some(k) => Some(s[..k] + Ellipsis)
  }

  /** Ten two-byte characters and the 18-byte limit of the server list panic: byte 17 is inside the ninth. */
  lemma TruncatePanics()
    ensures var name := seq(10, _ => '\U{E9}');
            ByteLen(name) == 20 && TruncateAsWritten(name, 18).None?
  {
    var name := seq(10, _ => '\U{E9}');
    forall k | 0 <= k <= 10
      ensures ByteLen(name[..k]) == 2 * k
    {
      TwoByteLen(name[..k]);
    }
    assert name[..10] == name;
    BoundaryAtSpec(name, 17);
  }

  /**
    The matrix's 20-byte limit panics too: ten two-byte characters and an
    ASCII letter make 21 bytes, and byte 19 is inside the tenth character.
  */
  lemma MatrixNamePanics()
    ensures var name := seq(10, _ => '\U{E9}') + "a";
            ByteLen(name) == 21 && TruncateAsWritten(name, 20).None?
  {
    var e := seq(10, _ => '\U{E9}');
    var name := e + "a";
    forall k | 0 <= k <= 10
      ensures ByteLen(name[..k]) == 2 * k
    {
      assert name[..k] == e[..k];
      TwoByteLen(e[..k]);
    }
    TwoByteLen(e);
    ByteLenAppend(e, "a");
    assert name[..11] == name;
    BoundaryAtSpec(name, 19);
  }

  lemma {:induction false} TwoByteLen(s: string)
    requires forall i :: 0 <= i < |s| ==> s[i] == '\U{E9}'
    ensures ByteLen(s) == 2 * |s|
    decreases |s|
  {
    if s != [] {
      TwoByteLen(s[1..]);
    }
  }

  /** Text that is all ASCII never panics. */
  lemma AsciiTruncates(s: string, max: nat)
    requires max >= 1
    requires forall i :: 0 <= i < |s| ==> (s[i] as int) < 0x80
    ensures TruncateAsWritten(s, max).Some?
  {
    ByteLenAtLeast(s);
    if ByteLen(s) > max {
      var t := s[..max - 1];
      assert forall i :: 0 <= i < |t| ==> t[i] == s[i];
      ByteLenAtLeast(t);
      BoundaryAtSpec(s, max - 1);
    }
  }

  /**
    `truncate` as evidently intended: cut at the last character boundary
    within `max - 1` bytes, so that the call cannot panic.
  */
  function Truncate(s: string, max: nat): string
    requires max >= 1
  {
    if ByteLen(s) <= max then s else s[..FitChars(s, max - 1)] + Ellipsis
  }

  /**
    Short text is kept; long text becomes its longest prefix of at most
    `max - 1` bytes followed by the ellipsis, so at most `max + 2` bytes and
    `max` characters.
  */
  lemma TruncateSpec(s: string, max: nat)
    requires max >= 1
    ensures ByteLen(s) <= max ==> Truncate(s, max) == s
    ensures ByteLen(s) > max ==>
              exists k :: 0 <= k < |s| && Truncate(s, max) == s[..k] + Ellipsis &&
                          ByteLen(s[..k]) <= max - 1 < ByteLen(s[..k + 1])
    ensures |Truncate(s, max)| <= max && ByteLen(Truncate(s, max)) <= max + 2
  {
    ByteLenAtLeast(s);
    if ByteLen(s) > max {
      var k := FitChars(s, max - 1);
      FitCharsSpec(s, max - 1);
      assert s[..|s|] == s;
      ByteLenAtLeast(s[..k]);
      ByteLenAppend(s[..k], Ellipsis);
    }
  }

  /** A boundary at exactly `b` bytes is where the longest prefix within `b` bytes ends. */
  lemma BoundaryIsFit(s: string, b: nat)
    requires BoundaryAt(s, b).Some?
    ensures BoundaryAt(s, b).value == FitChars(s, b)
  {
    var k := BoundaryAt(s, b).value;
    var f := FitChars(s, b);
    BoundaryAtSpec(s, b);
    FitCharsSpec(s, b);
    if k < f {
      PrefixBytes(s, k + 1, f);
      PrefixBytes(s, k, k + 1);
    } else if f < k {
      PrefixBytes(s, f + 1, k);
    }
  }

  /** Wherever the code as written does not panic, the intended version agrees with it. */
  lemma TruncateAgrees(s: string, max: nat)
    requires max >= 1 && TruncateAsWritten(s, max).Some?
    ensures TruncateAsWritten(s, max).value == Truncate(s, max)
  {
    if ByteLen(s) > max {
      BoundaryIsFit(s, max - 1);
    }
  }

  // ---------------------------------------------------------------------
  // The client matrix
  // ---------------------------------------------------------------------

  /** The `BTreeSet` of server names in `render`. */
  function NameSet(servers: seq<McpServer>): set<string> {
    set s | s in servers :: s.name
  }

  function Min(a: nat, b: nat): nat {
    if a <= b then a else b
  }

  /** `matrix_height`: a bare bordered box without active clients, else one line per name plus three, at most 14. */
  function MatrixHeight(servers: seq<McpServer>, active: seq<ClientKind>): nat {
    if active == [] then 3 else Min(|NameSet(servers)| + 3, 14)
  }

  /** The names in order of first occurrence, each once. */
  function Dedup(xs: seq<string>): seq<string>
    decreases |xs|
  {
    if xs == [] then []
    else
      var d := Dedup(xs[..|xs| - 1]);
      if xs[|xs| - 1] in d then d else d + [xs[|xs| - 1]]
  }

  predicate NoDup(xs: seq<string>) {
    forall i, j :: 0 <= i < j < |xs| ==> xs[i] != xs[j]
  }

  /** Where `x` first occurs in `xs`. */
  function FirstIndex(xs: seq<string>, x: string): (r: nat)
    requires x in xs
    ensures r < |xs| && xs[r] == x && x !in xs[..r]
  {
    if xs[0] == x then 0
    else
      var r := FirstIndex(xs[1..], x);
      assert xs[..r + 1] == [xs[0]] + xs[1..][..r];
      r + 1
  }

  lemma FirstIndexInit(xs: seq<string>, x: string)
    requires xs != [] && x in xs[..|xs| - 1]
    ensures FirstIndex(xs, x) == FirstIndex(xs[..|xs| - 1], x)
  {
  }

  lemma FirstIndexLast(xs: seq<string>)
    requires xs != [] && xs[|xs| - 1] !in xs[..|xs| - 1]
    ensures FirstIndex(xs, xs[|xs| - 1]) == |xs| - 1
  {
  }

  /**
    The deduplicated list holds every name exactly once, and lists the
    names in the order in which they first occur.
  */
  lemma {:induction false} DedupSpec(xs: seq<string>)
    ensures NoDup(Dedup(xs))
    ensures forall x :: x in Dedup(xs) <==> x in xs
    ensures forall i, j :: 0 <= i < j < |Dedup(xs)| ==> FirstIndex(xs, Dedup(xs)[i]) < FirstIndex(xs, Dedup(xs)[j])
    decreases |xs|
  {
    if xs != [] {
      var init := xs[..|xs| - 1];
      var y := xs[|xs| - 1];
      DedupSpec(init);
      var d := Dedup(init);
      assert xs == init + [y];
      forall x | x in init ensures FirstIndex(xs, x) == FirstIndex(init, x) {
        FirstIndexInit(xs, x);
      }
      if y !in d {
        FirstIndexLast(xs);
        var e := d + [y];
        forall i | 0 <= i < |d| ensures FirstIndex(xs, e[i]) < |xs| - 1 {
          assert e[i] == d[i] && d[i] in init;
        }
      }
    }
  }

  lemma {:induction false} NoDupCard(xs: seq<string>)
    requires NoDup(xs)
    ensures |set x | x in xs| == |xs|
    decreases |xs|
  {
    if xs != [] {
      var init := xs[..|xs| - 1];
      NoDupCard(init);
      assert (set x | x in xs) == (set x | x in init) + {xs[|xs| - 1]};
      assert xs[|xs| - 1] !in (set x | x in init);
    }
  }

  /**
    The matrix is three lines high exactly when nothing was discovered;
    otherwise it holds one line per row of the deduplicated list, up to 11.
  */
  lemma MatrixHeightRows(servers: seq<McpServer>)
    ensures MatrixHeight(servers, ActiveClients(servers)) == 3 <==> servers == []
    ensures MatrixHeight(servers, ActiveClients(servers)) == 3 + Min(|Dedup(Names(servers))|, 11)
  {
    NameSetSize(servers);
    if servers != [] {
      assert servers[0].client in ActiveClients(servers);
      assert servers[0].name in NameSet(servers);
    }
  }

  /** The name set has as many elements as the deduplicated list. */
  lemma NameSetSize(servers: seq<McpServer>)
    ensures |NameSet(servers)| == |Dedup(Names(servers))|
  {
    var names := Names(servers);
    DedupSpec(names);
    NoDupCard(Dedup(names));
    assert (set x | x in Dedup(names)) == NameSet(servers) by {
      forall x ensures x in NameSet(servers) <==> x in names {
        if x in names {
          var i :| 0 <= i < |names| && names[i] == x;
          assert servers[i] in servers;
        }
      }
    }
  }

  /** The unique-name loop of `render_matrix`, with its `seen` set. */
  method UniqueNames(servers: seq<McpServer>) returns (names: seq<string>)
    ensures names == Dedup(Names(servers))
  {
    names := [];
    var seen: set<string> := {};
    for i := 0 to |servers|
      invariant names == Dedup(Names(servers[..i]))
      invariant forall x :: x in seen <==> x in names
    {
      var n := servers[i].name;
      assert Names(servers[..i + 1])[..i] == Names(servers[..i]);
      if n !in seen {
        seen := seen + {n};
        names := names + [n];
      }
    }
    assert servers[..|servers|] == servers;
  }

  /** Whether some record declares server `name` for client `c`. */
  predicate Declares(servers: seq<McpServer>, name: string, c: ClientKind) {
    exists i :: 0 <= i < |servers| && servers[i].name == name && servers[i].client == c
  }

  /** The name-to-clients lookup of `render_matrix` (`entry(name).or_default().insert(client)`). */
  method ServerClients(servers: seq<McpServer>) returns (m: map<string, set<ClientKind>>)
    ensures forall n :: n in m <==> n in Names(servers)
    ensures forall n, c :: n in m ==> (c in m[n] <==> Declares(servers, n, c))
  {
    m := map[];
    for i := 0 to |servers|
      invariant forall n :: n in m <==> exists j :: 0 <= j < i && servers[j].name == n
      invariant forall n, c :: n in m ==>
                  (c in m[n] <==> exists j :: 0 <= j < i && servers[j].name == n && servers[j].client == c)
    {
      var s := servers[i];
      var cs := if s.name in m then m[s.name] else {};
      m := m[s.name := cs + {s.client}];
    }
    forall n ensures n in m <==> n in Names(servers) {
      if n in Names(servers) {
        var j :| 0 <= j < |servers| && Names(servers)[j] == n;
        assert servers[j].name == n;
      }
    }
  }

  /** A matrix with its header row, data rows and the column widths. */
  datatype Table = Table(header: seq<string>, rows: seq<seq<string>>, widths: seq<nat>)

  const Tick: string := " \U{2713}"
  const Dot: string := " \U{B7}"

  /** One data row: the name, then a tick or a dot per client. */
  function RowOf(m: map<string, set<ClientKind>>, name: string, clients: seq<ClientKind>): (row: seq<string>)
    ensures |row| == |clients| + 1 && row[0] == Truncate(name, 20)
    ensures forall j :: 0 <= j < |clients| ==> row[j + 1] == if name in m && clients[j] in m[name] then Tick else Dot
  {
    [Truncate(name, 20)] +
    seq(|clients|, j requires 0 <= j < |clients| => if name in m && clients[j] in m[name] then Tick else Dot)
  }

  /** Wherever the source's `truncate(name, 20)` does not panic, the row's name cell is what it prints. */
  lemma RowOfAgrees(m: map<string, set<ClientKind>>, name: string, clients: seq<ClientKind>)
    requires TruncateAsWritten(name, 20).Some?
    ensures RowOf(m, name, clients)[0] == TruncateAsWritten(name, 20).value
  {
    TruncateAgrees(name, 20);
  }

  /** The header row and column widths: an empty corner over the 22-wide name column, then a label per client over 11. */
  predicate Columns(tb: Table, clients: seq<ClientKind>) {
    |tb.header| == |tb.widths| == |clients| + 1 && tb.header[0] == "" && tb.widths[0] == 22 &&
    forall j :: 0 <= j < |clients| ==> tb.header[j + 1] == Label(clients[j]) && tb.widths[j + 1] == 11
  }

  /** A row per name: the truncated name, then a tick exactly where some record declares it for that client. */
  predicate Cells(tb: Table, servers: seq<McpServer>, clients: seq<ClientKind>, names: seq<string>) {
    |tb.rows| == |names| &&
    (forall r :: 0 <= r < |names| ==> |tb.rows[r]| == |clients| + 1 && tb.rows[r][0] == Truncate(names[r], 20)) &&
    forall r, j :: 0 <= r < |names| && 0 <= j < |clients| ==>
      tb.rows[r][j + 1] == if Declares(servers, names[r], clients[j]) then Tick else Dot
  }

  /** Every header label and every name fits its column. */
  predicate Fits(tb: Table) {
    (forall j :: 0 <= j < |tb.header| && j < |tb.widths| ==> |tb.header[j]| < tb.widths[j]) &&
    (forall r :: 0 <= r < |tb.rows| && tb.rows[r] != [] && tb.widths != [] ==> |tb.rows[r][0]| < tb.widths[0])
  }

  /** The data rows, one per name. */
  function Rows(m: map<string, set<ClientKind>>, names: seq<string>, clients: seq<ClientKind>): (rows: seq<seq<string>>)
    ensures |rows| == |names| && forall r :: 0 <= r < |names| ==> rows[r] == RowOf(m, names[r], clients)
  {
    seq(|names|, r requires 0 <= r < |names| => RowOf(m, names[r], clients))
  }

  /** Rows read from a lookup that holds exactly each name's clients show exactly the declared pairs. */
  lemma RowsDeclare(servers: seq<McpServer>, clients: seq<ClientKind>, m: map<string, set<ClientKind>>, tb: Table)
    requires forall n :: n in m <==> n in Names(servers)
    requires forall n, c :: n in m ==> (c in m[n] <==> Declares(servers, n, c))
    requires tb.rows == Rows(m, Dedup(Names(servers)), clients)
    ensures Cells(tb, servers, clients, Dedup(Names(servers)))
  {
    var names := Dedup(Names(servers));
    DedupSpec(Names(servers));
    forall r, j | 0 <= r < |names| && 0 <= j < |clients|
      ensures tb.rows[r][j + 1] == if Declares(servers, names[r], clients[j]) then Tick else Dot
    {
      assert names[r] in Names(servers);
    }
  }

  /** The header row: an empty corner, then each client's label. */
  function Header(clients: seq<ClientKind>): (h: seq<string>)
    ensures |h| == |clients| + 1 && h[0] == "" && forall j :: 0 <= j < |clients| ==> h[j + 1] == Label(clients[j])
  {
    [""] + seq(|clients|, j requires 0 <= j < |clients| => Label(clients[j]))
  }

  /** The column widths: 22 for the names, 11 per client. */
  function Widths(clients: seq<ClientKind>): (w: seq<nat>)
    ensures |w| == |clients| + 1 && w[0] == 22 && forall j :: 1 <= j < |w| ==> w[j] == 11
  {
    [22] + seq(|clients|, _ => 11)
  }

  /** Labels have at most 10 characters and truncated names at most 20, so every cell fits its column. */
  lemma TableFits(tb: Table, m: map<string, set<ClientKind>>, names: seq<string>, clients: seq<ClientKind>)
    requires tb == Table(Header(clients), Rows(m, names, clients), Widths(clients))
    ensures Columns(tb, clients) && Fits(tb)
  {
    forall r | 0 <= r < |names| ensures |tb.rows[r][0]| <= 20 {
      TruncateSpec(names[r], 20);
    }
  }

  /**
    `render_matrix` without drawing: no table without active clients;
    otherwise the columns, cells and fit stated above, over the unique names.
  */
  method Matrix(servers: seq<McpServer>, clients: seq<ClientKind>) returns (t: Option<Table>)
    ensures t.None? <==> clients == []
    ensures t.Some? ==> Columns(t.value, clients) && Cells(t.value, servers, clients, Dedup(Names(servers)))
    ensures t.Some? ==> Fits(t.value)
  {
    if clients == [] {
      return None;
    }
    var names := UniqueNames(servers);
    var m := ServerClients(servers);
    var tb := Table(Header(clients), Rows(m, names, clients), Widths(clients));
    RowsDeclare(servers, clients, m, tb);
    TableFits(tb, m, names, clients);
    t := Some(tb);
  }
}
