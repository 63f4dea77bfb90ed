/**
  The modal dialogs of src/wizard.rs: the add-server wizard, the
  remove confirmation and the sync target selection, together with the
  text helpers they use (`trim`, `split_whitespace`, `split_once`).
*/
module Wizard {
  import opened Wrappers
  import opened Assoc
  import opened Json
  import opened Types

  // ---------------------------------------------------------------------
  // Text helpers
  // ---------------------------------------------------------------------

  /** `char::is_whitespace`: the Unicode White_Space property. */
  predicate IsWhitespace(c: char) {
    ('\t' <= c <= '\r') || c == ' ' || c == '\U{85}' || c == '\U{A0}' || c == '\U{1680}' ||
    ('\U{2000}' <= c <= '\U{200A}') || c == '\U{2028}' || c == '\U{2029}' ||
    c == '\U{202F}' || c == '\U{205F}' || c == '\U{3000}'
  }

  /** Only whitespace (or nothing). */
  predicate Blank(s: string) {
    forall i :: 0 <= i < |s| ==> IsWhitespace(s[i])
  }

  /** Non-empty and free of whitespace. */
  predicate Word(s: string) {
    s != [] && forall i :: 0 <= i < |s| ==> !IsWhitespace(s[i])
  }

  /** `str::trim_start`: drop the leading whitespace. */
  function TrimStart(s: string): string {
    if s == [] || !IsWhitespace(s[0]) then s else TrimStart(s[1..])
  }

  /** What `trim_start` removes is whitespace, and what it keeps is a suffix that starts otherwise. */
  lemma {:induction false} TrimStartSpec(s: string)
    ensures var r := TrimStart(s);
            |r| <= |s| && r == s[|s| - |r|..] && Blank(s[..|s| - |r|]) && (r == [] || !IsWhitespace(r[0]))
  {
    if s != [] && IsWhitespace(s[0]) {
      TrimStartSpec(s[1..]);
      var t := TrimStart(s[1..]);
      assert s[1..][..|s[1..]| - |t|] == s[1..|s| - |t|];
      assert s[1..][|s[1..]| - |t|..] == s[|s| - |t|..];
    }
  }

  /** `str::trim_end`: drop the trailing whitespace. */
  function TrimEnd(s: string): string {
    if s == [] || !IsWhitespace(s[|s| - 1]) then s else TrimEnd(s[..|s| - 1])
  }

  /** What `trim_end` removes is whitespace, and what it keeps is a prefix that ends otherwise. */
  lemma {:induction false} TrimEndSpec(s: string)
    ensures var r := TrimEnd(s);
            |r| <= |s| && r == s[..|r|] && Blank(s[|r|..]) && (r == [] || !IsWhitespace(r[|r| - 1]))
  {
    if s != [] && IsWhitespace(s[|s| - 1]) {
      TrimEndSpec(s[..|s| - 1]);
      var t := TrimEnd(s[..|s| - 1]);
      assert s[|t|..] == s[..|s| - 1][|t|..] + [s[|s| - 1]];
      assert s[..|s| - 1][..|t|] == s[..|t|];
    }
  }

  /** `str::trim`. */
  function Trim(s: string): string {
    TrimEnd(TrimStart(s))
  }

  /**
    Trimming keeps a contiguous middle part of the text that starts and ends
    with a non-whitespace character and removes only whitespace around it.
  */
  lemma TrimSlice(s: string)
    ensures exists i, j :: 0 <= i <= j <= |s| && Trim(s) == s[i..j] && Blank(s[..i]) && Blank(s[j..])
    ensures Trim(s) == [] || (!IsWhitespace(Trim(s)[0]) && !IsWhitespace(Trim(s)[|Trim(s)| - 1]))
  {
    var a := TrimStart(s);
    TrimStartSpec(s);
    var i := |s| - |a|;
    var r := TrimEnd(a);
    TrimEndSpec(a);
    var j := i + |r|;
    assert a[..|r|] == s[i..j];
    assert a[|r|..] == s[j..];
    if r != [] {
      assert r[0] == a[0];
    }
  }

  /** The trimmed text is empty exactly when the text is blank. */
  lemma TrimEmptyIffBlank(s: string)
    ensures Trim(s) == [] <==> Blank(s)
  {
    var a := TrimStart(s);
    TrimStartSpec(s);
    TrimEndSpec(a);
    if Trim(s) == [] {
      assert Blank(a[0..]);
      assert s == s[..|s| - |a|] + a;
    }
  }

  /** The length of the word at the front of `s`. */
  function WordLen(s: string): (n: nat)
    ensures n <= |s|
    ensures forall i :: 0 <= i < n ==> !IsWhitespace(s[i])
    ensures n < |s| ==> IsWhitespace(s[n])
  {
    if s == [] || IsWhitespace(s[0]) then 0 else 1 + WordLen(s[1..])
  }

  /** `str::split_whitespace`: the maximal whitespace-free pieces, in order. */
  function Tokens(s: string): (r: seq<string>)
    ensures forall j :: 0 <= j < |r| ==> Word(r[j])
    decreases |s|
  {
    if s == [] then []
    else if IsWhitespace(s[0]) then Tokens(s[1..])
    else
      var n := WordLen(s);
      [s[..n]] + Tokens(s[n..])
  }

  /** The non-whitespace characters of `s`, in order. */
  function NonSpace(s: string): string {
    if s == [] then [] else (if IsWhitespace(s[0]) then [] else [s[0]]) + NonSpace(s[1..])
  }

  function Flatten(ws: seq<string>): string {
    if ws == [] then [] else ws[0] + Flatten(ws[1..])
  }

  lemma {:induction false} NonSpaceWord(s: string, n: nat)
    requires n <= |s| && forall i :: 0 <= i < n ==> !IsWhitespace(s[i])
    ensures NonSpace(s) == s[..n] + NonSpace(s[n..])
    decreases n
  {
    if n > 0 {
      NonSpaceWord(s[1..], n - 1);
      assert s[1..][n - 1..] == s[n..];
      assert s[..n] == [s[0]] + s[1..][..n - 1];
      ConcatAssoc([s[0]], s[1..][..n - 1], NonSpace(s[n..]));
    }
  }

  /** The tokens hold every non-whitespace character, in order, and nothing else. */
  lemma {:induction false} TokensContent(s: string)
    ensures Flatten(Tokens(s)) == NonSpace(s)
    decreases |s|
  {
    if s != [] {
      if IsWhitespace(s[0]) {
        TokensContent(s[1..]);
      } else {
        var n := WordLen(s);
        TokensContent(s[n..]);
        NonSpaceWord(s, n);
        var ts := Tokens(s);
        assert ts == [s[..n]] + Tokens(s[n..]);
        assert ts[0] == s[..n] && ts[1..] == Tokens(s[n..]);
      }
    }
  }

  /** A blank text has no tokens, and a text with a non-whitespace character has some. */
  lemma {:induction false} TokensEmptyIffBlank(s: string)
    ensures Tokens(s) == [] <==> Blank(s)
    decreases |s|
  {
    if s != [] {
      if IsWhitespace(s[0]) {
        TokensEmptyIffBlank(s[1..]);
        if Blank(s[1..]) {
          forall i | 0 <= i < |s| ensures IsWhitespace(s[i]) {
            if i > 0 { assert s[i] == s[1..][i - 1]; }
          }
        }
      }
    }
  }

  /** Words joined by single spaces. */
  function Unwords(ws: seq<string>): string {
    if ws == [] then []
    else if |ws| == 1 then ws[0]
    else ws[0] + " " + Unwords(ws[1..])
  }

  /** Splitting words joined by spaces gives the words back. */
  lemma {:induction false} TokensUnwords(ws: seq<string>)
    requires forall j :: 0 <= j < |ws| ==> Word(ws[j])
    ensures Tokens(Unwords(ws)) == ws
  {
    if ws != [] {
      var w := ws[0];
      var s := Unwords(ws);
      assert w[0] == s[0];
      WordPrefix(w, if |ws| == 1 then [] else " " + Unwords(ws[1..]));
      if |ws| == 1 {
        assert s == w + [];
      } else {
        var rest := Unwords(ws[1..]);
        assert s == w + (" " + rest);
        assert s[|w|..] == " " + rest;
        assert (" " + rest)[1..] == rest;
        TokensUnwords(ws[1..]);
      }
    }
  }

  lemma WordPrefix(w: string, t: string)
    requires Word(w) && (t == [] || IsWhitespace(t[0]))
    ensures WordLen(w + t) == |w| && (w + t)[..|w|] == w && (w + t)[|w|..] == t
  {
    var s := w + t;
    assert forall i :: 0 <= i < |w| ==> s[i] == w[i];
    assert |w| < |s| ==> s[|w|] == t[0];
  }

  /** `str::split_once(c)`: the text around the first `c`. */
  function SplitOnce(line: string, c: char): (r: Option<(string, string)>)
    ensures r.Some? <==> c in line
    ensures r.Some? ==> line == r.value.0 + [c] + r.value.1 && c !in r.value.0
  {
    if line == [] then None
    else if line[0] == c then
      assert line == [] + [c] + line[1..];
      Some(([], line[1..]))
    else match SplitOnce(line[1..], c)
      case None => None
      case Some((k, v)) =>
        assert line == [line[0]] + line[1..];
        Some(([line[0]] + k, v))
  }

  // ---------------------------------------------------------------------
  // The parsed wizard answers
  // ---------------------------------------------------------------------

  /** `parsed_args`. */
  function ParsedArgs(args: string): seq<string> {
    if Trim(args) == [] then [] else Tokens(args)
  }

  /** The blank-input test of `parsed_args` agrees with what `split_whitespace` does anyway. */
  lemma ParsedArgsAreTokens(args: string)
    ensures ParsedArgs(args) == Tokens(args)
    ensures ParsedArgs(args) == [] <==> Blank(args)
  {
    TrimEmptyIffBlank(args);
    TokensEmptyIffBlank(args);
    TrimSlice(args);
  }

  /** One `KEY=VALUE` line: split at the first `=`, both sides trimmed. */
  function EnvEntry(line: string): Option<(string, string)> {
    match SplitOnce(line, '=')
    case None => None
    case Some((k, v)) => Some((Trim(k), Trim(v)))
  }

  /** `parsed_env`: the entries collected into a map, a later line overriding an earlier key. */
  function ParsedEnv(lines: seq<string>): StrMap {
    if lines == [] then []
    else
      var m := ParsedEnv(lines[..|lines| - 1]);
      match EnvEntry(lines[|lines| - 1])
      case None => m
      case Some((k, v)) => Put(m, k, v)
  }

  /** The value of `k` in the last line that sets it. */
  function LastValue(lines: seq<string>, k: string): Option<string> {
    if lines == [] then None
    else
      var e := EnvEntry(lines[|lines| - 1]);
      if e.Some? && e.value.0 == k then Some(e.value.1) else LastValue(lines[..|lines| - 1], k)
  }

  /** The environment holds one entry per key, with the value its last line gave. */
  lemma {:induction false} ParsedEnvLastWins(lines: seq<string>)
    ensures UniqueKeys(ParsedEnv(lines))
    ensures forall k :: Get(ParsedEnv(lines), k) == LastValue(lines, k)
  {
    if lines != [] {
      var init := lines[..|lines| - 1];
      var e := EnvEntry(lines[|lines| - 1]);
      ParsedEnvLastWins(init);
      var m := ParsedEnv(init);
      if e.Some? {
        var (k, v) := e.value;
        assert ParsedEnv(lines) == Put(m, k, v);
        PutGet(m, k, v);
        PutKeepsUnique(m, k, v);
        forall q ensures Get(ParsedEnv(lines), q) == LastValue(lines, q) {
          assert LastValue(lines, q) == if q == k then Some(v) else LastValue(init, q);
        }
      } else {
        assert ParsedEnv(lines) == m;
        forall q ensures Get(ParsedEnv(lines), q) == LastValue(lines, q) {
          assert LastValue(lines, q) == LastValue(init, q);
        }
      }
    }
  }

  /** Every line the wizard accepted contains `=`, so each one sets its trimmed key. */
  lemma AcceptedLinesParse(lines: seq<string>, i: nat)
    requires forall j :: 0 <= j < |lines| ==> '=' in lines[j]
    requires i < |lines|
    ensures EnvEntry(lines[i]).Some?
    ensures EnvEntry(lines[i]).value.0 in Keys(ParsedEnv(lines))
  {
    var k := EnvEntry(lines[i]).value.0;
    ParsedEnvLastWins(lines);
    LastValueFound(lines, i);
    assert Get(ParsedEnv(lines), k).Some?;
  }

  lemma {:induction false} LastValueFound(lines: seq<string>, i: nat)
    requires i < |lines| && EnvEntry(lines[i]).Some?
    ensures LastValue(lines, EnvEntry(lines[i]).value.0).Some?
  {
    var init := lines[..|lines| - 1];
    if i < |lines| - 1 {
      var e := EnvEntry(lines[|lines| - 1]);
      if !(e.Some? && e.value.0 == EnvEntry(lines[i]).value.0) {
        assert init[i] == lines[i];
        LastValueFound(init, i);
      }
    }
  }

  // ---------------------------------------------------------------------
  // Checkbox lists
  // ---------------------------------------------------------------------

  type Choices = seq<(ClientKind, bool)>

  /** `selected_clients`: the checked kinds, in list order. */
  function Selected(cs: Choices): (r: seq<ClientKind>)
    ensures |r| <= |cs|
  {
    if cs == [] then []
    else (if cs[0].1 then [cs[0].0] else []) + Selected(cs[1..])
  }

  /** A kind is selected exactly when some checked entry carries it. */
  lemma {:induction false} SelectedMembers(cs: Choices, k: ClientKind)
    ensures k in Selected(cs) <==> exists i :: 0 <= i < |cs| && cs[i] == (k, true)
  {
    if cs != [] {
      SelectedMembers(cs[1..], k);
      if exists i :: 0 <= i < |cs[1..]| && cs[1..][i] == (k, true) {
        var i :| 0 <= i < |cs[1..]| && cs[1..][i] == (k, true);
        assert cs[i + 1] == (k, true);
      }
      if exists i :: 0 <= i < |cs| && cs[i] == (k, true) {
        var i :| 0 <= i < |cs| && cs[i] == (k, true);
        if i > 0 { assert cs[1..][i - 1] == (k, true); }
      }
    }
  }

  /** Selection is order-preserving: the selection of a concatenation is the concatenation of selections. */
  lemma {:induction false} SelectedAppend(a: Choices, b: Choices)
    ensures Selected(a + b) == Selected(a) + Selected(b)
  {
    if a == [] {
      assert a + b == b;
    } else {
      assert (a + b)[0] == a[0] && (a + b)[1..] == a[1..] + b;
      SelectedAppend(a[1..], b);
      ConcatAssoc(if a[0].1 then [a[0].0] else [], Selected(a[1..]), Selected(b));
    }
  }

  /** Every entry checked, or every entry clear. */
  function AllChecked(ks: seq<ClientKind>, on: bool): (r: Choices)
    ensures |r| == |ks| && forall i :: 0 <= i < |ks| ==> r[i] == (ks[i], on)
  {
    seq(|ks|, i requires 0 <= i < |ks| => (ks[i], on))
  }

  /** With every entry checked the selection is the whole list; with none, nothing. */
  lemma {:induction false} AllCheckedSelected(ks: seq<ClientKind>)
    ensures Selected(AllChecked(ks, true)) == ks
    ensures Selected(AllChecked(ks, false)) == []
  {
    if ks != [] {
      AllCheckedSelected(ks[1..]);
      assert AllChecked(ks, true)[1..] == AllChecked(ks[1..], true);
      assert AllChecked(ks, false)[1..] == AllChecked(ks[1..], false);
    }
  }

  /** `toggle_client`: flip the entry at the cursor, if there is one. */
  function Toggle(cs: Choices, cursor: nat): (r: Choices)
    ensures |r| == |cs|
    ensures forall i :: 0 <= i < |cs| ==> r[i].0 == cs[i].0
    ensures forall i :: 0 <= i < |cs| ==> r[i].1 == (if i == cursor then !cs[i].1 else cs[i].1)
  {
    if cursor < |cs| then cs[cursor := (cs[cursor].0, !cs[cursor].1)] else cs
  }

  /** Toggling twice restores the list. */
  lemma ToggleTwice(cs: Choices, cursor: nat)
    ensures Toggle(Toggle(cs, cursor), cursor) == cs
  {
    var r := Toggle(Toggle(cs, cursor), cursor);
    assert forall i :: 0 <= i < |cs| ==> r[i] == cs[i];
  }

  /** `cursor_up`: one step towards the top, stopping there. */
  function CursorUp(cursor: nat): (r: nat)
    ensures r <= cursor && (cursor > 0 ==> r == cursor - 1)
  {
    if cursor > 0 then cursor - 1 else cursor
  }

  /** `cursor_down`: one step towards the bottom of a list of `len`, stopping at the last entry. */
  function CursorDown(cursor: nat, len: nat): (r: nat)
    ensures cursor + 1 < len ==> r == cursor + 1
    ensures cursor + 1 >= len ==> r == cursor
  {
    if cursor + 1 < len then cursor + 1 else cursor
  }

  /** The cursor moves keep it on an entry of a non-empty list. */
  lemma CursorStaysInRange(cursor: nat, len: nat)
    requires cursor < len
    ensures CursorUp(cursor) < len && CursorDown(cursor, len) < len
  {
  }

  // ---------------------------------------------------------------------
  // The add-server wizard
  // ---------------------------------------------------------------------

  datatype AddStep = Name | Command | Args | EnvVars | Clients | Confirm

  /** The position of a step in the wizard. */
  function StepIndex(s: AddStep): (r: nat)
    ensures r < 6
  {
    match s
    case Name => 0
    case Command => 1
    case Args => 2
    case EnvVars => 3
    case Clients => 4
    case Confirm => 5
  }

  /** The step after `s`; Confirm is the last. */
  function NextStep(s: AddStep): (r: AddStep)
    ensures s != Confirm ==> StepIndex(r) == StepIndex(s) + 1
    ensures s == Confirm ==> r == Confirm
  {
    match s
    case Name => Command
    case Command => Args
    case Args => EnvVars
    case EnvVars => Clients
    case Clients => Confirm
    case Confirm => Confirm
  }

  /** The text steps have a buffer; the other two do not. */
  predicate IsTextStep(s: AddStep) {
    s == Name || s == Command || s == Args || s == EnvVars
  }

  class AddWizard {
    var step: AddStep
    var name: string
    var command: string
    var args: string
    var envLines: seq<string>
    var envInput: string
    var clients: Choices
    var cursor: nat
    var error: Option<string>

    /** The cursor is on an entry whenever there is one, and every stored env line holds `=`. */
    predicate Valid()
      reads this
    {
      (|clients| > 0 ==> cursor < |clients|) &&
      forall i :: 0 <= i < |envLines| ==> '=' in envLines[i]
    }

    /** `AddWizard::new` over the writable clients; only the project client starts checked. */
    constructor (writable: seq<ClientKind>)
      ensures step == Name && name == [] && command == [] && args == [] && envLines == [] && envInput == []
      ensures cursor == 0 && error == None
      ensures |clients| == |writable| &&
              forall i :: 0 <= i < |writable| ==> clients[i] == (writable[i], writable[i] == ClaudeCodeProject)
      ensures Valid()
    {
      step := Name;
      name, command, args := [], [], [];
      envLines, envInput := [], [];
      clients := seq(|writable|, i requires 0 <= i < |writable| => (writable[i], writable[i] == ClaudeCodeProject));
      cursor := 0;
      error := None;
    }

    /** The buffer of step `s`. */
    function Input(s: AddStep): string
      reads this
    {
      match s
      case Name => name
      case Command => command
      case Args => args
      case EnvVars => envInput
      case _ => ""
    }

    /** `current_input`. */
    function CurrentInput(): string
      reads this
    {
      Input(step)
    }

    /** `push_char`: append to the current step's buffer only, clearing the error. */
    method PushChar(c: char)
      modifies this
      ensures error == None
      ensures IsTextStep(step) ==> CurrentInput() == old(CurrentInput()) + [c]
      ensures forall s :: s != step ==> Input(s) == old(Input(s))
      ensures !IsTextStep(step) ==> Input(Name) == old(Input(Name)) && Input(Command) == old(Input(Command)) &&
                                    Input(Args) == old(Input(Args)) && Input(EnvVars) == old(Input(EnvVars))
      ensures step == old(step) && envLines == old(envLines) && clients == old(clients) && cursor == old(cursor)
    {
      error := None;
      match step
      case Name => name := name + [c];
      case Command => command := command + [c];
      case Args => args := args + [c];
      case EnvVars => envInput := envInput + [c];
      case _ =>
    }

    /** `pop_char`: drop at most the last character of the current step's buffer. */
    method PopChar()
      modifies this
      ensures var old_ := old(CurrentInput());
              CurrentInput() == if old_ == [] then [] else old_[..|old_| - 1]
      ensures forall s :: s != step ==> Input(s) == old(Input(s))
      ensures !IsTextStep(step) ==> Input(Name) == old(Input(Name)) && Input(Command) == old(Input(Command)) &&
                                    Input(Args) == old(Input(Args)) && Input(EnvVars) == old(Input(EnvVars))
      ensures step == old(step) && envLines == old(envLines) && clients == old(clients) && cursor == old(cursor)
      ensures error == old(error)
    {
      match step
      case Name => if name != [] { name := name[..|name| - 1]; }
      case Command => if command != [] { command := command[..|command| - 1]; }
      case Args => if args != [] { args := args[..|args| - 1]; }
      case EnvVars => if envInput != [] { envInput := envInput[..|envInput| - 1]; }
      case _ =>
    }

    /**
      `advance`: validate the current step and move to the next one.
      Refusing sets the error and changes nothing else; the env step stays
      put while it collects lines.
    */
    method Advance() returns (ok: bool)
      modifies this
      ensures name == old(name) && command == old(command) && args == old(args) && clients == old(clients)
      ensures step == old(step) || step == NextStep(old(step))
      ensures old(step) != EnvVars ==> envLines == old(envLines) && envInput == old(envInput) && cursor == old(cursor)
      ensures !ok ==> step == old(step) && envLines == old(envLines) && envInput == old(envInput)
      ensures ok && old(step) != EnvVars ==> error == old(error)
      ensures old(step) == Name ==>
                (ok <==> !Blank(old(name))) && (ok ==> step == Command) &&
                (!ok ==> error == Some("Server name cannot be empty"))
      ensures old(step) == Command ==>
                (ok <==> !Blank(old(command))) && (ok ==> step == Args) &&
                (!ok ==> error == Some("Command cannot be empty"))
      ensures old(step) == Args ==> ok && step == EnvVars
      ensures old(step) == EnvVars && old(envInput) == [] ==>
                ok && step == Clients && cursor == 0 && envLines == old(envLines) && error == old(error)
      ensures old(step) == EnvVars && old(envInput) != [] && '=' in old(envInput) ==>
                ok && step == EnvVars && envLines == old(envLines) + [old(envInput)] && envInput == [] &&
                cursor == old(cursor) && error == old(error)
      ensures old(step) == EnvVars && old(envInput) != [] && '=' !in old(envInput) ==>
                !ok && error == Some("Format: KEY=VALUE") && cursor == old(cursor)
      ensures old(step) == Clients ==>
                (ok <==> Selected(old(clients)) != []) && (ok ==> step == Confirm) &&
                (!ok ==> error == Some("Select at least one client"))
      ensures old(step) == Confirm ==> ok && step == Confirm
      ensures old(Valid()) ==> Valid()
    {
      match step {
      case Name =>
        TrimEmptyIffBlank(name);
        if Trim(name) == [] {
          error := Some("Server name cannot be empty");
          return false;
        }
        step := Command;
      case Command =>
        TrimEmptyIffBlank(command);
        if Trim(command) == [] {
          error := Some("Command cannot be empty");
          return false;
        }
        step := Args;
      case Args =>
        step := EnvVars;
      case EnvVars =>
        if envInput == [] {
          step := Clients;
          cursor := 0;
        } else if '=' in envInput {
          envLines := envLines + [envInput];
          envInput := [];
        } else {
          error := Some("Format: KEY=VALUE");
          return false;
        }
      case Clients =>
        if Selected(clients) == [] {
          error := Some("Select at least one client");
          return false;
        }
        step := Confirm;
      case Confirm =>
      }
      ok := true;
    }

    /** `toggle_client`. */
    method ToggleClient()
      modifies this
      ensures clients == Toggle(old(clients), cursor)
      ensures step == old(step) && cursor == old(cursor) && error == old(error)
      ensures name == old(name) && command == old(command) && args == old(args)
      ensures envLines == old(envLines) && envInput == old(envInput)
      ensures old(Valid()) ==> Valid()
    {
      clients := Toggle(clients, cursor);
    }

    method CursorUpMove()
      modifies this
      ensures cursor == CursorUp(old(cursor))
      ensures clients == old(clients) && step == old(step) && error == old(error)
      ensures name == old(name) && command == old(command) && args == old(args)
      ensures envLines == old(envLines) && envInput == old(envInput)
      ensures old(Valid()) ==> Valid()
    {
      cursor := CursorUp(cursor);
    }

    method CursorDownMove()
      modifies this
      ensures cursor == CursorDown(old(cursor), |clients|)
      ensures clients == old(clients) && step == old(step) && error == old(error)
      ensures name == old(name) && command == old(command) && args == old(args)
      ensures envLines == old(envLines) && envInput == old(envInput)
      ensures old(Valid()) ==> Valid()
    {
      cursor := CursorDown(cursor, |clients|);
    }

    /** `parsed_args`. */
    function Arguments(): seq<string>
      reads this
    {
      ParsedArgs(args)
    }

    /** `parsed_env`. */
    function Environment(): StrMap
      reads this
    {
      ParsedEnv(envLines)
    }

    /** `selected_clients`. */
    function SelectedClients(): seq<ClientKind>
      reads this
    {
      Selected(clients)
    }
  }

  // ---------------------------------------------------------------------
  // Remove confirmation and sync selection
  // ---------------------------------------------------------------------

  datatype RemoveStep = SelectClients | ConfirmRemoval

  class RemoveConfirm {
    var serverName: string
    var clients: Choices
    var cursor: nat
    var step: RemoveStep

    /** `RemoveConfirm::new`: every client that declares the server starts checked. */
    constructor (serverName: string, clientsWithServer: seq<ClientKind>)
      ensures this.serverName == serverName && clients == AllChecked(clientsWithServer, true)
      ensures cursor == 0 && step == SelectClients
    {
      this.serverName := serverName;
      clients := AllChecked(clientsWithServer, true);
      cursor := 0;
      step := SelectClients;
    }

    method ToggleClient()
      modifies this
      ensures clients == Toggle(old(clients), cursor)
      ensures serverName == old(serverName) && cursor == old(cursor) && step == old(step)
    {
      clients := Toggle(clients, cursor);
    }

    method CursorUpMove()
      modifies this
      ensures cursor == CursorUp(old(cursor))
      ensures serverName == old(serverName) && clients == old(clients) && step == old(step)
    {
      cursor := CursorUp(cursor);
    }

    method CursorDownMove()
      modifies this
      ensures cursor == CursorDown(old(cursor), |clients|)
      ensures serverName == old(serverName) && clients == old(clients) && step == old(step)
    {
      cursor := CursorDown(cursor, |clients|);
    }

    function SelectedClients(): seq<ClientKind>
      reads this
    {
      Selected(clients)
    }

    /** `advance`: confirmation is reached only with at least one client checked. */
    method Advance() returns (ok: bool)
      modifies this
      ensures serverName == old(serverName) && clients == old(clients) && cursor == old(cursor)
      ensures old(step) == SelectClients ==>
                (ok <==> Selected(clients) != []) && step == (if ok then ConfirmRemoval else SelectClients)
      ensures old(step) == ConfirmRemoval ==> ok && step == ConfirmRemoval
    {
      match step
      case SelectClients =>
        if Selected(clients) == [] {
          return false;
        }
        step := ConfirmRemoval;
        ok := true;
      case ConfirmRemoval =>
        ok := true;
    }
  }

  class SyncSelect {
    var serverName: string
    var serverValue: Json
    var targets: Choices
    var cursor: nat

    /** `SyncSelect::new`: the clients missing the server, none of them checked. */
    constructor (serverName: string, serverValue: Json, missingClients: seq<ClientKind>)
      ensures this.serverName == serverName && this.serverValue == serverValue
      ensures targets == AllChecked(missingClients, false) && cursor == 0
    {
      this.serverName := serverName;
      this.serverValue := serverValue;
      targets := AllChecked(missingClients, false);
      cursor := 0;
    }

    method ToggleClient()
      modifies this
      ensures targets == Toggle(old(targets), cursor)
      ensures serverName == old(serverName) && serverValue == old(serverValue) && cursor == old(cursor)
    {
      targets := Toggle(targets, cursor);
    }

    method CursorUpMove()
      modifies this
      ensures cursor == CursorUp(old(cursor))
      ensures serverName == old(serverName) && serverValue == old(serverValue) && targets == old(targets)
    {
      cursor := CursorUp(cursor);
    }

    method CursorDownMove()
      modifies this
      ensures cursor == CursorDown(old(cursor), |targets|)
      ensures serverName == old(serverName) && serverValue == old(serverValue) && targets == old(targets)
    {
      cursor := CursorDown(cursor, |targets|);
    }

    function SelectedClients(): seq<ClientKind>
      reads this
    {
      Selected(targets)
    }
  }
}
