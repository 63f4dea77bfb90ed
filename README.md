# mcpm core, modelled in Dafny

mcpm is a terminal tool that finds the MCP (Model Context Protocol)
servers declared in the configuration files of several AI clients:
Claude Code (global and project), Cursor (global and project), VS Code,
Windsurf and Claude Desktop. It shows the servers in a list and in a
client matrix. It probes stdio servers with an `initialize` request. It
can add, remove or copy ("sync") a server entry across the clients'
JSON files.

This project models that core and proves properties of the model.

- `types.dfy`: the client kinds, their labels and display order, and the transports and server records.
- `wrappers.dfy`: `Option` and `Result`.
- `assoc.dfy`: JSON object members as an association list, with key lookup, insertion and removal.
- `json.dfy`: JSON values and `serde_json`'s indexing rules, including the `v[k] = x` assignment, which panics on a non-object.
- `fs.dfy`: the file system as a map from paths to file states, with a fault table for the operations that fail. The `FileSystem` class updates that map.
- `discovery.dfy`: the per-client scanners, the dedicated Claude Code global scanner, and `discover`, which builds a `DiscoveryResult` and its active clients. Each scanner is a method over a `DiscoveryResult` object, proved against a function.
- `config_writer.dfy`: `build_server_value`, the insertion and removal rules for each client, `read_or_empty`, `backup`, `write_atomic`, `add_server` and `remove_server`.
- `health.dfy`: response classification, the reader loop, the end-of-stream fallback, and `check_stdio`/`check_server` given the outcome of the spawn and the reads.
- `wizard.dfy`: `trim`, `split_whitespace` and `split_once`; the add-server wizard, the remove confirmation and the sync selection as classes.
- `ui.dfy`: the byte-length `truncate`, the matrix height, and the client matrix table (unique names, lookup, header, rows and widths).
- `app.dfy`: the `App` state (selection, scrolling, health bookkeeping, status timer) and the add/remove/sync batches that attempt every selected client in turn.

## Model

| member | source | states |
|---|---|---|
| Types.Label | src/types.rs:17-27 | every client has a non-empty label of at most ten characters |
| Types.LabelInjective | src/types.rs:17-27 | different clients never share a label, so a `label: error` line names exactly one client |
| Types.AllKindsComplete | src/types.rs:30-40 | `all()` lists seven distinct kinds and contains every kind, with ClaudeCodeGlobal first |
| Types.KindLabel | src/types.rs:61-68 | each transport variant has its own label, in both directions: the label is "http" exactly when the transport is Http, and likewise for sse, stdio and unknown |
| Assoc.Get | src/config_writer.rs:60 | a lookup finds a value exactly when the key is present, and the value found is that key's member |
| Assoc.PutGet | src/config_writer.rs:63 | after an insert the key maps to the new value, and every other key's lookup is unchanged |
| Assoc.PutKeys | src/config_writer.rs:15-27 | an insert keeps the existing key order and appends only a key that was absent |
| Assoc.DeleteGet | src/config_writer.rs:102 | after a removal the key is absent; every other lookup and key is kept; removing an absent key changes nothing |
| Assoc.PutIdempotent | src/config_writer.rs:63 | inserting the same entry twice gives the same object as inserting it once |
| Assoc.DeleteIdempotent | src/config_writer.rs:102 | removing a key twice gives the same object as removing it once |
| Assoc.PutKeepsUnique | src/config_writer.rs:63 | an insert into an object with unique keys keeps the keys unique |
| Assoc.DeleteKeepsUnique | src/config_writer.rs:102 | a removal keeps the keys unique |
| Assoc.PutSame | src/config_writer.rs:63 | inserting the value a key already has leaves the object unchanged |
| Assoc.PutPut | src/config_writer.rs:63 | a later insert of a key overrides an earlier one |
| Assoc.DeletePutFresh | src/config_writer.rs:63 | removing a key that was just inserted fresh restores the original object |
| Json.Member | src/discovery.rs:64 | `get(k)` finds something exactly when the value is an object that has key `k` |
| Json.At | src/discovery.rs:68 | `v[k]` is the member when it exists and `null` otherwise, also on non-objects |
| Json.IndexSet | src/config_writer.rs:61-77 | the nested assignment succeeds exactly when every container on the path is null or an object (otherwise serde_json panics); after it the path holds the value, the root is an object, and the root's other members are unchanged |
| Json.IndexSetIdempotent | src/config_writer.rs:63 | repeating a successful nested assignment changes nothing more |
| Json.IndexSetChild | src/config_writer.rs:63 | a two-step assignment equals assigning inside the child member |
| Json.AtPathSteps | src/health.rs:160 | chained indexing reads one member at a time |
| FileSystem.LastIndexOf | src/config_writer.rs:140 | the index found holds the character, and no later index does |
| FileSystem.WithExtension | src/config_writer.rs:140 | `with_extension(ext)` of a path that names a file ends in `.ext` |
| FileSystem.SiblingsDistinct | src/config_writer.rs:138-157 | for a `.json` config path, the `.bak` copy, the `.tmp` file and the config itself are three different files |
| FileSystem.FileSystem.constructor | src/config_writer.rs:128-157 | the file system starts with the given files and fault table |
| FileSystem.FileSystem.CreateDirAll | src/config_writer.rs:44-47 | `create_dir_all` fails exactly when the fault table says so, with that error |
| FileSystem.FileSystem.Copy | src/config_writer.rs:141-142 | `copy` fails exactly when a fault is given for the target, leaving the files alone; otherwise the target holds the source's state |
| FileSystem.FileSystem.Write | src/config_writer.rs:152-153 | `write` fails exactly on a fault, leaving the files alone; otherwise the path holds the text |
| FileSystem.FileSystem.Rename | src/config_writer.rs:155-156 | `rename` fails exactly on a fault, leaving the files alone; otherwise the source disappears and the target holds its state |
| ConfigWriter.StringArray | src/config_writer.rs:17-20 | the `args` array has one string per argument, in order |
| ConfigWriter.StringObject | src/config_writer.rs:23-27 | the `env` object has one string member per entry, in order |
| ConfigWriter.StringElemsOfArray | src/config_writer.rs:17-20 | reading the strings back from the written `args` array gives the arguments unchanged |
| ConfigWriter.StringEntriesOfObject | src/config_writer.rs:23-27 | reading the string map back from the written `env` object gives the entries unchanged |
| ConfigWriter.StdioShapeRoundTrip | src/config_writer.rs:9-30 | a value built from command, args and env is parsed by discovery as `Stdio(command, args)`; its env reads back as the entries, or as nothing when there were none |
| ConfigWriter.BuildServerValue | src/config_writer.rs:9-30 | the value has `command`, then `args` only when there are arguments and `env` only when there are entries, with exactly that content |
| ConfigWriter.InsertPath | src/config_writer.rs:56-78 | the server goes one or two levels deep and always under its own name |
| ConfigWriter.EnsureObjectAt | src/config_writer.rs:61-63 | a missing servers key becomes `{}` before the two-level insert; its meaning, together with the panic it can meet, is stated by ConfigWriter.InsertServerPanics and InsertServerEffect |
| ConfigWriter.InsertServer | src/config_writer.rs:56-78 | the insertion of `add_server`; its meaning is stated by ConfigWriter.InsertServerPanics, InsertServerEffect and InsertServerIdempotent |
| ConfigWriter.InsertServerPanics | src/config_writer.rs:56-78 | inserting panics exactly when the root is neither null nor an object, or the servers container of a two-level insert is neither null nor an object |
| ConfigWriter.SettableSteps | src/config_writer.rs:61-63 | a one-level assignment needs a null or object root; a two-level one also needs a null or object child |
| ConfigWriter.InsertServerEffect | src/config_writer.rs:56-78 | after an insertion the server's path holds the value; the other root members and the other servers in the same container are unchanged |
| ConfigWriter.SetEffect | src/config_writer.rs:61-63 | after a one- or two-level assignment the path holds the value and every sibling on the way is unchanged |
| ConfigWriter.InsertServerIdempotent | src/config_writer.rs:56-78 | adding the same server twice leaves the same document as adding it once (see Left out for the flat-file exception) |
| ConfigWriter.InsertFlatNotIdempotent | src/config_writer.rs:64-71 | in a flat `.mcp.json`, a server named `mcpServers` makes the file look wrapped, so a second identical add changes the file again |
| ConfigWriter.RemoveUnder | src/config_writer.rs:99-123 | removing a name from the object under a key; its meaning is stated by ConfigWriter.RemoveUnderEffect and RemoveUnderNoop |
| ConfigWriter.RemoveUnderEffect | src/config_writer.rs:99-123 | removing a name from the object under a key deletes that name only and keeps every other member at both levels, and it keeps whether an object is under the key |
| ConfigWriter.RemoveUnderNoop | src/config_writer.rs:99-123 | removing a name that is absent (or whose container is not an object) leaves the document unchanged |
| ConfigWriter.StripProjects | src/config_writer.rs:105-111 | every project entry keeps its path and loses the server from its own `mcpServers` |
| ConfigWriter.StripProjectsGet | src/config_writer.rs:105-111 | a project found by path is its stripped original, and the lookup finds nothing exactly where the original had nothing |
| ConfigWriter.StripProjectsIdempotent | src/config_writer.rs:105-111 | stripping the projects twice equals stripping them once |
| ConfigWriter.Removed | src/config_writer.rs:97-123 | the document after `remove_server`'s edit; its meaning is stated by ConfigWriter.RemovedGlobal, RemovedProject, RemovedOther and RemovedIdempotent |
| ConfigWriter.RemovedGlobal | src/config_writer.rs:99-111 | for Claude Code global the name leaves the top-level `mcpServers`, every project keeps its path and drops the name, and all other root members are kept |
| ConfigWriter.StripAllProjects | src/config_writer.rs:105-111 | removing the name from every project; its meaning is stated by ConfigWriter.StripAllProjectsEffect |
| ConfigWriter.StripAllProjectsEffect | src/config_writer.rs:105-111 | only `projects` changes, and each of its entries is its stripped original |
| ConfigWriter.RemovedProject | src/config_writer.rs:112-118 | for Claude Code project a wrapped file loses the name from `mcpServers`, and a flat file loses the root member of that name; nothing else changes |
| ConfigWriter.RemovedOther | src/config_writer.rs:119-123 | for the other clients only the name under the client's servers key goes away |
| ConfigWriter.StripAllProjectsIdempotent | src/config_writer.rs:105-111 | stripping all projects twice equals stripping once |
| ConfigWriter.RemovedIdempotent | src/config_writer.rs:97-123 | removing a server twice gives the same document as removing it once, for every client |
| ConfigWriter.RemovedProjectIdempotent | src/config_writer.rs:112-118 | the Claude Code project removal is idempotent in both the wrapped and the flat shape |
| ConfigWriter.SetUnderObject | src/config_writer.rs:63 | assigning under an existing object member inserts into that member's object |
| ConfigWriter.RemoveUnderUndoesSet | src/config_writer.rs:63 | removing a name that was freshly set under an object member restores the document |
| ConfigWriter.RemoveUndoesInsert | src/config_writer.rs:56-123 | for every client except Claude Code global, removing a server that was just added under a fresh name restores the original document |
| ConfigWriter.StripEveryProject | src/config_writer.rs:105-111 | the loop over the project entries strips each of them |
| ConfigWriter.RemoveFromDocument | src/config_writer.rs:97-123 | the in-place removal computes the removal rules of the client |
| ConfigWriter.ReadOrEmpty | src/config_writer.rs:128-136 | a missing file reads as `{}`; the read fails exactly when the file is unreadable or its text is not valid JSON; otherwise the result is the parsed text |
| ConfigWriter.Backup | src/config_writer.rs:138-145 | an existing file is copied to `.bak`; the call fails, with `failed to create backup <bak>: <error>` and the files unchanged, exactly when that copy fails; a missing file is not backed up |
| ConfigWriter.WriteAtomic | src/config_writer.rs:147-157 | the outcome and the new files are those of writing the printed document to `.tmp` and renaming it over the path |
| ConfigWriter.AddServer | src/config_writer.rs:33-81 | the outcome and the new files follow the sequence: path or error, create the directory, read, back up, insert (which may panic), write atomically |
| ConfigWriter.RemoveServer | src/config_writer.rs:84-126 | the outcome and the new files follow the sequence: path or error, read, back up, remove, write atomically |
| ConfigWriter.Commit | src/config_writer.rs:147-157 | the writes of `write_atomic`; its meaning is stated by ConfigWriter.CommitEffect and CommitReadBack |
| ConfigWriter.CommitEffect | src/config_writer.rs:147-157 | a successful write leaves the text at the path and no `.tmp`; a failed one leaves the path as it was; no other file changes |
| ConfigWriter.AddSpec | src/config_writer.rs:33-81 | `add_server` as a function of the files; its meaning is stated by ConfigWriter.AddOrdering |
| ConfigWriter.RemoveSpec | src/config_writer.rs:84-126 | `remove_server` as a function of the files; its meaning is stated by ConfigWriter.RemoveOrdering |
| ConfigWriter.AddOrdering | src/config_writer.rs:33-81 | a failure to create the directory, read or back up leaves every file unchanged; a failure leaves the config file unchanged; a success stores the printed document with the server inserted, and the `.bak` holds the previous file |
| ConfigWriter.RemoveOrdering | src/config_writer.rs:84-126 | a failure to read or back up leaves every file unchanged; a failure leaves the config file unchanged; a success stores the printed document with the server removed, and the `.bak` holds the previous file |
| ConfigWriter.CommitReadBack | src/config_writer.rs:128-157 | when printing and parsing round-trip, the file read back after a successful write is the document written |
| Discovery.StrOrEmpty | src/discovery.rs:68 | `as_str().unwrap_or("")`: the string, or empty for any other value |
| Discovery.StringElems | src/discovery.rs:76-85 | the string elements of an array, and nothing else |
| Discovery.StringElemsAppend | src/discovery.rs:80-83 | collecting the strings keeps the array order |
| Discovery.StringEntries | src/discovery.rs:98-104 | exactly the members with a string value, as key/string pairs |
| Discovery.ParseStringMap | src/discovery.rs:98-104 | a map exactly when the value is present and an object, holding exactly its string-valued members |
| Discovery.ArgsOf | src/discovery.rs:76-85 | no args unless `args` is an array, and then exactly its string elements |
| Discovery.ParseTransport | src/discovery.rs:63-96 | `parse_transport`; its meaning is stated by Discovery.ParseTransportRules |
| Discovery.ParseTransportRules | src/discovery.rs:63-96 | Http exactly for type http, or for no sse/stdio type with no `command` and a `url`; Sse exactly for type sse; Stdio exactly for no http/sse type with a `command` or type stdio; Unknown exactly otherwise; each variant's url, headers, command and args read tolerantly from the object |
| Discovery.TypedTransportIgnoresCommand | src/discovery.rs:63-73 | an explicit `type` http or sse decides the transport: objects agreeing on it, `url` and `headers` parse alike whatever their `command` and `args`; http gives `Http(url, headers)` and sse gives `Sse(url)` |
| Discovery.StdioTransportIgnoresUrl | src/discovery.rs:74-86 | with no http or sse type, a `command` member or type stdio gives `Stdio(command, args)` read from `command` and `args` alone, whatever its `url` and `headers` |
| Discovery.ToServer | src/discovery.rs:113-121 | the record built for one entry; its fields are stated by Discovery.ParseServerMapFields |
| Discovery.ParseServerMap | src/discovery.rs:106-123 | `parse_server_map`; its meaning is stated by Discovery.ParseServerMapMembers, ParseServerMapFields, ParseServerMapAppend and ParseServerMapDistinct |
| Discovery.ParseServerMapMembers | src/discovery.rs:106-123 | a record exists for every object-valued member and for nothing else |
| Discovery.ParseServerMapFields | src/discovery.rs:106-123 | every record carries the scanning client and source, starts Unchecked with no check time, and is named after a key of the map |
| Discovery.ParseServerMapAppend | src/discovery.rs:111-122 | records come in member order |
| Discovery.ParseServerMapDistinct | src/discovery.rs:106-123 | an object with unique keys yields records with distinct names |
| Discovery.FirstSeen | src/discovery.rs:146-157 | the project loop's first-seen-wins filter; its meaning is stated by Discovery.FirstSeenProps and FirstSeenSnoc |
| Discovery.FirstSeenProps | src/discovery.rs:146-157 | the deduplicated records have distinct names, are exactly the names not yet seen, and are drawn from the input |
| Discovery.FirstSeenSnoc | src/discovery.rs:150-154 | one more record is kept exactly when its name was not seen before |
| Discovery.FirstSeenKeepsFirst | src/discovery.rs:150-154 | the first record of an unseen name is kept |
| Discovery.FirstSeenAppend | src/discovery.rs:146-157 | deduplicating two runs equals deduplicating the first, then the second against everything seen so far |
| Discovery.ProjectRecordsSnoc | src/discovery.rs:147-156 | the project records are the records of each project's `mcpServers`, in project order |
| Discovery.GlobalServers | src/discovery.rs:130-158 | the records of the Claude Code global file; its meaning is stated by Discovery.GlobalNamesDistinct, RootEntryWins and ProjectEntryKeptIffUnseen |
| Discovery.GlobalNamesDistinct | src/discovery.rs:130-158 | the Claude Code global scan yields no two records with the same name |
| Discovery.RootEntryWins | src/discovery.rs:138-154 | a top-level `mcpServers` record is always kept and is the only record of its name |
| Discovery.ProjectEntryKeptIffUnseen | src/discovery.rs:146-156 | the first project record of a name is kept exactly when no top-level record has that name; otherwise only the top-level record carries it |
| Discovery.WrappedServers | src/discovery.rs:181-191 | the records of a file that wraps its servers in `mcpServers`; its meaning is stated by Discovery.WrappedServersRecords |
| Discovery.WrappedServersRecords | src/discovery.rs:186-190 | a record exactly for each object-valued member of `mcpServers`, and none when `mcpServers` is not an object |
| Discovery.McpJsonServers | src/discovery.rs:161-178 | the records of `.mcp.json`; its meaning is stated by Discovery.McpJsonWrappedIgnoresRest and McpJsonFlatRecords |
| Discovery.McpJsonWrappedIgnoresRest | src/discovery.rs:167-171 | when `mcpServers` is an object, the other top-level members of `.mcp.json` do not affect its records |
| Discovery.McpJsonFlatRecords | src/discovery.rs:172-177 | otherwise, for an object root, there is a record exactly for each object-valued top-level member, under its name |
| Discovery.VsCodeServers | src/discovery.rs:194-209 | the records of the VS Code file; its meaning is stated by Discovery.VsCodeServersWins and VsCodeFallbackIgnoresRest |
| Discovery.VsCodeServersWins | src/discovery.rs:200-202 | when `servers` is an object, `mcpServers` and every other member do not affect VS Code's records |
| Discovery.VsCodeFallbackIgnoresRest | src/discovery.rs:200-208 | otherwise VS Code's records depend on `mcpServers` alone |
| Discovery.ProjectRecordsOwned | src/discovery.rs:147-156 | project records belong to Claude Code global and to the `.claude.json` source |
| Discovery.SourceServersOwned | src/discovery.rs:106-123 | every record a scanner yields names that scanner's client and file |
| Discovery.SourceServers | src/discovery.rs:15-24 | the records of one client's file, by that client's scanner; stated by Discovery.SourceServersOwned, ScanOutcomeLocal and ErrorIsolation |
| Discovery.ReadSource | src/discovery.rs:48-61 | `read_json_with_errors`; its meaning is stated by Discovery.ScanOutcome, ErrorIsolation, SkippedIsolation and UnreadableIsAbsent |
| Discovery.ScanOutcomeLocal | src/discovery.rs:48-61 | a scanner's contribution depends only on its own file |
| Discovery.ScanOutcome | src/discovery.rs:48-61 | a scanner's errors are exactly those of reading its file |
| Discovery.FirstExistingSpec | src/discovery.rs:212-223 | Claude Desktop uses the first candidate path that exists; when none does, nothing is scanned |
| Discovery.FirstExisting | src/discovery.rs:212-223 | the Claude Desktop candidate that is scanned; its meaning is stated by Discovery.FirstExistingSpec and UnreadableDesktopShadows |
| Discovery.Sources | src/discovery.rs:15-24 | the six fixed locations in scan order, then the first existing Claude Desktop candidate; stated by Discovery.FirstExistingSpec and UnreadableDesktopShadows |
| Discovery.FixedSources | src/discovery.rs:15-24 | the six locations scanned unconditionally, with their clients, in scan order; stated by Discovery.Outcomes and GatherSnoc |
| Discovery.Gather | src/discovery.rs:12-25 | the whole scan's records and errors; its meaning is stated by Discovery.GatherSnoc, GatherKeepsEverySource, ErrorIsolation and SkippedIsolation |
| Discovery.Outcomes | src/discovery.rs:15-25 | one outcome per source, in scan order |
| Discovery.ErrorIsolation | src/discovery.rs:12-25 | a malformed file adds its one error in its place and changes nothing the other sources contribute |
| Discovery.SkippedIsolation | src/discovery.rs:49-52 | a missing or unreadable file adds neither records nor an error, and the sources around it contribute as they would alone |
| Discovery.UnreadableIsAbsent | src/discovery.rs:49-52 | over the same locations, an unreadable file is scanned exactly as an absent one |
| Discovery.UnreadableDesktopShadows | src/discovery.rs:212-223 | an unreadable first Claude Desktop candidate exists, so it is the one scanned; it adds nothing and the second candidate is never read |
| Discovery.GatherKeepsEverySource | src/discovery.rs:12-25 | every record any scanner yields appears in the result |
| Discovery.GatherSnoc | src/discovery.rs:12-25 | the result grows source by source, appending each scanner's records and errors |
| Discovery.OwnedKinds | src/discovery.rs:28 | exactly the clients that own some record |
| Discovery.FilterOwned | src/discovery.rs:29-33 | exactly the listed kinds that own a record |
| Discovery.KindIndex | src/types.rs:30-40 | each kind's position in `all()` |
| Discovery.FilterOwnedOrdered | src/discovery.rs:29-33 | filtering keeps `all()` order |
| Discovery.ActiveClients | src/discovery.rs:27-33 | the active clients are exactly the clients with a record, each once, in `all()` order |
| Discovery.DiscoveryResult.constructor | src/discovery.rs:13 | a result starts with no records, no active clients and no errors |
| Discovery.ReadJsonWithErrors | src/discovery.rs:48-61 | the document is returned exactly when the file parses; a parse error is appended to the errors; the records are untouched |
| Discovery.MergeUnseen | src/discovery.rs:150-154 | only records with unseen names are appended, and the seen set grows by their names |
| Discovery.PushRecording | src/discovery.rs:139-144 | every top-level record is appended and its name recorded as seen |
| Discovery.MergeProjects | src/discovery.rs:147-157 | the project loop appends the deduplicated project records |
| Discovery.ScanClaudeCodeGlobal | src/discovery.rs:130-158 | the records and errors of the Claude Code global scan are appended |
| Discovery.ScanMcpJson | src/discovery.rs:161-178 | the records and errors of `.mcp.json` are appended |
| Discovery.ScanWrapped | src/discovery.rs:181-191 | the records under `mcpServers`, and the read errors, are appended |
| Discovery.ScanVsCode | src/discovery.rs:194-209 | the records and errors of the VS Code file are appended |
| Discovery.ScanClaudeDesktop | src/discovery.rs:212-223 | only the first existing candidate is scanned; with none, nothing changes |
| Discovery.ScanSource | src/discovery.rs:15-24 | each source is dispatched to its scanner |
| Discovery.Discover | src/discovery.rs:12-36 | the result holds the records and errors of all seven scans in order, and the active clients derived from them |
| Health.IndexOf | src/health.rs:152 | the position found is -1 or an index of the text |
| Health.IndexOfSpec | src/health.rs:152 | the position found holds the first `{`, and -1 means there is none |
| Health.IndexOfAppend | src/health.rs:152 | a prefix without `{` shifts the position found by its length |
| Health.Classify | src/health.rs:158-177 | the JSON-RPC reply classification; its meaning is stated by Health.ClassifySpec, ResultWins and HealthyDefaults |
| Health.ClassifySpec | src/health.rs:158-177 | a reply is an answer exactly when it has `result` or `error`; the answer is Healthy exactly when `result` is present, with the server's name and version read at `result.serverInfo`, each defaulting to "unknown"; an Error answer means `error` is present without `result`, and its text starts with `server error: ` followed by `error.message`, defaulting to "unknown error"; no other status is ever produced |
| Health.TryParse | src/health.rs:148-178 | `try_parse_response`; its meaning is stated by Health.TryParseVerdict and PrefixIrrelevant |
| Health.TryParseText | src/health.rs:152-156 | the verdict once the bytes are text, read from the first `{`; stated by Health.PrefixIrrelevant and TryParseVerdict |
| Health.ParseReply | src/health.rs:155-177 | text that is not JSON gives no verdict, JSON is classified; stated by Health.ClassifySpec and TryParseVerdict |
| Health.TryParseVerdict | src/health.rs:148-178 | a successful parse is always Healthy or Error |
| Health.ResultWins | src/health.rs:159-171 | a reply carrying both `result` and `error` counts as healthy |
| Health.HealthyDefaults | src/health.rs:160-167 | a result without `serverInfo` reports name and version "unknown" |
| Health.PrefixIrrelevant | src/health.rs:151-153 | header text without `{` in front of the JSON (such as a `Content-Length` header) does not change the verdict |
| Health.AtEof | src/health.rs:119-131 | at end of stream a parsable output wins; empty output is `no response from server`; otherwise `invalid response: ` and a lossy preview of the first 200 bytes, or of all of them when fewer |
| Health.Reader | src/health.rs:98-132 | the reader thread's answer over the read stream; its meaning is stated by Health.ReaderStopsAtAnswer, ReaderErrors, AtEof and SilentServer |
| Health.ReadResponse | src/health.rs:98-132 | the reader loop answers what the reader specification answers for the stream of reads |
| Health.ReaderStopsAtAnswer | src/health.rs:102-111 | once the accumulated output parses after a non-empty read, that status is the answer, whatever follows |
| Health.ReaderErrors | src/health.rs:98-131 | a successful answer is Healthy or Error; a failure is a read error from the stream, `no response from server`, or an `invalid response: ` message |
| Health.SilentServer | src/health.rs:104 | a server that closes stdout without writing gets `no response from server` |
| Health.ProbeStatus | src/health.rs:134-138 | no answer before the deadline is Timeout; an answer is the status; a reader error becomes Error with its message |
| Health.CheckStdio | src/health.rs:47-144 | `command not found: <command>`, another spawn error's message, `failed to capture stdout`, Timeout, or the reader's answer, as the probe went |
| Health.CheckServer | src/health.rs:14-24 | the result carries the server's index and the check time; a non-stdio server gets `health check only supports stdio servers` |
| Health.CheckServerSettles | src/health.rs:14-24 | a check always ends Healthy, Error or Timeout, never Unchecked or Checking |
| Ui.CharLen | src/ui.rs:324 | a character takes one to four bytes of UTF-8, and one exactly when it is ASCII |
| Ui.ByteLen | src/ui.rs:324 | `str::len` in UTF-8 bytes; its meaning is stated by Ui.ByteLenAppend and ByteLenAtLeast |
| Ui.ByteLenAppend | src/ui.rs:324 | byte lengths add up over concatenation |
| Ui.ByteLenAtLeast | src/ui.rs:324 | a string has at least as many bytes as characters, and as many exactly when it is all ASCII |
| Ui.BoundaryAt | src/ui.rs:327 | a byte offset that is a character boundary gives a character count within the string |
| Ui.BoundaryAtSpec | src/ui.rs:327 | `&s[..b]` is valid exactly when some prefix has `b` bytes, and that prefix is the one cut |
| Ui.FitChars | src/ui.rs:327 | the number of characters that fit in `b` bytes is within the string |
| Ui.FitCharsSpec | src/ui.rs:327 | that prefix fits in `b` bytes, and one more character would not |
| Ui.TruncateAsWritten | src/ui.rs:323-329 | `truncate` as written, None where it panics; stated by Ui.TruncatePanics, MatrixNamePanics, AsciiTruncates and TruncateAgrees (see Findings) |
| Ui.TruncatePanics | src/ui.rs:85 | ten two-byte characters with the server list's limit of 18 make `&s[..17]` cut inside a character (see Findings) |
| Ui.MatrixNamePanics | src/ui.rs:254 | ten two-byte characters and an ASCII letter (21 bytes) with the matrix limit of 20 make `&s[..19]` cut inside a character (see Findings) |
| Ui.AsciiTruncates | src/ui.rs:323-329 | on ASCII names the source's truncate never panics |
| Ui.Truncate | src/ui.rs:323-329 | `truncate` cut at a character boundary; its meaning is stated by Ui.TruncateSpec and TruncateAgrees (see Findings) |
| Ui.TruncateSpec | src/ui.rs:323-329 | a name within `max` bytes is kept; a longer one becomes the longest prefix that fits in `max - 1` bytes plus `…` |
| Ui.BoundaryIsFit | src/ui.rs:327 | where the cut is a character boundary, it is the longest fitting prefix |
| Ui.TruncateAgrees | src/ui.rs:323-329 | whenever the source's truncate does not panic, the corrected one gives the same text |
| Ui.Dedup | src/ui.rs:217-224 | the unique names; its meaning is stated by Ui.DedupSpec and computed by Ui.UniqueNames |
| Ui.DedupSpec | src/ui.rs:217-224 | the unique names are free of duplicates, are exactly the names of the records, and are in order of first appearance |
| Ui.MatrixHeight | src/ui.rs:17-23 | the matrix height; its meaning is stated by Ui.MatrixHeightRows |
| Ui.MatrixHeightRows | src/ui.rs:17-23 | the matrix is 3 rows high exactly when there are no records, and otherwise 3 plus the number of unique names, capped at 14 in all |
| Ui.NameSetSize | src/ui.rs:18 | the set of names and the deduplicated list have the same size |
| Ui.UniqueNames | src/ui.rs:217-224 | the loop with a seen set yields the deduplicated names |
| Ui.ServerClients | src/ui.rs:226-234 | the lookup has exactly the record names as keys, and a client under a name exactly when that client declares it |
| Ui.RowOf | src/ui.rs:249-265 | a row is the name truncated to 20, then a tick or a dot for each active client |
| Ui.RowOfAgrees | src/ui.rs:254 | wherever the source's `truncate(name, 20)` does not panic, the row's name cell is its text |
| Ui.Rows | src/ui.rs:249-266 | one row per unique name, in order |
| Ui.RowsDeclare | src/ui.rs:226-266 | each cell ticks exactly the client that declares the row's server |
| Ui.Header | src/ui.rs:236-246 | the header is an empty corner, then the label of each active client |
| Ui.Widths | src/ui.rs:268-273 | the name column is 22 wide and each client column 11 |
| Ui.TableFits | src/ui.rs:236-273 | the header, every row and the widths have one column per active client plus the name column |
| Ui.Matrix | src/ui.rs:202-283 | no table without active clients; otherwise a table whose columns, cells and sizes are as above |
| Wizard.TrimStartSpec | src/wizard.rs:108 | `trim_start` removes only leading whitespace, and what it keeps does not start with whitespace |
| Wizard.TrimEndSpec | src/wizard.rs:108 | `trim_end` removes only trailing whitespace, and what it keeps does not end with whitespace |
| Wizard.TrimStart | src/wizard.rs:108 | `str::trim_start`; its meaning is stated by Wizard.TrimStartSpec |
| Wizard.TrimEnd | src/wizard.rs:108 | `str::trim_end`; its meaning is stated by Wizard.TrimEndSpec |
| Wizard.Trim | src/wizard.rs:188 | `str::trim`; its meaning is stated by Wizard.TrimSlice and TrimEmptyIffBlank |
| Wizard.TrimSlice | src/wizard.rs:188 | `trim` keeps a contiguous middle part and removes only whitespace around it |
| Wizard.TrimEmptyIffBlank | src/wizard.rs:108 | the trimmed text is empty exactly when the text is all whitespace |
| Wizard.Tokens | src/wizard.rs:179 | every piece of `split_whitespace` is a non-empty word without whitespace |
| Wizard.TokensContent | src/wizard.rs:179 | the pieces hold every non-whitespace character, in order, and nothing else |
| Wizard.TokensEmptyIffBlank | src/wizard.rs:176-179 | there are no pieces exactly when the text is blank |
| Wizard.TokensUnwords | src/wizard.rs:179 | splitting words joined by spaces gives the words back |
| Wizard.SplitOnce | src/wizard.rs:187 | a split exists exactly when the line has `=`; it splits at the first `=` and loses nothing |
| Wizard.EnvEntry | src/wizard.rs:186-189 | one `KEY=VALUE` line gives the trimmed key and value, and a line without `=` gives nothing; stated by Wizard.SplitOnce, TrimSlice and AcceptedLinesParse |
| Wizard.ParsedArgs | src/wizard.rs:175-181 | `parsed_args`; its meaning is stated by Wizard.ParsedArgsAreTokens |
| Wizard.ParsedEnv | src/wizard.rs:183-191 | `parsed_env`; its meaning is stated by Wizard.ParsedEnvLastWins |
| Wizard.ParsedArgsAreTokens | src/wizard.rs:175-181 | `parsed_args` is `split_whitespace` of the text, and empty exactly when the text is blank |
| Wizard.ParsedEnvLastWins | src/wizard.rs:183-191 | the environment has unique keys, and each key has the value of the last line that sets it |
| Wizard.AcceptedLinesParse | src/wizard.rs:131-133 | every line the wizard accepted sets its trimmed key in the environment |
| Wizard.Selected | src/wizard.rs:193-199 | the selection is no longer than the list |
| Wizard.SelectedMembers | src/wizard.rs:193-199 | a client is selected exactly when some checked entry carries it |
| Wizard.SelectedAppend | src/wizard.rs:193-199 | the selection keeps list order |
| Wizard.AllChecked | src/wizard.rs:232-235 | the list has each given client, in order, all checked or all clear |
| Wizard.AllCheckedSelected | src/wizard.rs:262-268 | with all entries checked the selection is the whole list, and with none it is empty |
| Wizard.Toggle | src/wizard.rs:156-160 | only the entry at the cursor flips, and only when the cursor is on an entry |
| Wizard.ToggleTwice | src/wizard.rs:156-160 | toggling twice restores the list |
| Wizard.CursorUp | src/wizard.rs:162-166 | up moves one entry towards the top and stops at it |
| Wizard.CursorDown | src/wizard.rs:168-172 | down moves one entry while there is a next one, and otherwise stays |
| Wizard.CursorStaysInRange | src/wizard.rs:162-172 | the cursor moves keep the cursor on an entry |
| Wizard.StepIndex | src/wizard.rs:39-46 | the six steps have positions 0 to 5 |
| Wizard.NextStep | src/wizard.rs:105-153 | each step is followed by the next position, and Confirm is final |
| Wizard.AddWizard.constructor | src/wizard.rs:49-68 | the wizard starts at Name with empty inputs, no error, the cursor at 0, and one entry per writable client, only Claude Code project checked |
| Wizard.AddWizard.PushChar | src/wizard.rs:82-91 | the character goes to the current step's buffer only, and the error is cleared |
| Wizard.AddWizard.PopChar | src/wizard.rs:94-102 | the last character of the current step's buffer goes, if any, and nothing else changes |
| Wizard.AddWizard.Advance | src/wizard.rs:105-153 | name and command must contain a non-blank character; an empty env line ends the env step; an env line without `=` is refused with `Format: KEY=VALUE`; a line with `=` is stored and the input cleared; at least one client must be selected; each refusal sets its message and stays; the invariant is kept |
| Wizard.AddWizard.ToggleClient | src/wizard.rs:156-160 | the entry under the cursor flips and nothing else changes |
| Wizard.AddWizard.CursorUpMove | src/wizard.rs:162-166 | the cursor moves up and nothing else changes |
| Wizard.AddWizard.CursorDownMove | src/wizard.rs:168-172 | the cursor moves down within the list and nothing else changes |
| Wizard.AddWizard.Arguments | src/wizard.rs:175-181 | the wizard's `parsed_args`; stated by Wizard.ParsedArgsAreTokens |
| Wizard.AddWizard.Environment | src/wizard.rs:183-191 | the wizard's `parsed_env`; stated by Wizard.ParsedEnvLastWins |
| Wizard.AddWizard.SelectedClients | src/wizard.rs:193-199 | the checked clients in list order; stated by Wizard.SelectedMembers and SelectedAppend |
| Wizard.RemoveConfirm.constructor | src/wizard.rs:231-242 | every client that declares the server starts checked, at the selection step |
| Wizard.RemoveConfirm.ToggleClient | src/wizard.rs:244-248 | the entry under the cursor flips |
| Wizard.RemoveConfirm.CursorUpMove | src/wizard.rs:250-254 | the cursor moves up |
| Wizard.RemoveConfirm.CursorDownMove | src/wizard.rs:256-260 | the cursor moves down within the list |
| Wizard.RemoveConfirm.Advance | src/wizard.rs:270-281 | confirmation is reached exactly when at least one client is selected, and it is final |
| Wizard.RemoveConfirm.SelectedClients | src/wizard.rs:262-268 | the checked clients in list order; stated by Wizard.SelectedMembers, SelectedAppend and AllCheckedSelected |
| Wizard.SyncSelect.constructor | src/wizard.rs:296-308 | every client missing the server is listed, none checked |
| Wizard.SyncSelect.ToggleClient | src/wizard.rs:310-314 | the target under the cursor flips |
| Wizard.SyncSelect.CursorUpMove | src/wizard.rs:316-320 | the cursor moves up |
| Wizard.SyncSelect.CursorDownMove | src/wizard.rs:322-326 | the cursor moves down within the list |
| Wizard.SyncSelect.SelectedClients | src/wizard.rs:328-334 | the checked targets in list order; stated by Wizard.SelectedMembers and SelectedAppend |
| App.SatSub | src/app.rs:49 | `saturating_sub`: the difference, or 0 when it would be negative |
| App.Clamp | src/app.rs:48-50 | the refreshed selection is kept while on the list and is otherwise `len().saturating_sub(1)`: the last record, 0 when there are none |
| App.StdioIndices | src/app.rs:95-102 | the indices, increasing, of stdio records only |
| App.StdioIndicesComplete | src/app.rs:95-102 | every stdio record's index is among them |
| App.CheckedAll | src/app.rs:104-108 | check all marks exactly the stdio records as Checking |
| App.Launches | src/app.rs:95-107 | one probe per stdio index, with that index and a copy of its record |
| App.LaunchesSnoc | src/app.rs:104-107 | the probes are launched in index order |
| App.ApplyOne | src/app.rs:112-118 | applying a result keeps the number of records |
| App.ApplyHealth | src/app.rs:111-119 | applying the queue keeps the number of records |
| App.LastFor | src/app.rs:111-119 | the last result for an index, or none when the queue has none for it |
| App.ApplyHealthLastWins | src/app.rs:111-119 | each record gets the status and time of the last result addressed to it; records without a result, and results for indices out of range, change nothing |
| App.ApplyHealthKeepsRecords | src/app.rs:113-116 | polling changes only the health and check time of a record |
| App.Tick | src/app.rs:126-133 | a running timer counts down and the message disappears when it reaches zero; a stopped timer changes nothing |
| App.Ticks | src/app.rs:126-133 | `tick_status` applied k times; its meaning is stated by App.StatusLifetime |
| App.StatusLifetime | src/app.rs:121-133 | a message set for `n` frames is shown for `n - 1` ticks and gone at the `n`th |
| App.WithServer | src/app.rs:136-143 | at most one entry per record |
| App.WithServerMembers | src/app.rs:136-143 | a client is listed exactly when one of its records has the name |
| App.WithServerAppend | src/app.rs:136-143 | the clients come in record order |
| App.Without | src/app.rs:146-153 | exactly the listed clients that are not in the excluded set |
| App.WithoutAppend | src/app.rs:148-152 | the order of the writable list is kept |
| App.KindSet | src/app.rs:147 | a client is in the set exactly when it is in the list |
| App.WithoutServer | src/app.rs:146-153 | `clients_without_server`; its meaning is stated by App.SyncCandidates |
| App.SyncCandidates | src/app.rs:146-153 | a writable client is a sync target exactly when none of its records has the name |
| App.Record | src/app.rs:311-316 | a success counts one; a failure appends `<label>: <error>`; a panic stops the batch |
| App.RecordAccounts | src/app.rs:311-316 | recording one more client keeps the tally accounting for every client attempted |
| App.Batch | src/app.rs:311-316 | the loop over the clients as a function; its meaning is stated by App.BatchAccounts, BatchNext and PanicStops |
| App.BatchAccounts | src/app.rs:311-316 | without a panic, successes plus errors equal the number of clients, and each error is attributed to a client of the batch |
| App.BatchNext | src/app.rs:311-316 | the batch attempts the clients one at a time, each seeing the files the previous left |
| App.PanicStops | src/app.rs:311-316 | after a panic no further client is attempted and the files stay as they were |
| App.AddOne | src/app.rs:312 | one add is the add-server sequence for that client's path and key |
| App.AddToClients | src/app.rs:311-316 | the add loop produces the batch tally and files |
| App.RemoveOne | src/app.rs:391 | one removal is the remove-server sequence for that client, which never panics |
| App.RemoveFromClients | src/app.rs:383-397 | the remove loop produces the batch tally and files and never panics |
| App.NatToString | src/app.rs:322 | a count prints as a non-empty string of decimal digits; App.NatToStringValue gives their value |
| App.NatToStringValue | src/app.rs:322 | the printed digits denote the count, with a leading zero only for 0 |
| App.NatToStringInjective | src/app.rs:322 | distinct counts print differently |
| App.JoinWith | src/app.rs:326 | `Vec::join`; its meaning is stated by App.JoinWithSnoc |
| App.JoinWithSnoc | src/app.rs:326 | joining one more error appends the separator and that error |
| App.BatchStatus | src/app.rs:318-327 | with errors, `Errors: ` and the errors joined by `; `; otherwise `<verb> "<name>" <to/from> <n> client` with an `s` unless `n` is 1 |
| App.App.constructor | src/app.rs:28-44 | the app starts with a fresh discovery (records, errors and the clients owning a record), nothing selected or scrolled, no checks running and no status |
| App.App.Refresh | src/app.rs:46-52 | the result is rediscovered with its active clients; a selection past the end moves to the last record (0 when there are none); the scroll resets; nothing else changes |
| App.App.SelectedServer | src/app.rs:54-56 | there is a selected server exactly when the selection is on a record |
| App.App.ClientsWithServer | src/app.rs:136-143 | `clients_with_server` on the current records; stated by App.WithServerMembers and WithServerAppend |
| App.App.ClientsWithoutServer | src/app.rs:146-153 | `clients_without_server` on the current records; stated by App.SyncCandidates and WithoutAppend |
| App.App.MoveUp | src/app.rs:58-63 | the selection moves up, and the scroll resets when it moved |
| App.App.MoveDown | src/app.rs:65-70 | the selection moves down within the records, and the scroll resets when it moved |
| App.App.ScrollDetailUp | src/app.rs:72-74 | the detail scroll goes up, stopping at 0, and nothing else changes |
| App.App.ScrollDetailDown | src/app.rs:76-78 | the detail scroll goes down by one, and nothing else changes |
| App.App.CheckSelected | src/app.rs:80-92 | only a selected stdio record is marked Checking, counted and launched; otherwise nothing changes; errors, active clients, selection, scroll, status and overlay are kept |
| App.App.CheckAll | src/app.rs:94-109 | every stdio record is marked Checking, counted and launched in index order; errors, active clients, selection, scroll, status and overlay are kept |
| App.App.PollHealth | src/app.rs:111-119 | the whole queue is applied and the running count drops by its length, stopping at 0; errors, active clients, selection, scroll, status and overlay are kept |
| App.App.SetStatus | src/app.rs:121-124 | the message is shown for 15 frames, and nothing else changes |
| App.App.TickStatus | src/app.rs:126-133 | the status advances one tick, and nothing else changes |
| App.App.ServerToValue | src/app.rs:156-167 | a stdio server becomes its command, args and env (none when absent); any other server becomes `{}` |
| App.App.Conclude | src/app.rs:318-330 | the status is set, the result rediscovered with its active clients, the selection clamped and the scroll reset |
| App.App.AddAndReport | src/app.rs:311-330 | the batch runs over the clients; unless it panicked, the status reports it, the result is rediscovered with its active clients, the selection is clamped and the scroll reset; after a panic the dashboard is as it was |
| App.App.WizardValue | src/app.rs:302-305 | the value built from the wizard holds its command, the parsed args and the parsed env |
| App.App.ExecuteAdd | src/app.rs:297-331 | the trimmed name and the wizard's value go to every selected client; unless a panic stopped it, the status reports `Added` and the dashboard is rediscovered with the selection clamped; after a panic it is as it was |
| App.App.ExecuteRemove | src/app.rs:365-412 | the server is removed from every selected client without a panic, the status reports `Removed`, and the dashboard is rediscovered with the selection clamped |
| App.App.ExecuteSync | src/app.rs:437-468 | the stored value goes to every selected target; unless a panic stopped it, the status reports `Synced` and the dashboard is rediscovered with the selection clamped; after a panic it is as it was |

## Left out

- Process spawning, the stdin write of the `initialize` message, the reader thread, the channel, `recv_timeout` and the five-second deadline are left out. A probe is given as its spawn outcome, the sequence of reads, and whether the answer beat the deadline.
- The 8192-byte read buffer is left out: each read is one chunk of bytes of any length.
- `spawn_health_check` is left out: a launched probe is recorded in `App.launched` as index and record instead of being run on a thread.
- `std::str::from_utf8`, `serde_json::from_str`, `serde_json::to_string_pretty` and `String::from_utf8_lossy` are parameters. Their own behaviour (JSON syntax, pretty printing, UTF-8 validation) is not modelled.
- `ClientKind::servers_key`, `ClientKind::config_path` and `ClientKind::writable` are parameters. Their definitions are not part of this model; `Discovery.StandardLocations` fixes the scanned paths from `discover`.
- Home-directory lookup is left out: the home directory is a parameter.
- The `health` and `last_checked` fields of `McpServer` are read and written by src/app.rs and src/discovery.rs; src/types.rs as modelled declares no such fields, so the model adds them.
- `ClientKind::ClaudeCodePlugin` and `remove_plugin_server` (src/app.rs:375-392) are outside the modelled files. Removal treats every selected client through `remove_server`.
- Objects keep the member order of the file: an insert of a new key appends it. serde_json's default map sorts keys instead. The order of records, and which project entry first supplies a name during the Claude Code global scan, then follow key order rather than file order.
- The environment `HashMap` is an ordered list of entries with unique keys. Hash iteration order is not modelled.
- ConfigWriter.InsertServerIdempotent: excludes a flat `.mcp.json` server named `mcpServers`, because adding it changes the file's shape, as `ConfigWriter.InsertFlatNotIdempotent` shows.
- A serde_json `IndexMut` panic is modelled as a `Panicked` outcome that stops the batch. The unwinding of the whole program is not modelled.
- In-place vector updates (`servers[i].health = …`) are reassignments of the `seq` field.
- `usize` and `u8` arithmetic is unbounded. `checking_count += 1` and `scroll_offset += 1` are never shown to overflow.
- Event routing is left out: `handle_event`, `handle_normal`, `handle_add_wizard`, `handle_remove` and `handle_sync` (src/app.rs:172-435), the `Mode` enum, and `step_label` (src/wizard.rs:201-210). This includes `handle_sync`'s refusal to run with nothing selected (src/app.rs:427-430): `ExecuteSync` accepts any selection.
- Discovery.Discover: the six fixed scanner calls of `discover` are one loop over the fixed source list, with `ScanSource` choosing each scanner by client; the order and the scanners are those of src/discovery.rs:15-25.
- Ui.RowOf, Ui.Rows and Ui.Matrix: use the corrected `Truncate`, so where the source's `truncate(name, 20)` (src/ui.rs:254) panics on a name whose 19th byte is inside a character, the model draws the name cut at the last whole character instead; `Ui.MatrixNamePanics` shows such a name and `Ui.RowOfAgrees` shows that the cells agree wherever the source does not panic.
- `current_input` is `AddWizard.CurrentInput`, used by the contracts of `PushChar` and `PopChar` without a row of its own.
- The rendering widgets, colours, layout and the error overlay in src/ui.rs are left out; only the matrix height, `truncate` and the matrix table content are modelled.
- src/main.rs (terminal setup, the event loop, the editor launch) is not part of this model.
- Wizard.Selected: states only the length bound; its meaning is `Wizard.SelectedMembers` and `Wizard.SelectedAppend`.
- App.ApplyOne and App.ApplyHealth: state only that the number of records is kept; their meaning is `App.ApplyHealthLastWins`.

## Findings

| source | as written | input that shows it | evidently intended | confidence | as-written member | corrected member |
|---|---|---|---|---|---|---|
| src/ui.rs:323-329 | `truncate` compares the byte length with `max` and cuts at byte `max - 1`, which panics when that byte is inside a multi-byte character | a server name of ten `é` (20 bytes) in the server list, whose limit is 18 (src/ui.rs:85): byte 17 falls inside the ninth `é`; in the client matrix, whose limit is 20 (src/ui.rs:254), ten `é` and an `a` (21 bytes): byte 19 falls inside the tenth `é` | cut at the longest character prefix within `max - 1` bytes and append `…` | not executed | Ui.TruncateAsWritten, Ui.TruncatePanics, Ui.MatrixNamePanics | Ui.Truncate, Ui.TruncateSpec, Ui.TruncateAgrees |
