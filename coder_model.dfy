/** The values and pure rules of the `coder` background function
    (src/inngest/functions.ts): the stored entities, the history seeding rules,
    the historical file lookup, the completion sentinel, the router and its
    iteration budget, the post-processing fallbacks and the finaliser's choices. */
module CoderModel {
  import opened Common

  // ---------------------------------------------------------------------------
  // Stored entities

  datatype Role = USER | ASSISTANT
  datatype MessageType = RESULT | ERROR

  /** A file map: path to content (a fragment's or a staged row's `files` JSON). */
  type Files = map<string, string>

  datatype Fragment = Fragment(sandboxUrl: string, title: string, files: Files)

  /** A row of the message table; `createdAt` is the store's creation stamp. */
  datatype Message = Message(
    projectId: string,
    role: Role,
    kind: MessageType,
    content: string,
    createdAt: int,
    fragment: Option<Fragment>)

  /** A row of the staged-files table (`tempFiles`). */
  datatype TempFiles = TempFiles(projectId: string, toolRunId: string, files: Files, createdAt: int)

  /** A text message of the agent's conversation: role "assistant" or "user". */
  datatype AgentMessage = AgentMessage(role: string, content: string)

  /** One `{path, content}` entry of a tool's argument or result. */
  datatype FileEntry = FileEntry(path: string, content: string)

  /** Rows are kept in creation order: stamps strictly increase along the table. */
  ghost predicate MessagesAscending(ms: seq<Message>)
  {
    forall i, j :: 0 <= i < j < |ms| ==> ms[i].createdAt < ms[j].createdAt
  }

  ghost predicate RowsAscending(rows: seq<TempFiles>)
  {
    forall i, j :: 0 <= i < j < |rows| ==> rows[i].createdAt < rows[j].createdAt
  }

  // ---------------------------------------------------------------------------
  // History loading (get-previous-messages)

  /** The text every previously known file path is seeded with. */
  const FilePlaceholder: string :=
    "Call get-file-content-using-path-from-database tool to see the content of the required file"

  /** `findMany({where: {projectId}, orderBy: {createdAt: "asc"}})` over a table kept in creation order. */
  function ProjectMessages(store: seq<Message>, projectId: string): (r: seq<Message>)
    ensures forall m :: m in r <==> m in store && m.projectId == projectId
  {
    if |store| == 0 then []
    else
      var rest := ProjectMessages(store[..|store| - 1], projectId);
      var m := store[|store| - 1];
      assert forall x :: x in store <==> x in store[..|store| - 1] || x == m;
      if m.projectId == projectId then rest + [m] else rest
  }

  /** The query keeps the table's creation order. */
  lemma {:induction false} ProjectMessagesAscending(store: seq<Message>, projectId: string)
    requires MessagesAscending(store)
    ensures MessagesAscending(ProjectMessages(store, projectId))
  {
    if |store| > 0 {
      var init := store[..|store| - 1];
      ProjectMessagesAscending(init, projectId);
      var rest := ProjectMessages(init, projectId);
      var m := store[|store| - 1];
      if m.projectId == projectId {
        forall x | x in rest ensures x.createdAt < m.createdAt {
          var i :| 0 <= i < |init| && init[i] == x;
        }
        var r := rest + [m];
        forall i, j | 0 <= i < j < |r| ensures r[i].createdAt < r[j].createdAt {
          if j == |r| - 1 {
            assert r[i] in rest;
          } else {
            assert r[i] == rest[i] && r[j] == rest[j];
          }
        }
      }
    }
  }

  /** `message.role === "ASSISTANT" ? "assistant" : "user"`. */
  function AgentRole(role: Role): (r: string)
    ensures r == "assistant" <==> role == ASSISTANT
    ensures r == "user" <==> role == USER
  {
    assert "assistant"[0] != "user"[0];
    match role
    case ASSISTANT => "assistant"
    case USER => "user"
  }

  /** The numbering prefix of the message at index `i`. The loop variable of
      `for (const i in messages)` is the index as a STRING, so `${i + 1}` appends
      the character "1" to the decimal index instead of adding one. */
  function HistoryLabel(i: nat): (r: string)
    ensures |r| == |Decimal(i)| + 3
    ensures r[..|Decimal(i)|] == Decimal(i) && r[|Decimal(i)|..] == "1. "
  {
    Decimal(i) + "1. "
  }

  /** Different messages still get different labels. */
  lemma HistoryLabelsDistinct(i: nat, j: nat)
    requires i != j
    ensures HistoryLabel(i) != HistoryLabel(j)
  {
    var a, b := HistoryLabel(i), HistoryLabel(j);
    if a == b {
      assert Decimal(i) == a[..|a| - 3] == b[..|b| - 3] == Decimal(j);
      DecimalInjective(i, j);
    }
  }

  /** From the second message on, the label is the numeral of 10 * i + 1
      ("11. ", "21. ", ...), and the first message is labelled "01. ". */
  lemma HistoryLabelValue(i: nat)
    ensures i == 0 ==> HistoryLabel(i) == "01. "
    ensures i > 0 ==> HistoryLabel(i) == Decimal(10 * i + 1) + ". "
  {
    if i > 0 {
      assert (10 * i + 1) / 10 == i && (10 * i + 1) % 10 == 1;
    }
  }

  /** No message is ever labelled with its 1-based position "i + 1". */
  lemma HistoryLabelNeverPosition(i: nat)
    ensures HistoryLabel(i) != Decimal(i + 1) + ". "
  {
    HistoryLabelValue(i);
    if i == 0 {
      assert Decimal(1) == "1";
    } else if HistoryLabel(i) == Decimal(i + 1) + ". " {
      var a, b := Decimal(10 * i + 1) + ". ", Decimal(i + 1) + ". ";
      assert Decimal(10 * i + 1) == a[..|a| - 2] == b[..|b| - 2] == Decimal(i + 1);
      DecimalInjective(10 * i + 1, i + 1);
    }
  }

  /** The paths of a message's fragment (`Object.keys(message.fragment?.files || {})`). */
  function FragmentPaths(m: Message): set<string>
  {
    if m.fragment.Some? then m.fragment.value.files.Keys else {}
  }

  /** The union of the fragment paths of a message list. */
  function AllFragmentPaths(ms: seq<Message>): set<string>
  {
    if |ms| == 0 then {} else AllFragmentPaths(ms[..|ms| - 1]) + FragmentPaths(ms[|ms| - 1])
  }

  /** A path is seeded exactly when some earlier message's fragment holds it. */
  lemma {:induction false} AllFragmentPathsMember(ms: seq<Message>, p: string)
    ensures p in AllFragmentPaths(ms) <==> exists i :: 0 <= i < |ms| && p in FragmentPaths(ms[i])
  {
    if |ms| > 0 {
      var init := ms[..|ms| - 1];
      AllFragmentPathsMember(init, p);
      if exists i :: 0 <= i < |ms| && p in FragmentPaths(ms[i]) {
        var i :| 0 <= i < |ms| && p in FragmentPaths(ms[i]);
        if i < |ms| - 1 {
          assert ms[i] == init[i];
        }
      }
      if exists i :: 0 <= i < |init| && p in FragmentPaths(init[i]) {
        var i :| 0 <= i < |init| && p in FragmentPaths(init[i]);
        assert ms[i] == init[i];
      }
    }
  }

  /** The seeded file map: every earlier fragment path mapped to the placeholder. */
  function SeedFiles(ms: seq<Message>): (r: Files)
    ensures r.Keys == AllFragmentPaths(ms)
    ensures forall p :: p in r ==> r[p] == FilePlaceholder
  {
    map p | p in AllFragmentPaths(ms) :: FilePlaceholder
  }

  // ---------------------------------------------------------------------------
  // The historical lookup tool (get-file-content-using-path-from-database)

  /** What a tool handler hands back to the agent. `NoOutput` is `undefined`. */
  datatype ToolOutput =
    | TextOutput(text: string)
    | FilesOutput(files: Files)
    | ContentsOutput(entries: seq<FileEntry>)
    | NoOutput

  /** `findFirst({where: {projectId, role: "ASSISTANT"}, orderBy: {createdAt: "desc"}})`,
      searched from the end of a table kept in creation order. */
  function LatestAssistant(store: seq<Message>, projectId: string): (r: Option<Message>)
    ensures r.Some? ==> r.value in store && r.value.role == ASSISTANT && r.value.projectId == projectId
    ensures r.None? <==> forall m :: m in store ==> !(m.role == ASSISTANT && m.projectId == projectId)
  {
    if |store| == 0 then None
    else
      var m := store[|store| - 1];
      assert forall x :: x in store <==> x in store[..|store| - 1] || x == m;
      if m.role == ASSISTANT && m.projectId == projectId then Some(m)
      else LatestAssistant(store[..|store| - 1], projectId)
  }

  /** The message found is the newest assistant message of the project. */
  lemma {:induction false} LatestAssistantIsNewest(store: seq<Message>, projectId: string, m: Message)
    requires MessagesAscending(store)
    requires m in store && m.role == ASSISTANT && m.projectId == projectId
    ensures LatestAssistant(store, projectId).Some?
    ensures m.createdAt <= LatestAssistant(store, projectId).value.createdAt
  {
    var last := store[|store| - 1];
    if !(last.role == ASSISTANT && last.projectId == projectId) {
      var init := store[..|store| - 1];
      assert m in init;
      LatestAssistantIsNewest(init, projectId, m);
    } else {
      var i :| 0 <= i < |store| && store[i] == m;
      assert i < |store| - 1 ==> store[i].createdAt < last.createdAt;
    }
  }

  /** Only messages newer than the newest assistant message of the project could
      change the lookup: anything older is never consulted. */
  lemma {:induction false} LatestAssistantIgnoresOlder(older: seq<Message>, recent: seq<Message>, projectId: string)
    requires LatestAssistant(recent, projectId).Some?
    ensures LatestAssistant(older + recent, projectId) == LatestAssistant(recent, projectId)
  {
    var last := recent[|recent| - 1];
    assert (older + recent)[..|older + recent| - 1] == older + recent[..|recent| - 1];
    if !(last.role == ASSISTANT && last.projectId == projectId) {
      LatestAssistantIgnoresOlder(older, recent[..|recent| - 1], projectId);
    }
  }

  function ReadFileErrorText(filePath: string, error: string): string
  {
    "Error occurred while reading file " + filePath + ": " + error
  }

  /** The lookup handler: `storeError` is the exception the query throws, if any. */
  function GetFileContent(store: seq<Message>, projectId: string, filePath: string, storeError: Option<string>): (r: ToolOutput)
    ensures storeError.Some? ==> r == TextOutput(ReadFileErrorText(filePath, storeError.value))
    ensures storeError.None? ==>
      (r.TextOutput? <==>
        (LatestAssistant(store, projectId).Some?
         && filePath in FragmentPaths(LatestAssistant(store, projectId).value)))
    ensures storeError.None? && r.TextOutput? ==>
      r.text == LatestAssistant(store, projectId).value.fragment.value.files[filePath]
    ensures storeError.None? && !r.TextOutput? ==> r == NoOutput
  {
    if storeError.Some? then TextOutput(ReadFileErrorText(filePath, storeError.value))
    else
      match LatestAssistant(store, projectId)
      case None => NoOutput
      case Some(m) =>
        if m.fragment.Some? && filePath in m.fragment.value.files then TextOutput(m.fragment.value.files[filePath])
        else NoOutput
  }

  /** The lookup never falls back to older fragments: once a newer assistant
      message exists, adding older history changes nothing, even if an older
      fragment holds the path. */
  lemma GetFileContentIgnoresOlder(older: seq<Message>, recent: seq<Message>, projectId: string, filePath: string)
    requires LatestAssistant(recent, projectId).Some?
    ensures GetFileContent(older + recent, projectId, filePath, None) == GetFileContent(recent, projectId, filePath, None)
  {
    LatestAssistantIgnoresOlder(older, recent, projectId);
  }

  // ---------------------------------------------------------------------------
  // The terminal tool

  /** What a sandbox command does: the chunks it streams to the stdout and
      stderr callbacks, and whether `commands.run` returns or throws. */
  datatype CommandOutcome = Completed(stdout: string) | Threw(error: string)
  datatype CommandRun = CommandRun(stdoutChunks: seq<string>, stderrChunks: seq<string>, outcome: CommandOutcome)

  function CommandErrorText(error: string, stdout: string, stderr: string): string
  {
    "Error occurred while executing command: " + error + "\nstdOut: " + stdout + "\nstderror: " + stderr
  }

  /** The terminal handler's result: the command's stdout, or the error text with
      everything buffered from the callbacks before the failure. */
  function TerminalResult(run: CommandRun): (r: string)
    ensures run.outcome.Completed? ==> r == run.outcome.stdout
    ensures run.outcome.Threw? ==>
      r == CommandErrorText(run.outcome.error, Concat(run.stdoutChunks), Concat(run.stderrChunks))
  {
    match run.outcome
    case Completed(out) => out
    case Threw(e) => CommandErrorText(e, Concat(run.stdoutChunks), Concat(run.stderrChunks))
  }

  /** A failed command hands the agent the exception and both buffered streams. */
  lemma TerminalErrorKeepsOutput(run: CommandRun)
    requires run.outcome.Threw?
    ensures Contains(TerminalResult(run), run.outcome.error)
    ensures Contains(TerminalResult(run), Concat(run.stdoutChunks))
    ensures Contains(TerminalResult(run), Concat(run.stderrChunks))
  {
    var e, o, r := run.outcome.error, Concat(run.stdoutChunks), Concat(run.stderrChunks);
    var pre := "Error occurred while executing command: ";
    assert TerminalResult(run) == pre + e + ("\nstdOut: " + o + "\nstderror: " + r);
    ContainsMiddle(pre, e, "\nstdOut: " + o + "\nstderror: " + r);
    assert TerminalResult(run) == (pre + e + "\nstdOut: ") + o + ("\nstderror: " + r);
    ContainsMiddle(pre + e + "\nstdOut: ", o, "\nstderror: " + r);
    assert TerminalResult(run) == (pre + e + "\nstdOut: " + o + "\nstderror: ") + r + "";
    ContainsMiddle(pre + e + "\nstdOut: " + o + "\nstderror: ", r, "");
  }

  // ---------------------------------------------------------------------------
  // The createOrUpdateFiles tool

  /** Where a batch write fails: connecting to the sandbox throws before any
      write, the sandbox write of entry `at` throws, or the staged-row insert
      throws after every write succeeded. */
  datatype WriteFault =
    | NoFault
    | ConnectThrows(error: string)
    | WriteThrows(at: nat, error: string)
    | StagingThrows(error: string)

  predicate BatchFails(batch: seq<FileEntry>, fault: WriteFault)
  {
    fault.ConnectThrows? || fault.StagingThrows? || (fault.WriteThrows? && fault.at < |batch|)
  }

  /** How many entries of the batch reach the sandbox and the state map. */
  function WrittenCount(batch: seq<FileEntry>, fault: WriteFault): (n: nat)
    ensures n <= |batch|
    ensures !BatchFails(batch, fault) || fault.StagingThrows? ==> n == |batch|
    ensures fault.ConnectThrows? ==> n == 0
    ensures fault.WriteThrows? && fault.at < |batch| ==> n == fault.at
  {
    if fault.ConnectThrows? then 0
    else if fault.WriteThrows? && fault.at < |batch| then fault.at
    else |batch|
  }

  function WriteErrorText(error: string): string
  {
    "Error : " + error
  }

  /** The map after assigning the entries one by one, in order. */
  function Overwrite(m: Files, entries: seq<FileEntry>): (r: Files)
    ensures m.Keys <= r.Keys
    ensures forall j :: 0 <= j < |entries| ==> entries[j].path in r
    ensures |entries| > 0 ==> r[Last(entries).path] == Last(entries).content
  {
    if |entries| == 0 then m
    else Overwrite(m, entries[..|entries| - 1])[entries[|entries| - 1].path := entries[|entries| - 1].content]
  }

  function EntryPaths(entries: seq<FileEntry>): set<string>
  {
    set i | 0 <= i < |entries| :: entries[i].path
  }

  /** No key is ever removed; the batch's paths are added. */
  lemma {:induction false} OverwriteKeys(m: Files, entries: seq<FileEntry>)
    ensures Overwrite(m, entries).Keys == m.Keys + EntryPaths(entries)
  {
    if |entries| > 0 {
      var init := entries[..|entries| - 1];
      OverwriteKeys(m, init);
      assert EntryPaths(entries) == EntryPaths(init) + {entries[|entries| - 1].path} by {
        forall p | p in EntryPaths(entries) ensures p in EntryPaths(init) + {entries[|entries| - 1].path} {
          var i :| 0 <= i < |entries| && entries[i].path == p;
          if i < |entries| - 1 {
            assert init[i] == entries[i];
          }
        }
        forall p | p in EntryPaths(init) ensures p in EntryPaths(entries) {
          var i :| 0 <= i < |init| && init[i].path == p;
          assert entries[i] == init[i];
        }
      }
    }
  }

  /** For a repeated path the last entry wins. */
  lemma {:induction false} OverwriteLastWins(m: Files, entries: seq<FileEntry>, i: nat)
    requires i < |entries|
    requires forall j :: i < j < |entries| ==> entries[j].path != entries[i].path
    ensures entries[i].path in Overwrite(m, entries)
    ensures Overwrite(m, entries)[entries[i].path] == entries[i].content
  {
    if i < |entries| - 1 {
      var init := entries[..|entries| - 1];
      assert init[i] == entries[i];
      OverwriteLastWins(m, init, i);
    }
  }

  /** A path the batch does not mention keeps its old value (or stays absent):
      in particular a seeded placeholder survives into the staged row. */
  lemma {:induction false} OverwriteUntouched(m: Files, entries: seq<FileEntry>, p: string)
    requires forall j :: 0 <= j < |entries| ==> entries[j].path != p
    ensures p in Overwrite(m, entries) <==> p in m
    ensures p in m ==> Overwrite(m, entries)[p] == m[p]
  {
    if |entries| > 0 {
      OverwriteUntouched(m, entries[..|entries| - 1], p);
    }
  }

  /** Overwriting with a batch in two pieces is overwriting with the whole batch. */
  lemma {:induction false} OverwriteAppend(m: Files, a: seq<FileEntry>, b: seq<FileEntry>)
    ensures Overwrite(Overwrite(m, a), b) == Overwrite(m, a + b)
  {
    if |b| > 0 {
      OverwriteAppend(m, a, b[..|b| - 1]);
      assert (a + b)[..|a + b| - 1] == a + b[..|b| - 1];
    } else {
      assert a + b == a;
    }
  }

  // ---------------------------------------------------------------------------
  // The readFiles tool

  /** A sandbox read of `p` succeeds when the file exists and the transport does
      not fail; `failing` maps the paths whose read throws to the exception text. */
  predicate Readable(sandbox: Files, failing: map<string, string>, p: string)
  {
    p in sandbox && p !in failing
  }

  /** The exception a failed read throws. */
  function ReadException(failing: map<string, string>, p: string): string
  {
    if p in failing then failing[p] else "file not found: " + p
  }

  function ReadFilesErrorText(error: string): string
  {
    "Error occurred while reading files: " + error
  }

  /** Index of the first path whose read throws, or `|paths|` if none does. */
  function FirstUnreadable(sandbox: Files, failing: map<string, string>, paths: seq<string>): (k: nat)
    ensures k <= |paths|
    ensures forall j :: 0 <= j < k ==> Readable(sandbox, failing, paths[j])
    ensures k < |paths| ==> !Readable(sandbox, failing, paths[k])
  {
    if |paths| == 0 then 0
    else if !Readable(sandbox, failing, paths[0]) then 0
    else 1 + FirstUnreadable(sandbox, failing, paths[1..])
  }

  /** The readFiles handler's result; `connectError` is the exception thrown
      when connecting to the sandbox, before any path is read. */
  function ReadFilesResult(sandbox: Files, connectError: Option<string>, failing: map<string, string>, paths: seq<string>): (r: ToolOutput)
    ensures r.ContentsOutput? <==>
      connectError.None? && forall j :: 0 <= j < |paths| ==> Readable(sandbox, failing, paths[j])
    ensures r.ContentsOutput? ==>
      |r.entries| == |paths|
      && forall j :: 0 <= j < |paths| ==> r.entries[j] == FileEntry(paths[j], sandbox[paths[j]])
    ensures connectError.Some? ==> r == TextOutput(ReadFilesErrorText(connectError.value))
    ensures connectError.None? && !r.ContentsOutput? ==>
      var k := FirstUnreadable(sandbox, failing, paths);
      k < |paths| && r == TextOutput(ReadFilesErrorText(ReadException(failing, paths[k])))
  {
    var k := FirstUnreadable(sandbox, failing, paths);
    if connectError.Some? then TextOutput(ReadFilesErrorText(connectError.value))
    else if k < |paths| then TextOutput(ReadFilesErrorText(ReadException(failing, paths[k])))
    else ContentsOutput(seq(|paths|, j requires 0 <= j < |paths| => FileEntry(paths[j], sandbox[paths[j]])))
  }

  /** One failing read spoils the whole batch, and reading stops there: paths
      after the first failure are never consulted. */
  lemma ReadFilesOneFailureSpoilsAll(sandbox: Files, failing: map<string, string>, paths: seq<string>, more: seq<string>, j: nat)
    requires j < |paths| && !Readable(sandbox, failing, paths[j])
    ensures ReadFilesResult(sandbox, None, failing, paths).TextOutput?
    ensures ReadFilesResult(sandbox, None, failing, paths + more) == ReadFilesResult(sandbox, None, failing, paths)
  {
    FirstUnreadablePrefix(sandbox, failing, paths, more);
    assert (paths + more)[FirstUnreadable(sandbox, failing, paths)] == paths[FirstUnreadable(sandbox, failing, paths)];
  }

  lemma {:induction false} FirstUnreadablePrefix(sandbox: Files, failing: map<string, string>, a: seq<string>, b: seq<string>)
    requires FirstUnreadable(sandbox, failing, a) < |a|
    ensures FirstUnreadable(sandbox, failing, a + b) == FirstUnreadable(sandbox, failing, a)
  {
    if Readable(sandbox, failing, a[0]) {
      assert (a + b)[1..] == a[1..] + b;
      FirstUnreadablePrefix(sandbox, failing, a[1..], b);
    }
  }

  // ---------------------------------------------------------------------------
  // The completion sentinel, the router and the iteration budget

  const SummaryTag: string := "<task_summary"
  const MaxIter: nat := 15

  /** The `onResponse` hook: the summary after a response whose last assistant
      text is `text` (`None` when the response has none). */
  function OnResponse(summary: string, text: Option<string>): (r: string)
    ensures text.Some? && Contains(text.value, SummaryTag) ==> r == text.value
    ensures !(text.Some? && Contains(text.value, SummaryTag)) ==> r == summary
  {
    // `text.value != ""` mirrors the hook's truthiness test; a tagged text is never
    // empty (TaggedTextNonEmpty), so the test never changes the result
    if text.Some? && text.value != "" && Contains(text.value, SummaryTag) then text.value else summary
  }

  /** A tagged text can never be empty, so recording it always stops the router. */
  lemma TaggedTextNonEmpty(text: string)
    requires Contains(text, SummaryTag)
    ensures text != ""
  {
    ContainsAt(text, SummaryTag);
  }

  datatype AgentName = CodeAgent

  /** The router: stop (`None`) once a summary is recorded, otherwise run the code agent. */
  function Route(summary: string): (r: Option<AgentName>)
    ensures r.None? <==> summary != ""
    ensures r.Some? ==> r.value == CodeAgent
  {
    if summary != "" then None else Some(CodeAgent)
  }

  /** A scripted turn of the coding agent: its last assistant text, if any,
      and the tool calls it makes, in order. */
  datatype Turn<Call> = Turn(text: Option<string>, calls: seq<Call>)

  /** The turn the agent produces at index `k`; past the end of the script it
      answers with nothing. */
  function TurnAt<Call>(script: seq<Turn<Call>>, k: nat): Turn<Call>
  {
    if k < |script| then script[k] else Turn(None, [])
  }

  predicate Tagged<Call>(t: Turn<Call>)
  {
    t.text.Some? && Contains(t.text.value, SummaryTag)
  }

  /** The number of turns the network runs from turn `k` with the given summary. */
  function TurnsFrom<Call>(script: seq<Turn<Call>>, k: nat, summary: string): (r: nat)
    ensures k <= MaxIter ==> r <= MaxIter - k
    ensures summary != "" ==> r == 0
    decreases MaxIter - k
  {
    if k >= MaxIter || Route(summary).None? then 0
    else 1 + TurnsFrom(script, k + 1, OnResponse(summary, TurnAt(script, k).text))
  }

  /** The summary when the network stops, starting from turn `k`. */
  function SummaryFrom<Call>(script: seq<Turn<Call>>, k: nat, summary: string): (r: string)
    ensures summary != "" ==> r == summary
    ensures r != summary ==>
      exists j :: k <= j < MaxIter && Tagged(TurnAt(script, j)) && TurnAt(script, j).text.value == r
    decreases MaxIter - k
  {
    if k >= MaxIter || Route(summary).None? then summary
    else SummaryFrom(script, k + 1, OnResponse(summary, TurnAt(script, k).text))
  }

  /** If turn `n - 1` is the first tagged turn and `n` is within the budget,
      exactly `n` turns run and the summary is that turn's text. */
  lemma {:induction false} StopsAtFirstTag<Call>(script: seq<Turn<Call>>, n: nat, k: nat)
    requires 1 <= n <= MaxIter && k < n
    requires Tagged(TurnAt(script, n - 1))
    requires forall j :: 0 <= j < n - 1 ==> !Tagged(TurnAt(script, j))
    ensures TurnsFrom(script, k, "") == n - k
    ensures SummaryFrom(script, k, "") == TurnAt(script, n - 1).text.value
    decreases n - k
  {
    var s := OnResponse("", TurnAt(script, k).text);
    if k == n - 1 {
      TaggedTextNonEmpty(s);
    } else {
      StopsAtFirstTag(script, n, k + 1);
    }
  }

  /** If no turn within the budget is tagged, all `MaxIter` turns run and the
      summary stays empty. */
  lemma {:induction false} ExhaustsBudget<Call>(script: seq<Turn<Call>>, k: nat)
    requires k <= MaxIter
    requires forall j :: 0 <= j < MaxIter ==> !Tagged(TurnAt(script, j))
    ensures TurnsFrom(script, k, "") == MaxIter - k
    ensures SummaryFrom(script, k, "") == ""
    decreases MaxIter - k
  {
    if k < MaxIter {
      ExhaustsBudget(script, k + 1);
    }
  }

  /** Whatever the script, the network runs at most `MaxIter` turns, at least one
      when it starts without a summary, and it stops early only with a tagged summary. */
  lemma {:induction false} TurnsBounded<Call>(script: seq<Turn<Call>>, k: nat, summary: string)
    requires k <= MaxIter
    requires summary == "" || Contains(summary, SummaryTag)
    ensures TurnsFrom(script, k, summary) <= MaxIter - k
    ensures k < MaxIter && summary == "" ==> TurnsFrom(script, k, summary) >= 1
    ensures var s := SummaryFrom(script, k, summary); s == "" || Contains(s, SummaryTag)
    ensures k + TurnsFrom(script, k, summary) < MaxIter ==> SummaryFrom(script, k, summary) != ""
    decreases MaxIter - k
  {
    if k < MaxIter && Route(summary).Some? {
      TurnsBounded(script, k + 1, OnResponse(summary, TurnAt(script, k).text));
    }
  }

  // ---------------------------------------------------------------------------
  // Post-processing: title and response with fallbacks

  /** A text message's content: a plain string or an array of parts. */
  datatype Content = Plain(text: string) | Parts(parts: seq<string>)

  /** One message of a generator's output. */
  datatype OutputMessage = TextMessage(content: Content) | ToolCallMessage | ToolResultMessage

  const TitleFallback: string := "Fragment"
  const ResponseFallback: string := "Here You Go!!"

  /** The shared shape of `generateFragmentTitle` and `generateResponse`. */
  function TextOrFallback(output: seq<OutputMessage>, fallback: string): (r: string)
    ensures |output| == 0 || !output[0].TextMessage? ==> r == fallback
    ensures |output| > 0 && output[0].TextMessage? && output[0].content.Parts? ==>
      r == Concat(output[0].content.parts)
    ensures |output| > 0 && output[0].TextMessage? && output[0].content.Plain? ==>
      r == if output[0].content.text == "" then fallback else output[0].content.text
  {
    if |output| == 0 || !output[0].TextMessage? then fallback
    else match output[0].content
      case Parts(ps) => Concat(ps)
      case Plain(t) => if t == "" then fallback else t
  }

  function GenerateFragmentTitle(output: seq<OutputMessage>): (r: string)
    ensures (|output| == 0 || !output[0].TextMessage?) ==> r == TitleFallback
    ensures |output| > 0 && output[0] == TextMessage(Plain("")) ==> r == TitleFallback
  {
    TextOrFallback(output, TitleFallback)
  }

  function GenerateResponse(output: seq<OutputMessage>): (r: string)
    ensures (|output| == 0 || !output[0].TextMessage?) ==> r == ResponseFallback
    ensures |output| > 0 && output[0] == TextMessage(Plain("")) ==> r == ResponseFallback
  {
    TextOrFallback(output, ResponseFallback)
  }

  /** The only way to get an empty title or response is a first message whose
      content is an array of empty parts (or no parts): arrays get no fallback. */
  lemma TextOrFallbackEmpty(output: seq<OutputMessage>, fallback: string)
    requires fallback != ""
    ensures TextOrFallback(output, fallback) == "" <==>
      (|output| > 0 && output[0].TextMessage? && output[0].content.Parts?
       && forall i :: 0 <= i < |output[0].content.parts| ==> output[0].content.parts[i] == "")
  {
    if |output| > 0 && output[0].TextMessage? && output[0].content.Parts? {
      ConcatEmpty(output[0].content.parts);
    }
  }

  /** A non-empty plain text is passed through unchanged, whatever the fallback. */
  lemma TextOrFallbackPlain(t: string, rest: seq<OutputMessage>, fallback: string)
    requires t != ""
    ensures TextOrFallback([TextMessage(Plain(t))] + rest, fallback) == t
  {
  }

  // ---------------------------------------------------------------------------
  // The finaliser's pure parts

  const ErrorContent: string := "Error occurred while processing request. Please try again"

  /** The preview address for the host the sandbox exposes on port 3000. */
  function SandboxUrl(host: string): (r: string)
    ensures |r| == |host| + 8 && r[8..] == host && r[..8] == "https://"
  {
    "https://" + host
  }

  /** `findFirst({where: {projectId}, orderBy: {createdAt: "desc"}})` on the staged
      table, searched from the end of a table kept in creation order. */
  function LatestStaged(rows: seq<TempFiles>, projectId: string): (r: Option<TempFiles>)
    ensures r.Some? ==> r.value in rows && r.value.projectId == projectId
    ensures r.None? <==> forall x :: x in rows ==> x.projectId != projectId
  {
    if |rows| == 0 then None
    else
      var x := rows[|rows| - 1];
      assert forall y :: y in rows <==> y in rows[..|rows| - 1] || y == x;
      if x.projectId == projectId then Some(x) else LatestStaged(rows[..|rows| - 1], projectId)
  }

  /** The row found is the newest staged row of the project. */
  lemma {:induction false} LatestStagedIsNewest(rows: seq<TempFiles>, projectId: string, x: TempFiles)
    requires RowsAscending(rows)
    requires x in rows && x.projectId == projectId
    ensures LatestStaged(rows, projectId).Some?
    ensures x.createdAt <= LatestStaged(rows, projectId).value.createdAt
  {
    var last := rows[|rows| - 1];
    if last.projectId != projectId {
      var init := rows[..|rows| - 1];
      assert x in init;
      LatestStagedIsNewest(init, projectId, x);
    } else {
      var i :| 0 <= i < |rows| && rows[i] == x;
      assert i < |rows| - 1 ==> rows[i].createdAt < last.createdAt;
    }
  }

  /** `latestTempFile?.files || {}`: the fragment's files. */
  function StagedFiles(rows: seq<TempFiles>, projectId: string): (r: Files)
    ensures LatestStaged(rows, projectId).None? ==> r == map[]
    ensures LatestStaged(rows, projectId).Some? ==> r == LatestStaged(rows, projectId).value.files
  {
    match LatestStaged(rows, projectId)
    case None => map[]
    case Some(x) => x.files
  }

  /** The table after `deleteMany({where: {projectId}})`. */
  function DeleteProjectRows(rows: seq<TempFiles>, projectId: string): (r: seq<TempFiles>)
    ensures forall x :: x in r <==> x in rows && x.projectId != projectId
    ensures |r| <= |rows|
  {
    if |rows| == 0 then []
    else
      var rest := DeleteProjectRows(rows[1..], projectId);
      assert forall y :: y in rows <==> y == rows[0] || y in rows[1..];
      if rows[0].projectId == projectId then rest else [rows[0]] + rest
  }

  /** Deleting keeps the remaining rows in creation order. */
  lemma {:induction false} DeleteKeepsAscending(rows: seq<TempFiles>, projectId: string)
    requires RowsAscending(rows)
    ensures RowsAscending(DeleteProjectRows(rows, projectId))
  {
    if |rows| > 0 {
      var tail := rows[1..];
      assert RowsAscending(tail) by {
        forall i, j | 0 <= i < j < |tail| ensures tail[i].createdAt < tail[j].createdAt {
          assert tail[i] == rows[i + 1] && tail[j] == rows[j + 1];
        }
      }
      DeleteKeepsAscending(tail, projectId);
      if rows[0].projectId != projectId {
        FirstBeforeRest(rows, DeleteProjectRows(tail, projectId));
      }
    }
  }

  /** Putting the table's first row before rows that come from its tail keeps the order. */
  lemma FirstBeforeRest(rows: seq<TempFiles>, rest: seq<TempFiles>)
    requires |rows| > 0 && RowsAscending(rows) && RowsAscending(rest)
    requires forall y :: y in rest ==> y in rows[1..]
    ensures RowsAscending([rows[0]] + rest)
  {
    forall y | y in rest ensures rows[0].createdAt < y.createdAt {
      var i :| 0 <= i < |rows[1..]| && rows[1..][i] == y;
      assert rows[i + 1] == y;
    }
    var r := [rows[0]] + rest;
    forall i, j | 0 <= i < j < |r| ensures r[i].createdAt < r[j].createdAt {
      if i == 0 {
        assert r[j] == rest[j - 1] && r[j] in rest;
      } else {
        assert r[i] == rest[i - 1] && r[j] == rest[j - 1];
      }
    }
  }
}
