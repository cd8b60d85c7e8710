/** The stateful side of the `coder` background function (src/inngest/functions.ts):
    the message and staged-files tables, the sandbox's file system and the agent
    state (`summary`, `files`) held by one run, and the handlers and steps that
    update them in order. */
module CoderRun {
  import opened Common
  import opened CoderModel

  /** A tool call made by the coding agent, with what its foreign calls do. */
  datatype ToolCall =
    | Terminal(command: string, run: CommandRun)
    | CreateOrUpdateFiles(batch: seq<FileEntry>, fault: WriteFault, toolRunId: string)
    | ReadFiles(paths: seq<string>, connectError: Option<string>, failing: map<string, string>)
    | GetFileContentFromDatabase(filePath: string, storeError: Option<string>)

  /** The value the function returns. */
  datatype RunResult = RunResult(url: string, title: string, files: Files, summary: string)

  // ---------------------------------------------------------------------------
  // What the tool calls do, as functions of the state they act on

  /** What the tool calls act on: the agent state's files, the sandbox's file
      system, the staged-files table and the stamp of the next stored row. */
  datatype ToolState = ToolState(files: Files, sandbox: Files, tempFiles: seq<TempFiles>, clock: int)

  /** The entries a call writes, to the sandbox and (through the alias) to the
      agent state alike. */
  function WrittenBy(call: ToolCall): seq<FileEntry>
  {
    match call
    case CreateOrUpdateFiles(batch, fault, _) => batch[..WrittenCount(batch, fault)]
    case _ => []
  }

  /** The call stages a row: a createOrUpdateFiles call whose whole batch is
      written and whose row insert succeeds. */
  predicate Stages(call: ToolCall)
  {
    call.CreateOrUpdateFiles? && !BatchFails(call.batch, call.fault)
  }

  /** The state after one tool call of `projectId`'s run. */
  function AfterCall(projectId: string, s: ToolState, call: ToolCall): ToolState
  {
    var files := Overwrite(s.files, WrittenBy(call));
    var sandbox := Overwrite(s.sandbox, WrittenBy(call));
    if Stages(call) then
      ToolState(files, sandbox, s.tempFiles + [TempFiles(projectId, call.toolRunId, files, s.clock)], s.clock + 1)
    else ToolState(files, sandbox, s.tempFiles, s.clock)
  }

  /** The output a tool call hands back to the agent from state `s`. */
  function CallOutput(projectId: string, messages: seq<Message>, s: ToolState, call: ToolCall): ToolOutput
  {
    match call
    case Terminal(_, run) => TextOutput(TerminalResult(run))
    case CreateOrUpdateFiles(batch, fault, _) =>
      if BatchFails(batch, fault) then TextOutput(WriteErrorText(fault.error))
      else FilesOutput(AfterCall(projectId, s, call).files)
    case ReadFiles(paths, connectError, failing) => ReadFilesResult(s.sandbox, connectError, failing, paths)
    case GetFileContentFromDatabase(filePath, storeError) => GetFileContent(messages, projectId, filePath, storeError)
  }

  /** The state after a sequence of tool calls, run in order. */
  function AfterCalls(projectId: string, s: ToolState, calls: seq<ToolCall>): ToolState
  {
    if |calls| == 0 then s
    else AfterCall(projectId, AfterCalls(projectId, s, calls[..|calls| - 1]), Last(calls))
  }

  /** The outputs a sequence of tool calls hands back, in order, each computed
      from the state the calls before it left. */
  function CallOutputs(projectId: string, messages: seq<Message>, s: ToolState, calls: seq<ToolCall>): (r: seq<ToolOutput>)
    ensures |r| == |calls|
  {
    if |calls| == 0 then []
    else
      var init := calls[..|calls| - 1];
      CallOutputs(projectId, messages, s, init) + [CallOutput(projectId, messages, AfterCalls(projectId, s, init), Last(calls))]
  }

  /** Output `i` is what call `i` hands back from the state the calls before it left. */
  lemma {:induction false} CallOutputsAt(projectId: string, messages: seq<Message>, s: ToolState, calls: seq<ToolCall>)
    ensures forall i :: 0 <= i < |calls| ==>
      CallOutputs(projectId, messages, s, calls)[i] == CallOutput(projectId, messages, AfterCalls(projectId, s, calls[..i]), calls[i])
  {
    if |calls| > 0 {
      var init := calls[..|calls| - 1];
      CallOutputsAt(projectId, messages, s, init);
      forall i | 0 <= i < |calls|
        ensures CallOutputs(projectId, messages, s, calls)[i] == CallOutput(projectId, messages, AfterCalls(projectId, s, calls[..i]), calls[i])
      {
        if i < |calls| - 1 {
          assert calls[..i] == init[..i];
        }
      }
    }
  }

  /** The tool calls the network makes from turn `k` with the given summary, in
      order: the calls of every turn it runs (as `TurnsFrom` counts them). */
  function NetworkCalls(script: seq<Turn<ToolCall>>, k: nat, summary: string): seq<ToolCall>
    decreases MaxIter - k
  {
    if k >= MaxIter || Route(summary).None? then []
    else TurnAt(script, k).calls + NetworkCalls(script, k + 1, OnResponse(summary, TurnAt(script, k).text))
  }

  /** Running two call sequences one after the other is running their concatenation. */
  lemma {:induction false} AfterCallsAppend(projectId: string, s: ToolState, a: seq<ToolCall>, b: seq<ToolCall>)
    ensures AfterCalls(projectId, AfterCalls(projectId, s, a), b) == AfterCalls(projectId, s, a + b)
  {
    if |b| == 0 {
      assert a + b == a;
    } else {
      AfterCallsAppend(projectId, s, a, b[..|b| - 1]);
      assert (a + b)[..|a + b| - 1] == a + b[..|b| - 1];
    }
  }

  /** Every entry written by a call sequence, in order. */
  function WrittenAll(calls: seq<ToolCall>): seq<FileEntry>
  {
    if |calls| == 0 then [] else WrittenAll(calls[..|calls| - 1]) + WrittenBy(Last(calls))
  }

  /** After any call sequence, the agent state's files and the sandbox are the
      starting maps overwritten with every entry written, in order; the staged
      table only grows at its end. */
  lemma {:induction false} FilesAfterCalls(projectId: string, s: ToolState, calls: seq<ToolCall>)
    ensures AfterCalls(projectId, s, calls).files == Overwrite(s.files, WrittenAll(calls))
    ensures AfterCalls(projectId, s, calls).sandbox == Overwrite(s.sandbox, WrittenAll(calls))
    ensures s.tempFiles <= AfterCalls(projectId, s, calls).tempFiles
  {
    if |calls| > 0 {
      var init := calls[..|calls| - 1];
      FilesAfterCalls(projectId, s, init);
      OverwriteAppend(s.files, WrittenAll(init), WrittenBy(Last(calls)));
      OverwriteAppend(s.sandbox, WrittenAll(init), WrittenBy(Last(calls)));
    }
  }

  /** The last createOrUpdateFiles call of the sequence staged its row. */
  predicate LastWriteStaged(calls: seq<ToolCall>)
  {
    |calls| > 0 &&
    if Last(calls).CreateOrUpdateFiles? then Stages(Last(calls)) else LastWriteStaged(calls[..|calls| - 1])
  }

  /** When the last createOrUpdateFiles call staged its row, the newest staged row
      of the project holds exactly the agent state's files: what the fragment
      receives is every entry written, placeholders not overwritten included. */
  lemma {:induction false} FragmentIsLastWrite(projectId: string, s: ToolState, calls: seq<ToolCall>)
    requires LastWriteStaged(calls)
    ensures StagedFiles(AfterCalls(projectId, s, calls).tempFiles, projectId) == AfterCalls(projectId, s, calls).files
    ensures AfterCalls(projectId, s, calls).files == Overwrite(s.files, WrittenAll(calls))
  {
    FilesAfterCalls(projectId, s, calls);
    var before := AfterCalls(projectId, s, calls[..|calls| - 1]);
    if !Last(calls).CreateOrUpdateFiles? {
      FragmentIsLastWrite(projectId, s, calls[..|calls| - 1]);
      assert AfterCall(projectId, before, Last(calls)) == before;
    }
  }

  /** A sequence with no staging call leaves the staged table as it was. */
  lemma {:induction false} NoStagingKeepsRows(projectId: string, s: ToolState, calls: seq<ToolCall>)
    requires forall i :: 0 <= i < |calls| ==> !Stages(calls[i])
    ensures AfterCalls(projectId, s, calls).tempFiles == s.tempFiles
    ensures AfterCalls(projectId, s, calls).clock == s.clock
  {
    if |calls| > 0 {
      NoStagingKeepsRows(projectId, s, calls[..|calls| - 1]);
    }
  }

  /** The write loop of the createOrUpdateFiles handler, once connected: each
      entry is written to the sandbox and to the state map in turn, until the
      write the fault names throws. */
  method WriteBatch(files: Files, sandbox: Files, batch: seq<FileEntry>, fault: WriteFault)
    returns (written: Files, box: Files)
    requires !fault.ConnectThrows?
    ensures written == Overwrite(files, batch[..WrittenCount(batch, fault)])
    ensures box == Overwrite(sandbox, batch[..WrittenCount(batch, fault)])
  {
    written, box := files, sandbox;
    var i := 0;
    while i < |batch|
      invariant 0 <= i <= WrittenCount(batch, fault)
      invariant written == Overwrite(files, batch[..i])
      invariant box == Overwrite(sandbox, batch[..i])
    {
      if fault.WriteThrows? && fault.at == i {
        break;
      }
      assert batch[..i + 1][..i] == batch[..i];
      box := box[batch[i].path := batch[i].content];
      written := written[batch[i].path := batch[i].content];
      i := i + 1;
    }
    assert batch[..i] == batch[..WrittenCount(batch, fault)];
  }

  /** The rows staged by one run: no path ever disappears from one row to the next. */
  ghost predicate StagingMonotone(rows: seq<TempFiles>)
  {
    forall i, j :: 0 <= i < j < |rows| ==> rows[i].files.Keys <= rows[j].files.Keys
  }

  /** The inner loop of get-previous-messages: every path of one fragment is
      mapped to the placeholder, in whatever order the keys come. */
  method MarkPaths(files: Files, paths: set<string>) returns (r: Files)
    ensures r.Keys == files.Keys + paths
    ensures forall p :: p in r ==> r[p] == if p in paths then FilePlaceholder else files[p]
  {
    r := files;
    var rest := paths;
    while rest != {}
      invariant rest <= paths
      invariant r.Keys == files.Keys + (paths - rest)
      invariant forall p :: p in r ==> r[p] == if p in paths - rest then FilePlaceholder else files[p]
      decreases rest
    {
      var p :| p in rest;
      r := r[p := FilePlaceholder];
      rest := rest - {p};
    }
  }

  /** The get-previous-messages step: number and role-map every earlier message
      and collect every earlier fragment path with the placeholder text. */
  method LoadPreviousMessages(messages: seq<Message>) returns (history: seq<AgentMessage>, files: Files)
    ensures |history| == |messages|
    ensures forall i :: 0 <= i < |messages| ==>
      history[i] == AgentMessage(AgentRole(messages[i].role), HistoryLabel(i) + messages[i].content)
    ensures files == SeedFiles(messages)
  {
    history, files := [], map[];
    var i := 0;
    while i < |messages|
      invariant 0 <= i <= |messages|
      invariant |history| == i
      invariant forall j :: 0 <= j < i ==>
        history[j] == AgentMessage(AgentRole(messages[j].role), HistoryLabel(j) + messages[j].content)
      invariant files.Keys == AllFragmentPaths(messages[..i])
      invariant forall p :: p in files ==> files[p] == FilePlaceholder
    {
      var message := messages[i];
      history := history + [AgentMessage(AgentRole(message.role), HistoryLabel(i) + message.content)];
      files := MarkPaths(files, FragmentPaths(message));
      assert messages[..i + 1][..i] == messages[..i];
      assert AllFragmentPaths(messages[..i + 1]) == AllFragmentPaths(messages[..i]) + FragmentPaths(message);
      i := i + 1;
    }
    assert messages[..i] == messages;
    assert files.Keys == SeedFiles(messages).Keys;
  }

  /** The terminal handler: the callbacks append every streamed chunk to the
      buffers; a thrown command turns into an error text instead of an exception. */
  method RunTerminal(run: CommandRun) returns (out: string)
    ensures out == TerminalResult(run)
  {
    var stdout, stderr := "", "";
    var i := 0;
    while i < |run.stdoutChunks|
      invariant 0 <= i <= |run.stdoutChunks|
      invariant stdout == Concat(run.stdoutChunks[..i])
    {
      ConcatAppend(run.stdoutChunks[..i], run.stdoutChunks[i]);
      assert run.stdoutChunks[..i + 1] == run.stdoutChunks[..i] + [run.stdoutChunks[i]];
      stdout := stdout + run.stdoutChunks[i];
      i := i + 1;
    }
    assert run.stdoutChunks[..i] == run.stdoutChunks;
    i := 0;
    while i < |run.stderrChunks|
      invariant 0 <= i <= |run.stderrChunks|
      invariant stderr == Concat(run.stderrChunks[..i])
    {
      ConcatAppend(run.stderrChunks[..i], run.stderrChunks[i]);
      assert run.stderrChunks[..i + 1] == run.stderrChunks[..i] + [run.stderrChunks[i]];
      stderr := stderr + run.stderrChunks[i];
      i := i + 1;
    }
    assert run.stderrChunks[..i] == run.stderrChunks;
    match run.outcome
    case Completed(result) =>
      out := result;
    case Threw(e) =>
      out := CommandErrorText(e, stdout, stderr);
  }

  /** The run's invariant, over the values of its fields: both tables in creation
      order and stamped before `clock`, a summary that is empty or tagged, and this
      run's staged rows (from `runStart` on) tagged with the project, growing key-wise
      and never holding a path the agent state lacks. */
  ghost predicate RunInvariant(
    projectId: string, messages: seq<Message>, tempFiles: seq<TempFiles>, clock: int,
    summary: string, files: Files, runStart: nat)
  {
    && MessagesAscending(messages)
    && RowsAscending(tempFiles)
    && (forall m :: m in messages ==> m.createdAt < clock)
    && (forall x :: x in tempFiles ==> x.createdAt < clock)
    && (summary == "" || Contains(summary, SummaryTag))
    && runStart <= |tempFiles|
    && (forall i :: runStart <= i < |tempFiles| ==>
          tempFiles[i].projectId == projectId && tempFiles[i].files.Keys <= files.Keys)
    && StagingMonotone(tempFiles[runStart..])
  }

  /** Adding paths to the agent state keeps the invariant. */
  lemma FilesGrowKeepsInvariant(
    projectId: string, messages: seq<Message>, tempFiles: seq<TempFiles>, clock: int,
    summary: string, files: Files, files': Files, runStart: nat)
    requires RunInvariant(projectId, messages, tempFiles, clock, summary, files, runStart)
    requires files.Keys <= files'.Keys
    ensures RunInvariant(projectId, messages, tempFiles, clock, summary, files', runStart)
  {
  }

  /** Staging the whole current map as a new row keeps the invariant. */
  lemma StageKeepsInvariant(
    projectId: string, messages: seq<Message>, tempFiles: seq<TempFiles>, clock: int,
    summary: string, files: Files, runStart: nat, toolRunId: string)
    requires RunInvariant(projectId, messages, tempFiles, clock, summary, files, runStart)
    ensures RunInvariant(projectId, messages, tempFiles + [TempFiles(projectId, toolRunId, files, clock)],
                         clock + 1, summary, files, runStart)
  {
    var row := TempFiles(projectId, toolRunId, files, clock);
    var rows := tempFiles + [row];
    assert rows[runStart..] == tempFiles[runStart..] + [row];
    forall i, j | 0 <= i < j < |rows| ensures rows[i].createdAt < rows[j].createdAt {
      if j == |rows| - 1 {
        assert rows[i] in tempFiles;
      }
    }
    forall x | x in rows ensures x.createdAt < clock + 1 {
      if x != row {
        assert x in tempFiles;
      }
    }
  }

  /** Recording an ERROR or RESULT message keeps the invariant. */
  lemma MessageKeepsInvariant(
    projectId: string, messages: seq<Message>, tempFiles: seq<TempFiles>, clock: int,
    summary: string, files: Files, runStart: nat, m: Message)
    requires RunInvariant(projectId, messages, tempFiles, clock, summary, files, runStart)
    requires m.createdAt == clock
    ensures RunInvariant(projectId, messages + [m], tempFiles, clock + 1, summary, files, runStart)
  {
    var ms := messages + [m];
    forall i, j | 0 <= i < j < |ms| ensures ms[i].createdAt < ms[j].createdAt {
      if j == |ms| - 1 {
        assert ms[i] in messages;
      }
    }
    forall x | x in ms ensures x.createdAt < clock + 1 {
      if x != m {
        assert x in messages;
      }
    }
  }

  /** Deleting the project's staged rows keeps the invariant, with no rows left for this run. */
  lemma DeleteKeepsInvariant(
    projectId: string, messages: seq<Message>, tempFiles: seq<TempFiles>, clock: int,
    summary: string, files: Files, runStart: nat)
    requires RunInvariant(projectId, messages, tempFiles, clock, summary, files, runStart)
    ensures var rows := DeleteProjectRows(tempFiles, projectId);
      RunInvariant(projectId, messages, rows, clock, summary, files, |rows|)
  {
    DeleteKeepsAscending(tempFiles, projectId);
  }

  /** One execution of the `coder` function for one project. */
  class Run {
    const projectId: string
    /** The message table (all projects), in creation order. */
    var messages: seq<Message>
    /** The staged-files table (all projects), in creation order. */
    var tempFiles: seq<TempFiles>
    /** The stamp the store gives the next row it creates. */
    var clock: int
    /** The sandbox's file system. */
    var sandbox: Files
    /** The conversation the agent state is seeded with. */
    var history: seq<AgentMessage>
    /** The agent state. */
    var summary: string
    var files: Files
    /** The prompts sent to the two post-processing generators, in order. */
    var generatorPrompts: seq<string>
    /** Where this run's staged rows begin in `tempFiles`. */
    ghost var runStart: nat

    ghost predicate Valid()
      reads this
    {
      RunInvariant(projectId, messages, tempFiles, clock, summary, files, runStart)
    }

    /** Loads the project's history and seeds the agent state: an empty summary
        and every earlier fragment path mapped to the placeholder. */
    constructor (projectId: string, store: seq<Message>, staged: seq<TempFiles>, clock: int, sandbox: Files)
      requires MessagesAscending(store) && RowsAscending(staged)
      requires forall m :: m in store ==> m.createdAt < clock
      requires forall x :: x in staged ==> x.createdAt < clock
      ensures Valid()
      ensures this.projectId == projectId && messages == store && tempFiles == staged
      ensures this.clock == clock && this.sandbox == sandbox
      ensures var previous := ProjectMessages(store, projectId);
        |history| == |previous|
        && forall i :: 0 <= i < |previous| ==>
             history[i] == AgentMessage(AgentRole(previous[i].role), HistoryLabel(i) + previous[i].content)
      ensures files == SeedFiles(ProjectMessages(store, projectId))
      ensures summary == "" && generatorPrompts == [] && runStart == |staged|
    {
      var h, f := LoadPreviousMessages(ProjectMessages(store, projectId));
      this.projectId := projectId;
      messages, tempFiles, this.clock, this.sandbox := store, staged, clock, sandbox;
      history, summary, files, generatorPrompts := h, "", f, [];
      runStart := |staged|;
    }

    /** The state the tool calls act on. */
    function State(): ToolState
      reads this
    {
      ToolState(files, sandbox, tempFiles, clock)
    }

    /** The createOrUpdateFiles handler. Connecting to the sandbox comes first; then
        every entry is written to the sandbox and, through the alias, straight into
        the agent state's map; only when the whole batch is written is one staged
        row appended, carrying the whole cumulative map. A throw anywhere becomes
        an error text, with the earlier entries already applied. */
    method CreateOrUpdateFiles(batch: seq<FileEntry>, fault: WriteFault, toolRunId: string) returns (out: ToolOutput)
      requires Valid()
      modifies this
      ensures Valid()
      ensures files == Overwrite(old(files), batch[..WrittenCount(batch, fault)])
      ensures sandbox == Overwrite(old(sandbox), batch[..WrittenCount(batch, fault)])
      ensures !BatchFails(batch, fault) ==>
        && tempFiles == old(tempFiles) + [TempFiles(projectId, toolRunId, files, old(clock))]
        && clock == old(clock) + 1
        && out == FilesOutput(files)
      ensures BatchFails(batch, fault) ==>
        tempFiles == old(tempFiles) && clock == old(clock) && out == TextOutput(WriteErrorText(fault.error))
      ensures messages == old(messages) && history == old(history) && summary == old(summary)
      ensures generatorPrompts == old(generatorPrompts) && runStart == old(runStart)
    {
      var n := WrittenCount(batch, fault);
      var written, box := files, sandbox;
      if fault.ConnectThrows? {
        assert batch[..n] == [];
      } else {
        written, box := WriteBatch(files, sandbox, batch, fault);
      }
      OverwriteKeys(files, batch[..n]);
      FilesGrowKeepsInvariant(projectId, messages, tempFiles, clock, summary, files, written, runStart);
      files, sandbox := written, box;
      if BatchFails(batch, fault) {
        out := TextOutput(WriteErrorText(fault.error));
      } else {
        CreateTempFiles(toolRunId);
        out := FilesOutput(files);
      }
    }

    /** `tempFiles.create`: one staged row of the project holding the whole
        current map, stamped by the store. */
    method CreateTempFiles(toolRunId: string)
      requires Valid()
      modifies this
      ensures Valid()
      ensures tempFiles == old(tempFiles) + [TempFiles(projectId, toolRunId, files, old(clock))]
      ensures clock == old(clock) + 1
      ensures messages == old(messages) && runStart == old(runStart)
      ensures summary == old(summary) && files == old(files) && sandbox == old(sandbox)
      ensures history == old(history) && generatorPrompts == old(generatorPrompts)
    {
      StageKeepsInvariant(projectId, messages, tempFiles, clock, summary, files, runStart, toolRunId);
      tempFiles, clock := tempFiles + [TempFiles(projectId, toolRunId, files, clock)], clock + 1;
    }

    /** The readFiles handler: connects to the sandbox, then reads each requested
        path in order. */
    method ReadFiles(paths: seq<string>, connectError: Option<string>, failing: map<string, string>) returns (out: ToolOutput)
      ensures out == ReadFilesResult(sandbox, connectError, failing, paths)
    {
      if connectError.Some? {
        return TextOutput(ReadFilesErrorText(connectError.value));
      }
      var box := sandbox;
      var contents: seq<FileEntry> := [];
      var i := 0;
      while i < |paths|
        invariant 0 <= i <= |paths|
        invariant |contents| == i
        invariant forall j :: 0 <= j < i ==> Readable(box, failing, paths[j])
        invariant forall j :: 0 <= j < i ==> contents[j] == FileEntry(paths[j], box[paths[j]])
      {
        var p := paths[i];
        if !Readable(box, failing, p) {
          assert FirstUnreadable(box, failing, paths) == i;
          return TextOutput(ReadFilesErrorText(ReadException(failing, p)));
        }
        contents := contents + [FileEntry(p, box[p])];
        i := i + 1;
      }
      assert FirstUnreadable(box, failing, paths) == |paths|;
      assert contents == seq(|paths|, j requires 0 <= j < |paths| => FileEntry(paths[j], box[paths[j]]));
      out := ContentsOutput(contents);
    }

    /** Runs one tool call and hands its output back to the agent. */
    method Invoke(call: ToolCall) returns (out: ToolOutput)
      requires Valid()
      modifies this
      ensures Valid()
      ensures State() == AfterCall(projectId, old(State()), call)
      ensures out == CallOutput(projectId, messages, old(State()), call)
      ensures messages == old(messages) && history == old(history) && summary == old(summary)
      ensures generatorPrompts == old(generatorPrompts) && runStart == old(runStart)
      ensures old(files).Keys <= files.Keys
      ensures old(tempFiles) <= tempFiles
      ensures !call.CreateOrUpdateFiles? ==>
        files == old(files) && sandbox == old(sandbox) && tempFiles == old(tempFiles) && clock == old(clock)
      ensures call.CreateOrUpdateFiles? ==>
        && files == Overwrite(old(files), WrittenBy(call))
        && sandbox == Overwrite(old(sandbox), WrittenBy(call))
        && (Stages(call) ==>
              tempFiles == old(tempFiles) + [TempFiles(projectId, call.toolRunId, files, old(clock))]
              && clock == old(clock) + 1 && out == FilesOutput(files))
        && (!Stages(call) ==>
              tempFiles == old(tempFiles) && clock == old(clock) && out == TextOutput(WriteErrorText(call.fault.error)))
      ensures call.Terminal? ==> out == TextOutput(TerminalResult(call.run))
      ensures call.ReadFiles? ==> out == ReadFilesResult(sandbox, call.connectError, call.failing, call.paths)
      ensures call.GetFileContentFromDatabase? ==>
        out == GetFileContent(messages, projectId, call.filePath, call.storeError)
    {
      match call
      case Terminal(_, run) =>
        var text := RunTerminal(run);
        out := TextOutput(text);
      case CreateOrUpdateFiles(batch, fault, toolRunId) =>
        out := CreateOrUpdateFiles(batch, fault, toolRunId);
        OverwriteKeys(old(files), batch[..WrittenCount(batch, fault)]);
      case ReadFiles(paths, connectError, failing) =>
        out := ReadFiles(paths, connectError, failing);
      case GetFileContentFromDatabase(filePath, storeError) =>
        out := GetFileContent(messages, projectId, filePath, storeError);
    }

    /** One turn of the coding agent: the onResponse hook records the summary if
        the last assistant text carries the sentinel, then the tool calls run in
        order, each from the state the previous one left. */
    method RunTurn(turn: Turn<ToolCall>) returns (outputs: seq<ToolOutput>)
      requires Valid()
      modifies this
      ensures Valid()
      ensures summary == OnResponse(old(summary), turn.text)
      ensures State() == AfterCalls(projectId, old(State()), turn.calls)
      ensures outputs == CallOutputs(projectId, old(messages), old(State()), turn.calls)
      ensures |outputs| == |turn.calls|
      ensures forall i :: 0 <= i < |turn.calls| ==>
        outputs[i] == CallOutput(projectId, old(messages), AfterCalls(projectId, old(State()), turn.calls[..i]), turn.calls[i])
      ensures old(tempFiles) <= tempFiles
      ensures messages == old(messages) && history == old(history)
      ensures generatorPrompts == old(generatorPrompts) && runStart == old(runStart)
      ensures old(files).Keys <= files.Keys
    {
      ghost var start := State();
      summary := OnResponse(summary, turn.text);
      outputs := [];
      var i := 0;
      while i < |turn.calls|
        invariant 0 <= i <= |turn.calls|
        invariant Valid()
        invariant summary == OnResponse(old(summary), turn.text)
        invariant State() == AfterCalls(projectId, start, turn.calls[..i])
        invariant outputs == CallOutputs(projectId, old(messages), start, turn.calls[..i])
        invariant messages == old(messages) && history == old(history)
        invariant generatorPrompts == old(generatorPrompts) && runStart == old(runStart)
      {
        assert turn.calls[..i + 1][..i] == turn.calls[..i];
        var out := Invoke(turn.calls[i]);
        outputs := outputs + [out];
        i := i + 1;
      }
      assert turn.calls[..i] == turn.calls;
      CallOutputsAt(projectId, old(messages), start, turn.calls);
      FilesAfterCalls(projectId, start, turn.calls);
      OverwriteKeys(start.files, WrittenAll(turn.calls));
    }

    /** The agent network: route, run a turn, repeat, for at most `MaxIter` turns. */
    method RunNetwork(script: seq<Turn<ToolCall>>) returns (turns: nat)
      requires Valid() && summary == ""
      modifies this
      ensures Valid()
      ensures turns == TurnsFrom(script, 0, "")
      ensures summary == SummaryFrom(script, 0, "")
      ensures State() == AfterCalls(projectId, old(State()), NetworkCalls(script, 0, ""))
      ensures old(tempFiles) <= tempFiles
      ensures messages == old(messages) && history == old(history)
      ensures generatorPrompts == old(generatorPrompts) && runStart == old(runStart)
      ensures old(files).Keys <= files.Keys
    {
      turns := 0;
      while turns < MaxIter && Route(summary).Some?
        invariant turns <= MaxIter
        invariant Valid()
        invariant TurnsFrom(script, 0, "") == turns + TurnsFrom(script, turns, summary)
        invariant SummaryFrom(script, 0, "") == SummaryFrom(script, turns, summary)
        invariant AfterCalls(projectId, old(State()), NetworkCalls(script, 0, ""))
               == AfterCalls(projectId, State(), NetworkCalls(script, turns, summary))
        invariant old(tempFiles) <= tempFiles
        invariant messages == old(messages) && history == old(history)
        invariant generatorPrompts == old(generatorPrompts) && runStart == old(runStart)
        invariant old(files).Keys <= files.Keys
        decreases MaxIter - turns
      {
        var turn := TurnAt(script, turns);
        AfterCallsAppend(projectId, State(), turn.calls, NetworkCalls(script, turns + 1, OnResponse(summary, turn.text)));
        var _ := RunTurn(turn);
        turns := turns + 1;
      }
    }

    /** The response and title generators each receive the summary, empty or not. */
    method RunGenerators()
      modifies this`generatorPrompts
      ensures generatorPrompts == old(generatorPrompts) + [summary, summary]
    {
      generatorPrompts := generatorPrompts + [summary];
      generatorPrompts := generatorPrompts + [summary];
    }

    /** `message.create`: one new row of the project, stamped by the store. */
    method CreateMessage(role: Role, kind: MessageType, content: string, fragment: Option<Fragment>)
      requires Valid()
      modifies this
      ensures Valid()
      ensures messages == old(messages) + [Message(projectId, role, kind, content, old(clock), fragment)]
      ensures clock == old(clock) + 1
      ensures tempFiles == old(tempFiles) && runStart == old(runStart)
      ensures summary == old(summary) && files == old(files) && sandbox == old(sandbox)
      ensures history == old(history) && generatorPrompts == old(generatorPrompts)
    {
      var m := Message(projectId, role, kind, content, clock, fragment);
      MessageKeepsInvariant(projectId, messages, tempFiles, clock, summary, files, runStart, m);
      messages, clock := messages + [m], clock + 1;
    }

    /** `tempFiles.deleteMany` for the project: every staged row of the project
        goes, the other projects' rows stay in order, and this run has staged
        nothing since. */
    method DeleteTempFiles()
      requires Valid()
      modifies this
      ensures Valid()
      ensures tempFiles == DeleteProjectRows(old(tempFiles), projectId)
      ensures messages == old(messages) && clock == old(clock)
      ensures summary == old(summary) && files == old(files) && sandbox == old(sandbox)
      ensures history == old(history) && generatorPrompts == old(generatorPrompts)
    {
      DeleteKeepsInvariant(projectId, messages, tempFiles, clock, summary, files, runStart);
      var rows := DeleteProjectRows(tempFiles, projectId);
      tempFiles, runStart := rows, |rows|;
    }

    /** The save-result step when the network ended without a summary: one ERROR
        message, no fragment, and the staged rows are left as they are. */
    method SaveError()
      requires Valid() && summary == ""
      modifies this
      ensures Valid()
      ensures clock == old(clock) + 1
      ensures messages == old(messages) + [Message(projectId, ASSISTANT, ERROR, ErrorContent, old(clock), None)]
      ensures tempFiles == old(tempFiles)
      ensures summary == old(summary) && files == old(files) && sandbox == old(sandbox)
      ensures history == old(history) && generatorPrompts == old(generatorPrompts)
    {
      CreateMessage(ASSISTANT, ERROR, ErrorContent, None);
    }

    /** The save-result step with a summary: one RESULT message whose fragment
        carries the newest staged row's files (or none), then every staged row of
        the project is deleted. */
    method SaveSuccess(sandboxUrl: string, responseOutput: seq<OutputMessage>, titleOutput: seq<OutputMessage>)
      requires Valid() && summary != ""
      modifies this
      ensures Valid()
      ensures clock == old(clock) + 1
      ensures messages == old(messages) + [Message(projectId, ASSISTANT, RESULT, GenerateResponse(responseOutput), old(clock),
             Some(Fragment(sandboxUrl, GenerateFragmentTitle(titleOutput), StagedFiles(old(tempFiles), projectId))))]
      ensures tempFiles == DeleteProjectRows(old(tempFiles), projectId)
      ensures summary == old(summary) && files == old(files) && sandbox == old(sandbox)
      ensures history == old(history) && generatorPrompts == old(generatorPrompts)
    {
      var fragment := Fragment(sandboxUrl, GenerateFragmentTitle(titleOutput), StagedFiles(tempFiles, projectId));
      CreateMessage(ASSISTANT, RESULT, GenerateResponse(responseOutput), Some(fragment));
      DeleteTempFiles();
    }
  }

  /** The whole `coder` function for one `coder/run` event: seed, run the network,
      run both generators, resolve the preview address, save the result. The
      event's prompt reaches only the language model, whose replies are `script`. */
  method Coder(
    projectId: string,
    store: seq<Message>, staged: seq<TempFiles>, clock: int, sandbox: Files,
    script: seq<Turn<ToolCall>>,
    responseOutput: seq<OutputMessage>, titleOutput: seq<OutputMessage>, host: string)
    returns (run: Run, result: RunResult)
    requires MessagesAscending(store) && RowsAscending(staged)
    requires forall m :: m in store ==> m.createdAt < clock
    requires forall x :: x in staged ==> x.createdAt < clock
    ensures fresh(run) && run.Valid()
    ensures run.summary == SummaryFrom(script, 0, "")
    ensures run.generatorPrompts == [run.summary, run.summary]
    ensures |run.messages| == |store| + 1 && run.messages[..|store|] == store
    ensures var m := run.messages[|store|];
      m.projectId == projectId && m.role == ASSISTANT
      && (m.kind == ERROR <==> run.summary == "")
      && (m.kind == ERROR <==> m.fragment.None?)
    ensures var s := NetworkState(projectId, store, staged, clock, sandbox, script);
      && run.files == s.files && run.sandbox == s.sandbox
      && run.messages[|store|].createdAt == s.clock && run.clock == s.clock + 1
    ensures var s := NetworkState(projectId, store, staged, clock, sandbox, script);
      run.summary == "" ==> run.messages[|store|].content == ErrorContent && run.tempFiles == s.tempFiles
    ensures var s := NetworkState(projectId, store, staged, clock, sandbox, script);
      run.summary != "" ==>
      && run.messages[|store|].content == GenerateResponse(responseOutput)
      && run.messages[|store|].fragment.value.sandboxUrl == SandboxUrl(host)
      && run.messages[|store|].fragment.value.title == GenerateFragmentTitle(titleOutput)
      && run.messages[|store|].fragment.value.files == StagedFiles(s.tempFiles, projectId)
      && run.tempFiles == DeleteProjectRows(s.tempFiles, projectId)
    ensures result == RunResult(SandboxUrl(host), TitleFallback, run.files, run.summary)
  {
    run := new Run(projectId, store, staged, clock, sandbox);
    var _ := run.RunNetwork(script);
    run.RunGenerators();
    var url := SandboxUrl(host);
    if run.summary == "" {
      run.SaveError();
    } else {
      run.SaveSuccess(url, responseOutput, titleOutput);
    }
    result := RunResult(url, TitleFallback, run.files, run.summary);
  }

  /** The tool state when the network of `Coder` stops: the seeded files, the
      given sandbox, staged table and clock, after every call the network makes. */
  function NetworkState(
    projectId: string, store: seq<Message>, staged: seq<TempFiles>, clock: int, sandbox: Files,
    script: seq<Turn<ToolCall>>): ToolState
  {
    AfterCalls(projectId, ToolState(SeedFiles(ProjectMessages(store, projectId)), sandbox, staged, clock),
               NetworkCalls(script, 0, ""))
  }

  /** When the network's last createOrUpdateFiles call staged its row, the fragment
      `Coder` stores holds the seeded files overwritten with every entry the
      network wrote, in order; a seeded path no entry wrote keeps the placeholder. */
  lemma FragmentOfNetwork(
    projectId: string, store: seq<Message>, staged: seq<TempFiles>, clock: int, sandbox: Files,
    script: seq<Turn<ToolCall>>, p: string)
    requires LastWriteStaged(NetworkCalls(script, 0, ""))
    ensures var seed := SeedFiles(ProjectMessages(store, projectId));
      StagedFiles(NetworkState(projectId, store, staged, clock, sandbox, script).tempFiles, projectId)
        == Overwrite(seed, WrittenAll(NetworkCalls(script, 0, "")))
    ensures var written := WrittenAll(NetworkCalls(script, 0, ""));
      var fragment := StagedFiles(NetworkState(projectId, store, staged, clock, sandbox, script).tempFiles, projectId);
      p in AllFragmentPaths(ProjectMessages(store, projectId))
      && (forall j :: 0 <= j < |written| ==> written[j].path != p)
      ==> p in fragment && fragment[p] == FilePlaceholder
  {
    var seed := SeedFiles(ProjectMessages(store, projectId));
    FragmentIsLastWrite(projectId, ToolState(seed, sandbox, staged, clock), NetworkCalls(script, 0, ""));
    var written := WrittenAll(NetworkCalls(script, 0, ""));
    if forall j :: 0 <= j < |written| ==> written[j].path != p {
      OverwriteUntouched(seed, written, p);
    }
  }

  /** A first turn that writes one file and a second whose text carries the
      sentinel: the stored fragment holds exactly that file. */
  lemma OneFileScenario(projectId: string, sandbox: Files, staged: seq<TempFiles>, clock: int)
    ensures var script := [Turn(None, [CreateOrUpdateFiles([FileEntry("index.html", "<html>")], NoFault, "id1")]),
                           Turn(Some("<task_summary>done</task_summary>"), [])];
      && TurnsFrom(script, 0, "") == 2
      && SummaryFrom(script, 0, "") == "<task_summary>done</task_summary>"
      && StagedFiles(NetworkState(projectId, [], staged, clock, sandbox, script).tempFiles, projectId)
           == map["index.html" := "<html>"]
  {
    var done := "<task_summary>done</task_summary>";
    var entry := FileEntry("index.html", "<html>");
    var write := CreateOrUpdateFiles([entry], NoFault, "id1");
    var script := [Turn(None, [write]), Turn(Some(done), [])];
    TaggedDone(done);
    StopsAtFirstTag(script, 2, 0);
    ScenarioCalls(script, write, done);
    var seed := SeedFiles(ProjectMessages([], projectId));
    assert seed == map[] by {
      assert AllFragmentPaths(ProjectMessages([], projectId)) == {};
    }
    OneWrite(projectId, ToolState(seed, sandbox, staged, clock), entry, "id1");
  }

  /** The sentinel text of the scenario is tagged. */
  lemma TaggedDone(done: string)
    requires done == "<task_summary>done</task_summary>"
    ensures Contains(done, SummaryTag) && done != ""
  {
    assert done[..|SummaryTag|] == SummaryTag;
  }

  /** The scenario's network runs exactly the first turn's call. */
  lemma ScenarioCalls(script: seq<Turn<ToolCall>>, write: ToolCall, done: string)
    requires Contains(done, SummaryTag) && done != ""
    requires script == [Turn(None, [write]), Turn(Some(done), [])]
    ensures NetworkCalls(script, 0, "") == [write]
  {
    assert OnResponse("", None) == "";
    assert OnResponse("", Some(done)) == done;
    assert NetworkCalls(script, 2, done) == [];
    assert NetworkCalls(script, 1, "") == [];
  }

  /** A successful one-entry batch on an empty state map stages exactly that entry. */
  lemma OneWrite(projectId: string, s: ToolState, entry: FileEntry, toolRunId: string)
    requires s.files == map[]
    ensures StagedFiles(AfterCalls(projectId, s, [CreateOrUpdateFiles([entry], NoFault, toolRunId)]).tempFiles, projectId)
      == map[entry.path := entry.content]
  {
    var write := CreateOrUpdateFiles([entry], NoFault, toolRunId);
    assert LastWriteStaged([write]);
    FragmentIsLastWrite(projectId, s, [write]);
    assert WrittenAll([write]) == [entry] by {
      assert [write][..0] == [];
    }
    assert Overwrite(map[], [entry]) == map[entry.path := entry.content] by {
      assert [entry][..0] == [];
    }
  }
}
