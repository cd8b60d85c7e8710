# Spider: the coder pipeline and its client-side rules, in Dafny

Spider is a web application in which a user describes a small web app in a prompt. An
agent network then writes the code into a cloud sandbox, and the result is stored as a
*fragment*: a sandbox URL, a title and a map from file paths to contents. The fragment
can be browsed in a file explorer. This project models two parts of that system.

**The background function `coder`** (`src/inngest/functions.ts`) is modelled in
`coder_model.dfy` (values and specification functions) and `coder_run.dfy`
(the imperative run). The stores are sequences:
- the `message` table, in insertion order, each row with a `createdAt` stamp;
- the `tempFiles` table of staged file snapshots;
- the sandbox's file system, as a map.

A `Run` object holds the agent state: `summary`, `files` and the history. Its methods
change that state in place:
- the loader turns the project's previous messages into numbered history entries. It seeds
  `files` with a placeholder for every path found in earlier fragments;
- the four tools:
  - `terminal` returns stdout, or an error text that repeats the streamed output;
  - `createOrUpdateFiles` writes the files one by one into the sandbox and into the
    agent state, then stages a snapshot row;
  - `readFiles` returns every file or nothing;
  - `get-file-content-using-path-from-database` consults only the newest assistant
    message;
- the `onResponse` hook stores the text as the summary only when it contains
  `<task_summary`;
- the router stops as soon as a summary exists and allows at most 15 turns;
- the two generators and their fallbacks, `"Fragment"` and `"Here You Go!!"`;
- the `https://` preview URL;
- the finaliser. It writes an `ERROR` message when there is no summary. Otherwise it writes
  a `RESULT` message whose fragment holds the newest staged snapshot, and then deletes the
  project's staged rows.

What the tools do is also stated as functions of the state they act on (files, sandbox,
staged table, clock): `AfterCall` and `CallOutput` for one call, `AfterCalls` and
`CallOutputs` for a sequence, and `NetworkCalls` for every call the network makes before it stops. The
methods are proved equal to them, and the lemmas about them show what the fragment ends
up holding (`FragmentIsLastWrite`, `FragmentOfNetwork`).

`Coder` composes them the way the function does. `RunInvariant`/`Run.Valid` is kept by
every step:
- both tables stay ordered by `createdAt`, and every stamp is older than the clock;
- the summary is empty or tagged;
- every snapshot staged during the run belongs to the project;
- each snapshot's paths are all still in `files`, and snapshot key sets only grow.

**The four client-side rule sets:**
- `projects_list.dfy`: page clamping of Previous/Next, the window of at most five page
  links, search reset, and the defaults used before data arrives.
- `file_explorer.dfy`: the language from a file extension, breadcrumb segmentation, the
  initial and clicked selection, and when code is shown.
- `tree_view.dfy`: the recursive tree, where each file button carries the slash-joined
  path of its folders.
- `messages_container.dfy`: auto-selection of the newest fragment, the filter on blank
  messages, the active-card comparison and the loading indicator.

`common.dfy` holds the string built-ins these rely on: `split`, `join`, `includes`,
number formatting, `toLowerCase`, and `trim() === ""`.

**Behaviour kept as the code has it:**
- History numbering. The loader iterates `for (const i in messages)`, so `i` is a string
  key and `` `${i + 1}` `` concatenates instead of adding. Entry 0 is labelled `"01. "`,
  entry 1 `"11. "`, entry 2 `"21. "`. `HistoryLabel` models this, and
  `HistoryLabelNeverPosition` proves that a label never shows the 1-based position. The
  labels are still pairwise distinct (`HistoryLabelsDistinct`).
- `createOrUpdateFiles` aliasing. It takes `network.state.data.files || {}`, which is the
  state's own object. Each write therefore lands in the agent state at once, and a batch
  that fails half way leaves its first files written (`Run.CreateOrUpdateFiles`).
- The error path of the finaliser leaves the staged rows in place.
- The return value of the function always has the title `"Fragment"`. The generated
  title is stored only in the fragment.
- Both generators run even when the summary is empty (`Run.RunGenerators`).
- When the page count is 0, Next sets the page to 0 (`NextWithNoPages`). The button is then
  drawn disabled.
- In the message list:
  - a message without a fragment is marked active whenever no fragment is active, because
    `undefined === undefined`;
  - clicking such a message clears the selection, which the effect then refills with the
    newest fragment (`ClickWithoutFragmentReselects`).
- The message list is taken in the order the query returns it. The `getMany` procedure in
  `src/modules/messages/server/procedure.ts` orders by `updatedAt` descending, so with that
  procedure "last" means oldest.

**Assumptions stated as `requires`.** The stores handed to `Coder` are ordered by
`createdAt`, and every stamp is older than the clock at which the run starts. This is the
database's timestamp order, not something the function checks. "Newest by `createdAt`"
(`findFirst … orderBy createdAt desc`) is then the last match in the sequence, as
`LatestAssistantIsNewest` and `LatestStagedIsNewest` show.

## Model

| member | source | states |
|---|---|---|
| CoderModel.ProjectMessages | src/inngest/functions.ts:41-51 | exactly the project's messages are loaded, in store order |
| CoderModel.ProjectMessagesAscending | src/inngest/functions.ts:48-50 | the loaded messages are in ascending `createdAt` order |
| CoderModel.AgentRole | src/inngest/functions.ts:57 | an ASSISTANT message becomes role "assistant" and a USER message role "user", and no other pairing occurs |
| CoderModel.HistoryLabel | src/inngest/functions.ts:53-58 | the label is the decimal index, then the character "1", then ". " (the loop key is a string, so `i + 1` concatenates) |
| CoderModel.HistoryLabelsDistinct | src/inngest/functions.ts:53-58 | different history positions get different labels |
| CoderModel.HistoryLabelValue | src/inngest/functions.ts:53-58 | the label of entry i is "01. " for i = 0, otherwise the numeral of 10·i+1 followed by ". " (string-key concatenation) |
| CoderModel.HistoryLabelNeverPosition | src/inngest/functions.ts:53-58 | no label equals the entry's 1-based position followed by ". " |
| CoderModel.AllFragmentPathsMember | src/inngest/functions.ts:62-65 | a path is collected iff some loaded message's fragment has it |
| CoderModel.SeedFiles | src/inngest/functions.ts:61-66 | the seeded files are exactly the collected paths, each mapped to the placeholder text |
| CoderRun.LoadPreviousMessages | src/inngest/functions.ts:36-70 | one history entry per message, with role "assistant"/"user" and content label + text; the files are the seeded placeholders |
| CoderRun.MarkPaths | src/inngest/functions.ts:62-65 | the result holds the earlier paths and the fragment's paths; each fragment path maps to the placeholder and every other path keeps its text |
| CoderRun.Run.constructor | src/inngest/functions.ts:36-83 | the run starts with an empty summary, the project's history and the seeded files, and the stores unchanged |
| CoderModel.LatestAssistant | src/inngest/functions.ts:205-218 | the result is an assistant message of the project from the store, and it is missing iff the project has none |
| CoderModel.LatestAssistantIsNewest | src/inngest/functions.ts:212-214 | in a store ordered by time, no assistant message of the project is newer than the one found |
| CoderModel.LatestAssistantIgnoresOlder | src/inngest/functions.ts:205-218 | older messages do not matter once a newer assistant message exists |
| CoderModel.GetFileContent | src/inngest/functions.ts:201-246 | a store failure gives the error text naming the path; otherwise the content is returned iff the newest assistant message's fragment has the path, and nothing is returned otherwise |
| CoderModel.GetFileContentIgnoresOlder | src/inngest/functions.ts:205-238 | a path present only in an older fragment is not found once a newer assistant message exists |
| CoderModel.TerminalResult | src/inngest/functions.ts:100-118 | a command that returns hands back its stdout; one that throws (at connection or while running) hands back the error text built from the exception and the concatenation of every chunk streamed to each callback |
| CoderRun.RunTerminal | src/inngest/functions.ts:98-119 | the tool's result is the command's stdout, or, when it throws, the error text with the streamed stdout and stderr |
| CoderModel.TerminalErrorKeepsOutput | src/inngest/functions.ts:113-118 | the error text contains the exception text and all streamed stdout and stderr |
| CoderModel.WrittenCount | src/inngest/functions.ts:138-146 | the number of files written before a failure never exceeds the batch: none when connecting to the sandbox throws, the failing index when a write throws, the whole batch when no write throws |
| CoderModel.Overwrite | src/inngest/functions.ts:142-146 | no path of the state map is lost, every written path is present, and the last entry written decides the last path's content |
| CoderModel.OverwriteKeys | src/inngest/functions.ts:142-146 | after the writes the paths are the old paths plus the written ones |
| CoderModel.OverwriteLastWins | src/inngest/functions.ts:142-146 | the last entry for a path decides its content |
| CoderModel.OverwriteUntouched | src/inngest/functions.ts:142-146 | paths not written keep their content, including seeded placeholders |
| CoderModel.OverwriteAppend | src/inngest/functions.ts:139-160 | two successive batches write like one concatenated batch |
| CoderRun.FilesGrowKeepsInvariant | src/inngest/functions.ts:139-146 | adding paths to the agent state keeps the run invariant |
| CoderRun.StageKeepsInvariant | src/inngest/functions.ts:152-158 | staging a snapshot of the current files keeps the run invariant |
| CoderRun.Run.CreateOrUpdateFiles | src/inngest/functions.ts:133-167 | the files written before any failure (none if the connection fails) land in both the sandbox and the agent state; on success one snapshot row with the project id, run id and current files is added, the clock advances and the files are returned; on any failure no row is added and the error text is returned |
| CoderRun.WriteBatch | src/inngest/functions.ts:142-146 | the entries up to the write that throws (all of them when none throws) land, in order, in both the agent state's map and the sandbox |
| CoderRun.Run.CreateTempFiles | src/inngest/functions.ts:152-158 | one row is appended holding the project, the tool run id and the whole current map, stamped with the clock, which advances; nothing else changes and the invariant holds |
| CoderModel.FirstUnreadable | src/inngest/functions.ts:181-184 | every path before the returned index is readable and the one at it is not |
| CoderModel.ReadFilesResult | src/inngest/functions.ts:175-193 | a failed connection gives its error text; otherwise the contents of all paths, in order, iff every path is readable, and else the error text of the first failing read |
| CoderModel.ReadFilesOneFailureSpoilsAll | src/inngest/functions.ts:177-190 | one unreadable path turns the whole result into an error, and later paths change nothing |
| CoderModel.FirstUnreadablePrefix | src/inngest/functions.ts:181-184 | reads stop at the first failure, whatever follows |
| CoderRun.Run.ReadFiles | src/inngest/functions.ts:175-193 | the handler returns exactly the specified read result, connection failure included |
| CoderModel.OnResponse | src/inngest/functions.ts:250-263 | the summary becomes the text iff the text contains "<task_summary"; otherwise it is unchanged |
| CoderModel.TaggedTextNonEmpty | src/inngest/functions.ts:256-257 | a tagged text is never empty, so a stored summary is never empty |
| CoderModel.Route | src/inngest/functions.ts:286-293 | the network stops iff a summary exists, and otherwise runs the code agent |
| CoderModel.TurnsFrom | src/inngest/functions.ts:281-296 | at most the remaining budget of turns run, and none once a summary exists |
| CoderModel.SummaryFrom | src/inngest/functions.ts:250-296 | an existing summary is kept; a new final summary is the text of a tagged turn within the budget |
| CoderModel.StopsAtFirstTag | src/inngest/functions.ts:281-296 | the run takes exactly as many turns as it takes to reach the first tagged response, and that response is the summary |
| CoderModel.ExhaustsBudget | src/inngest/functions.ts:281-296 | with no tagged response in 15 turns, the run takes 15 turns and ends with an empty summary |
| CoderModel.TurnsBounded | src/inngest/functions.ts:281-296 | at most 15 turns, and at least one when the network starts without a summary; the summary is empty or tagged, and it is non-empty whenever the run stopped early |
| CoderRun.Run.Invoke | src/inngest/functions.ts:91-248 | the new files, sandbox, staged table and clock are those the call's handler produces (`AfterCall`), and the output is the handler's (`CallOutput`); spelled out: a write call overwrites files and sandbox with the written entries and, iff it stages, adds one row, advances the clock and returns the files, otherwise returns the error text; every other call changes none of the four |
| CoderRun.Run.RunTurn | src/inngest/functions.ts:249-264 | the hook is applied to the turn's text, the state afterwards is that of the calls run in order (`AfterCalls`), the outputs are `CallOutputs`, and output i is call i's output from the state the first i calls left |
| CoderRun.CallOutputsAt | src/inngest/functions.ts:249-264 | output i of a call sequence is what call i hands back from the state the first i calls left |
| CoderRun.Run.RunNetwork | src/inngest/functions.ts:281-296 | the loop takes exactly the specified number of turns, ends with the specified summary, and leaves the state of every call the network makes, in order (`NetworkCalls`) |
| CoderRun.AfterCallsAppend | src/inngest/functions.ts:91-296 | running two call sequences one after the other is running their concatenation |
| CoderRun.FilesAfterCalls | src/inngest/functions.ts:139-160 | after any calls the agent state's files and the sandbox are the starting maps overwritten with every written entry in order, and the staged table only grows at its end |
| CoderRun.FragmentIsLastWrite | src/inngest/functions.ts:139-160 | when the last write call staged its row, the newest staged row of the project holds exactly the agent state's files, which are the starting files overwritten with every written entry |
| CoderRun.NoStagingKeepsRows | src/inngest/functions.ts:152-158 | calls none of which stages leave the staged table and the clock unchanged |
| CoderRun.Run.RunGenerators | src/inngest/functions.ts:298-304 | both generators are prompted with the summary, even when it is empty |
| CoderModel.GenerateFragmentTitle | src/inngest/functions.ts:306-316 | no output, a non-text first message or empty plain text gives "Fragment" |
| CoderModel.GenerateResponse | src/inngest/functions.ts:318-328 | no output, a non-text first message or empty plain text gives "Here You Go!!" |
| CoderModel.TextOrFallbackEmpty | src/inngest/functions.ts:311-315 | the generated text is empty iff the first message's content is an array of empty parts (no fallback applies to arrays) |
| CoderModel.TextOrFallbackPlain | src/inngest/functions.ts:313-314 | non-empty plain text is used as it is |
| CoderModel.TextOrFallback | src/inngest/functions.ts:306-328 | no output or a non-text first message gives the fallback; an array of parts is joined with "" and gets no fallback; plain text is used unless it is empty, when the fallback is used |
| CoderModel.SandboxUrl | src/inngest/functions.ts:330-334 | the preview URL is "https://" followed by the host |
| CoderModel.LatestStaged | src/inngest/functions.ts:354-361 | the snapshot found belongs to the project, and it is missing iff the project has none |
| CoderModel.LatestStagedIsNewest | src/inngest/functions.ts:354-361 | no snapshot of the project is newer than the one found |
| CoderModel.StagedFiles | src/inngest/functions.ts:374 | the fragment's files are the newest snapshot's files, or empty when there is none |
| CoderModel.DeleteProjectRows | src/inngest/functions.ts:381-385 | exactly the rows of other projects remain |
| CoderModel.DeleteKeepsAscending | src/inngest/functions.ts:381-385 | deleting rows keeps the table in time order |
| CoderRun.MessageKeepsInvariant | src/inngest/functions.ts:342-350 | storing a message stamped with the clock keeps the run invariant |
| CoderRun.DeleteKeepsInvariant | src/inngest/functions.ts:381-385 | after the delete no row of the project remains and the invariant holds |
| CoderRun.Run.CreateMessage | src/inngest/functions.ts:364-379 | one message of the project is appended, stamped with the clock, which advances; nothing else changes and the invariant holds |
| CoderRun.Run.DeleteTempFiles | src/inngest/functions.ts:381-385 | the table becomes the project-free rows of the old one; nothing else changes and the invariant holds |
| CoderRun.Run.SaveError | src/inngest/functions.ts:336-351 | without a summary one ERROR message with the fixed text is stored and the staged rows stay |
| CoderRun.Run.SaveSuccess | src/inngest/functions.ts:353-386 | with a summary one RESULT message with the response and a fragment (URL, title, newest snapshot) is stored and the project's rows are deleted |
| CoderRun.Coder | src/inngest/functions.ts:24-396 | when no step outside the tool handlers throws, exactly one assistant message is added: ERROR iff the summary is empty iff it has no fragment; files, sandbox and clock are those left by every call of the network from the seeded state (`NetworkState`); on error the staged rows are as the network left them; on success the fragment has the preview URL, the generated title and the newest staged files the network left, and none of the project's rows remain; the result has the preview URL, the title "Fragment", the agent state's files and the summary |
| CoderRun.FragmentOfNetwork | src/inngest/functions.ts:61-66 | when the network's last write call staged its row, the fragment holds the seeded files overwritten with every written entry, so a seeded path no entry wrote reaches the fragment with the placeholder text |
| CoderRun.OneFileScenario | src/inngest/functions.ts:139-160 | a turn writing `index.html` followed by a tagged turn runs two turns and stores a fragment holding exactly `index.html` |
| Common.JoinSplit | src/components/file-explorer.tsx:36 | joining the segments of a split gives back the string |
| Common.SplitJoin | src/components/file-explorer.tsx:36 | splitting a join of separator-free parts gives back the parts |
| Common.SplitAround | src/components/file-explorer.tsx:19 | a separator splits the segments of its two sides apart |
| Common.ContainsAt | src/inngest/functions.ts:257 | `includes` holds iff the pattern occurs at some offset |
| Common.ConcatEmpty | src/inngest/functions.ts:312 | a join with "" is empty iff every part is empty |
| Common.DecimalInjective | src/inngest/functions.ts:58 | different numbers are rendered as different numerals |
| ProjectsList.InitialState | src/modules/projects/ui/views/projects-list-view.tsx:23-24 | the list starts on page 1 with an empty query |
| ProjectsList.ShownItems | src/modules/projects/ui/views/projects-list-view.tsx:33 | no data gives no items |
| ProjectsList.ShownTotalPages | src/modules/projects/ui/views/projects-list-view.tsx:34 | no data gives one page |
| ProjectsList.EmptyListText | src/modules/projects/ui/views/projects-list-view.tsx:96-99 | the empty-list text names the query only when there is one |
| ProjectsList.Previous | src/modules/projects/ui/views/projects-list-view.tsx:137 | Previous goes one page back but never below 1 |
| ProjectsList.PreviousDisabled | src/modules/projects/ui/views/projects-list-view.tsx:139 | for a page of at least 1, Previous is disabled exactly when clicking it would not move |
| ProjectsList.Next | src/modules/projects/ui/views/projects-list-view.tsx:165 | Next goes one page on but never past the page count |
| ProjectsList.NextDisabled | src/modules/projects/ui/views/projects-list-view.tsx:167 | for a page within the count, Next is disabled exactly when clicking it would not move |
| ProjectsList.PreviousAtFirstPage | src/modules/projects/ui/views/projects-list-view.tsx:137-139 | on page 1 Previous is disabled and leaves the page alone |
| ProjectsList.NextAtLastPage | src/modules/projects/ui/views/projects-list-view.tsx:165-167 | on the last page Next is disabled and leaves the page alone |
| ProjectsList.StepsStayInRange | src/modules/projects/ui/views/projects-list-view.tsx:137-167 | from a page in range both buttons land in range |
| ProjectsList.EnabledStepsUndo | src/modules/projects/ui/views/projects-list-view.tsx:137-167 | an enabled button moves exactly one page and the other button undoes it |
| ProjectsList.NextWithNoPages | src/modules/projects/ui/views/projects-list-view.tsx:165-167 | with a page count of 0 Next sets the page to 0 |
| ProjectsList.LastSlotInRange | src/modules/projects/ui/views/projects-list-view.tsx:142-144 | the first slot is at least 1 and the last slot never passes the page count |
| ProjectsList.PageWindow | src/modules/projects/ui/views/projects-list-view.tsx:142-159 | min(page count, 5) links, each an existing page, active exactly when it is the current page |
| ProjectsList.PageWindowShape | src/modules/projects/ui/views/projects-list-view.tsx:142-149 | min(page count, 5) consecutive links from the window start, none dropped, each active iff it is the current page |
| ProjectsList.PageWindowHasPage | src/modules/projects/ui/views/projects-list-view.tsx:142-149 | for a page in range the window contains it and exactly one link is active |
| ProjectsList.PageWindowCentred | src/modules/projects/ui/views/projects-list-view.tsx:143 | away from both ends the current page is the middle of five links |
| ProjectsList.NoDataWindow | src/modules/projects/ui/views/projects-list-view.tsx:34 | without data the pager shows the single link 1 |
| ProjectsList.SubmitSearch | src/modules/projects/ui/views/projects-list-view.tsx:41-44 | submitting the search goes to page 1 and keeps the text |
| ProjectsList.TypeQuery | src/modules/projects/ui/views/projects-list-view.tsx:86 | typing changes the text and keeps the page |
| ProjectsList.ClickPrevious | src/modules/projects/ui/views/projects-list-view.tsx:135-138 | clicking Previous applies the clamped step and keeps the query |
| ProjectsList.ClickNext | src/modules/projects/ui/views/projects-list-view.tsx:163-166 | clicking Next applies the clamped step and keeps the query |
| ProjectsList.ClickPageLink | src/modules/projects/ui/views/projects-list-view.tsx:150-153 | clicking a link goes to its page |
| ProjectsList.SearchActivatesFirstLink | src/modules/projects/ui/views/projects-list-view.tsx:41-44 | after typing and submitting, the first link is the only active one |
| ProjectsList.ClickedLinkBecomesActive | src/modules/projects/ui/views/projects-list-view.tsx:142-153 | a clicked link's page is in range and its link becomes the active one |
| FileExplorer.LastSegment | src/components/file-explorer.tsx:19 | the text after the last dot never contains a dot, and is the whole name when it has none |
| FileExplorer.LanguageFromExtension | src/components/file-explorer.tsx:18-22 | never empty: "text" when the text after the last dot is empty, otherwise that text lower-cased |
| FileExplorer.LanguageOfExtension | src/components/file-explorer.tsx:18-22 | a name ending in "." plus a dot-free extension gets the extension, lower-cased |
| FileExplorer.LanguageWithoutDot | src/components/file-explorer.tsx:18-22 | a name without a dot gets the whole name lower-cased, or "text" when empty |
| FileExplorer.LanguageTrailingDot | src/components/file-explorer.tsx:18-22 | a name ending in a dot gets "text" |
| FileExplorer.FullTrail | src/components/file-explorer.tsx:40-59 | every segment in an item, a separator between neighbours, and the last as the current page |
| FileExplorer.Breadcrumbs | src/components/file-explorer.tsx:34-82 | at most seven elements; with several segments the first comes first; a path of up to four segments ends with its last segment as the current page, a longer one with the last segment as a bare page and an empty item |
| FileExplorer.ShortPathBreadcrumbs | src/components/file-explorer.tsx:36-59 | up to four segments are all shown in order, re-join into the path, and exactly one is the current page |
| FileExplorer.LongPathBreadcrumbs | src/components/file-explorer.tsx:60-82 | more than four segments show the first, an ellipsis and the last (as the current page) only |
| FileExplorer.InitialSelection | src/components/file-explorer.tsx:98-101 | the first key is selected, and nothing iff there are no files |
| FileExplorer.SelectFile | src/components/file-explorer.tsx:107-111 | selecting sets the selection to exactly the given path |
| FileExplorer.RenderPane | src/components/file-explorer.tsx:124-139 | code (with its breadcrumbs and language) is shown iff a non-empty path with non-empty content is selected; otherwise the prompt |
| FileExplorer.EmptyFileShowsPrompt | src/components/file-explorer.tsx:124-139 | a selected file with empty content shows the prompt |
| FileExplorer.InitialPaneShowsFirstFile | src/components/file-explorer.tsx:98-135 | on opening, the first file's code is shown when it has content |
| FileExplorer.ClickedButtonIsShown | src/components/file-explorer.tsx:107-135 | clicking a tree button selects its path, marks that button active and shows its code |
| TreeView.CurrentPath | src/components/tree-view.tsx:44 | the name alone under an empty parent path, otherwise parent + "/" + name |
| TreeView.Tree | src/components/tree-view.tsx:41-85 | an entry is labelled with its name and is a file button iff it has no entries under it (a one-element array included); a button carries its path and is active iff that path is the selected value; a folder draws its entries under its own path |
| TreeView.Forest | src/components/tree-view.tsx:77-79 | one view per entry, in order, each drawn under the same parent path |
| TreeView.View | src/components/tree-view.tsx:14-32 | one view per top-level entry, in order, each under the empty parent path |
| TreeView.TreeButtons | src/components/tree-view.tsx:41-85 | each button of an entry corresponds to one route in order: its text is the route's last name, its path the route followed from the parent, active iff that path is selected |
| TreeView.ForestButtons | src/components/tree-view.tsx:77-79 | the same for a list of entries under one parent |
| TreeView.ExtendJoins | src/components/tree-view.tsx:44 | following non-empty names from a path is joining them with "/" after it |
| TreeView.RoutesNamed | src/components/tree-view.tsx:43 | the routes of a fully named entry have non-empty names |
| TreeView.ViewPaths | src/components/tree-view.tsx:14-32 | with non-empty names every button's path is the slash-join of the names from the top, and it is active iff it is the selected value |
| MessagesContainer.LastAssistant | src/modules/projects/ui/components/messages-container.tsx:28 | the last assistant message, missing iff there is none |
| MessagesContainer.AutoSelect | src/modules/projects/ui/components/messages-container.tsx:27-34 | an active fragment is kept; with none, the last assistant message's fragment is taken |
| MessagesContainer.AutoSelectStable | src/modules/projects/ui/components/messages-container.tsx:27-34 | re-running the effect changes nothing |
| MessagesContainer.AutoSelectNeverOverrides | src/modules/projects/ui/components/messages-container.tsx:30-33 | a chosen fragment is never overridden by new messages |
| MessagesContainer.NewestFragmentIsSelected | src/modules/projects/ui/components/messages-container.tsx:28-33 | a new assistant message with a fragment is selected when none is active |
| MessagesContainer.Visible | src/modules/projects/ui/components/messages-container.tsx:49-50 | only messages with non-blank content are drawn |
| MessagesContainer.VisibleMembers | src/modules/projects/ui/components/messages-container.tsx:49-50 | a message is drawn iff it is in the list and not blank |
| MessagesContainer.VisibleAppend | src/modules/projects/ui/components/messages-container.tsx:49-62 | the filter keeps the order of the list |
| MessagesContainer.VisibleIdempotent | src/modules/projects/ui/components/messages-container.tsx:49-50 | filtering twice is filtering once |
| MessagesContainer.IsActiveFragment | src/modules/projects/ui/components/messages-container.tsx:57 | with no active fragment exactly the fragment-less cards are marked; otherwise exactly those whose fragment has the same id |
| MessagesContainer.Cards | src/modules/projects/ui/components/messages-container.tsx:49-62 | one card per drawn message, in order, each marked by the id comparison |
| MessagesContainer.ClickCard | src/modules/projects/ui/components/messages-container.tsx:58 | a click makes the card's fragment, possibly none, the active one |
| MessagesContainer.ClickedCardIsActive | src/modules/projects/ui/components/messages-container.tsx:27-58 | after clicking a card with a fragment that card is marked and the effect keeps it |
| MessagesContainer.ClickWithoutFragmentReselects | src/modules/projects/ui/components/messages-container.tsx:27-58 | clicking a card without a fragment clears the choice and the effect re-selects the newest fragment |
| MessagesContainer.ShowLoading | src/modules/projects/ui/components/messages-container.tsx:40-63 | while the indicator shows, the last message is the user's and is the last one drawn |
| MessagesContainer.LoadingFollowsLastMessage | src/modules/projects/ui/components/messages-container.tsx:40-43 | the indicator shows after a non-blank user message and not after an assistant message, a blank message or an empty list |
| MessagesContainer.LastNonBlankIsDrawn | src/modules/projects/ui/components/messages-container.tsx:49-63 | a last message whose content is not blank is the last one drawn |

## Left out

- The sandbox, the database, the language models and the Inngest runtime are left out:
  - `Sandbox.create`, `setTimeout`, `getHost`, `commands.run` and `files.write`/`read`
    become a file map, a command outcome and a set of failing paths supplied as parameters;
  - `getSandbox` failing becomes a connect fault of the write call and a connect error of
    the read call; in the terminal call it is a command that throws with nothing streamed;
  - `prisma.*` becomes the two store sequences and a clock;
  - the agents' replies become a script of turns and two output sequences;
  - the checkpoint, retry and memoisation semantics of `step.run` are not modelled.
- The tool run id (`Date.now()` and `Math.random()`) is a parameter.
- The serialisation of the read results (`JSON.stringify`) is left out. The model returns the
  list of path/content entries it would serialise.
- Console output is left out.
- Commands run through `terminal` are not modelled as changing the sandbox's files, because
  their effect is unknown.
- The exception text of a failed sandbox read is taken from the failing-path map. For a
  missing file it is written as "file not found: " + path; the real wording comes from the
  sandbox library.
- The agent library's turn loop is reduced to one assistant text and a list of tool calls per
  turn. This covers `lastAssistantTextMessageContent`, the conversation it appends to, and
  the agent's internal retries.
- The texts of array-valued model output are treated as strings and joined with "". If the
  library's parts are objects, `join("")` would render each one as "[object Object]".
- The fragment title and response are not checked against the prompt files in `@/prompt`.
  Those files are not part of this model.
- `convertFilesToTreeItems` (in `@/lib/utils`) is not part of this model. The tree data is
  taken as given.
- The copy-to-clipboard button, scrolling to the bottom and theme switching are left out.
  They are I/O or styling with no rule to state.
- Authentication, tRPC routing and the server procedures are left out. The page count is
  taken as delivered by the query.
- The order of `Object.keys` is taken as given by the collection's key sequence. JavaScript's
  rule that integer-like keys come first is not modelled.
- LowerChar: only ASCII letters are lower-cased. Full Unicode case mapping is not modelled.
- TreeView.Tree: an empty array item (no name at all) is not modelled, since the item type
  always starts with a name.
- Coder: covers only runs in which no step outside the four tool handlers throws. Such a throw
  can come from `network.run`, either generator run, `getSandbox`/`getHost` in the
  get-sandbox-url step (for instance after the 30-minute sandbox timeout), or `findFirst`,
  `message.create` or `deleteMany` in save-result. It would end the function with no
  assistant message and the staged rows left in place. If `message.create` succeeds and
  `deleteMany` then throws, the retried save-result step stores a second RESULT message.
  None of these paths is modelled.
- GetFileContent: the path test uses only the fragment's own keys. JavaScript's `in` is also
  true for names inherited from `Object.prototype`; for `"__proto__"`, say, it hands back the
  prototype rather than nothing. That behaviour is not modelled.
- Concurrency is not modelled: two runs of the function on one project, or polling
  refetches racing with the effect.
