# UHC_Demo core model

A Dafny model of the behavioural core of UHC_Demo, a demo of an automated
"cash position extraction" process with a dashboard that follows it. Two parts
are modelled.

The workflow side:

- `runWorkflow` in run_kyriba_workflow.js allocates a process id, registers the
  process in the index (processes.json) and writes its record
  (process_<id>.json).
- It logs each browser step, finalises the step's log in place when the step
  succeeds, flips the index entry to "Done" and the record's status to
  "Complete" at the end, and appends an error log when a step throws.
- It and the two automation scripts wait for a fresh one-time password. They
  read the timer at most three times, accept a code only with more than 45
  seconds left, and otherwise wait the remaining seconds plus five.
- kyriba_automation_4.js types thirteen forecast values into the VAT Collected
  and Taxes rows of a grid.

The dashboard side:

- The process list: status tabs with counts, rows of the active tab, empty
  states, row markers and the row route.
- The process viewer: expanded reasoning panels, the id list sorted by numeric
  value, up/down navigation, the header's status label, timeline dot colours,
  artifact icons, and what the two-second polling shows.
- The knowledge base: the table of contents extracted from the markdown
  headings and their slugs, and the chat's send and clear transitions.

Modules, one per file:

| module | file | models |
|---|---|---|
| `Base` | base.dfy | `Option`, `Result`, `Min` and a few generic sequence and map lemmas |
| `JsText` | js_text.dfy | JavaScript's `\s` set, `trim`, `parseInt` on digits, `toString`, the first `/(\d+)/` capture |
| `ProcessIndex` | process_index.dfy | index entries, ids stored as JSON numbers or strings, the `/done/process/<id>` route |
| `JobRecords` | job_records.dfy | the record datatypes, `getNextId`, `updateProcessLog`, the finalisation of the last log |
| `Otp` | otp.dfy | the fresh-OTP loop of all three scripts, as a method proved against a function |
| `Workflow` | workflow.dfy | `runWorkflow` as a `ProcessStore` class whose fields are the two JSON files, proved against `RunSpec` |
| `WorkflowFacts` | workflow_facts.dfy | what each way a run can end leaves in the files |
| `KnowledgeToc` | knowledge_toc.dfy | the line split, the heading regular expression, the slug and the table-of-contents loop |
| `KnowledgeChat` | knowledge_chat.dfy | `handleSendMessage` and `clearChatHistory` as state transitions |
| `ProcessDetails` | process_details.dfy | the process viewer |
| `ProcessList` | process_list.dfy | the process list |
| `RowEntry` | row_entry.dfy | the forecast cell-write loops, in place on an array of cell texts |
| `EndToEnd` | end_to_end.dfy | what the list and the viewer show of a run's files |

The browser, the file system, the clock and the language model are inputs.

- `WorkflowInputs` carries the dates typed at the prompt and today's date.
- It carries the timestamps of the logs and the OTP page as a sequence of
  readings.
- It says whether the browser launches, which browser step fails first and
  with what message, and the recorded video's file name.
- The viewer's polls are a sequence of `Poll` outcomes.
- The chat's reply is a `Result`.

Two behaviours of the code shape much of the model:

- When a step throws, the runner appends an error log. The failed step's own
  log stays 'processing', the index entry stays "In Progress" and the record's
  status stays "Processing" (`WorkflowFacts.RunCaughtError`,
  `EndToEnd.RunInListTabs`).
- A non-ok response or a thrown error in a poll sets an error that no later
  poll clears (`ProcessDetails.ErrorIsSticky`, `ProcessDetails.FirstPoll`).

## Model

| member | source | states |
|---|---|---|
| JsText.TrimStartSpec | zamp-dashboard/src/components/KnowledgeBase.jsx:86 | trimming the start removes exactly the longest prefix of JavaScript whitespace |
| JsText.TrimEndSpec | zamp-dashboard/src/components/KnowledgeBase.jsx:86 | trimming the end removes exactly the longest suffix of JavaScript whitespace |
| JsText.TrimEmptyIffAllSpace | zamp-dashboard/src/components/KnowledgeBase.jsx:86 | `s.trim()` is empty exactly when every character of `s` is whitespace |
| JsText.TrimIdempotent | kyriba_automation.js:52 | trimming an already trimmed code changes nothing |
| JsText.DecimalRoundTrip | run_kyriba_workflow.js:17-18 | `parseInt(n.toString())` gives back `n` |
| JsText.DecimalInjective | run_kyriba_workflow.js:18 | distinct ids print as distinct strings |
| JsText.FirstDigitRunSpec | kyriba_automation.js:44 | `match(/(\d+)/)` is null exactly when there is no digit, and otherwise captures the maximal digit run at the first digit |
| ProcessIndex.ProcessPath | zamp-dashboard/src/components/ProcessList.jsx:142 | every route is `/done/process/` followed by something |
| ProcessIndex.RouteRoundTrip | zamp-dashboard/src/components/ProcessList.jsx:142 | reading the `:id` parameter of an id's route back with `parseInt` gives the id's number |
| JobRecords.MaxId | run_kyriba_workflow.js:17 | the `reduce` yields a bound on every id that is the start value or one of the ids |
| JobRecords.NextId | run_kyriba_workflow.js:16-19 | the new id is one more than the largest id, larger than every existing id, and 1 for an empty index |
| JobRecords.NextIdIsFresh | run_kyriba_workflow.js:16-19 | no existing entry carries the new id, as a number or as a string |
| JobRecords.LoggedRecord | run_kyriba_workflow.js:27-48 | an update grows the logs by one exactly when a log is given |
| JobRecords.LoggedRecordSpec | run_kyriba_workflow.js:27-48 | a missing file starts empty; the log is appended last with earlier logs kept; the sidebar grows by exactly the log's artifacts; key details are overridden key by key and other keys keep their values |
| JobRecords.EmptyUpdateIsIdentity | run_kyriba_workflow.js:43-45 | an update with no log and no key details leaves the record as it was |
| JobRecords.FinalisedRecord | run_kyriba_workflow.js:170-191 | finalising keeps the number of logs |
| JobRecords.FinalisedRecordSpec | run_kyriba_workflow.js:170-191 | only the last log changes: it becomes 'success' with the artifacts and the optional new title, keeps its id, time and type; the sidebar grows by exactly those artifacts; key details are untouched |
| Otp.AwaitFreshOtp | run_kyriba_workflow.js:124-138 | the loop over the page's timer reads computes `OtpSpec` (outcome, waits, number of reads) |
| Otp.AwaitOnReads | kyriba_automation.js:37-65 | the `while` loop with its `break` and the final `if (!otpNumber)` compute `LoopFrom(seen, 0)` |
| Otp.OtpBounds | run_kyriba_workflow.js:126 | at most three timer reads and three waits; there is one wait per read, or one fewer when the last read ended the loop |
| Otp.OtpWaitsFollowStaleReads | run_kyriba_workflow.js:130-136 | the i-th wait follows the i-th read, which showed at most 45 seconds, and lasts (seconds + 5) * 1000 ms |
| Otp.OtpFreshOnlyAbove45 | run_kyriba_workflow.js:130-132 | a code is taken only from a read showing more than 45 seconds, after stale reads only, and is that read's trimmed, non-empty code |
| Otp.OtpTakesFirstFreshRead | kyriba_automation.js:49-54 | conversely, the first read with more than 45 seconds after stale reads yields its code, if non-empty |
| Otp.OtpFailsWhenAllStale | run_kyriba_workflow.js:126-138 | three stale reads end in no code after three reads and three waits |
| Otp.OtpWaitsAtLeastMargin | kyriba_automation.js:58 | every wait lasts at least 5000 ms |
| Otp.ZeroFallbackReadsZero | kyriba_automation.js:44-45 | with the scripts' fallback, a timer without digits reads as 0 seconds |
| Otp.ZeroFallbackNeverThrows | kyriba_automation_4.js:41-42 | with the fallback, the loop never ends on an unreadable timer |
| Otp.RunnerThrowsOnDigitlessTimer | run_kyriba_workflow.js:127-128 | without the fallback, the first timer without digits, after stale reads, throws, after exactly that many reads |
| Otp.ScriptFailsWhenAllStale | kyriba_automation_4.js:39-60 | when the first three timer reads, with the zero fallback, all show 45 seconds or less, the script throws 'Failed to get a fresh OTP after multiple attempts' |
| Otp.ScriptTakesFirstFreshCode | kyriba_automation.js:41-65 | after stale reads, the first read above 45 seconds gives the script the trimmed code; a blank code makes it throw 'Failed to get a fresh OTP after multiple attempts' |
| Workflow.FindIndex | run_kyriba_workflow.js:290 | `findIndex(p => p.id === newId)` is the first position holding exactly that id, or -1 when there is none |
| Workflow.ProcessStore.constructor | run_kyriba_workflow.js:54 | the store starts from the given index and records |
| Workflow.ProcessStore.AddEntry | run_kyriba_workflow.js:66-67 | the entry is appended to the index; the records are unchanged |
| Workflow.ProcessStore.WriteRecord | run_kyriba_workflow.js:86 | the record of that id is replaced; the index is unchanged |
| Workflow.ProcessStore.UpdateProcessLog | run_kyriba_workflow.js:27-48 | the record of that id becomes `LoggedRecord` of the stored one, or of the empty record when missing |
| Workflow.ProcessStore.FinaliseLastLog | run_kyriba_workflow.js:164-191 | the in-place writes to the last log and the sidebar push leave the record equal to `FinalisedRecord` of the old one |
| Workflow.ProcessStore.MarkDone | run_kyriba_workflow.js:288-294 | the index becomes `DoneIndex`: the found entry's status is "Done" |
| Workflow.ProcessStore.BrowserStep | run_kyriba_workflow.js:194-255 | appending a step's log, running it and finalising it leaves the record `StepRecord` makes and returns what the step threw |
| Workflow.ProcessStore.LoginSteps | run_kyriba_workflow.js:108-191 | "Log 2", the OTP wait and the login leave the record `LoginStep` makes |
| Workflow.ProcessStore.TrySteps | run_kyriba_workflow.js:108-296 | the `try` block leaves the record `TryRecord` makes and returns the thrown message |
| Workflow.ProcessStore.StepsAfterLogin | run_kyriba_workflow.js:194-296 | the steps from "Log 3" on leave the record `AfterLogin` makes |
| Workflow.ProcessStore.StepsAfterFilters | run_kyriba_workflow.js:257-296 | the steps from "Log 4" on leave the record `AfterFilters` makes |
| Workflow.ProcessStore.StartProcess | run_kyriba_workflow.js:53-95 | the new id is `NextId` of the old index, and the files become `StartedState` of the old ones |
| Workflow.ProcessStore.TryAndCatch | run_kyriba_workflow.js:108-307 | the `try`/`catch` leaves the files and the outcome `CatchSpec` describes |
| Workflow.ProcessStore.RunWorkflow | run_kyriba_workflow.js:50-316 | a whole run leaves the files and the outcome `RunSpec` describes |
| WorkflowFacts.StepRecordSpec | run_kyriba_workflow.js:194-255 | a logged step appends exactly one log and no key detail; unless the step threw, that log is finalised and its artifact goes to the sidebar |
| WorkflowFacts.AfterFiltersSpec | run_kyriba_workflow.js:257-296 | a failed download leaves the downloading log 'processing'; otherwise the log is finalised with the PDF artifact and the status becomes "Complete" |
| WorkflowFacts.AfterLoginSpec | run_kyriba_workflow.js:194-296 | failed filters leave the filtering log 'processing'; otherwise the filtering log is finalised with the extraction video and the download step follows |
| WorkflowFacts.LoginStepSpec | run_kyriba_workflow.js:108-191 | the login step throws the login error, leaving its log 'processing'; otherwise its log is finalised with the login video |
| WorkflowFacts.LoginErrorIff | run_kyriba_workflow.js:119-144 | the login step succeeds exactly when the OTP page and the Kyriba login work and the wait yields a code |
| WorkflowFacts.FindsAppendedEntry | run_kyriba_workflow.js:290 | `findIndex` finds the entry appended for the fresh id at the end of the index |
| WorkflowFacts.TryCompletesIff | run_kyriba_workflow.js:108-297 | the `try` block throws nothing exactly when no browser step fails and the OTP page yields a fresh code |
| WorkflowFacts.RunCompletesIff | run_kyriba_workflow.js:98-297 | a run completes exactly when the browser launches, no step fails and a fresh code is read |
| WorkflowFacts.StartedRecordSpec | run_kyriba_workflow.js:71-95 | before the browser starts, the record holds one 'success' log, the four initial key details and an empty sidebar |
| WorkflowFacts.ErrorLogAppended | run_kyriba_workflow.js:298-307 | the catch appends one 'error' log with the message and changes nothing else |
| WorkflowFacts.TryCompletedRecord | run_kyriba_workflow.js:108-296 | a completed `try` block appends the three finalised step logs and their three artifacts, and sets status "Complete" |
| WorkflowFacts.DoneIndexFlipsNewEntry | run_kyriba_workflow.js:288-294 | the final index update flips exactly the appended entry to "Done" |
| WorkflowFacts.RunSuccess | run_kyriba_workflow.js:285-296 | after a completed run only the new entry is "Done", and only the new process's record changed |
| WorkflowFacts.TryStopsAtLogin | run_kyriba_workflow.js:108-138 | when the login step throws, its log stays 'processing' and no later log is written |
| WorkflowFacts.TryStopsAtFilters | run_kyriba_workflow.js:194-246 | when the date filters fail, the login log is finalised and the filtering log stays 'processing' |
| WorkflowFacts.TryStopsAtDownload | run_kyriba_workflow.js:257-272 | when the download fails, two logs are finalised and the downloading log stays 'processing' |
| WorkflowFacts.LoginFailsWithoutFreshOtp | run_kyriba_workflow.js:124-138 | three stale timer reads make the login step throw 'Failed to get OTP' |
| WorkflowFacts.LoginFailsOnDigitlessTimer | run_kyriba_workflow.js:127-128 | a timer without digits, before any fresh read, makes the login step throw the null-match TypeError |
| WorkflowFacts.RunCaughtError | run_kyriba_workflow.js:298-307 | after a caught error the entry stays "In Progress", status stays "Processing", and the record ends with one 'error' log carrying the message |
| WorkflowFacts.TryKeepsKeyDetails | run_kyriba_workflow.js:108-297 | a `try` block that throws leaves the key details as they were |
| WorkflowFacts.RunLaunchFailed | run_kyriba_workflow.js:98-106 | when the browser does not launch, the record keeps only "Log 1" and the entry stays "In Progress" |
| KnowledgeToc.SplitLines | zamp-dashboard/src/components/KnowledgeBase.jsx:46 | the split yields at least one line and no line contains a newline |
| KnowledgeToc.JoinSplit | zamp-dashboard/src/components/KnowledgeBase.jsx:46 | joining the split lines with newlines gives back the content |
| KnowledgeToc.SplitJoin | zamp-dashboard/src/components/KnowledgeBase.jsx:46 | splitting joined newline-free lines gives back the lines |
| KnowledgeToc.MatchHeading | zamp-dashboard/src/components/KnowledgeBase.jsx:49-52 | a match has level 1 to 3 and non-empty text |
| KnowledgeToc.MatchHeadingComplete | zamp-dashboard/src/components/KnowledgeBase.jsx:49-52 | every line of 1 to 3 '#', whitespace and a non-empty rest without line terminators matches, with that many '#' as its level |
| KnowledgeToc.MatchHeadingSound | zamp-dashboard/src/components/KnowledgeBase.jsx:49-52 | a match is only taken from such a line, and its text is the line's tail |
| KnowledgeToc.MatchHeadingSpec | zamp-dashboard/src/components/KnowledgeBase.jsx:49-52 | a line matches exactly when it is in the expression's language; the level is the '#' count and the text follows the longest whitespace run the match allows |
| KnowledgeToc.NoHeadingWithoutSpace | zamp-dashboard/src/components/KnowledgeBase.jsx:49 | lines with no '#', four or more '#', or no whitespace after them yield nothing |
| KnowledgeToc.DashRunsIsSlug | zamp-dashboard/src/components/KnowledgeBase.jsx:53 | the replace yields only [a-z0-9] and '-', never two '-' in a row; it starts with '-' exactly when the input starts outside [a-z0-9] |
| KnowledgeToc.DashRunsKeepsSlugChars | zamp-dashboard/src/components/KnowledgeBase.jsx:53 | the replace keeps every letter and digit, in order |
| KnowledgeToc.SlugSpec | zamp-dashboard/src/components/KnowledgeBase.jsx:53 | a slug has only [a-z0-9-] with no adjacent '-', keeps the letters and digits of the lower-cased text, and is empty only for empty text |
| KnowledgeToc.SlugIdempotent | zamp-dashboard/src/components/KnowledgeBase.jsx:53 | slugging a slug returns it unchanged |
| KnowledgeToc.HeadingLinesSound | zamp-dashboard/src/components/KnowledgeBase.jsx:48-50 | every listed position holds a matching line, and the positions increase |
| KnowledgeToc.HeadingLinesComplete | zamp-dashboard/src/components/KnowledgeBase.jsx:48-50 | every matching line is listed |
| KnowledgeToc.HeadingLinesSpec | zamp-dashboard/src/components/KnowledgeBase.jsx:48-50 | the listed positions are exactly those of the matching lines, each once, in increasing order |
| KnowledgeToc.TocOfSpec | zamp-dashboard/src/components/KnowledgeBase.jsx:46-58 | one entry per matching line, in line order, carrying that line's level, its text and the slug of the text |
| KnowledgeToc.TocIdsMatchRenderedIds | zamp-dashboard/src/components/KnowledgeBase.jsx:292-306 | when every line the table-of-contents pattern matches renders as an h1-h3 heading, the k-th entry has the id the renderers give the k-th heading element |
| KnowledgeToc.FirstWithId | zamp-dashboard/src/components/KnowledgeBase.jsx:124 | `getElementById` yields the first position holding the id, and nothing exactly when no element holds it |
| KnowledgeToc.TocEntryScrollTarget | zamp-dashboard/src/components/KnowledgeBase.jsx:123-128 | under the same premise, scrolling from an entry always finds an element: its own heading, or an earlier heading with the same id; its own when no earlier entry shares the id |
| KnowledgeToc.TocEntriesWellFormed | zamp-dashboard/src/components/KnowledgeBase.jsx:51-54 | every entry has level 1 to 3, non-empty text and the slug of its text as id |
| KnowledgeToc.ExtractToc | zamp-dashboard/src/components/KnowledgeBase.jsx:44-59 | the `forEach` loop pushing the entries yields `TocOf` of the split lines |
| KnowledgeChat.SendGuard | zamp-dashboard/src/components/KnowledgeBase.jsx:86 | a send goes ahead exactly when the input is not all whitespace and nothing is loading; otherwise nothing changes |
| KnowledgeChat.BeginSendSpec | zamp-dashboard/src/components/KnowledgeBase.jsx:88-103 | before the reply: the user message is appended, the input cleared, loading on, chat mode on for the first message, and the model is asked with the earlier history |
| KnowledgeChat.InFlightSendIgnored | zamp-dashboard/src/components/KnowledgeBase.jsx:86 | a second send while a reply is awaited does nothing |
| KnowledgeChat.SendAppendsExchange | zamp-dashboard/src/components/KnowledgeBase.jsx:85-114 | a send appends the user message and then exactly one assistant message, leaving the input empty and loading off |
| KnowledgeChat.RejectedSendChangesNothing | zamp-dashboard/src/components/KnowledgeBase.jsx:86 | a rejected send leaves the state as it was |
| KnowledgeChat.ClearSpec | zamp-dashboard/src/components/KnowledgeBase.jsx:116-121 | clearing empties the messages, leaves chat mode and shows the initial view; input and loading are kept |
| KnowledgeChat.ClearWhileAwaiting | zamp-dashboard/src/components/KnowledgeBase.jsx:105-121 | clearing while a reply is awaited leaves only the assistant reply, as the functional update appends it to the cleared list |
| ProcessDetails.Without | zamp-dashboard/src/components/ProcessDetails.jsx:18 | the filter keeps exactly the other ids and never grows the list |
| ProcessDetails.ToggleFlipsOnlyThatLog | zamp-dashboard/src/components/ProcessDetails.jsx:15-21 | toggling flips whether that log's panel is open and leaves every other panel as it was |
| ProcessDetails.ToggleTwiceRestores | zamp-dashboard/src/components/ProcessDetails.jsx:15-21 | toggling a closed panel twice gives back exactly the list before |
| ProcessDetails.ToggleTwiceSamePanels | zamp-dashboard/src/components/ProcessDetails.jsx:15-21 | toggling twice never changes which panels are open |
| ProcessDetails.Insert | zamp-dashboard/src/components/ProcessDetails.jsx:57 | inserting into a sorted list keeps it sorted by value and adds exactly the one id |
| ProcessDetails.SortIds | zamp-dashboard/src/components/ProcessDetails.jsx:57 | the sort yields ids in ascending numeric order and is a permutation of its input |
| ProcessDetails.SortIdsStable | zamp-dashboard/src/components/ProcessDetails.jsx:57 | the sort is stable: ids of equal value keep their relative order |
| ProcessDetails.IndexAsWritten | zamp-dashboard/src/components/ProcessDetails.jsx:75 | `indexOf(parseInt(id))` is the first position holding the JSON number, or -1 when none does |
| ProcessDetails.CurrentIndex | zamp-dashboard/src/components/ProcessDetails.jsx:75 | the position found by numeric value is the first id with that value, or -1 when none has it |
| ProcessDetails.NavigateGuards | zamp-dashboard/src/components/ProcessDetails.jsx:76-89 | up is enabled exactly when the index is above 0 and opens the previous id; down is enabled exactly when the index is below length - 1 and opens the next id |
| ProcessDetails.CurrentIndexOfOwn | zamp-dashboard/src/components/ProcessDetails.jsx:75 | with distinct values every id is found at its own position |
| ProcessDetails.DownThenUp | zamp-dashboard/src/components/ProcessDetails.jsx:79-89 | going down and then up through the routes returns to the starting process |
| ProcessDetails.UpThenDown | zamp-dashboard/src/components/ProcessDetails.jsx:79-89 | going up and then down through the routes returns to the starting process |
| ProcessDetails.NavigateDownOrder | zamp-dashboard/src/components/ProcessDetails.jsx:85-89 | over sorted distinct ids, down opens the next larger id and is disabled exactly when there is none |
| ProcessDetails.NavigateUpOrder | zamp-dashboard/src/components/ProcessDetails.jsx:79-83 | over sorted distinct ids, up opens the next smaller id and is disabled exactly when there is none |
| ProcessDetails.StringIdsNeverFound | zamp-dashboard/src/components/ProcessDetails.jsx:75-88 | as written, with all ids stored as strings the index is -1, the counter reads 0, up is disabled and down opens the first id |
| ProcessDetails.AsWrittenLosesPosition | zamp-dashboard/src/components/ProcessDetails.jsx:75-88 | viewing process 2 of ["1", "2"], the code as written sends down to process 1; by value up leads to process 1 and down is disabled |
| ProcessDetails.NumberIdsAgree | zamp-dashboard/src/components/ProcessDetails.jsx:75 | when every id is a JSON number, the code as written and the by-value position agree |
| ProcessDetails.HeaderLabelSpec | zamp-dashboard/src/components/ProcessDetails.jsx:121-129 | the label is never empty; it is "Done" with the check mark; otherwise "In Progress" for a `status` of 'processing', else the value of a non-empty `status`, else the value of a non-empty `Status`, else "In Progress" |
| ProcessDetails.HeaderReadsOnlyStatusKeys | zamp-dashboard/src/components/ProcessDetails.jsx:121-129 | only the `status` and `Status` keys decide the label and the check mark |
| ProcessDetails.CompleteShowsDone | zamp-dashboard/src/components/ProcessDetails.jsx:121-129 | status "Complete" shows the check mark and "Done", whatever else the details hold |
| ProcessDetails.DotColourSpec | zamp-dashboard/src/components/ProcessDetails.jsx:179-184 | warning, error and success each have their own colour; every other status is blue |
| ProcessDetails.IconSpec | zamp-dashboard/src/components/ProcessDetails.jsx:91-98 | "video" and "dashboard" get their own icons; every other type gets the file icon |
| ProcessDetails.PollsMonotone | zamp-dashboard/src/components/ProcessDetails.jsx:23-48 | loading ends with the first poll, and data or an error once seen stays seen |
| ProcessDetails.ErrorIsSticky | zamp-dashboard/src/components/ProcessDetails.jsx:104-106 | once an error is shown, later polls, successful ones included, keep the error screen |
| ProcessDetails.FetchesShowLatest | zamp-dashboard/src/components/ProcessDetails.jsx:30-32 | without an error, successful polls show the latest record fetched |
| ProcessDetails.FirstPoll | zamp-dashboard/src/components/ProcessDetails.jsx:26-37 | a spinner first, then the record, "Process data not found", or the thrown message |
| ProcessList.ByStatus | zamp-dashboard/src/components/ProcessList.jsx:11-13 | the filter holds exactly the entries with that status |
| ProcessList.ByStatusAppend | zamp-dashboard/src/components/ProcessList.jsx:11-13 | the filter keeps the index order: filtering a concatenation filters each part |
| ProcessList.CountsPartition | zamp-dashboard/src/components/ProcessList.jsx:15-24 | every entry is counted in exactly one tab or in none, according to its status |
| ProcessList.TabCountsCoverIndex | zamp-dashboard/src/components/ProcessList.jsx:15-24 | the five counts add up to the number of entries whose status has a tab |
| ProcessList.EmptyStateFallback | zamp-dashboard/src/components/ProcessList.jsx:28-52 | four tabs have their own empty state; "Needs Review" and every other name fall back to the one of "Done" |
| ProcessList.ViewSpec | zamp-dashboard/src/components/ProcessList.jsx:26 | rows show exactly when some entry has the active tab's status, and they are exactly those entries; otherwise the tab's empty state shows |
| ProcessList.RowMarkerSpec | zamp-dashboard/src/components/ProcessList.jsx:146-173 | all rows of a tab carry the same marker; Needs Review, Void and unknown statuses share the grey one |
| ProcessList.RowOpensItsProcess | zamp-dashboard/src/components/ProcessList.jsx:142 | clicking a row opens the viewer on that row's id |
| RowEntry.EditedRow | kyriba_automation_4.js:128-147 | the edit keeps the row's length |
| RowEntry.Blocks | kyriba_automation_4.js:128-147 | the edits of the values are 11 actions each, and none is Apply |
| RowEntry.ClearCell | kyriba_automation_4.js:134-138 | the inner loop presses Backspace eight times and changes only the clicked cell |
| RowEntry.EnterRow | kyriba_automation_4.js:128-152 | the loop over the values leaves `EditedRow` of the old cells and does `RowActions` |
| RowEntry.EnterForecast | kyriba_automation_4.js:115-197 | the VAT row then the Taxes row each get their thirteen values, and the actions are the two rows' actions in order |
| RowEntry.ClearedByOneMore | kyriba_automation_4.js:135-137 | one more Backspace deletes one more character |
| RowEntry.EditedRowSpec | kyriba_automation_4.js:128-130 | cells 0 and 1 and the cells past the last value are never edited; cell i + 2 holds value i typed after the Backspaces |
| RowEntry.EditedCellSpec | kyriba_automation_4.js:134-141 | eight Backspaces clear a text of at most eight characters; a longer text keeps its first characters in front of the value |
| RowEntry.EditActionsAreBlocks | kyriba_automation_4.js:128-147 | the loop's actions are the edit blocks of the values that land in the row |
| RowEntry.BlocksAt | kyriba_automation_4.js:131-142 | block j is the click on cell j + 2, eight Backspaces, typing value j and Enter |
| RowEntry.RowActionsSpec | kyriba_automation_4.js:128-152 | a row gets one block per landing value, in list order, and then Apply exactly once |
| RowEntry.ForecastEdits | kyriba_automation_4.js:115-175 | both lists hold thirteen values, so a row of n >= 2 cells gets min(13, n - 2) edits and a shorter row none |
| EndToEnd.RunningHeader | run_kyriba_workflow.js:73-78 | while a run is in progress the viewer's header spins and reads "Processing" |
| EndToEnd.CompletedHeader | run_kyriba_workflow.js:296 | after a completed run the new process's header shows the check mark and "Done" |
| EndToEnd.CaughtErrorHeader | run_kyriba_workflow.js:298-307 | after a caught error the header still spins and reads "Processing" |
| EndToEnd.CaughtErrorShowsRed | run_kyriba_workflow.js:301-307 | after a caught error the timeline ends with a red dot titled "Error: " + the message |
| EndToEnd.RunInListTabs | run_kyriba_workflow.js:58-66 | a completed run adds its entry to the end of the Done tab and leaves In Progress as it was; any other run adds it to the end of In Progress |
| EndToEnd.RunKeepsStringIds | run_kyriba_workflow.js:18 | the runner only ever writes JSON string ids |
| EndToEnd.ViewerOnRunnerIndex | zamp-dashboard/src/components/ProcessDetails.jsx:57-75 | when the index the viewer fetches holds JSON string ids, as the index the runner writes does, the viewer's position as written is never found, while by value every listed process is found |

## Left out

- Browser automation: selectors, navigation, downloads, video recording and `waitForTimeout`. These are not modelled. The model records the waits in milliseconds, and each step's outcome is an input.
- File I/O: `fs` reads and writes, `readline`, `localStorage` and `fetch` are I/O. The two JSON files are fields of `ProcessStore`, and what a fetch returns is a `Poll`.
- File paths: the runner writes the index to src/data/processes.json, while the viewer fetches /data/processes.json from the public directory. The model gives both the same index, so it does not capture a viewer reading an index the runner never updates.
- Concurrency: the `setInterval` polling and the race between the writer and the readers are concurrency. Polls are applied one after another.
- Clock: `Date.now()`, `toISOString` and `toLocaleTimeString` are clock reads and locale formatting. They are inputs (`Stamp`, `today`).
- Ids and `parseInt`: ids are naturals. NaN from non-numeric ids and `parseInt` of a route with trailing non-digits are not modelled.
- Id list fetch: the viewer's list of ids is taken as given. A failed fetch of the list, which leaves the previous list, is not modelled.
- JSON key order: `keyDetails` is a map, so JSON key order is not modelled.
- Knowledge base rendering: the markdown renderer's heading text (`String(children)`) is taken to be the heading line's text. Inline markup that the renderer would strip is not modelled, and neither are headings the renderer produces from lines the table-of-contents pattern does not match.
- KnowledgeToc.RenderedIds: every line the table-of-contents pattern matches is taken to render as an h1-h3 heading. A '#' line inside a fenced code block, or one with a no-break space, form feed, vertical tab or line separator after the hashes, renders none, so its entry's scroll finds no element or another heading with the same id; `TocIdsMatchRenderedIds` and `TocEntryScrollTarget` hold only under this premise.
- ProcessList.EmptyStateFor: a tab name that is a property inherited by every JavaScript object, such as "constructor", is not modelled; the active tab only ever takes one of the five tab statuses.
- OTP timer locator: the timer is found with the locator `text=/Code refreshes in \d+ seconds?/`, whose text always holds a digit. The digitless timer (`TimerUnreadable`, the runner's null-match TypeError and the scripts' zero fallback) is therefore a case that locator makes unreachable; a page without the timer makes the locator time out, which is not modelled.
- Chat history: loading and saving it in `localStorage`, scrolling, and the hero-section visibility effect are not modelled. They are I/O and layout.
- The model call: `chatWithKnowledgeBase` is a foreign network call. Its reply or error is an input.
- JSX markup and styling, the mock timelines in ProcessDetails2.jsx, ProcessDetails3.jsx and ProcessDetails4.jsx, DashboardLayout.jsx, App.jsx, Login.jsx and the Tailwind configuration are left out. They are UI without behaviour to state.
- KnowledgeToc.LowerChar: lower-cases exactly 'A'-'Z', KELVIN SIGN and LATIN CAPITAL LETTER I WITH DOT ABOVE. These are the only characters whose lower case holds a letter or digit of [a-z0-9]. Every other character is kept as it is, which cannot change a slug but differs from `toLowerCase` on other cased letters.
- Otp.AwaitFreshOtp: the page is read once up front as a sequence of readings, one per timer read. It does not model a page that changes between the timer read and the code read.
- RowEntry.ClearCell: assumes a click puts the caret at the end of the cell's text, so a Backspace deletes the last character.
- RowEntry.EnterRow: the grid's own reformatting of a committed value after Enter is not modelled.
- Workflow.ProcessStore.UpdateProcessLog: writes the whole record in one step. A torn write is not modelled.

## Findings

| source | as written | input that shows it | evidently intended | confidence | as-written member | corrected member |
|---|---|---|---|---|---|---|
| zamp-dashboard/src/components/ProcessDetails.jsx:75 | `allProcessIds.indexOf(parseInt(id))` compares with `===`, so when the fetched index holds JSON string ids, as the index the runner writes does (run_kyriba_workflow.js:18), the number is never found; the runner writes src/data/processes.json while the viewer fetches /data/processes.json, so this assumes the viewer's copy holds the runner's ids | index ids ["1", "2"], viewing process 2: the index is -1, the counter reads 0 / 2, up is disabled and down opens process 1 | find the viewed process by numeric value, so the counter reads 2 / 2, up opens process 1 and down is disabled | medium (not executed) | ProcessDetails.IndexAsWritten (ProcessDetails.AsWrittenLosesPosition, ProcessDetails.StringIdsNeverFound) | ProcessDetails.CurrentIndex (ProcessDetails.NavigateDownOrder, ProcessDetails.NavigateUpOrder, ProcessDetails.DownThenUp) |
