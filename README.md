# ASCII agent dashboard — a Dafny model

This project models the core of the ASCII agent dashboard. It covers six parts:

- **Status server** (`server.cjs`). It keeps a table of three workers (planner, implementer, reviewer), running totals, and a log that holds the newest 100 entries. Every accepted update is pushed to the connected event-stream observers as a snapshot with the newest 20 log entries. Reset restores the table and empties the log.
- **Terminal hook** (`src/hooks/useTerminal.ts`). It keeps a transcript of executed commands and a newest-first command history, capped at `maxHistory`. Arrow keys move a recall cursor, and there is a spinner.
- **Box-drawing helpers** (`src/utils/ascii-helpers.ts`): boxes with an optional centred title, dividers, status icons, progress bars and connection lines.
- **Log viewer** (`src/components/LogViewer.tsx`). A level filter, a case-insensitive search and a keep-the-newest step choose the shown entries. Level buttons toggle filters, and there is a compact "recent logs" view.
- **Dashboard** (`src/App.tsx`). It has the terminal command handler (help, status, start, clear, logs, stats) and the demo simulation. The simulation visits each agent with each of four statuses over twelve steps.
- **Typewriter hooks** (`src/hooks/useTypewriter.ts`). Text is revealed one character per tick, with reset and skip. A queue types its items one after another.

Modules and files:

| module | file |
|---|---|
| `Types` | `types.dfy` |
| `Seqs` (JavaScript `slice`, `filter`, subsequences) | `seqs.dfy` |
| `Strings` (`repeat`, `padEnd`, `trim`, `split`/`join`, `includes`, decimal numbers) | `strings.dfy` |
| `StatusServer` | `server.dfy` |
| `TerminalHook` | `terminal.dfy` |
| `AsciiHelpers` | `ascii.dfy` |
| `LogViewer` | `logviewer.dfy` |
| `Dashboard` | `app.dfy` |
| `TypewriterHook` | `typewriter.dfy` |

How the source maps onto Dafny:

- **Stateful parts are classes.** These are the server, the terminal hook, the log viewer's filter state, the dashboard, the typewriter and its queue. Their methods change the fields named in `modifies`, and `ensures` states the whole new state.
- **Pure string and list builders are functions.** Their lemmas state the properties.
- **Clock readings are `now` parameters.**
- **`Math.random` is a `roll` parameter.**
- **Timers are explicit events.** An interval firing is `Dashboard.App.Tick`; a typing timeout firing is `TypewriterHook.Typewriter.Tick`.
- **The awaited terminal callback's outcome is a `CommandOutcome` parameter**: returned, or threw.
- **Event-stream observers are opaque ids.** The observers whose write throws during a broadcast are a parameter.
- **`String.prototype.toLowerCase` is a parameter `lower`.** The model assumes nothing about it, except in `Dashboard.ParseIgnoresSurroundingWhitespace`, which says what it needs.

JavaScript details that are modelled exactly:

- `slice` with negative indices, including `slice(-0)` keeping everything.
- `repeat` throwing a RangeError for a negative count: `Err(RangeError)`.
- `padEnd`, and `trim` with the ECMAScript whitespace set.
- `||` truthiness of strings and `??` on optional values.
- `Math.floor` on the integer expressions where it occurs. `Math.round` in the progress bar is modelled on exact rationals (see "## Left out").

A request body that does not parse becomes `{}` (`server.cjs:102-106`). It has no `agent`, so `handleAgentUpdate` answers "Invalid agent" and changes nothing. `StatusServer.Server.SubmitUpdate` states exactly that.

## Model

| member | source | states |
|---|---|---|
| Seqs.Last | src/components/LogViewer.tsx:66 | `s.slice(-n)`: the last `min(n, len(s))` elements for n ≥ 1, everything for n = 0 (`-0`), everything after the first `-n` for negative n |
| Seqs.SliceTo | src/hooks/useTerminal.ts:58 | `s.slice(0, end)`: the first `min(end, len(s))` elements, or all but the last `-end` when end is negative |
| Seqs.Filter | src/components/LogViewer.tsx:58-65 | `filter`: every kept element passes the test; an element that passes occurs as often as in the input, one that fails not at all |
| Seqs.FilterKeepsAll | src/components/LogViewer.tsx:62 | a filter that every element passes returns the input unchanged |
| Seqs.SubsequenceTransitive | src/components/LogViewer.tsx:57-67 | a subsequence of a subsequence is a subsequence, so a chain of filters and slices keeps order |
| Seqs.FilterIsSubsequence | src/components/LogViewer.tsx:59-65 | `filter` returns an order-preserving subsequence of its input |
| Seqs.LastIsSubsequence | src/components/LogViewer.tsx:66 | `slice(-n)` returns an order-preserving subsequence of its input |
| Strings.Repeat | src/utils/ascii-helpers.ts:146 | `c.repeat(n)` has n characters, all equal to c |
| Strings.RepeatStringLength | src/utils/ascii-helpers.ts:173 | `s.repeat(n)` has `n * len(s)` characters |
| Strings.RepeatStringAt | src/utils/ascii-helpers.ts:173 | character i of `s.repeat(n)` is character `i mod len(s)` of s |
| Strings.RepeatStringSingle | src/utils/ascii-helpers.ts:173 | repeating a one-character string is repeating the character |
| Strings.PadEnd | src/utils/ascii-helpers.ts:151 | `s.padEnd(n)` is `s` followed by spaces up to length `max(n, len(s))` |
| Strings.TrimStart | src/hooks/useTerminal.ts:50 | leading whitespace removed: a suffix of the input, preceded only by whitespace, not starting with whitespace |
| Strings.TrimEnd | src/hooks/useTerminal.ts:50 | trailing whitespace removed: a prefix of the input, followed only by whitespace, not ending with whitespace |
| Strings.Trim | src/hooks/useTerminal.ts:50 | `s.trim()` is empty exactly when `s` is all whitespace, and otherwise starts and ends with non-whitespace |
| Strings.LeadingWhitespace | src/hooks/useTerminal.ts:50 | the length of the whitespace run that starts a string: all whitespace, and followed by non-whitespace or the end |
| Strings.TrimKeepsMiddle | src/hooks/useTerminal.ts:50 | `s.trim()` is the part of s right after its leading whitespace, and only whitespace follows it |
| Strings.TrimIgnoresSurroundingWhitespace | src/App.tsx:124 | `trim` gives the same result when whitespace is added on either side |
| Strings.Split | src/utils/ascii-helpers.ts:148 | `split("\n")` gives at least one piece, and no piece contains the separator |
| Strings.JoinSplit | src/utils/ascii-helpers.ts:148 | joining the pieces of `split` with the separator gives back the string |
| Strings.SplitJoin | src/utils/ascii-helpers.ts:168 | splitting a `join` of one or more separator-free pieces gives back the pieces |
| Strings.ContainsInfix | src/components/LogViewer.tsx:63-64 | `includes` finds any string placed between a prefix and a suffix, and nothing longer than the string searched |
| Strings.NatToString | server.cjs:71 | the decimal text of a number: non-empty, digits only, no leading zero |
| Strings.NatToStringRoundTrip | server.cjs:71 | reading the decimal text back gives the number |
| StatusServer.WorkerTable | server.cjs:11-33 | the table has exactly the three workers, each idle with the given message, no tokens, no cost and the given time |
| StatusServer.IsKnownAgent | server.cjs:55 | `agent && agents[agent]` holds exactly for a present name of one of the three workers |
| StatusServer.ParseBody | server.cjs:97-109 | a body that does not parse reads as `{}`, which names no known worker; a parsed body is used as is |
| StatusServer.MergeWorker | server.cjs:56-62 | status and message change only to a truthy new value; tokens and cost grow by the deltas, 0 when absent; the time is refreshed |
| StatusServer.RepeatedUpdateAccumulates | server.cjs:59 | merging the same update twice adds its token delta twice, so it is not idempotent |
| StatusServer.MergeAllAccumulates | server.cjs:56-62 | after a series of updates, tokens are the old count plus every delta, and the status is the last truthy one |
| StatusServer.AppendBounded | server.cjs:70-78 | push, then drop the oldest entry beyond 100: at most 100 entries, the new one last, the oldest dropped only when full |
| StatusServer.AppendKeepsNewest | server.cjs:70-78 | appending to the newest 100 of a history gives the newest 100 of the extended history |
| StatusServer.Writes | server.cjs:40-49 | one write per observer in registry order, each delivered unless that observer's write throws |
| StatusServer.Server.Snapshot | server.cjs:82-88 | a payload holds the whole table, the totals and the newest `min(20, len(log))` entries |
| StatusServer.Server.constructor | server.cjs:11-37 | start state: three idle workers with "Waiting...", empty log, zero totals, no observers |
| StatusServer.Server.Broadcast | server.cjs:40-49 | every observer is written the payload in order; a failing write is skipped and the rest still get theirs |
| StatusServer.Server.HandleAgentUpdate | server.cjs:52-94 | an unknown or missing worker gets "Invalid agent" and nothing changes; otherwise the worker is merged, totals grow, a truthy message is logged (newest 100 kept), every observer gets an update snapshot, and the answer is success |
| StatusServer.Server.ApplyUpdate | server.cjs:55-79 | the worker is merged, the totals grow by the deltas and one message, and a truthy message is logged with the newest 100 kept |
| StatusServer.Server.SubmitUpdate | server.cjs:161-169 | an unparseable body is answered "Invalid agent" with no change, no log entry and no broadcast; a parsed body naming an unknown worker likewise; a parsed body naming a known worker is applied as `handleAgentUpdate` applies it, with the update's merge, totals, log entry and broadcast |
| StatusServer.Server.Status | server.cjs:171-182 | the status answer has the table, the totals and the newest `min(20, len(log))` entries, with no event type or time, and changes nothing |
| StatusServer.Server.Reset | server.cjs:184-217 | three idle workers with "Reset", empty log, zero totals; observers get a reset payload with no entries; the answer is success |
| StatusServer.Server.Connect | server.cjs:131-151 | a new observer (each response object is distinct) first gets an init snapshot, then joins the registry at the end; observers stay distinct |
| StatusServer.Without | server.cjs:155 | `filter((c) => c !== res)`: every copy of the observer goes, every other observer keeps its count, and the length drops by the copies removed |
| StatusServer.Server.Disconnect | server.cjs:153-156 | exactly one connection leaves the registry (observers are distinct); every other observer stays, in the same order |
| TerminalHook.EntryFor | src/hooks/useTerminal.ts:62-78 | a returned value is the output and not an error; a throw is an error whose output is the message, or "An error occurred" |
| TerminalHook.PushCommand | src/hooks/useTerminal.ts:56-59 | the new command comes first, followed by the first `maxHistory - 1` earlier commands; at most `maxHistory` in all |
| TerminalHook.AppendTrimmed | src/hooks/useTerminal.ts:80-87 | the transcript gains the entry at the end and keeps the newest `min(maxHistory, n + 1)` entries |
| TerminalHook.Navigate | src/hooks/useTerminal.ts:100-108 | up moves toward older commands and stops at the oldest; down moves back and stops at -1 |
| TerminalHook.NavigateInverse | src/hooks/useTerminal.ts:100-108 | down undoes an up that moved; up at the oldest command stays put |
| TerminalHook.Terminal.constructor | src/hooks/useTerminal.ts:25-45 | the transcript holds the welcome message exactly when it is non-empty; input empty, cursor -1 |
| TerminalHook.Terminal.SetCurrentInput | src/hooks/useTerminal.ts:40 | the input becomes the given text |
| TerminalHook.Terminal.ExecuteCommand | src/hooks/useTerminal.ts:47-93 | a blank command changes nothing; otherwise the command history gains it first, the transcript gains its entry, the cursor resets and the input clears |
| TerminalHook.Terminal.Record | src/hooks/useTerminal.ts:55-87 | the command goes first in the command history, its entry last in the transcript; the cursor resets and the input clears |
| TerminalHook.Terminal.NavigateHistory | src/hooks/useTerminal.ts:95-111 | with no history nothing changes; otherwise the cursor moves and the input shows the recalled command, or is empty at -1 |
| TerminalHook.Terminal.ClearHistory | src/hooks/useTerminal.ts:113-117 | the transcript and command history are emptied and the cursor is -1 |
| TerminalHook.Spinner.Advance | src/hooks/useTerminal.ts:142-148 | the frame advances by one, cycling through the four frames |
| AsciiHelpers.ContentRow | src/utils/ascii-helpers.ts:149-152 | a content row starts and ends with the vertical glyph |
| AsciiHelpers.TopLine | src/utils/ascii-helpers.ts:155-164 | the top rule is `innerWidth + 2` wide, between the top corner glyphs |
| AsciiHelpers.BottomLine | src/utils/ascii-helpers.ts:166 | the bottom rule is `innerWidth + 2` wide, between the bottom corner glyphs |
| AsciiHelpers.BoxLines | src/utils/ascii-helpers.ts:141-168 | one line per content line plus the two rules |
| AsciiHelpers.BoxLinesAt | src/utils/ascii-helpers.ts:141-168 | line 0 is the top rule, the last line the bottom rule, and line i between them the row of content line i - 1 |
| AsciiHelpers.BoxLinesFrame | src/utils/ascii-helpers.ts:141-168 | corner glyphs on the rules and the vertical glyph at both ends of each content row |
| AsciiHelpers.CreateBox | src/utils/ascii-helpers.ts:130-169 | a RangeError exactly when a `repeat` count would be negative (negative padding, width below 2, or a title too wide) |
| AsciiHelpers.BoxLinesWidth | src/utils/ascii-helpers.ts:145-166 | when the padding fits, every line is exactly `width` characters |
| AsciiHelpers.BoxLinesRow | src/utils/ascii-helpers.ts:148-152 | content line i becomes row i + 1 of the box |
| AsciiHelpers.ContentRowShape | src/utils/ascii-helpers.ts:149-152 | a row shows the line truncated to the room inside the padding, padded with spaces |
| AsciiHelpers.TopLineTitle | src/utils/ascii-helpers.ts:155-164 | the title text ` title ` sits between two rule runs; the left run is `floor((innerWidth - len(titleText)) / 2)` glyphs and the right run is as long or one glyph longer |
| AsciiHelpers.BoxTitlePlacement | src/utils/ascii-helpers.ts:155-164 | the first line of a titled box shows ` title ` centred in the top rule, leaning left |
| AsciiHelpers.NoNewlineInBoxLines | src/utils/ascii-helpers.ts:148-166 | no box line contains a newline when the title has none |
| AsciiHelpers.CreateBoxLineCount | src/utils/ascii-helpers.ts:168 | splitting the box text on "\n" gives back exactly its lines: one per content line plus two |
| AsciiHelpers.CreateDivider | src/utils/ascii-helpers.ts:172-174 | a RangeError exactly for a negative width; otherwise `width * len(ch)` characters, character i being character `i mod len(ch)` of `ch` |
| AsciiHelpers.FormatStatus | src/utils/ascii-helpers.ts:177-183 | the icon alone for an empty or absent text, otherwise the icon, a space and the text |
| AsciiHelpers.Filled | src/utils/ascii-helpers.ts:190 | `Math.round(progress / 100 * width)` on exact rationals: the integer nearest `progress * width / 100`, halves rounding up |
| AsciiHelpers.CreateProgressBar | src/utils/ascii-helpers.ts:186-193 | renders exactly when the rounded filled count is between 0 and width: `[`, filled cells, empty cells to `width`, `] `, the percentage and `%` |
| AsciiHelpers.ProgressBarRenders | src/utils/ascii-helpers.ts:190-192 | a percentage from 0 to 100 always renders; 0% is all empty, 100% all filled |
| AsciiHelpers.CreateConnectionLine | src/utils/ascii-helpers.ts:222-228 | a RangeError exactly when the rule count is negative; otherwise `length` characters of rule, ending in an arrow head when asked |
| LogViewer.ByLevel | src/components/LogViewer.tsx:59 | an entry with an active level is kept as often as it occurs, any other entry not at all |
| LogViewer.BySearch | src/components/LogViewer.tsx:60-65 | an entry matching the search is kept as often as it occurs, any other entry not at all |
| LogViewer.FilteredLogs | src/components/LogViewer.tsx:57-67 | every shown entry has an active level and matches the search; never more entries than logs |
| LogViewer.FilteredLogsIsSubsequence | src/components/LogViewer.tsx:57-67 | the shown entries are an order-preserving subsequence of the logs |
| LogViewer.EmptySearchKeepsAll | src/components/LogViewer.tsx:62 | with an empty query, only the level filter and the newest-N step apply |
| LogViewer.SearchMatchesShown | src/components/LogViewer.tsx:63-64 | with a query, each shown entry's lower-cased message or source contains the lower-cased query |
| LogViewer.FilteredLogsKeepsNewest | src/components/LogViewer.tsx:66 | for maxLogs ≥ 1, the shown entries are the last `min(maxLogs, n)` of those passing both stages |
| LogViewer.Toggled | src/components/LogViewer.tsx:77-79 | toggling flips the level's membership and leaves every other level's membership as it was |
| LogViewer.ToggleTwice | src/components/LogViewer.tsx:76-80 | toggling the same level twice restores membership |
| LogViewer.CompactLog | src/components/LogViewer.tsx:209 | the last `min(maxLines, n)` entries in order for maxLines ≥ 1, all of them for 0 |
| LogViewer.Viewer.constructor | src/components/LogViewer.tsx:51-54 | a given filter list (even empty) is used as is; without one all four levels are active; empty query |
| LogViewer.Viewer.SetSearchQuery | src/components/LogViewer.tsx:134 | the query becomes the typed text |
| LogViewer.Viewer.ToggleFilter | src/components/LogViewer.tsx:76-80 | the active levels become the toggled list: the level's membership flips, the others keep theirs |
| LogViewer.Viewer.Shown | src/components/LogViewer.tsx:57-67 | the entries shown for the current filters and query all have an active level |
| Dashboard.InitialAgents | src/App.tsx:16-20 | three agents Planner, Implementer and Reviewer, ids 1 to 3, idle, no messages |
| Dashboard.ParseBranches | src/App.tsx:124-176 | the branch `Parse` takes: the lower-cased, trimmed command selects help, status, start, clear, logs or stats exactly when it is that word; anything but the six words is unknown |
| Dashboard.ParseIgnoresSurroundingWhitespace | src/App.tsx:124 | whitespace around a command does not change its branch, for a per-character lower-casing that keeps whitespace |
| Dashboard.StatusLines | src/App.tsx:137-141 | one status line per agent, in agent order |
| Dashboard.LogLines | src/App.tsx:155 | one `[LEVEL] message` line per entry, in order |
| Dashboard.Reply | src/App.tsx:126-176 | the reply for an unknown command is "Unknown command: ", the command as typed, then ". Type 'help' for available commands." |
| Dashboard.UnknownCommandLog | src/App.tsx:165-174 | the log entry is an ERROR from "Terminal" whose message is "Unknown command: " and the command as typed |
| Dashboard.StatsReportLines | src/App.tsx:158-161 | the stats reply is three lines, tokens, cost and messages, whose decimal counts read back to the counters |
| Dashboard.StatusReportLines | src/App.tsx:136-142 | the status reply has exactly one line per agent, in agent order |
| Dashboard.LogsReportLines | src/App.tsx:152-156 | the logs reply has `min(5, n)` lines, those of the last five entries in order |
| Dashboard.AgentIndex | src/App.tsx:67 | the step's agent is one of the three |
| Dashboard.StatusIndex | src/App.tsx:68 | the step's status is one of the four in the cycle |
| Dashboard.ScheduleVisitsEachPairOnce | src/App.tsx:53-68 | over steps 0 to 11, agent a gets status s at exactly one step, `3s + a` |
| Dashboard.StepAgents | src/App.tsx:70-80 | a step changes only its agent, giving it the step's status and one more message |
| Dashboard.StepReportsMatchCard | src/App.tsx:70-106 | the step's message and log entry name the card the step changed and report that card's new status; the card has one more message; both are stamped with the step's time |
| Dashboard.RunStepsMessages | src/App.tsx:61-80 | after n steps, agent i has `(n + 2 - i) / 3` more messages, one per turn; names and ids never change |
| Dashboard.RunStepsStatus | src/App.tsx:61-80 | agent i keeps its status until step i, and afterwards shows the status of its last turn |
| Dashboard.RunStepsAgent | src/App.tsx:61-116 | after n steps, agent i has `(n + 2 - i) / 3` more messages and the status of its last turn; names and ids never change |
| Dashboard.SimulationOutcome | src/App.tsx:61-116 | after the twelve steps every agent is idle with four more messages |
| Dashboard.App.constructor | src/App.tsx:22-49 | the initial agents, the system message, the INFO log entry, zero tokens and one message |
| Dashboard.App.HandleCommand | src/App.tsx:122-179 | each branch's reply; only start (new simulation), clear (no messages) and unknown commands (one ERROR log entry) change state; agents and counters never change |
| Dashboard.App.Perform | src/App.tsx:144-175 | start adds a simulation, clear empties the messages, an unknown command appends its ERROR entry; nothing else changes |
| Dashboard.App.Tick | src/App.tsx:61-116 | at step 12 or later nothing changes; otherwise the step's agent change, one message, one log entry, `roll + 100` tokens and one more message |
| TypewriterHook.Loaded | src/hooks/useTypewriter.ts:37-47 | a new text starts with nothing shown, not typing, not complete, and the start scheduled only for a non-empty text |
| TypewriterHook.Started | src/hooks/useTypewriter.ts:44-46 | the start delay elapsing starts typing, and does nothing when no start is pending |
| TypewriterHook.Ticked | src/hooks/useTypewriter.ts:57-76 | a tick while typing shows exactly one more character and completes at the end; otherwise nothing changes; the shown text stays a prefix |
| TypewriterHook.Skipped | src/hooks/useTypewriter.ts:94-103 | skip shows the whole text and completes, not typing |
| TypewriterHook.TypingRun | src/hooks/useTypewriter.ts:57-76 | after the start, n ticks show the first `min(n, len(text))` characters; complete exactly when n ≥ len(text) |
| TypewriterHook.StalledIsFinal | src/hooks/useTypewriter.ts:58 | a writer neither typing nor waiting to start never changes again, under ticks or start timeouts |
| TypewriterHook.CompleteIsFinal | src/hooks/useTypewriter.ts:58 | once complete, further ticks and start timeouts change nothing |
| TypewriterHook.ResetAsWritten | src/hooks/useTypewriter.ts:60-92 | `reset()` as written: nothing shown, not complete, and a start pending only when typing was not under way (the typing effect's cleanup clears the new timeout) |
| TypewriterHook.AsWrittenResetWhileTypingStalls | src/hooks/useTypewriter.ts:60-92 | a reset while typing leaves a non-empty text with nothing shown, never completing, whatever timers fire |
| TypewriterHook.TextChangedAsWritten | src/hooks/useTypewriter.ts:37-76 | a text change as written: same text, no change; while typing with the old index at or past the new length, complete with nothing shown and `onComplete` fired; otherwise loaded afresh |
| TypewriterHook.AsWrittenShorterTextCompletesEmpty | src/hooks/useTypewriter.ts:37-76 | "hello" typed to "hel", then changed to "hi": complete, nothing shown, `onComplete` fired |
| TypewriterHook.AsWrittenClearWhileTypingCompletes | src/hooks/useTypewriter.ts:37-76 | clearing the text while typing completes the writer and fires `onComplete` |
| TypewriterHook.Typewriter.constructor | src/hooks/useTypewriter.ts:23-47 | mounting loads the initial text |
| TypewriterHook.Typewriter.SetText | src/hooks/useTypewriter.ts:37-54 | corrected: the same text changes nothing; a different text starts over, even while typing |
| TypewriterHook.Typewriter.StartFires | src/hooks/useTypewriter.ts:44-46 | the state becomes the started state |
| TypewriterHook.Typewriter.Tick | src/hooks/useTypewriter.ts:57-76 | the state advances by one tick; `onComplete` fires exactly when the tick completes the text |
| TypewriterHook.Typewriter.Reset | src/hooks/useTypewriter.ts:78-92 | corrected: the state is that of the current text loaded afresh, even while typing |
| TypewriterHook.Typewriter.Skip | src/hooks/useTypewriter.ts:94-103 | the whole text is shown and complete; `onComplete` fires |
| TypewriterHook.Ids | src/hooks/useTypewriter.ts:142 | the ids of the items, in order |
| TypewriterHook.CommitAsWritten | src/hooks/useTypewriter.ts:148-157 | one commit as written: the typewriter is reset for this render's item, completion survives only an unchanged text, and the queue either stays or gives up exactly its front item |
| TypewriterHook.AsWrittenSkipsQueuedItem | src/hooks/useTypewriter.ts:148-157 | with two items waiting when the current one completes, the first waiting item is replaced before it is typed |
| TypewriterHook.AsWrittenSameTextStaysComplete | src/hooks/useTypewriter.ts:37-54 | an item with the same text as the completed one is shown complete without being typed |
| TypewriterHook.CommitCorrected | src/hooks/useTypewriter.ts:148-157 | one commit corrected: either nothing changes, or the front item becomes current with the typewriter reset for its text in the same update |
| TypewriterHook.CorrectedTakesOneItem | src/hooks/useTypewriter.ts:148-157 | a completion takes exactly the front item, which then stays current until typed |
| TypewriterHook.TypewriterQueue.constructor | src/hooks/useTypewriter.ts:132-136 | empty queue, no current item, no completed ids |
| TypewriterHook.TypewriterQueue.CurrentId | src/hooks/useTypewriter.ts:172 | the current item's id, or none when there is no item or the id is empty |
| TypewriterHook.TypewriterQueue.Advance | src/hooks/useTypewriter.ts:150-152 | the front item becomes current and the typewriter is loaded with its text |
| TypewriterHook.TypewriterQueue.AddToQueue | src/hooks/useTypewriter.ts:160-162 | the item joins at the back; an idle queue starts typing it at once |
| TypewriterHook.TypewriterQueue.StartFires | src/hooks/useTypewriter.ts:44-46 | the typewriter's start delay elapses |
| TypewriterHook.TypewriterQueue.Tick | src/hooks/useTypewriter.ts:138-157 | a tick that does not complete the current item only ticks the typewriter; one that does records the item's id, then loads the front item afresh, or leaves the writer complete when the queue is empty; items leave the queue in order |
| TypewriterHook.TypewriterQueue.ClearQueue | src/hooks/useTypewriter.ts:164-168 | queue, current item and completed ids are emptied |
| TypewriterHook.IsTypingIffUnrecorded | src/hooks/useTypewriter.ts:173 | the queue reports typing exactly while a taken item's id is unrecorded, and that item is the current one |
| TypewriterHook.CompletedInOrder | src/hooks/useTypewriter.ts:138-162 | completed ids are the ids of the first items added, in order; every item that has left the queue, except the current one, has completed |

## Left out

- HTTP routing, CORS headers, preflight answers, static file serving and JSON serialisation (`server.cjs:111-129`, `server.cjs:219-271`). These are transport; the handlers are modelled as methods.
- Floating-point cost. The server keeps cost in integer units. The dashboard's cost and its `toFixed(4)` text are left out; the "stats" reply takes the cost text as a parameter.
- `formatNumber`, `formatCost` and `formatTimestamp` (`src/utils/ascii-helpers.ts:196-219`). They depend on floating-point formatting and locale.
- AsciiHelpers.Filled: computes `Math.round(progress / 100 * width)` on exact rationals, as `floor((progress * width + 50) / 100)` on integers. The source multiplies doubles, and the two differ where the exact product is a half. For progress 29 and width 50, `0.29 * 50` is `14.499999999999998` in double precision, so the source fills 14 cells and the model 15. At the default width of 20, every integer progress from 0 to 100 gives the same count in both.
- AsciiHelpers.CreateProgressBar: inherits the rounding of `AsciiHelpers.Filled`. A non-integer progress or width is not modelled.
- `Date.now()`, `new Date()` and `Math.random()`. They are parameters.
- The init write to a new observer is taken as delivered. That write is not wrapped in `try` in the source.
- A request body that parses to `null` makes the destructuring in `handleAgentUpdate` (`server.cjs:53`) throw inside the `async` request callback (`server.cjs:119`, reached through `server.cjs:163-164`). Nothing handles the rejected promise, and on Node 15 and later an unhandled rejection ends the process. Every event-stream observer is then dropped, and the worker table, totals and log are lost. The model's bodies exclude `null`.
- JSON fields of the wrong type (a string `tokens`, say) concatenate instead of add. Bodies are modelled as well-typed updates whose `tokens` and `cost` are integers. In JavaScript they are doubles, so fractional deltas and precision beyond 2^53 are outside the model.
- StatusServer.IsKnownAgent: only the three own keys of `agents` count as workers. In JavaScript, `agents[agent]` is also truthy for inherited names such as `toString`.
- Characters are Dafny `char`s. JavaScript strings are UTF-16, so `length`, `slice` and `padEnd` count code units, and a character outside the Basic Multilingual Plane counts as two there.
- `toLowerCase` is a parameter, not Unicode case mapping.
- Dashboard.ParseIgnoresSurroundingWhitespace: it holds only for a lower-casing that works character by character and keeps whitespace. Unicode lower-casing is context-sensitive for the final sigma.
- TerminalHook.Terminal.ExecuteCommand: the await is folded into one step. `isProcessing` is true only while the callback runs, so it is false before and after every modelled step.
- The `speed`, `delay` and `interval` durations, and the ordering of timers against each other. Every firing is an explicit event.
- React rendering, focus handling and auto-scrolling, and the purely presentational components (`AgentCard`, `AsciiArt`, `MessageStream`, `StatusBar`, `Terminal`). These render state and do not change it.
- TypewriterHook.TypewriterQueue: the class follows the corrected advance described under Findings. The behaviour as written is modelled per commit by `TypewriterHook.CommitAsWritten`. `ClearQueue` uses the corrected text change, so a clear while typing does not leave the writer complete as the code does.
- TypewriterHook.Typewriter.Reset: follows the corrected reset described under Findings. The code as written is `TypewriterHook.ResetAsWritten`.
- TypewriterHook.Typewriter.SetText: follows the corrected text change described under Findings. The code as written is `TypewriterHook.TextChangedAsWritten`.
- StatusServer.Server.Connect: observers are ids, and a new one must not already be registered. In the source each connection is its own response object.
- An item with empty text never starts typing, so it never completes, and the queue behind it waits forever. This is modelled as in the source.

## Findings

| source | as written | input that shows it | evidently intended | confidence | as-written member | corrected member |
|---|---|---|---|---|---|---|
| src/hooks/useTypewriter.ts:148-157 | In the commit that makes the next item current, the queue effect still reads that render's `isComplete` (true). The text-change reset (lines 37-47) clears it only for the following render, so the effect advances a second time. | The current item completes while two items with different texts, B and C, wait. B becomes current for one commit and is replaced by C. B is never typed and its id is never recorded. | Each queued item is typed in turn, and its id is recorded when it completes. | not executed | TypewriterHook.AsWrittenSkipsQueuedItem | TypewriterHook.CorrectedTakesOneItem |
| src/hooks/useTypewriter.ts:37-54 | The typewriter resets only when its text changes. An item with the same text as the one just completed inherits `isComplete = true`. | The current item completes and the next queued item has the same text. It is shown as complete without typing, and `onComplete` never records its id. | Each item is typed, and its id is recorded. | not executed | TypewriterHook.AsWrittenSameTextStaysComplete | TypewriterHook.CompletedInOrder |
| src/hooks/useTypewriter.ts:78-92 | `reset()` stores its start timeout in `timeoutRef`. When typing was under way, its state changes re-run the typing effect, and the previous run's cleanup (lines 66-70) clears whatever `timeoutRef` holds, which is the new start timeout. | Text "abc", started and ticked once, then reset. Nothing is shown, typing never restarts, and it never completes. | A reset restarts typing from the first character. | not executed | TypewriterHook.AsWrittenResetWhileTypingStalls | TypewriterHook.Typewriter.Reset |
| src/hooks/useTypewriter.ts:37-76 | In the commit of a new text, the typing effect re-runs with the stale `isTyping` and `currentIndex`. When the old index is at or past the new text's length, it marks the writer complete after the reset and calls `onComplete`. | "hello" typed to "hel", then the text becomes "hi". Nothing is shown, the writer is complete, and `onComplete` fires for text never typed. | A new text starts over from the first character. | not executed | TypewriterHook.AsWrittenShorterTextCompletesEmpty | TypewriterHook.Typewriter.SetText |
