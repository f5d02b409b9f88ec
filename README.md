# auto-dev chat and rename core, in Dafny

This project models three pieces of sequential logic from the auto-dev IntelliJ plugin and proves properties of them.

- **Rename suggestions** (`RenameLookup`, rename_lookup.dfy). A language model streams a numbered list of better names in chunks. The listener keeps a `result` buffer. Whenever the buffer holds a newline, it parses the buffer, keeps the cleaned last piece as the new buffer, and adds the non-blank names to the completion popup. When the stream ends it adds `CleanPiece` of the buffer as it then stands, unfiltered: this repeats the last name added only when no chunk arrived after the last newline, and it may be blank.
  - `ParseSuggestion` is pure.
  - `Lookup` is a class whose `items` sequence only grows.
  - `CollectSuggestions` is the chunk loop plus the final flush. It is proved against the specification functions `Step`, `Feed` and `StreamCandidates`.
- **Custom-agent dispatcher** (`CustomAgent`, custom_agent.dfy). `handleChat` shows the prompt and marks the agent as handling. It sends the trimmed prompt to the executor. With an answer, it marks the agent as finished and renders the answer in one of six ways. Any DevIn code the rendering yields is then handed to the DevIn processors.
  - Every outside call is an `Event` appended to a `Trace`.
  - The agent is a class with a mutable `state`.
  - `HandleChat` is proved against the function `Handle`, and the lemmas are stated about `Handle`.
- **MVC context** (`MvcContext`, mvc_context.dfy). The two import regular expressions become predicates on lower-cased text.
  - `filterImportByRegex` is a loop over the selected imports. It goes through the `importCache` map in front of the class lookup `findClasses`.
  - `servicePrompt` and `controllerPrompt` build strings of exact shapes.
  - `findClasses` and the class-context builder are fixed function-valued fields.
- `Text` (text.dfy) states the Kotlin string operations the three rely on on `seq<char>`: `split`, `joinToString`, `trim`, `isBlank`, `removeSurrounding`, `lowercase`, the `^\d+\.` replacement, substring search and Java's `.`. `Wrappers` holds `Option`.

Where one might expect otherwise, the model follows the code:
- One might expect an agent that gets no answer to be back in its initial state. The code sets `HANDLING` before it checks for a missing answer (line 35 of CustomAgentChatProcessor.kt) and returns without resetting it, so the agent stays `HANDLING`.
- One might expect the unsupported `Flow` mode to leave the agent unfinished. `FINISHED` is set before the mode branch (line 43), so `Flow` also ends `FINISHED`.
- One might expect the popup to get one name per finished line. The listener adds the unfinished last piece as well on every newline (line 64 of RenameLookupManagerListener.kt), and again at the end of the stream; see "## Findings".

## Model

| member | source | states |
|---|---|---|
| Text.IsWhitespace | src/main/kotlin/cc/unitmesh/devti/practise/RenameLookupManagerListener.kt:88 | the characters `trim` and `isBlank` drop: Java's `isWhitespace` or `isSpaceChar` (see `TrimCore`, `BlankIffTrimsToEmpty`) |
| Text.IsBlank | src/main/kotlin/cc/unitmesh/devti/practise/RenameLookupManagerListener.kt:78 | `isBlank`: every character is whitespace (see `BlankIffTrimsToEmpty`) |
| Text.Trim | src/main/kotlin/cc/unitmesh/devti/practise/RenameLookupManagerListener.kt:88 | `trim()`: leading, then trailing whitespace removed (see `TrimStartSpec`, `TrimEndSpec`, `TrimCore`) |
| Text.TrimStartSpec | src/main/kotlin/cc/unitmesh/devti/practise/RenameLookupManagerListener.kt:88 | trimming the start removes exactly the longest whitespace-only prefix |
| Text.TrimEndSpec | src/main/kotlin/cc/unitmesh/devti/practise/RenameLookupManagerListener.kt:88 | trimming the end removes exactly the longest whitespace-only suffix |
| Text.TrimCore | src/main/kotlin/cc/unitmesh/devti/practise/RenameLookupManagerListener.kt:88 | `trim()` is the slice between two blank ends, and neither of its ends is whitespace |
| Text.BlankIffTrimsToEmpty | src/main/kotlin/cc/unitmesh/devti/practise/RenameLookupManagerListener.kt:78 | `isBlank()` holds exactly when trimming leaves the empty string |
| Text.RemoveSurrounding | src/main/kotlin/cc/unitmesh/devti/practise/RenameLookupManagerListener.kt:89 | `removeSurrounding` of one character, also at line 55 of the agent processor (see `RemoveSurroundingChanges`, `RemoveSurroundingUnwraps`) |
| Text.RemoveSurroundingChanges | src/main/kotlin/cc/unitmesh/devti/practise/RenameLookupManagerListener.kt:89 | `removeSurrounding(d)` changes its input exactly when the input has length at least 2 and carries `d` at both ends; it then drops those two characters |
| Text.RemoveSurroundingUnwraps | src/main/kotlin/cc/unitmesh/devti/agent/CustomAgentChatProcessor.kt:55 | removing the delimiters undoes wrapping a text in them |
| Text.DigitRunSpec | src/main/kotlin/cc/unitmesh/devti/practise/RenameLookupManagerListener.kt:87 | the digit run is the longest all-digit prefix |
| Text.StripOrdinal | src/main/kotlin/cc/unitmesh/devti/practise/RenameLookupManagerListener.kt:87 | `replace(Regex("^\\d+\\."), "")`: a leading run of digits and the period after it removed (see `StripOrdinalRemovesMarker`, `StripOrdinalChangesIffMarked`) |
| Text.StripOrdinalSuffix | src/main/kotlin/cc/unitmesh/devti/practise/RenameLookupManagerListener.kt:87 | stripping the marker leaves a suffix of the piece |
| Text.StripOrdinalRemovesMarker | src/main/kotlin/cc/unitmesh/devti/practise/RenameLookupManagerListener.kt:87 | `digits + "." + rest` becomes exactly `rest`: only one marker goes, at the start |
| Text.StripOrdinalChangesIffMarked | src/main/kotlin/cc/unitmesh/devti/practise/RenameLookupManagerListener.kt:87 | the replacement changes a piece exactly when the piece starts with digits and a period |
| Text.CountAppend | src/main/kotlin/cc/unitmesh/devti/practise/RenameLookupManagerListener.kt:57 | the newlines of a concatenation are those of its parts |
| Text.CountZeroIffAbsent | src/main/kotlin/cc/unitmesh/devti/practise/RenameLookupManagerListener.kt:59 | no newline is counted exactly when `contains("\n")` is false |
| Text.Split | src/main/kotlin/cc/unitmesh/devti/practise/RenameLookupManagerListener.kt:86 | `split("\n")`, empty pieces kept (see `SplitCount`, `SplitPiecesFree`, `JoinSplit`) |
| Text.Join | java/src/main/kotlin/cc/unitmesh/idea/flow/MvcContextService.kt:50 | `joinToString` with one separator between pieces (see `JoinSplit`, `SplitJoin`) |
| Text.SplitCount | src/main/kotlin/cc/unitmesh/devti/practise/RenameLookupManagerListener.kt:86 | `split("\n")` gives one piece more than there are newlines |
| Text.SplitPiecesFree | src/main/kotlin/cc/unitmesh/devti/practise/RenameLookupManagerListener.kt:86 | no piece of a split holds the separator |
| Text.JoinSplit | src/main/kotlin/cc/unitmesh/devti/practise/RenameLookupManagerListener.kt:86 | joining the pieces of a split with the separator gives back the text |
| Text.SplitFree | src/main/kotlin/cc/unitmesh/devti/practise/RenameLookupManagerListener.kt:86 | a text without the separator splits into itself alone |
| Text.SplitFreeThenSep | src/main/kotlin/cc/unitmesh/devti/practise/RenameLookupManagerListener.kt:86 | a separator-free head followed by the separator becomes the first piece |
| Text.SplitJoin | java/src/main/kotlin/cc/unitmesh/idea/flow/MvcContextService.kt:50 | splitting a join of separator-free pieces gives back the pieces |
| Text.Concat | src/main/kotlin/cc/unitmesh/devti/agent/CustomAgentChatProcessor.kt:86-93 | what `StringBuilder.append` over the collected chunks builds, in order (see `CollectText`) |
| Text.Lowercase | java/src/main/kotlin/cc/unitmesh/idea/flow/MvcContextService.kt:37 | `lowercase()` keeps the length and lower-cases each character in place |
| Text.LowercaseIdempotent | java/src/main/kotlin/cc/unitmesh/idea/flow/MvcContextService.kt:37 | lower-casing twice is lower-casing once |
| Text.LowercaseKeepsLineTerminators | java/src/main/kotlin/cc/unitmesh/idea/flow/MvcContextService.kt:37 | lower-casing neither adds nor removes a line terminator |
| Text.ContainsIffOccurs | java/src/main/kotlin/cc/unitmesh/idea/flow/MvcContextService.kt:17 | the substring scan succeeds exactly when the word occurs at some index |
| Text.ContainsWitness | java/src/main/kotlin/cc/unitmesh/idea/flow/MvcContextService.kt:17 | where the scan succeeds, the word occurs at the index it returns |
| Text.OccursContains | java/src/main/kotlin/cc/unitmesh/idea/flow/MvcContextService.kt:17 | every occurrence is found by the scan |
| RenameLookup.CleanPiece | src/main/kotlin/cc/unitmesh/devti/practise/RenameLookupManagerListener.kt:87-89 | the lambda of `parseSuggestion`: marker stripped, then trimmed, then one pair of backticks removed (see `CleanPieceKeepsChars`, `CleanPlainWord`, `CleanNumbered`, `CleanQuoted`) |
| RenameLookup.CleanPieceKeepsChars | src/main/kotlin/cc/unitmesh/devti/practise/RenameLookupManagerListener.kt:87-89 | cleaning only removes characters: every character of the result was in the piece |
| RenameLookup.CleanPlainWord | src/main/kotlin/cc/unitmesh/devti/practise/RenameLookupManagerListener.kt:87-89 | a word with no marker, no surrounding whitespace and no leading backtick is unchanged |
| RenameLookup.CleanNumbered | src/main/kotlin/cc/unitmesh/devti/practise/RenameLookupManagerListener.kt:87-89 | `"1. Foo"` is cleaned to `"Foo"` |
| RenameLookup.TrimOneSpace | src/main/kotlin/cc/unitmesh/devti/practise/RenameLookupManagerListener.kt:88 | `" Foo"` trims to `"Foo"` |
| RenameLookup.CleanQuoted | src/main/kotlin/cc/unitmesh/devti/practise/RenameLookupManagerListener.kt:87-89 | `` "`bar`" `` is cleaned to `"bar"` |
| RenameLookup.CleanBlank | src/main/kotlin/cc/unitmesh/devti/practise/RenameLookupManagerListener.kt:87-89 | `"   "` is cleaned to `""` |
| RenameLookup.StripOneMarker | src/main/kotlin/cc/unitmesh/devti/practise/RenameLookupManagerListener.kt:87 | `"1.2.x"` loses only its first marker and becomes `"2.x"` |
| RenameLookup.ParseSuggestion | src/main/kotlin/cc/unitmesh/devti/practise/RenameLookupManagerListener.kt:86-90 | `parseSuggestion`: the newline-separated pieces, each cleaned, one name per piece (see `ParseSuggestionPieces`) |
| RenameLookup.CleanAll | src/main/kotlin/cc/unitmesh/devti/practise/RenameLookupManagerListener.kt:86-90 | the `map` over the pieces: one cleaned name per piece (see `CleanAllAt`) |
| RenameLookup.CleanAllAt | src/main/kotlin/cc/unitmesh/devti/practise/RenameLookupManagerListener.kt:86 | the `map` keeps count and order: name `i` is piece `i`, cleaned |
| RenameLookup.ParseSuggestionPieces | src/main/kotlin/cc/unitmesh/devti/practise/RenameLookupManagerListener.kt:86-90 | `parseSuggestion(s)` has one name more than `s` has newlines, and name `i` is the cleaning of line `i` |
| RenameLookup.ParseSuggestionLines | src/main/kotlin/cc/unitmesh/devti/practise/RenameLookupManagerListener.kt:86-90 | one name per line, none holding a newline |
| RenameLookup.CleanAllNewlineFree | src/main/kotlin/cc/unitmesh/devti/practise/RenameLookupManagerListener.kt:86-90 | cleaning newline-free pieces gives newline-free names |
| RenameLookup.NonBlank | src/main/kotlin/cc/unitmesh/devti/practise/RenameLookupManagerListener.kt:77-78 | the `filter { it.isNotBlank() }` of `addItems`, never longer than its input (see `NonBlankKeepsExactlyNonBlank`, `NonBlankSnoc`) |
| RenameLookup.NonBlankKeepsExactlyNonBlank | src/main/kotlin/cc/unitmesh/devti/practise/RenameLookupManagerListener.kt:77-78 | the filter keeps exactly the non-blank names: none blank, none invented, none lost |
| RenameLookup.NonBlankSnoc | src/main/kotlin/cc/unitmesh/devti/practise/RenameLookupManagerListener.kt:77-81 | filtering one more name appends it exactly when it is not blank, so the order is kept |
| RenameLookup.NonBlankEndsWithLast | src/main/kotlin/cc/unitmesh/devti/practise/RenameLookupManagerListener.kt:77-83 | a non-blank last name is also the last name added |
| RenameLookup.Step | src/main/kotlin/cc/unitmesh/devti/practise/RenameLookupManagerListener.kt:57-66 | one chunk on the buffer as the code does it: nothing added without a newline; otherwise the cleaned last piece becomes the buffer and every non-blank name is added, the last one included (see `StepSpec`) |
| RenameLookup.StepSpec | src/main/kotlin/cc/unitmesh/devti/practise/RenameLookupManagerListener.kt:56-66 | after a chunk the buffer never holds a newline. Without a newline nothing is added and the buffer is the concatenation. With one, the buffer becomes the cleaned last line, and it is also added when it is not blank |
| RenameLookup.Feed | src/main/kotlin/cc/unitmesh/devti/practise/RenameLookupManagerListener.kt:55-67 | the collect loop over the chunks so far, in order, one `Step` each (see `FeedSnoc`, `FeedBufferSingleLine`) |
| RenameLookup.FeedBufferSingleLine | src/main/kotlin/cc/unitmesh/devti/practise/RenameLookupManagerListener.kt:55-67 | between chunks the buffer never holds a newline |
| RenameLookup.FeedSnoc | src/main/kotlin/cc/unitmesh/devti/practise/RenameLookupManagerListener.kt:56-67 | one more chunk is one more step on the buffer, its candidates appended |
| RenameLookup.StreamCandidates | src/main/kotlin/cc/unitmesh/devti/practise/RenameLookupManagerListener.kt:55-71 | the loop's candidates followed by the flush's one candidate (see `FlushAddsCleanedBuffer`) |
| RenameLookup.FlushAddsCleanedBuffer | src/main/kotlin/cc/unitmesh/devti/practise/RenameLookupManagerListener.kt:70-71 | the flush adds exactly one candidate, the cleaned remaining buffer, unfiltered, so blank or not |
| RenameLookup.FeedWithoutNewline | src/main/kotlin/cc/unitmesh/devti/practise/RenameLookupManagerListener.kt:57-59 | while no newline has arrived, nothing is added and the buffer is the concatenation of the chunks |
| RenameLookup.SingleLineStream | src/main/kotlin/cc/unitmesh/devti/practise/RenameLookupManagerListener.kt:55-71 | a stream without a newline yields exactly one candidate: the whole text, cleaned |
| RenameLookup.FeedOnlyAppends | src/main/kotlin/cc/unitmesh/devti/practise/RenameLookupManagerListener.kt:76-93 | candidates are only appended: what a prefix of the stream added stays in place at the front |
| RenameLookup.ChunkBoundaryChangesNames | src/main/kotlin/cc/unitmesh/devti/practise/RenameLookupManagerListener.kt:57-63 | since the buffer keeps the cleaned fragment, the same text in chunks `a\nw1 ` + `w2` leaves `w1w2` where one chunk leaves `w1 w2`: where the chunks break changes the names |
| RenameLookup.SplitBuffer | src/main/kotlin/cc/unitmesh/devti/practise/RenameLookupManagerListener.kt:57-63 | a break right after the space loses the space: the buffer becomes `w1 + w2` |
| RenameLookup.WholeBuffer | src/main/kotlin/cc/unitmesh/devti/practise/RenameLookupManagerListener.kt:57-63 | in one chunk the space stays: the buffer becomes `w1 + " " + w2` |
| RenameLookup.LastPieceAfterBreak | src/main/kotlin/cc/unitmesh/devti/practise/RenameLookupManagerListener.kt:57-63 | on an empty buffer, a chunk with one newline leaves the cleaned text after it |
| RenameLookup.CleanTrailingSpace | src/main/kotlin/cc/unitmesh/devti/practise/RenameLookupManagerListener.kt:88 | cleaning drops a trailing space from a plain word |
| RenameLookup.FeedOne | src/main/kotlin/cc/unitmesh/devti/practise/RenameLookupManagerListener.kt:55-67 | one chunk is one step |
| RenameLookup.FeedTwo | src/main/kotlin/cc/unitmesh/devti/practise/RenameLookupManagerListener.kt:55-67 | two chunks are two steps, the text their concatenation |
| RenameLookup.ParsePlainLines | src/main/kotlin/cc/unitmesh/devti/practise/RenameLookupManagerListener.kt:86-90 | text whose lines are their own cleaning parses to those lines |
| RenameLookup.ParseFirstChunk | src/main/kotlin/cc/unitmesh/devti/practise/RenameLookupManagerListener.kt:86-90 | `"foo\nba"` parses to `["foo", "ba"]` |
| RenameLookup.FirstChunkOfExample | src/main/kotlin/cc/unitmesh/devti/practise/RenameLookupManagerListener.kt:56-66 | the chunk `"foo\nba"` on an empty buffer leaves `"ba"` and adds `"foo"` and `"ba"` |
| RenameLookup.KeepsPlainWords | src/main/kotlin/cc/unitmesh/devti/practise/RenameLookupManagerListener.kt:77-78 | names that all start with a visible character pass the filter unchanged |
| RenameLookup.FeedOfExample | src/main/kotlin/cc/unitmesh/devti/practise/RenameLookupManagerListener.kt:55-67 | the stream `["foo\nba"]` leaves `"ba"` and has added `"foo"` and `"ba"` |
| RenameLookup.TrailingFragmentAdded | src/main/kotlin/cc/unitmesh/devti/practise/RenameLookupManagerListener.kt:62-71 | as written, the stream `["foo\nba"]` yields `"foo"`, `"ba"`, `"ba"`: the unfinished fragment is added mid-stream and again by the flush |
| RenameLookup.MoreCandidatesThanLines | src/main/kotlin/cc/unitmesh/devti/practise/RenameLookupManagerListener.kt:62-66 | as written, mid-stream the listener adds more candidates than the stream has newlines |
| RenameLookup.OneLineBreak | src/main/kotlin/cc/unitmesh/devti/practise/RenameLookupManagerListener.kt:59 | `"foo\nba"` holds one newline |
| RenameLookup.IntendedStep | src/main/kotlin/cc/unitmesh/devti/practise/RenameLookupManagerListener.kt:62-66 | with the shortened list used, the buffer holds no newline. From a newline-free buffer, a chunk adds at most as many candidates as it brings newlines |
| RenameLookup.IntendedFeed | src/main/kotlin/cc/unitmesh/devti/practise/RenameLookupManagerListener.kt:55-67 | with the shortened list used, the buffer never holds a newline |
| RenameLookup.IntendedAddsAtMostOnePerLine | src/main/kotlin/cc/unitmesh/devti/practise/RenameLookupManagerListener.kt:55-67 | with the shortened list used, every candidate added mid-stream is paid for by a distinct newline of the stream |
| RenameLookup.Lookup.constructor | src/main/kotlin/cc/unitmesh/devti/practise/RenameLookupManagerListener.kt:92-94 | a new popup item list is empty |
| RenameLookup.Lookup.AddItem | src/main/kotlin/cc/unitmesh/devti/practise/RenameLookupManagerListener.kt:92-94 | `addItem` appends exactly the one name |
| RenameLookup.Lookup.AddItems | src/main/kotlin/cc/unitmesh/devti/practise/RenameLookupManagerListener.kt:76-84 | `addItems` appends the non-blank names in order and returns the last name |
| RenameLookup.OnChunk | src/main/kotlin/cc/unitmesh/devti/practise/RenameLookupManagerListener.kt:57-66 | one chunk moves buffer and popup exactly as `Step` says |
| RenameLookup.CollectSuggestions | src/main/kotlin/cc/unitmesh/devti/practise/RenameLookupManagerListener.kt:55-71 | the collect loop and the flush append exactly `StreamCandidates(chunks)` to the popup |
| CustomAgent.AgentConfig.constructor | src/main/kotlin/cc/unitmesh/devti/agent/CustomAgentChatProcessor.kt:33-39 | an agent starts in its initial state, with its name, its string form and its response action |
| CustomAgent.Trace.Emit | src/main/kotlin/cc/unitmesh/devti/agent/CustomAgentChatProcessor.kt:30 | every outside call is appended to the log, after those before it |
| CustomAgent.ModeOutcome | src/main/kotlin/cc/unitmesh/devti/agent/CustomAgentChatProcessor.kt:46-133 | the events of each response action, in the code's order, and the `devInCode` each leaves (see the per-mode lemmas below) |
| CustomAgent.Handle | src/main/kotlin/cc/unitmesh/devti/agent/CustomAgentChatProcessor.kt:28-140 | the whole of `handleChat`: the opening events, then either the missing-answer error or FINISHED, the mode's events and the DevIn runs (see `OpensWithPrompt` through `DevInRunsIffCode`) |
| CustomAgent.Request | src/main/kotlin/cc/unitmesh/devti/agent/CustomAgentChatProcessor.kt:32 | the request is the trimmed prompt (see `OpensWithPrompt`) |
| CustomAgent.NoResponseError | src/main/kotlin/cc/unitmesh/devti/agent/CustomAgentChatProcessor.kt:39 | the error text naming the agent's string form and the request (see `NoResponseStops`) |
| CustomAgent.DevInOf | src/main/kotlin/cc/unitmesh/devti/agent/CustomAgentChatProcessor.kt:59-62 | the parsed code's text when its language is DevIn, else nothing; also lines 79-82 (see `DirectStripsQuotes`, `DevInsHandsOnMessage`) |
| CustomAgent.Opening | src/main/kotlin/cc/unitmesh/devti/agent/CustomAgentChatProcessor.kt:29-37 | the prompt shown as the user's, the agent marked handling, the trimmed prompt sent (see `OpensWithPrompt`) |
| CustomAgent.DevInRuns | src/main/kotlin/cc/unitmesh/devti/agent/CustomAgentChatProcessor.kt:135-139 | no run for empty code; otherwise one run per processor, in order, each with the agent and the code |
| CustomAgent.OpensWithPrompt | src/main/kotlin/cc/unitmesh/devti/agent/CustomAgentChatProcessor.kt:29-37 | the first event shows the prompt as the user's. The agent is marked handling, then the executor gets the trimmed prompt |
| CustomAgent.NoResponseStops | src/main/kotlin/cc/unitmesh/devti/agent/CustomAgentChatProcessor.kt:35-41 | with no answer, one error naming the agent and the request is logged. Nothing else happens, the agent stays handling and no DevIn code runs |
| CustomAgent.RenderingKeepsState | src/main/kotlin/cc/unitmesh/devti/agent/CustomAgentChatProcessor.kt:46-139 | no rendering event and no DevIn run changes the agent's state |
| CustomAgent.FinishedBeforeRendering | src/main/kotlin/cc/unitmesh/devti/agent/CustomAgentChatProcessor.kt:43-46 | with an answer, for every mode including Flow, the agent is finished before the first rendering event and its state never changes again |
| CustomAgent.FlowOnlyLogs | src/main/kotlin/cc/unitmesh/devti/agent/CustomAgentChatProcessor.kt:101-103 | Flow logs one error and nothing else; no DevIn code is handed on |
| CustomAgent.TextChunkFillsInput | src/main/kotlin/cc/unitmesh/devti/agent/CustomAgentChatProcessor.kt:85-99 | TextChunk puts the in-order concatenation, unstripped, into the input box, and the calls come in the code's order |
| CustomAgent.WebViewShowsText | src/main/kotlin/cc/unitmesh/devti/agent/CustomAgentChatProcessor.kt:105-118 | WebView shows the concatenation in a web view and then hides the progress bar; no DevIn code |
| CustomAgent.DirectStripsQuotes | src/main/kotlin/cc/unitmesh/devti/agent/CustomAgentChatProcessor.kt:47-66 | Direct strips one pair of double quotes exactly when both ends carry one and the length is at least 2. Its events come in the code's order, and the code is handed on exactly when it parses as DevIn |
| CustomAgent.DevInsHandsOnMessage | src/main/kotlin/cc/unitmesh/devti/agent/CustomAgentChatProcessor.kt:120-132 | DevIns hands the whole message on as DevIn code |
| CustomAgent.ModeRunsNothing | src/main/kotlin/cc/unitmesh/devti/agent/CustomAgentChatProcessor.kt:46-133 | no rendering event runs a DevIn processor |
| CustomAgent.DevInRunsIffCode | src/main/kotlin/cc/unitmesh/devti/agent/CustomAgentChatProcessor.kt:135-139 | a DevIn processor runs exactly when there is an answer, its code is non-empty and there are processors. Each run gets the agent and that code |
| CustomAgent.OnlyTailRuns | src/main/kotlin/cc/unitmesh/devti/agent/CustomAgentChatProcessor.kt:135-139 | behind a prefix that runs nothing, the runs are exactly those of the tail |
| CustomAgent.CollectText | src/main/kotlin/cc/unitmesh/devti/agent/CustomAgentChatProcessor.kt:86-93 | the StringBuilder fed inside `collect` holds the chunks concatenated in order |
| CustomAgent.Render | src/main/kotlin/cc/unitmesh/devti/agent/CustomAgentChatProcessor.kt:45-133 | the `when` block logs exactly the mode's events and leaves the mode's `devInCode` |
| CustomAgent.RenderDirect | src/main/kotlin/cc/unitmesh/devti/agent/CustomAgentChatProcessor.kt:47-66 | the Direct branch logs exactly Direct's events and leaves Direct's code |
| CustomAgent.RenderMessage | src/main/kotlin/cc/unitmesh/devti/agent/CustomAgentChatProcessor.kt:68-83 | the Stream branch logs exactly Stream's events and leaves Stream's code |
| CustomAgent.RenderTextChunk | src/main/kotlin/cc/unitmesh/devti/agent/CustomAgentChatProcessor.kt:85-99 | the TextChunk branch logs exactly TextChunk's events and leaves no code |
| CustomAgent.RenderWebView | src/main/kotlin/cc/unitmesh/devti/agent/CustomAgentChatProcessor.kt:105-118 | the WebView branch logs exactly WebView's events and leaves no code |
| CustomAgent.RenderDevIns | src/main/kotlin/cc/unitmesh/devti/agent/CustomAgentChatProcessor.kt:120-132 | the DevIns branch logs exactly DevIns' events and leaves the message as code |
| CustomAgent.HandOff | src/main/kotlin/cc/unitmesh/devti/agent/CustomAgentChatProcessor.kt:135-139 | the hand-off logs exactly `DevInRuns` |
| CustomAgent.HandleChat | src/main/kotlin/cc/unitmesh/devti/agent/CustomAgentChatProcessor.kt:28-140 | `handleChat` logs exactly the events of `Handle`, leaves the agent in its state and yields its DevIn code |
| MvcContext.DomainMatches | java/src/main/kotlin/cc/unitmesh/idea/flow/MvcContextService.kt:17 | `domainRegex` matched against the whole text, `.` refusing line terminators (see `DomainMatchesIffSegment`) |
| MvcContext.ServiceMatches | java/src/main/kotlin/cc/unitmesh/idea/flow/MvcContextService.kt:18 | `serviceRegex` matched against the whole text: a one-line text ending in `service` or `serviceimpl` (see `ServiceSelectionIffSuffix`) |
| MvcContext.PatternMatches | java/src/main/kotlin/cc/unitmesh/idea/flow/MvcContextService.kt:17-18 | `Regex.matches` of the chosen one of the two expressions |
| MvcContext.DomainMatchesIffSegment | java/src/main/kotlin/cc/unitmesh/idea/flow/MvcContextService.kt:17 | the domain expression matches exactly a one-line text that holds `.model.`, `.entity.`, `.domain.` or `.dto.` somewhere |
| MvcContext.ServiceSelectionIffSuffix | java/src/main/kotlin/cc/unitmesh/idea/flow/MvcContextService.kt:18-37 | an import is a service exactly when its one-line text ends, in any case, with `service` or `serviceimpl` |
| MvcContext.DomainSelectionIffSegment | java/src/main/kotlin/cc/unitmesh/idea/flow/MvcContextService.kt:17-37 | an import is a domain class exactly when its one-line text holds, in any case, one of the four framed segments |
| MvcContext.Selects | java/src/main/kotlin/cc/unitmesh/idea/flow/MvcContextService.kt:36-37 | the filter at line 37: an import whose reference text, lower-cased, matches the whole pattern (see `ServiceSelectionIffSuffix`, `DomainSelectionIffSegment`) |
| MvcContext.SelectionIgnoresCase | java/src/main/kotlin/cc/unitmesh/idea/flow/MvcContextService.kt:37 | two import texts equal up to case are selected alike |
| MvcContext.SelectsLowerCaseText | java/src/main/kotlin/cc/unitmesh/idea/flow/MvcContextService.kt:37 | a lower-case import is selected exactly when the expression matches it as it stands |
| MvcContext.Selected | java/src/main/kotlin/cc/unitmesh/idea/flow/MvcContextService.kt:36-39 | the selection holds at most one text per import |
| MvcContext.SelectedExactly | java/src/main/kotlin/cc/unitmesh/idea/flow/MvcContextService.kt:36-39 | the selected texts are exactly the original-case references of the imports that match |
| MvcContext.DistinctFrom | java/src/main/kotlin/cc/unitmesh/idea/flow/MvcContextService.kt:67-68 | the scan behind `distinctBy`, with the names seen so far (see `DistinctFromKeeps`, `DistinctFromUnique`, `DistinctFromCovers`, `DistinctFromFirsts`) |
| MvcContext.DistinctFromKeeps | java/src/main/kotlin/cc/unitmesh/idea/flow/MvcContextService.kt:67-68 | `distinctBy` keeps only input classes whose name has not been seen |
| MvcContext.DistinctFromUnique | java/src/main/kotlin/cc/unitmesh/idea/flow/MvcContextService.kt:67-68 | `distinctBy` keeps pairwise different qualified names |
| MvcContext.DistinctFromCovers | java/src/main/kotlin/cc/unitmesh/idea/flow/MvcContextService.kt:67-68 | `distinctBy` loses no unseen name |
| MvcContext.DistinctByName | java/src/main/kotlin/cc/unitmesh/idea/flow/MvcContextService.kt:67-68 | `distinctBy { it.qualifiedName }` (see `DistinctByNameSpec`) |
| MvcContext.DistinctFromFirsts | java/src/main/kotlin/cc/unitmesh/idea/flow/MvcContextService.kt:67-68 | the filter keeps, in input order, exactly the first class of each unseen name, at increasing positions of the input |
| MvcContext.DistinctByNameSpec | java/src/main/kotlin/cc/unitmesh/idea/flow/MvcContextService.kt:67-68 | `distinctBy` keeps the first class of each qualified name, in input order, no name twice and no name lost |
| MvcContext.Texts | java/src/main/kotlin/cc/unitmesh/idea/flow/MvcContextService.kt:50 | one string form per class, in order |
| MvcContext.ServiceText | java/src/main/kotlin/cc/unitmesh/idea/flow/MvcContextService.kt:50 | the string of line 50: `"\nnull\n"` for no list, otherwise the list joined by newlines between two newlines (see `ServiceTextLines`) |
| MvcContext.ServiceTextLines | java/src/main/kotlin/cc/unitmesh/idea/flow/MvcContextService.kt:50 | between its framing newlines, the service prompt holds exactly the models' string forms, one per line |
| MvcContext.ControllerText | java/src/main/kotlin/cc/unitmesh/idea/flow/MvcContextService.kt:76 | the string of line 76 (see `ControllerTextEndsWithPath`, `ControllerTextLines`) |
| MvcContext.ControllerTextEndsWithPath | java/src/main/kotlin/cc/unitmesh/idea/flow/MvcContextService.kt:76 | the controller prompt ends with `"\n//current path: " + path + "\n"` |
| MvcContext.ControllerTextLines | java/src/main/kotlin/cc/unitmesh/idea/flow/MvcContextService.kt:76 | between the opening newline and the path line, the controller prompt holds exactly the class list, one entry per line |
| MvcContext.ControllerTextInjective | java/src/main/kotlin/cc/unitmesh/idea/flow/MvcContextService.kt:76 | two prompts for one path are equal only when their class lists are |
| MvcContext.ClassListAsWritten | java/src/main/kotlin/cc/unitmesh/idea/flow/MvcContextService.kt:72-74 | as written, one entry per class, each the context of the file itself, or empty when there is none |
| MvcContext.AsWrittenIgnoresClasses | java/src/main/kotlin/cc/unitmesh/idea/flow/MvcContextService.kt:72-74 | as written, every entry of the class list is the same text, whatever the classes |
| MvcContext.AsWrittenLosesTheService | java/src/main/kotlin/cc/unitmesh/idea/flow/MvcContextService.kt:72-74 | as written, when the builder describes the file and the one imported service differently, the entry is the file's text, not the service's |
| MvcContext.AsWrittenPromptDiffers | java/src/main/kotlin/cc/unitmesh/idea/flow/MvcContextService.kt:64-77 | in that case the controller prompt as written differs from the intended one |
| MvcContext.FileSelection | java/src/main/kotlin/cc/unitmesh/idea/flow/MvcContextService.kt:35-44 | the texts a Java file's imports select for one expression, none without an import list; both prompts' lookup frames are stated in it |
| MvcContext.IntendedControllerText | java/src/main/kotlin/cc/unitmesh/idea/flow/MvcContextService.kt:72-76 | the controller prompt with line 73 passing each class, not the file: the corrected half of the line-73 finding (see `IntendedPromptListsEachClass`) |
| MvcContext.ClassList | java/src/main/kotlin/cc/unitmesh/idea/flow/MvcContextService.kt:72-74 | as intended, one entry per class |
| MvcContext.ClassListDescribesEachClass | java/src/main/kotlin/cc/unitmesh/idea/flow/MvcContextService.kt:72-74 | as intended, entry `i` is the context of class `i`, or empty when there is none |
| MvcContext.IntendedPromptListsEachClass | java/src/main/kotlin/cc/unitmesh/idea/flow/MvcContextService.kt:72-76 | in the intended controller prompt, line `i` of the class list is the context of relevant class `i` |
| MvcContext.MvcContextService.constructor | java/src/main/kotlin/cc/unitmesh/idea/flow/MvcContextService.kt:13-34 | a new service has an empty cache and has looked nothing up |
| MvcContext.MvcContextService.Found | java/src/main/kotlin/cc/unitmesh/idea/flow/MvcContextService.kt:38-42 | a class is among those found exactly when the lookup returns it for one of the texts |
| MvcContext.MvcContextService.Filtered | java/src/main/kotlin/cc/unitmesh/idea/flow/MvcContextService.kt:35-44 | nothing for an absent import list; otherwise a class is returned exactly when the lookup returns it for one of the selected texts |
| MvcContext.MvcContextService.FilterImportByRegex | java/src/main/kotlin/cc/unitmesh/idea/flow/MvcContextService.kt:35-44 | returns the classes found for the selected imports, flattened in import order, or nothing for an absent list. Entries already cached stay, every selected text has been looked up, and no text twice |
| MvcContext.MvcContextService.GetOrPut | java/src/main/kotlin/cc/unitmesh/idea/flow/MvcContextService.kt:40-42 | `getOrPut` returns the lookup's answer. It calls the lookup only for an uncached text and stores what it got |
| MvcContext.MvcContextService.FoundSnoc | java/src/main/kotlin/cc/unitmesh/idea/flow/MvcContextService.kt:38-43 | `flatten` appends the classes of one more text |
| MvcContext.MvcContextService.ServicePrompt | java/src/main/kotlin/cc/unitmesh/idea/flow/MvcContextService.kt:46-62 | `"\nnull\n"` for an absent or non-Java file, otherwise the models joined by newlines between two newlines. Old cache entries stay, the lookup log only grows, and it gains exactly the texts the file's domain imports select |
| MvcContext.MvcContextService.ControllerPrompt | java/src/main/kotlin/cc/unitmesh/idea/flow/MvcContextService.kt:64-77 | `""` for an absent or non-Java file. Otherwise one entry per deduplicated service, then per deduplicated model, each entry the context of the file as line 73 asks, followed by the path line. Old cache entries stay, the lookup log only grows, and it gains exactly the texts the service and domain imports select |

## Left out

- The build configuration (build.gradle.kts) and the model factory (core/src/main/kotlin/cc/unitmesh/devti/llms/LlmFactory.kt) hold no logic of the three pieces.
- Coroutine plumbing is not modelled: `runBlocking`, `invokeLater`, `runReadAction` and `LLMCoroutineScope.launch`.
  - In Stream and DevIns mode, the `msg` read at lines 75 and 127 races with the launched coroutine. It is an arbitrary input of `Handle` and `HandleChat`.
  - The `ui.updateMessage` call inside that coroutine is not logged as an event.
- `ui.updateMessage` in Direct mode is an outside call. The text it returns is the input `rendered`.
- Outside calls are function values or events, and their internals are not part of this model:
  - `Code.parse`;
  - the executor;
  - `JavaPsiFacade.findClasses`;
  - `JavaClassContextBuilder`;
  - `LookupImpl.addItem`;
  - the chat panel;
  - `LanguagePromptProcessor`.
- The definitions of `CustomAgentState` and `CustomAgentConfig` are not in the available source; `AgentState` and `AgentConfig` stand for them.
  - The agent's initial state is named `Start` here.
  - The agent's string form, used in the error message at line 39, is its `asText` field.
- Lines 20-54 of `activeLookupChanged` are not modelled: the setting check, the PSI element lookup, the prompt template at lines 38-45 and the `llm.stream` call. The stream is the input sequence of chunks.
- The bundle message for `autodev.loading` is the key itself (`AddBundleMessage`). The default arguments of `addMessage` at line 69 are not spelled out.
- `RenameLookupElement` is the name it wraps.
- A `PsiClass` is a qualified name and its string form (what `joinToString` prints), and a file is its path and import list.
- A Java file without a virtual file is not modelled: line 76 of MvcContextService.kt reads `file.virtualFile.path`, which is null for a file held only in memory, and there `controllerPrompt` throws. `JavaFile` always has a path, so `ControllerPrompt` never fails.
- `findClasses` is fixed for the lifetime of the service. A project that changes between calls, which would make cached entries stale, is not modelled.
- Text.Lowercase: lower-cases only the ASCII letters, because Kotlin's full Unicode case mapping has no counterpart here. The selection lemmas hold for that mapping.
- Text.IsWhitespace: covers the code points Java's `isWhitespace` and `isSpaceChar` accept, all below U+10000. The model's strings are sequences of Unicode scalar values; Kotlin's are sequences of UTF-16 units, so lengths of text outside the Basic Multilingual Plane differ.
- `prepareControllerContext` returning null is left out: on a Java file it never does.

## Findings

| source | as written | input that shows it | evidently intended | confidence | as-written member | corrected member |
|---|---|---|---|---|---|---|
| src/main/kotlin/cc/unitmesh/devti/practise/RenameLookupManagerListener.kt:64 | `suggestionNames.dropLast(1)` discards its result, so `addItems` also receives the unfinished last line. The same fragment is added again later, completed or by the flush | the single chunk `"foo\nba"`: candidates `"foo"`, `"ba"`, `"ba"`; mid-stream two candidates for one newline | hand `addItems` the list without its last element, so only lines a newline has ended are added mid-stream | high, not executed | RenameLookup.TrailingFragmentAdded | RenameLookup.IntendedAddsAtMostOnePerLine |
| java/src/main/kotlin/cc/unitmesh/idea/flow/MvcContextService.kt:73 | the `map` over the relevant classes passes `file`, not `it`, to `getClassContext`, so every entry is the same text, whatever the classes: the builder's answer for the file, or empty | a controller importing one service, with the builder describing the file and the service differently: the class list holds the file's text instead of the service's | describe each service and model class (`getClassContext(it, false)`) | high, not executed | MvcContext.AsWrittenPromptDiffers | MvcContext.IntendedPromptListsEachClass |

`CollectSuggestions` and `ControllerPrompt` both keep the behaviour as written, since that is what the code does. The corrected counterparts sit beside them: `IntendedStep` and `IntendedFeed` for the listener, `ClassList` and `IntendedControllerText` for the controller prompt.
