# Choice Jini: conversation engine, persistence, stream and their smaller cores

A Dafny model of the support assistant's backend and of the two places in its frontend and evaluation harness that
read what the backend prints. `dafny verify dfyconfig.toml` checks the whole project.

**The conversation engine** (`Transcript`, `Curation`, `Renderers`, `Breakpoints`, `ThreadHeap`, `Tickets`,
`Artifacts`, `Conversation`, `ChatLoop`). A thread is an append-only list of turns. From it the code derives a merged
message array with tool results in front, a curated array in which spent results are stubs behind a moving watermark,
and a copy of either with at most two cache markers. `Conversation` is one session as a state machine: a message
arrives, the model answers or fails, tools run in parallel, results are recorded one by one, events are yielded, a
widget event or a crash or a disconnect strikes at any point. A *run* is any list of these actions; one that cannot
happen in a state changes nothing. `ThreadHeap.Thread` and `ChatLoop.ChatEvents` are the same code in imperative form,
over heap-allocated dicts, and are proved to follow the functions and the machine. On top of the machine
`TurnInvariants`, `RunTurns`, `RunEvents`, `RunCalls`, `CachePrefix`, `LegalWire` and `LegalRuns` prove what every run
keeps, from a new session or from one that was read back; `Dispatches`, `Streams`, `Initiative`, `Replays` and
`Requests` say what becomes of the words: of a handler's answer, in the stream, before the ticket guard, and in every
later request; `RunExamples` shows runs of the cases in which it promises less. `Renderers` holds the ten stub
templates as they are worded, `Artifacts` the cards that end a message.

**The persistence protocol** (`Json`, `Sorting`, `Persistence`, `PersistenceProofs`, `WriteQueue`, `Rehydration`,
`Restarts`, `StoreExamples`, `SessionCache`). Producers, a bounded queue and a batching writer as steps, with every
failure point; reading a thread back from a database that reorders JSON keys, whether the session can go on from there,
and that it goes on as a run of the machine with the prompt cache intact; many `get_thread` calls meeting at one await.

**The stream** (`Text`, `Sse`, `Harness`, `ShellClient`). The printer, the incremental reader of the shell, the
harness's own parser and the shell's callbacks, joined to the engine in `ShellClient.EveryStreamIsShown` and
`ShellClient.HarnessReadsEveryStream`. The wire format is that of section 9.2.6 of the HTML Living
Standard, restricted to LF and CRLF as the code is.

**Smaller cores**: `Rrf` (rank fusion), `PipeTables` (table splitting), `Spans`, `Forests`, `SpanTree` (span nesting
under concurrent tools and the tree drawn from it), `Holdings` (rounding and reconciliation).

## Assumptions

- Requests on one session come one at a time (the machine accepts a message only when idle).
- Reply blocks are dicts with distinct keys and no cache marker; calls carry an id and a name (`ReplyOk`).
- The curation and cache flags, the registry of renderers and the tool table do not change during a run.
- A string that parses as JSON is the term `Dumped(doc)`, so parsing undoes serialising; any other string is `Str`.
- `Legal` is what the Messages API checks of roles and blocks: alternation from and to the user, no empty message, ids of
  calls not repeated, every call answered in the next message and nothing else. It does not look inside texts and images.
  `Accepted` adds what it asks when `thinking` is `enabled`: a thinking block in front of the last assistant message, if
  that made calls. With thinking off or adaptive the two are the same.
- A run starts from stored turns of the shape that every run gives them (`TurnsOk`), none at all in a new session; where
  earlier calls matter, also from calls that sent what those turns give (`Resumed`). Restarts are shown to keep both.
- Four things the code relies on are *not* assumed, because they can fail. A tool call may come with a stop reason other
  than `tool_use`, a reply may be empty, it may repeat an id, and `tool_choice: none` may be ignored: the theorems say
  exactly what then happens.
- `json.dumps` of a dict is one line that ends in a brace and parses back to it (`Faithful`, `EndsInBrace`).

## Where the code falls short of its own promise

- **Legal wire.** The next request is legal if and only if the run was clean (`LegalRuns.CleanRun`): no earlier step
  left a tool call unanswered (a reply with calls whose stop reason is not `tool_use`, or a crash or disconnect between
  storing such a reply and recording its results), no reply was stored empty (nothing but thinking, or nothing at all),
  and none used a call id again. `LegalIffClean` is the equivalence for every run, `NextCallRefused` the failing family,
  `TruncatedReplyExample` and `EmptyReplyExample` members of it, and `BrokenForGood` says that no later call recovers.
- **Thinking.** With AGENT_THINKING=minimal on Haiku requests carry `thinking: enabled`, while the thinking blocks of
  replies are dropped before they are stored. A legal request is then accepted if and only if the newest reply made no
  calls (`LegalIffClean`), so every call that goes on from a round of tools is refused, however clean the run
  (`ToolRoundRefused`); `ThinkingExample` is such a run of one message.
- **Restart.** Reading a thread back keeps its next request legal if and only if what was read owes no answer and is
  clean (`RestartLegalIff`). With no write refused or failed that fails only when the process died with the result of a
  stored call still queued (`QueuedResultExample`). A single lost row breaks it wherever the row is, when it held calls
  or results (`LostRowRefused`; `LostRowExample` loses either in a session that could have gone on).
- **Call bound.** `max_tool_rounds + 1` calls a message hold if and only if `tool_choice: none` is honoured: a call is
  beyond the bound exactly if a wrap-up reply used tools all the same, and by one for each (`BeyondCapIff`).
  `CapExceeded` is a run beyond it for every setting.
- **`dropped_writes`.** It equals rejections plus failed writes if and only if no connection failed to be released
  after its batch; such a failure counts the whole batch again (`WriterSafety`; `DroppedWithoutLoss` is a run in which
  it reads 1 although every write came through).
- **Rank fusion.** A chunk found by both legs beats every chunk found by one if and only if the depth is below `k + 2`,
  that is 62; the route's depths stop at 40 (`AgreementWinsIff`, `TooDeep`, `BothLegsFirst`).
- **Span tree.** Every span is drawn exactly once if and only if ids are distinct and no chain of parents closes
  (`ShownOnceIff`, for any list); every trace that the backend writes is such a list (`TurnDrawn`).

## Model

| member | source | states |
|---|---|---|
| `Json.CanonicalIffSameData` | backend/app/agent/store.py:118-127 | two documents have the same canonical form if and only if they hold the same data up to key order, at every depth |
| `Json.CanonicalKeepsData` | backend/app/agent/store.py:118-127 | canonicalising loses and invents nothing |
| `Json.CanonicalIdempotent` | backend/app/agent/store.py:118-127 | a second pass changes nothing |
| `Json.CanonicalDictFacts` | backend/app/agent/store.py:118-127 | a canonical dict has the same keys, sorted, and canonical values under them |
| `Json.ReorderedThenCanonical` | backend/app/agent/store.py:118-133 | whatever order the database gives the keys, reading back gives the stored bytes |
| `Transcript.MergePartitioned` | backend/app/agent/store.py:184-217 | every user message of the merged array has its tool results in front, through any number of merges |
| `Transcript.MergeContinues` | backend/app/agent/store.py:184-217 | read as a flat list of (role, block), the array of a prefix of the turns is a prefix of the array of all of them, when no result comes late |
| `Transcript.MergeSameShape` | backend/app/agent/store.py:184-217 | turn by turn alike gives message by message alike, through merging and repeated stable partition |
| `Transcript.LastUserMessageIndex` | backend/app/agent/store.py:220-245 | the loop finds the index of the last message of the array as it stood when the newest user text was stored |
| `Transcript.AnswersIffSameIds` | backend/app/agent/store.py:202-217 | with results in front, a reply answers a message exactly when the two id lists are equal, in order |
| `Transcript.SameShapeSameLegality` | backend/app/agent/curation.py:387-443 | two arrays of the same shape are both legal or both not |
| `Curation.PruneIffSameVisible` | backend/app/agent/curation.py:107-114 | pruning erases exactly the difference under foreign keys, at every depth |
| `Curation.PruneLeavesOnlyAllowed` | backend/app/agent/curation.py:107-114 | no foreign key is left, a second pass changes nothing, lists keep their length |
| `Curation.StubIgnoresHiddenData` | backend/app/agent/curation.py:374-384 | envelopes that differ only outside the whitelist give the same stub |
| `Curation.CuratedSimulatesLossless` | backend/app/agent/curation.py:387-443 | the curated array has the messages, roles, blocks and positions of the lossless one and differs only in the content of tool results |
| `Curation.OnceStubbedAlwaysStubbed` | backend/app/agent/curation.py:360-371 | a stubbed turn stays stubbed with the same text whatever is appended |
| `Curation.WatermarkMonotone` | backend/app/agent/curation.py:360-371 | the watermark never goes back |
| `Curation.ReplacedIff` | backend/app/agent/curation.py:340-435 | a projection changes a turn if and only if it is a result below the watermark, no failure, of a registered tool that is not kept verbatim, and does not read as its stub already |
| `Curation.PartShows` | backend/app/agent/curation.py:387-435 | every result block of such a turn carries the stub of its own content and is otherwise the stored one; every other turn is the stored one |
| `Replays.AnswerInLaterCalls` | backend/app/agent/curation.py:340-443 | what a call answered, in every later call of every run: its block stands there with its id and flag, word for word, unless curation is on, a newer message was asked and it is a success of a tool with a stub; a failure so always stands verbatim |
| `Renderers.StubsActionable` | backend/app/agent/curation.py:130-384 | with the templates as the source words them, the last sentence of every stub of all ten tools, whatever was stored, names the tool to call again |
| `Renderers.WhitelistSuffices` | backend/app/agent/curation.py:78-101 | the whitelist of each of the ten tools grants its renderer all it reads: pruning the envelope first does not change which template it picks nor what it fills in |
| `Renderers.StubShowsOnly` | backend/app/agent/curation.py:78-101 | for each of the ten tools: envelopes alike in kinds, flags, lengths of lists and labels leave the same stub, whatever amounts, prices, names or masked addresses they hold |
| `Renderers.StubTells` | backend/app/agent/curation.py:144-320 | what the stub of each of the ten tools tells of the envelope it replaces: empty or not, how many, partial or not, e-mailed or downloaded and the name of the file, every matched question, the ids of the newest forty notes; else it is the generic text |
| `Renderers.DigitsRead` | backend/app/agent/curation.py:144-320 | a count is written in digits that read back as that count |
| `Text.CollapseIsOneLine` | backend/app/agent/curation.py:121-127 | a label is one line whose words stand one blank apart, and collapsing it again changes nothing |
| `Renderers.PruneGet` | backend/app/agent/curation.py:107-114 | looking up a granted key in the pruned envelope gives the pruned value |
| `Renderers.SourceNamesDistinct` | backend/app/agent/curation.py:323-337 | the tool names of the table are distinct, so a lookup finds its own renderer |
| `Breakpoints.BreakpointsAreAdditive` | backend/app/agent/store.py:281-336 | erasing the markers gives back the array |
| `Breakpoints.BreakpointsBounded` | backend/app/agent/store.py:281-336 | on any array: no marker more when there is no tip to mark, else one on the tip or two, exactly where the rule says, and no other message changes |
| `Breakpoints.SecondMarkerIs` | backend/app/agent/store.py:300-336 | the second marker sits on a message exactly when the tip is more than 19 blocks past the entry and that message is the deepest one before the tip still within 19 |
| `Breakpoints.BreakpointKeepsLegality` | backend/app/agent/store.py:281-336 | markers change nothing the API checks |
| `ThreadHeap.Thread.AppendTurn` | backend/app/agent/store.py:425-451 | the log grows by one turn with the next seq and canonical content, in fresh dicts |
| `ThreadHeap.Thread.Transform` | backend/app/agent/curation.py:426-435 | the memoised transform returns the stub of a spent turn and None otherwise, which turns are spent being `Curation.ReplacedIff`; the dicts handed out are fresh, in neither cache nor store, and no memo is replaced |
| `ThreadHeap.Thread.FindWatermark` | backend/app/agent/curation.py:360-371 | the backward walk finds the seq of the newest user text |
| `ThreadHeap.Thread.Messages` | backend/app/agent/store.py:184-217 | the loop builds the lossless or the curated array and writes no stored dict |
| `ThreadHeap.MarkedCopy` | backend/app/agent/store.py:254-278 | the marked message is a copy; only its last dict is new, and none is written |
| `ThreadHeap.FindAnchor` | backend/app/agent/store.py:312-330 | the walk up from the entry finds the deepest message within reach |
| `ThreadHeap.WithHistoryBreakpoint` | backend/app/agent/store.py:281-336 | the marked copy is the specified one and every dict in it is the caller's own or new |
| `Tickets.ScanBack` | backend/app/agent/tickets.py:199-237 | the two-phase walk returns the newest user text and exactly the bubbles between it and the user text before it |
| `Tickets.TicketCallIsUserInitiated` | backend/app/agent/tickets.py:199-237 | the verdict is the rule: the newest user text asks, or it affirms and a bubble of that exchange carries an offer |
| `Tickets.VerdictFixedByUserText` | backend/app/agent/tickets.py:199-237 | nothing appended after the newest user text changes the verdict |
| `Initiative.VerdictOnWords` | backend/app/agent/tickets.py:199-237 | the verdict on a message stored by the engine is one on the words typed: they ask to escalate, or they affirm and an offer of the assistant stands |
| `Initiative.ReplyIsRead` | backend/app/agent/tickets.py:78-84 | a stored reply is read as all its texts, its thinking aside, and is a bubble exactly when it makes no call |
| `ChatLoop.ChatEvents` | backend/app/agent/loop.py:259-589 | every execution, also one that raises or is dropped at a yield, is a run of the machine that ends idle, emits the events of its finished stream and sends exactly the histories the machine logged; no unknown tool is reached, and no ticket is raised unless the newest user text asks for it |
| `ChatLoop.DispatchOutcome` | backend/app/agent/tools.py:494-550 | the outcome of a call is the dispatcher's, of which `Dispatches.DispatchSays` says what it passes on; an unknown tool and an unasked ticket never reach a handler |
| `Dispatches.DispatchSays` | backend/app/agent/tools.py:494-550 | case by case: an outcome is a success exactly if the call was let through and its handler succeeded, with the envelope as it was given and the model's view of it; a failure keeps its code and message; no other outcome has a code or an envelope |
| `Dispatches.ExpiryEndsMessage` | backend/app/agent/loop.py:488-571 | if a handler that was reached answers that the login expired, no model call is made before the next message and a stream that runs to its end ends in that error, whatever else happens |
| `ChatLoop.Gather` | backend/app/agent/loop.py:460-475 | outcomes come in the order of the calls, and exactly the calls let through reach their handlers |
| `ChatLoop.RecordResults` | backend/app/agent/loop.py:477-571 | the loop over the outcomes is the machine's recording steps, with the events they yield, of which `Streams.StreamTold` says what they tell, and its two flags are the machine's |
| `ChatLoop.ToolRound` | backend/app/agent/loop.py:447-571 | a round of tools is the machine's, also when it is cut while the tools run, and reaches the handlers of the calls that the history it started from lets through |
| `ChatLoop.OpenCall` | backend/app/agent/loop.py:339-398 | the top of the loop issues the machine's next call, and the logged history is the one built on the heap |
| `ChatLoop.ModelRound` | backend/app/agent/loop.py:396-453 | a streamed round, with its failure, is the machine's deltas and reply |
| `ChatLoop.Finish` | backend/app/agent/loop.py:544-589 | a request ends by yielding one terminal event and returning |
| `Streams.StreamTold` | backend/app/agent/loop.py:396-589 | a stream that ran to its end tells exactly what happened, in order: every delta of the model, each call of each round started and finished with its flag, its card when it makes one, and done with the counters or the error |
| `Streams.CutStreamTold` | backend/app/agent/loop.py:222-256 | one that an exception cut off tells the beginning of that, and the terminal error behind it unless it had ended |
| `Artifacts.RoundAnswersIff` | backend/app/agent/loop.py:539-563 | on every run, by the events sent: with the last result of a round the request ends in done without a further model call if and only if the stream holds a card for every answer since the round was announced |
| `Artifacts.DataCardShowsEnvelope` | backend/app/agent/loop.py:192-194 | a data card holds every field of the envelope but its kind |
| `Artifacts.CardSays` | backend/app/agent/loop.py:162-195 | a call makes a card if and only if it succeeded with a form, a ticket, a file or data, and the first three show the fields of the envelope that they stand for |
| `ChatLoop.RunChatStream` | backend/app/agent/loop.py:198-256 | on a session with any past: unless its consumer drops it, the stream yielded is the one the session finishes, with exactly one terminal event, the last, whatever raised |
| `ChatLoop.ExecIsRunFromStart` | backend/app/agent/loop.py:259-589 | so the theorems about machine runs hold of executions of the loop |
| `RunTurns.TurnInvAlways` | backend/app/agent/store.py:425-451 | on every run stored turns are canonical, unmarked, of the shape of their kind, with increasing seqs |
| `RunEvents.StoredGrows` | backend/app/agent/loop.py:488-537 | recording a result appends it with its tool and flag, and behind it the memo of the ticket exactly when it raised one, which is put down to the message being answered |
| `RunEvents.OneTerminalAlways` | backend/app/agent/loop.py:222-256 | every stream consumed to its end has exactly one terminal event, last, wherever an exception struck |
| `RunEvents.NameInvAlways` | backend/app/agent/loop.py:396-589 | only the five event names of the contract are ever emitted |
| `RunEvents.ModelCallsBounded` | backend/app/agent/loop.py:339-453 | at most max_tool_rounds + 1 calls a message, plus one for each wrap-up reply that used tools all the same |
| `RunEvents.BeyondCapIff` | backend/app/agent/loop.py:339-453 | at every call of every run: it is beyond that bound if and only if such a reply came before it in the message, and by exactly as many as came |
| `RunExamples.CapExceeded` | backend/app/agent/loop.py:339-390 | for every setting a run with one call too many: one tool round after another, the last against tool_choice none |
| `RunEvents.NoCallAfterAuthExpiry` | backend/app/agent/loop.py:544-589 | from the moment an expired login is recorded no call is made until the next message |
| `RunEvents.TicketInvAlways` | backend/app/agent/loop.py:512-537 | every ticket of every run was asked for by the message being answered |
| `RunCalls.CallsInvAlways` | backend/app/agent/loop.py:339-395 | what every logged call sent is the projection of the turns it saw, and stays comparable with the turns there are now |
| `Requests.TypedIsSent` | backend/app/agent/loop.py:303-395 | what the customer types is in the request that answers it and in every later one |
| `Requests.MemoIsSent` | backend/app/agent/loop.py:339-395 | so is the memo of a widget, whenever it lands |
| `Requests.SaidIsSent` | backend/app/agent/loop.py:427-447 | and every block of a reply, its texts and its calls, all but its thinking |
| `Requests.CallsInPlace` | backend/app/agent/loop.py:339-390 | a call is a wrap-up exactly if at least max_tool_rounds calls of its message came before it, the first alone counts as the first, and each later one measures its gap from the tip that the one before it marked |
| `Requests.TipIsMarked` | backend/app/agent/store.py:281-336 | with the history cached every request ends in an ephemeral marker, but for a wrap-up, which has none in its history |
| `Requests.StoredAlways` | backend/app/agent/store.py:425-451 | on every run stored turns stay, new ones are numbered on without a gap, and no thinking is ever stored |
| `Requests.RequestCarries` | backend/app/agent/prompt.py:441-494 | a request is the instructions, their frozen answer, the history and the context of the round, in this order |
| `CachePrefix.SentStaysPrefix` | backend/app/agent/loop.py:303-395 | a call's history is a flat prefix of every later call's for the same message, and a first call's of every later call's at all |
| `CachePrefix.EntryIsPreviousFirstTip` | backend/app/agent/loop.py:297-303 | a message's first call measures its gap from the tip of the previous message's first call |
| `CachePrefix.FourMarkersAtMost` | backend/app/agent/prompt.py:382-392 | no request of any run carries more than four cache markers |
| `CachePrefix.PrimedMarkers` | backend/app/agent/prompt.py:466-494 | the primed exchange carries one |
| `CachePrefix.StoredNeverMarked` | backend/app/agent/store.py:254-278 | no stored turn ever carries a marker |
| `LegalWire.LegalIffSettled` | backend/app/agent/store.py:184-217 | an array with results in front that ends with the user is legal if and only if every call is answered next, in order, nothing else is, no message is empty and no id repeats |
| `LegalWire.OwedIsExact` | backend/app/agent/store.py:184-217 | read turn by turn a thread owes exactly the answers its merged array owes, and is beyond repair exactly when the array is |
| `LegalWire.DebtsAlways` | backend/app/agent/loop.py:427-571 | on every run, from any stored turns: while no step left a call unanswered they owe exactly the results still to be recorded; after one that did no request can be legal |
| `LegalRuns.LegalIffClean` | backend/app/agent/loop.py:427-571 | at every call of every run the history, curated and marked, is legal if and only if no step left a call unanswered, kept nothing of a reply or used an id again; and it is accepted if and only if, besides, thinking is not enabled or the newest reply made no calls |
| `LegalRuns.CallIsLegalIffClean` | backend/app/agent/loop.py:339-398 | so is what was actually sent, at the step that sent it |
| `LegalRuns.OwesNothingIffLegal` | backend/app/agent/store.py:184-217 | stored turns that end with the user merge to a legal array if and only if they owe nothing, no reply among them is empty and no id repeats |
| `LegalRuns.ToolRoundRefused` | backend/app/config.py:283-304 | with thinking enabled every call that goes on from a round of tools is refused, on every run |
| `RunExamples.ThinkingExample` | backend/app/config.py:283-304 | a clean run of one message and one round of tools that ends in such a call |
| `LegalRuns.BrokenForGood` | backend/app/agent/loop.py:339-398 | once one such step has happened, no later call of the session is legal |
| `LegalRuns.NextCallRefused` | backend/app/agent/loop.py:427-447 | the failing family: after a cut-off call, an empty reply or a repeated id the request ends normally and the next message is refused |
| `LegalRuns.TruncatedReplyExample` | backend/app/agent/loop.py:447-447 | a run of two messages that ends in a refused request: one call cut off by max_tokens |
| `LegalRuns.EmptyReplyExample` | backend/app/agent/loop.py:427-431 | another: one empty reply |
| `PersistenceProofs.WriterSafety` | backend/app/agent/store.py:504-596 | attempted, in hand and queued are exactly the accepted jobs in order; dropped_writes is rejections plus failures if and only if no release failed |
| `PersistenceProofs.RefusedIffFull` | backend/app/agent/store.py:504-516 | on every run the writes refused are exactly those that met a full queue, every other one is accepted, the queue never holds more than its bound and a batch never more than 50 |
| `StoreExamples.DroppedWithoutLoss` | backend/app/agent/store.py:574-596 | a run in which one release fails: nothing is refused, fails or is left over, and dropped_writes is 1 |
| `PersistenceProofs.DrainedOnClose` | backend/app/agent/store.py:365-380 | when the writer has returned, every job accepted before close() has been attempted |
| `PersistenceProofs.RowsAlways` | backend/app/agent/store.py:574-618 | every row of a thread in memory is the in-memory turn with that seq, and nothing is missing unless a write was lost or is on its way |
| `WriteQueue.ThreadStore.Enqueue` | backend/app/agent/store.py:504-516 | a full queue counts one dropped write, otherwise the job is accepted |
| `WriteQueue.ThreadStore.AppendTurn` | backend/app/agent/store.py:425-451 | the turn is in memory, and its one job, which writes the thread's row and the turn's, is enqueued or counted as dropped |
| `WriteQueue.ThreadStore.WakeUp` | backend/app/agent/store.py:558-572 | the items taken are the first of the queue, up to a batch, and what is behind them stays; when it returns exactly their jobs have been attempted, and it stops if the sentinel was among them |
| `WriteQueue.ThreadStore.WriteBatch` | backend/app/agent/store.py:574-596 | every job of the batch is attempted, in order, while appends, new threads and close() go on; the rows of the writes that succeeded are there, each other write is counted once, and the whole batch once more if its connection is not released |
| `WriteQueue.ThreadStore.WriterLoop` | backend/app/agent/store.py:558-572 | from any state it goes on without losing a turn in memory, an accepted job or a row; attempted and queued are the accepted jobs in order, dropped_writes is what was refused or failed, and when it returns close() has come and every job accepted before it was attempted |
| `WriteQueue.ThreadStore.OpenThread` | backend/app/agent/store.py:414-423 | a new thread is empty, under an id no row has, and its row is enqueued or dropped |
| `WriteQueue.ThreadStore.Close` | backend/app/agent/store.py:365-380 | the sentinel goes behind every accepted job, at once or as soon as a full queue has room |
| `Rehydration.RestartReadsOnlyStoredTurns` | backend/app/agent/store.py:520-554 | whatever writes were lost, a restart reads only turns the conversation held, in order |
| `Rehydration.RestartReadsPrefix` | backend/app/agent/store.py:520-554 | with no write refused or failed, a restart at any moment reads the conversation up to some turn, and what is missing is exactly what the queue still held |
| `Rehydration.RestartIsIdentity` | backend/app/agent/store.py:520-554 | with nothing dropped and nothing left to write, the rehydrated thread has the same turns and the same messages array |
| `Restarts.NextRequestLegalIff` | backend/app/agent/store.py:520-554 | any list of stored turns with a user message behind it is legal if and only if it owes nothing, says something each time and repeats no id, and accepted unless thinking is enabled and its newest reply made calls |
| `Restarts.CutLegalIff` | backend/app/agent/store.py:520-554 | a clean conversation cut off after any turn goes on legally if and only if the cut is not inside a round of tools |
| `Restarts.RestartLegalIff` | backend/app/agent/store.py:520-554 | so whatever rows were lost; and with none refused or failed, exactly if as many results as calls were read |
| `Restarts.LostRowRefused` | backend/app/agent/store.py:574-596 | a thread that owes nothing, without any one of its rows that held calls or results: the next request is refused |
| `Restarts.RestartResumes` | backend/app/agent/store.py:520-554 | with no write refused or failed the session goes on as a run from a front of its turns and from exactly the calls that saw no more than that front |
| `Restarts.PrefixSurvivesRestart` | backend/app/agent/store.py:520-554 | what a first call sent before the restart is a flat prefix of what every call sends after it, if the turns it saw were read back; so is any call for the same message, or without curation |
| `StoreExamples.QueuedResultExample` | backend/app/agent/store.py:520-554 | a run that loses nothing and restarts with one result still queued: the session could go on, what is read is refused |
| `StoreExamples.LostRowExample` | backend/app/agent/store.py:574-596 | a run in which one write fails, of the call or of its result, and all else is written: the session could go on, what is read is refused |
| `SessionCache.OneThreadPerSession` | backend/app/agent/store.py:401-423 | however calls interleave at the await, all return the one cached object and at most one new-thread row is enqueued |
| `SessionCache.CachedForGood` | backend/app/agent/store.py:401-423 | the cached object never changes once it is there |
| `Sse.ReadSse` | frontend/src/chat/agent.ts:179-233 | over any chunks the nested loops deliver what reading the whole text character by character delivers, flushing the half-open frame |
| `Sse.WireRead` | frontend/src/chat/agent.ts:179-233 | any event stream under any chunking, with comments, other fields, several data lines and optional spaces: each block gives the frame it says or none, up to the first terminal one, and a block left open at the end is delivered unless the read broke |
| `Sse.RoundTrip` | frontend/src/chat/agent.ts:179-233 | printed frames come back in order up to the first terminal one, for every chunking, with LF or CRLF |
| `Sse.ReadStopsAtTerminal` | frontend/src/chat/agent.ts:194-205 | on any text at all delivery stops at the first terminal frame |
| `Sse.FeedConcat` | frontend/src/chat/agent.ts:208-222 | reading in two pieces is reading in one |
| `Harness.ParseSse` | backend/evals/harness.py:437-453 | the loops return the events of the text's pieces with their data parsed, or raise |
| `Harness.RaisesIff` | backend/evals/harness.py:437-453 | it raises exactly when a data line of some piece that is not blank holds no JSON |
| `Harness.HarnessRoundTrip` | backend/evals/harness.py:437-453 | the second reader recovers exactly the printed list |
| `ShellClient.StreamAgentChat` | frontend/src/chat/agent.ts:260-343 | for every way the connection can go the exact callbacks: none when aborted, one error before a body, else those of the frames read, with exactly one of onDone and onError, last |
| `ShellClient.EveryStreamEndsOnce` | frontend/src/chat/agent.ts:294-343 | every stream of every run of the engine reaches the shell frame by frame and ends in the callback of its terminal event |
| `ShellClient.EveryStreamIsShown` | frontend/src/chat/agent.ts:294-343 | every finished stream of every run, under any chunking and line ending: the deltas shown joined are its deltas joined, the tool callbacks are its tool events and the cards its cards, in order, and the last callback passes on its counters or its error code |
| `ShellClient.WordsReachScreen` | frontend/src/chat/agent.ts:294-343 | from the model to the screen: the text shown of a request that ran to its end is what the model said in it |
| `ShellClient.HarnessReadsEveryStream` | backend/evals/harness.py:437-453 | from every stream of every run of the engine the harness recovers each event, name and data, and never raises |
| `Rrf.RrfFuse` | backend/app/kb/search.py:41-67 | the loops return each chunk found once, best score first, smaller id on a tie, with its first row |
| `Rrf.HybridSearch` | backend/app/kb/search.py:78-95 | the answer is the first top_k hits of the fusion of the one or two legs at that depth |
| `Rrf.FusedIffInReach` | backend/app/kb/search.py:78-97 | a chunk takes part in the fusion exactly when one of the rankings holds it among its first 20 rows or its first 2 * top_k |
| `Rrf.AgreementWinsIff` | backend/app/kb/search.py:41-57 | agreement between the legs beats any single hit if and only if the depth is below k + 2 |
| `Rrf.TooDeep` | backend/app/kb/search.py:41-57 | two legs that show it fails from k + 2 on |
| `Rrf.BothLegsFirst` | backend/app/kb/router.py:44-44 | for every top_k the route accepts, a chunk of both legs precedes every chunk of one |
| `Rrf.SwapLegs` | backend/app/kb/search.py:41-67 | swapping the legs changes neither order nor scores |
| `Rrf.OneLegKeepsOrder` | backend/app/kb/search.py:84-88 | without an embedding the answer keeps the order of the text search |
| `Rrf.RankingUnique` | backend/app/kb/search.py:56-56 | scores fix the answer |
| `PipeTables.SplitPipeTables` | frontend/src/chat/pipeTable.ts:61-97 | without a table the text comes back as it is; otherwise the lines are covered in order and the segments are those of the cover |
| `PipeTables.CoverUnique` | frontend/src/chat/pipeTable.ts:61-97 | there is only one such cover |
| `PipeTables.LinesConserved` | frontend/src/chat/pipeTable.ts:61-97 | put together again the pieces give the lines: none is lost, doubled or moved |
| `PipeTables.SegmentsWellFormed` | frontend/src/chat/pipeTable.ts:66-96 | rows are as wide as their header and no two text segments are adjacent |
| `PipeTables.TextSegmentsAreStable` | frontend/src/chat/pipeTable.ts:61-97 | a produced text segment holds no table, so splitting it again returns it |
| `PipeTables.SplitGfm` | frontend/src/chat/pipeTable.ts:30-97 | for any text under the source's own rules: rows fit their header, no text segment holds a table or stands beside another, the lines of the pieces put together are the text, a table starts at a header over as many delimiter cells and goes on to the first line without a pipe; and a printed document of any number of tables and texts, however padded, comes back as those texts and those tables, short rows padded and long ones cut |
| `PipeTables.CellsRoundTrip` | frontend/src/chat/pipeTable.ts:30-35 | a line of trimmed cells, with any padding and with or without the outer pipes, reads back as those cells |
| `PipeTables.DelimiterCellIff` | frontend/src/chat/pipeTable.ts:27-41 | a delimiter cell is one or more dashes with a colon allowed at each end, and nothing else |
| `Spans.TreeAlways` | backend/app/agent/tracing.py:491-740 | for every interleaving of rounds and tools: ids distinct and increasing, one root, parents earlier, each retriever under the tool span of its own dispatch, contexts restored |
| `Spans.TraceTells` | backend/app/agent/tracing.py:491-740 | for every interleaving a trace holds one span for the turn, each round, each tool and each retrieval that happened, in order, with its kind, name and start |
| `Spans.Tracer.ToolBegins` | backend/app/agent/tracing.py:648-659 | the span hangs under the root whatever other tasks have opened, and is the parent in this task and in no other |
| `Spans.Tracer.ToolEnds` | backend/app/agent/tracing.py:660-665 | the task's parent is again the one it was started with, and no other context changes |
| `Spans.Tracer.Retrieve` | backend/app/agent/tracing.py:676-740 | the span hangs under the tool span this very task opened, however the tasks were interleaved |
| `Spans.Tracer.RunTools` | backend/app/agent/loop.py:460-475 | tasks taking turns in any order and at any pace end with one tool span a call and every context back at the root |
| `Spans.Tracer.ObserveTurn` | backend/app/agent/tracing.py:491-557 | a whole turn: the coroutine opens the root and one span a round, every call of every round has one tool span of its name, and the trace is that of the steps taken |
| `SpanTree.BuildTree` | frontend/src/traces/SpanTree.tsx:16-32 | for any list, one node an id, every list of children complete and stably sorted by offset |
| `SpanTree.ShownOnceIff` | frontend/src/traces/SpanTree.tsx:16-32 | for any list: every span is drawn exactly once if and only if ids are distinct and every chain of parents reaches the top |
| `SpanTree.ShownOnce` | frontend/src/traces/SpanTree.tsx:16-32 | span by span: with distinct ids it is drawn once when its own chain reaches the top, otherwise never |
| `SpanTree.TreeDrawsShown` | frontend/src/traces/SpanTree.tsx:16-32 | for any list and any depth, what is drawn from the nodes on the heap is that list of rows |
| `SpanTree.TurnDrawn` | backend/app/agent/tracing.py:298-310 | for every interleaving of a turn: one root, the turn itself, and every span drawn exactly once |
| `SpanTree.ChildrenInOrder` | frontend/src/traces/SpanTree.tsx:27-30 | children stand in the order in which they were opened |
| `Forests.DrawnOnce` | frontend/src/traces/SpanTree.tsx:16-32 | in any forest given by parents, circles included, depth first drawing shows a node once if its chain ends, else never |
| `Holdings.Round2` | backend/app/data/holdings.py:73-91 | the rounded value is a whole number of hundredths within half a hundredth, and a whole number of them is kept |
| `Holdings.BuildRowReconciles` | backend/app/data/holdings.py:55-93 | of every usable scrip, profit is exactly value minus cost |
| `Holdings.BuildRowShows` | backend/app/data/holdings.py:55-93 | a scrip is usable exactly with a symbol that is not blank and its four numbers; value, cost and day's move are quantity times price within half a hundredth, a price above cost or above yesterday's never shows a loss, percentages give the part back, and the exchange suffix is gone from the symbol |
| `Holdings.BuildCard` | backend/app/data/holdings.py:127-154 | the loops and the in-place sort give the specified card, empty exactly when no scrip is usable |
| `Holdings.UsableInOrder` | backend/app/data/holdings.py:127-140 | each usable scrip gives its one row, in the order they came, and no other gives any |
| `Holdings.LatestIsLargest` | backend/app/data/holdings.py:127-143 | the stamp of the card is the latest one of the usable scrips |
| `Holdings.TotalsReconcile` | backend/app/data/holdings.py:105-124 | totals are the exact sums of the rows, total profit is total value minus total cost, and the two percentages are of the cost and of the value at the previous close |
| `Holdings.CardReconciles` | backend/app/data/holdings.py:105-154 | so on every card; and for n rows with a nonzero total the allocations add up to within n * 0.005 of 100 |
| `Holdings.CardOrder` | backend/app/data/holdings.py:144-144 | rows are a descending, stable reordering of the usable scrips |
| `Holdings.AllocationsDescend` | backend/app/data/holdings.py:145-149 | with a positive total the allocations run down with the values |

## Left out

- HTTP, FinX, Freshdesk, OpenAI, Langfuse and Postgres calls: steps of the environment that succeed, fail or return any value of the right shape.
- JSON text, regular expressions and hashes: terms and parameters. `Phrases` holds the escalation, affirmation and offer tests, `written` the text of a stored string that parses as JSON.
- Floating-point noise: scores and amounts are reals. The rounding of a score to six places is a parameter applied after the ordering.
- Wording of memos and prompts, the caps counters and the live context: parameters of the configuration.
- Turn meta beyond what the code reads back: model, usage, latency, durations, a memo's ticket id and reason, and `created_at`.
- Curation.Render: takes a renderer that raises and one that returns nothing as the same, since both end in the generic text.
- ChatLoop.ChatEvents: takes a bound on how often the model uses tools against `tool_choice: none`, without which the loop need not end; an exception comes out of a suspension, not between two statements without one.
- ChatLoop.Gather: runs the dispatches one after another, since they share nothing but the count of handler calls; durations are left out.
- WriteQueue.ThreadStore.Close: does not model the drain timeout and the cancellation that follows it.
- SessionCache.OneThreadPerSession: does not model `reset_thread`, which does not look at the cache again after its own await.
- Spans.TreeAlways: redaction, metadata, mirroring and persistence of spans carry no structure and are left out.
- The foreign-key retry of thread rows, ratings, statuses and feedback rows.
- The decoding of bytes to characters in the shell and exceptions thrown by its callbacks.
- The playground, the traces UI other than its tree, the flows and cards other than holdings, the evaluation runner: nothing new to prove.
