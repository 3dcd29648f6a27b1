# Proofs about the agent core and its neighbours

These Dafny files model the parts of the MiniMax Code agent whose correctness rests on an order of
events, on an invariant kept by several functions together, or on two representations agreeing. Loops
and state-changing methods are methods and classes proved against specification functions; what the
code promises is then proved about those functions, over every input and every run.

| file | models |
|---|---|
| `Messages.dfy` | the conversation list and the pairing of tool calls with tool results |
| `AgentLoop.dfy` | one turn of `AgentCore.run`: model calls, tool batches, notes, compaction, interjections, cancellation |
| `Compaction.dfy` | `compact_history` |
| `Convert.dfy` | the conversion to Anthropic messages, as in the saved copy of the transport |
| `Assembly.dfy` | the Anthropic stream adapter and both chunk assemblers |
| `ToolBatch.dfy` | serial prepare, concurrent execute under per-path locks |
| `ToolDispatch.dfy` | both phases together with the consent prompts of the calls |
| `ToolTurn.dfy` | the turn with each batch such a run |
| `Admission.dfy` | the closeable semaphore and three-tier admission, as steps of many calls and as objects |
| `AdmissionOutcomes.dfy` | what each call gets in those runs, who is woken, which limits hold |
| `CodeBuilds.dfy` | builds of the code index, whole, transaction by transaction, interrupted, beside invalidations and edits |
| `CodeVectors.dfy` | the same with row ids, vectors and other roots |
| `CodeIndex.dfy`, `Windows.dfy` | the index tables, the indexer, its overlapping chunk windows |
| `Paths.dfy` | lexical path resolution and containment |
| `WsFanout.dfy` | WebSocket fan-out, numbering, replay |
| `UpdateCheck.dfy`, `Version.dfy` | version grammar, precedence, floors |
| `CancelRegistry.dfy` | cancellation racing registration |
| `CallStream.dfy` | forwarded call streams and their erasure |
| `Consent.dfy` | consent requests with answers, timeouts and cancel-all |
| `Basics.dfy`, `SeqSums.dfy` | shared vocabulary |

Check everything with `dafny verify dfyconfig.toml`.

## How the model is set up

- Concurrency is a state machine: one step per stretch of code between awaits, and every interleaving of
  steps is a run. Locks and semaphores queue in FIFO order and tasks start in the order they are created,
  as asyncio does it.
- What the code cannot decide for itself is an input: model replies, tool results, generated ids, cancel
  flags, timers, the JSON reader, the file decoder. Generated ids are assumed non-blank.
- Which access of the index database raises is an input as well; one that raises does nothing.
- `asyncio.wait_for` keeps an answer that is there when its timer fires up to Python 3.11 and drops it
  from 3.12 on; `agent/pyproject.toml` allows both, and the consent model has both.
- "Well paired" means paired, and every named call carries an id.
- Operations are values or state-changing methods as in the source; where a method is proved equal to a
  specification function, the lemmas in the table are about that function.

## Where the code falls short of what it says

- `agent/minimax_code/agent/core.py:1627-1632` promises complete pairing. It holds for every list the loop builds
  (`AgentLoop.EveryListIsPaired`), but the row of a reply is stored before ids are filled in
  (lines 989-1004), so the stored rows are paired exactly when the reply brought its ids
  (`AgentLoop.StoredIsPairedExactly`, with `AgentLoop.StoredUnpaired`).
- `agent/minimax_code/agent/core.py:1109-1113` says that exactly one of done, abort and error fires per turn, and line 1630 that
  pairing stays complete. Arguments are read with `json.loads`, and only its decode error is caught
  (lines 1341-1344): a value that is no object gets through, and then a consent prompt that copies it, or
  the lock lookup of a write tool, raises out of the batch and of `run`. The stored call stays without an
  answer and no event fires (`ToolTurn.StoredIsPairedExactly`, `ToolTurn.TurnCloses`, with
  `ToolTurn.ArrayArgumentsEndTheTurn`).
- `agent/minimax_code/computer_hub_sdk/admission.py:8` calls the acquisition order deadlock-free. It is, as long as no woken waiter's deadline
  passes, before it runs, at a semaphore where another call sleeps and no wake is to spare
  (`Admission.NotAllBlocked`); such a waiter takes its wake with it, and permits lie idle exactly then
  (`Admission.NoIdlePermit`, with `Admission.LostWake`).
- `agent/minimax_code/codebase/indexer.py:156-160` promises to re-index what changed. A file that is no longer readable text keeps its
  old chunks through every incremental build. So does a file whose build was broken off by a store
  error (lines 208-213 leave the store as it stands) and which is then deleted; one that comes back
  unchanged stays without chunks, and so does one invalidated while it is being indexed, since
  `invalidate_path` does not take the build lock. A file edited between its discovery and its turn is
  recorded under the state discovered with the chunks of the text read. Apart from these an
  incremental build agrees with a forced one (`CodeBuilds.AgreesExactly`,
  `CodeBuilds.IncrementalIsRebuild`, with `CodeBuilds.DiedThenDeleted`, `CodeBuilds.DiedThenRestored`,
  `CodeBuilds.InvalidatedMidway`, `CodeBuilds.EditedThenRestored`).
- An invalidation between a chunk's row and its vector leaves a vector without a chunk, which even a
  forced build does not find (`CodeVectors.OrphanExactly`, with `CodeVectors.InvalidatedBeforeEmbedding`).
- `agent/minimax_code/http_server.py:180-182` lets a reconnecting client replay what it missed. The last client to leave takes
  the listener with it, so events emitted while nobody is connected are neither numbered nor kept
  (`WsFanout.ResumeKeepsPromiseExactly`, with `WsFanout.SoleClientLosesEvents`).
- `agent/minimax_code/computer_hub_core/remote.py:751-755` promises exactly one terminal. A request task that raises, a result that
  cannot be decoded, and a progress iterator that raises first leave the generator without one
  (`CallStream.DispatchIsWellFormed`, with `CallStream.RaisingRequestHasNoTerminal`).
- `Version.parse` uses `\d`, which accepts digits of other scripts; the printed form is then a different
  text (`Version.ParseThenPrint`, with `Version.OtherScriptsAccepted`).
- The anchor tests of `normalize_lexically` look at every part, so a later part that is merely named like
  a drive changes the outcome (`Paths.MeaningExactly`, `Paths.MeaningOfOnePath`, `Paths.ContainmentTrusted`, with `Paths.DriveNamedDirectory`).
- Replay runs after an await; a broadcast in between is queued twice (`WsFanout.ReplayIncreasingExactly`,
  with `WsFanout.BroadcastBeforeReplayDuplicates`).
- `agent/minimax_code/agent/compaction.py:68-72` promises a list within the token budget. It is exactly if the conversation was, or
  there is something to summarise and the summary and what is kept fit together
  (`Compaction.BudgetMetExactly`, with `Compaction.BudgetMissed`). Messages before the first user message
  are dropped without a trace when anything is summarised (`Compaction.CompactedExactly`).

## Model

| member | source | states |
|---|---|---|
| AgentLoop.EveryListIsPaired | agent/minimax_code/agent/core.py:801-1107 | From a well-paired history, whatever the model, tools, user, cancellation and compaction do: every list sent to the model is well paired, and so is the final list unless a tool batch raised; the converted form of each sent list answers every tool use at once |
| AgentLoop.OneClosingEvent | agent/minimax_code/agent/core.py:801-1126 | One turn-start event, then exactly one of done, abort for the budget, abort for a cancel, or error, picked by the first iteration that does not go on, if and only if no tool batch that is reached raises, and no closing event otherwise; model calls never exceed iterations, iterations never exceed the budget |
| AgentLoop.StoredIgnoresNotesAndCompaction | agent/minimax_code/agent/core.py:989-1106 | What a turn stores, how it ends and what it reports are a function of user message, budget, replies, tool results, flags and interjections: notes, history, window and compaction do not enter |
| AgentLoop.NotesAreEphemeral | agent/minimax_code/agent/core.py:872-966 | Two runs that differ only in notes agree on everything but the tails of the lists sent, and each sent list is the same list with that iteration's notes behind it |
| AgentLoop.StoredIsPairedExactly | agent/minimax_code/agent/core.py:989-1049 | The reply is stored before generated ids are written into it and before its tool batch runs, so the stored rows pair calls with results if and only if every reply that was reached gave each named call an id and no batch raised |
| AgentLoop.StoredUnpaired | agent/minimax_code/agent/core.py:989-1049 | The smallest reply for which the stored rows are not paired: one named call without an id |
| AgentLoop.StoredUnanswered | agent/minimax_code/agent/core.py:989-1049 | The smallest turn whose batch raises: the stored call has no answer, and no event closes the turn |
| ToolTurn.StoredIsPairedExactly | agent/minimax_code/agent/core.py:989-1642 | With each batch a run of both phases over the calls of its reply: the stored rows are paired if and only if ids were given and no call was one an exception gets out of, that is, reading its arguments raises, a prompt cannot copy them, or it is a write call let through with arguments that are no object |
| ToolTurn.AnswerComesFromItsTask | agent/minimax_code/agent/core.py:1034-1049 | With the batch of a turn a run of both phases: the row stored for a named call is under its id and name and holds the result its own task of that run finished with |
| ToolTurn.TurnCloses | agent/minimax_code/agent/core.py:1034-1126 | And exactly one event closes the turn if and only if there is no such call |
| ToolTurn.ArrayArgumentsRaise | agent/minimax_code/agent/core.py:1341-1343 | The smallest such call: `write_file` with the arguments `[]` is read, let through, and makes the batch raise |
| ToolTurn.ArrayArgumentsRun | agent/minimax_code/agent/core.py:1608-1642 | A run of both phases on which it does |
| ToolTurn.ArrayArgumentsEndTheTurn | agent/minimax_code/agent/core.py:1034-1049 | The turn around it: ids given, a stored call without an answer, no closing event |
| AgentLoop.StoredIsWhatWasSaid | agent/minimax_code/agent/core.py:743-1106 | With ids given and nothing compacted inside the turn, the final list is prompt, starting history, and exactly the stored rows |
| AgentLoop.StoredRowByRow | agent/minimax_code/agent/core.py:989-1061 | Behind each reply whose batch is reached and does not raise, the k-th stored tool row is under the id and name of the k-th named call and holds the k-th result of the batch, and the interjections follow: every stored row of a turn, by its position |
| AgentLoop.StoredEnds | agent/minimax_code/agent/core.py:989-1126 | The stored rows begin with the user message and end behind the last iteration reached, with the stop message if the budget ran out and nothing else otherwise |
| AgentLoop.ListGrows | agent/minimax_code/agent/core.py:833-1061 | Each call sends the list as it stands, or its compaction if the prompt tokens last reported press on the window and that is shorter, with the notes behind it; the list then goes on from what was sent with the reply, its tool rows and the interjections, each by position |
| AgentLoop.ListStarts | agent/minimax_code/agent/core.py:743-748 | The first list sent is prompt, starting history and user message |
| AgentLoop.Run | agent/minimax_code/agent/core.py:702-1126 | The whole turn, pre-turn compaction, its three exits and the exceptions of the model and of a batch included, has the outcome the lemmas above are about |
| AgentLoop.RunIteration | agent/minimax_code/agent/core.py:802-976 | One iteration up to the model call: cancel check, compaction check, notes, and the failure exit |
| AgentLoop.Resolve | agent/minimax_code/agent/core.py:978-1061 | One iteration from the reply on: append, store, run the tools, stop or drain interjections, or be left by an exception of the batch with nothing stored behind the reply |
| AgentLoop.CallTools | agent/minimax_code/agent/core.py:1004-1049 | Ids written back into the call list, and one tool message per extracted call, or none if the batch raises; that each result goes to its own call is the row on `StoredRowByRow` |
| AgentLoop.CompactInLoop | agent/minimax_code/agent/core.py:833-862 | Compaction inside the loop replaces the list only when the trigger fires and the result is shorter |
| Messages.PairedExactly | agent/minimax_code/agent/core.py:1627-1632 | A list is paired if and only if every assistant message is followed at once by exactly one tool message per named call, in order, ids matching, and no other tool message exists |
| Messages.NamedAt | agent/minimax_code/agent/core.py:1826-1875 | Each entry with a name is extracted at its rank among those, under its own id, name and arguments |
| Messages.ExtractToolCalls | agent/minimax_code/agent/core.py:1826-1875 | In place: every named call without an id gets its generated one, nameless entries stay as they are; the result is the named calls in order |
| Messages.AnsweredGroup | agent/minimax_code/agent/core.py:1043-1049 | An assistant message with ids and one tool message per extracted call form a complete, paired group |
| Compaction.CompactHistory | agent/minimax_code/agent/compaction.py:44-119 | The early returns, the split at the turn boundaries and the summary, against the function the next rows are about |
| Compaction.CompactedExactly | agent/minimax_code/agent/compaction.py:75-119 | What is returned, case by case: the list itself, the system messages and the turns, or the system messages, one message with header and summary, and the rest; the turns summarised and the rest are the conversation from its first user message on, and the rest holds as many user turns as are to be kept |
| Compaction.BudgetMetExactly | agent/minimax_code/agent/compaction.py:68-72 | The budget is met exactly if the conversation was within it, or there is something to summarise and summary and rest together are |
| Compaction.BudgetMissed | agent/minimax_code/agent/compaction.py:101-103 | The smallest list that stays over budget |
| Compaction.TokensExactly | agent/minimax_code/agent/compaction.py:30-41 | A list weighs what its messages weigh, a message a quarter token per plain character and one and a half per ideograph, each rounded down |
| Compaction.FindTurnBoundaries | agent/minimax_code/agent/compaction.py:122-137 | The ranges returned tile the list from its first user message to its end, each holding exactly one user message, in front |
| Compaction.TilingUnique | agent/minimax_code/agent/compaction.py:122-137 | Only one list of ranges tiles a given message list that way |
| Compaction.SummariseOldTurns | agent/minimax_code/agent/compaction.py:140-169 | The loop over the groups, against the text the next two rows are about |
| Compaction.LineExactly | agent/minimax_code/agent/compaction.py:143-167 | The line of a turn: its user text up to 200 characters, its first two answers that say anything, up to 150 each, and how many tool results it has |
| Compaction.SummaryGrows | agent/minimax_code/agent/compaction.py:167-169 | A summary is the lines of its turns, in order, each on a line of its own |
| Compaction.Separate | agent/minimax_code/agent/compaction.py:75-82 | The loop that separates system messages from the others, against the lists the next row is about |
| Compaction.PickExactly | agent/minimax_code/agent/compaction.py:75-82 | Each message of its kind is picked once, in order, and no other |
| Compaction.Split | agent/minimax_code/agent/compaction.py:94-106 | The groups to summarise and the part to keep |
| Compaction.CompactedShape | agent/minimax_code/agent/compaction.py:92-119 | When something is compacted: all system messages, one summary, then the exact suffix of the turns that holds the newest `keep_recent` user turns |
| Compaction.RecentTurns | agent/minimax_code/agent/compaction.py:94-97 | The recent part is a suffix, begins with a user message and holds exactly the turns not summarised |
| Compaction.NeverGrows | agent/minimax_code/agent/compaction.py:44-119 | The result is never longer than the input |
| Compaction.CompactTwice | agent/minimax_code/agent/compaction.py:44-119 | Compacting the result again with the same arguments changes at most the summary entry, so it never shortens the list a second time |
| Compaction.CompactionKeepsPairing | agent/minimax_code/agent/compaction.py:75-119 | Compaction of a well-paired list is well paired |
| Convert.ConvertMessages | agent/.minimax/backups/20260609_014600084653_minimax_code_agent_transports_anthropic_transport.py:59-188 | The conversion loop, flushes included, against the fold the next rows are about |
| Convert.ConversionKeepsPairing | agent/.minimax/backups/20260609_014600084653_minimax_code_agent_transports_anthropic_transport.py:59-188 | A well-paired list converts to messages where each set of tool uses is answered at once by exactly its results, and reading the blocks back gives every message in order: no result is dropped |
| Convert.RequestIsPaired | agent/.minimax/backups/20260609_014600084653_minimax_code_agent_transports_anthropic_transport.py:38-188 | The same for a whole request once its system prompt is taken out |
| Convert.NoOrphans | agent/.minimax/backups/20260609_014600084653_minimax_code_agent_transports_anthropic_transport.py:72-74 | For every list whatsoever, each result sent names a tool use sent in an earlier message |
| Convert.DroppedExactly | agent/.minimax/backups/20260609_014600084653_minimax_code_agent_transports_anthropic_transport.py:161-169 | A tool message is dropped if and only if its id is none of the tool uses sent so far |
| Convert.OneMoreMessage | agent/.minimax/backups/20260609_014600084653_minimax_code_agent_transports_anthropic_transport.py:59-188 | For every list whatsoever, what one message more adds to the converted messages: which blocks, in which message, and when a pending turn of results is closed |
| Convert.RequestReadsBack | agent/.minimax/backups/20260609_014600084653_minimax_code_agent_transports_anthropic_transport.py:38-188 | For a paired list with a prompt at its first non-empty system message, reading the converted request back gives exactly the non-system messages before it and every message behind it, in order |
| Convert.PromptlessReadsBack | agent/.minimax/backups/20260609_014600084653_minimax_code_agent_transports_anthropic_transport.py:38-188 | The same without a prompt: all non-system messages, in order |
| Convert.AllUsesExactly | agent/.minimax/backups/20260609_014600084653_minimax_code_agent_transports_anthropic_transport.py:72-74 | An id counts as sent exactly if some assistant message sent carries a tool use with it |
| Convert.ExtractSystemPrompt | agent/.minimax/backups/20260609_014600084653_minimax_code_agent_transports_anthropic_transport.py:38-56 | The loop that pulls the prompt out, against the two lists the next rows are about |
| Convert.RemainingBehindPrompt | agent/.minimax/backups/20260609_014600084653_minimax_code_agent_transports_anthropic_transport.py:47-56 | With the first non-empty system message at i, what remains is the non-system messages before i and everything behind it |
| Convert.RemainingWithoutPrompt | agent/.minimax/backups/20260609_014600084653_minimax_code_agent_transports_anthropic_transport.py:47-56 | Without one, all non-system messages |
| Convert.PromptIsFirst | agent/.minimax/backups/20260609_014600084653_minimax_code_agent_transports_anthropic_transport.py:38-56 | The prompt is the first non-empty system text |
| Convert.RemainingPaired | agent/.minimax/backups/20260609_014600084653_minimax_code_agent_transports_anthropic_transport.py:47-56 | Taking the prompt out keeps the rest paired |
| ToolBatch.LockForExact | agent/minimax_code/agent/core.py:1662-1685 | A lock is taken on a path exactly when a write tool names it under the first truthy of the three keys, and the lookup raises exactly for a write tool whose arguments are no object |
| ToolBatch.LockTable.WriteLockFor | agent/minimax_code/agent/core.py:1662-1685 | One lock object per path, made on demand and then kept, or the failure of the lookup |
| ToolDispatch.EveryRunOk | agent/minimax_code/agent/core.py:1315-1642 | In every interleaving of prompts, answers, timers, cancel flags and jobs: each prepared call is what its cancel flag, its gates and the result of its own consent request make it, requests are not shared, the jobs executed are those of the prepared calls, and the phase is left by an exception only at a call whose reading or prompting raises |
| ToolDispatch.ReadyExactly | agent/minimax_code/agent/core.py:1315-1485 | A call is let through if and only if it was not cancelled, its arguments read as JSON, its rule is not deny, with a gater an ask rule could copy them into its prompt and got an allow as first answer with nothing ending the wait before, and hooks and breaker do not object |
| ToolDispatch.RefusedBecause | agent/minimax_code/agent/core.py:1341-1485 | Why a call is turned down: the first of cancel, malformed arguments, deny rule, ungranted prompt, hook, open circuit that meets it; a call none of them meets goes through with the arguments it came with |
| ToolDispatch.RefusalIsReported | agent/minimax_code/agent/core.py:1487-1500 | And the report of that very reason is its result |
| ToolDispatch.DispatchedExactly | agent/minimax_code/agent/core.py:1375-1642 | Only such calls are ever dispatched, and no write call whose arguments are no object; at the end of a batch exactly those have been, each once |
| ToolDispatch.RaisesExactly | agent/minimax_code/agent/core.py:1315-1642 | A batch that has ended raised if and only if some uncancelled call has arguments whose reading raises or that its prompt cannot copy, or is a write call let through whose arguments are no object |
| ToolDispatch.LoopPrepares | agent/minimax_code/agent/core.py:1632-1637 | The calls executed are what the prepare loop makes of the calls as they arrived, and the phase raises exactly when the loop does |
| ToolDispatch.RunsUnderItsLock | agent/minimax_code/agent/core.py:1487-1606 | A write call being dispatched was let through, holds the lock of the path its own arguments name, and no other call on that path runs |
| ToolDispatch.BatchOfCallsIsSerial | agent/minimax_code/agent/core.py:1608-1642 | A finished batch leaves files and results as running the writes that were let through one after another in call order, on every path no lock-free tool wrote |
| ToolBatch.PrepareAll | agent/minimax_code/agent/core.py:1632-1637 | The prepare loop, cancelled slots and the exception of a call included, against the function the next row is about |
| ToolBatch.PreparedAllExactly | agent/minimax_code/agent/core.py:1632-1637 | One slot per call, in order, each as its call alone makes it; nothing at all exactly if some call raises |
| ToolBatch.EveryRunKeepsInv | agent/minimax_code/agent/core.py:1608-1642 | Every interleaving of the execute phase keeps lock queues ordered, dispatches accounted for and results as a serial run would give them |
| ToolBatch.SamePathExclusive | agent/minimax_code/agent/core.py:1487-1606 | No two writes to one path overlap, and a later one never overtakes an earlier one |
| ToolBatch.DispatchedOnce | agent/minimax_code/agent/core.py:1608-1642 | Each call that was neither short-circuited nor fails in its lock lookup is dispatched exactly once, the others never, and the batch raises exactly if one fails there |
| ToolBatch.WaitsOnlyForItsPath | agent/minimax_code/agent/core.py:1487-1606 | A write waits for nothing but earlier unfinished writes to its own path |
| ToolBatch.FreeAnswer | agent/minimax_code/agent/core.py:1608-1642 | What a lock-free tool reports is what its own dispatch ended with |
| ToolBatch.LooseComesFrom | agent/minimax_code/agent/core.py:1608-1642 | A file counts as written without a lock only if a lock-free tool in progress wrote it |
| ToolBatch.BatchIsSerial | agent/minimax_code/agent/core.py:1619-1625 | On every path no lock-free tool wrote, the files of a finished batch are those of running its writes one after another in call order, and so are their results; results come back in call order |
| ToolBatch.NeverStuck | agent/minimax_code/agent/core.py:1608-1642 | Until all calls have finished, some task can move |
| ToolBatch.StepUsesWork | agent/minimax_code/agent/core.py:1608-1642 | Every effective step uses up work, so a batch ends |
| Assembly.StreamToChunks | agent/.minimax/backups/20260609_014600084653_minimax_code_agent_transports_anthropic_transport.py:235-338 | The stream adapter against the chunk list the next rows are about |
| Assembly.AssembledFromEvents | agent/minimax_code/agent/core.py:1892-1946 | Adapter then assembler: the text deltas in order and one call per index with its pieces concatenated, stated over the raw events |
| Assembly.EndedResponse | agent/.minimax/backups/20260609_014600084653_minimax_code_agent_transports_anthropic_transport.py:324-352 | The last final event decides finish reason and completion tokens; prompt tokens are those of the last start before it, thinking blocks those opened before it |
| Assembly.UnendedResponse | agent/minimax_code/agent/core.py:1892-1927 | A stream without one is taken as stopped, with no usage |
| Assembly.ChunksExactly | agent/.minimax/backups/20260609_014600084653_minimax_code_agent_transports_anthropic_transport.py:252-352 | One chunk for each event that carries something, in order, passing on what that event carries; a JSON piece goes under the id its index announced last |
| Assembly.OneCallPerBlock | agent/minimax_code/agent/core.py:1907-1918 | On a stream whose tool blocks are named, one call per tool block, under its id and name |
| Assembly.OnlyProjectionsMatter | agent/minimax_code/agent/core.py:1892-1946 | The message depends only on the text and on what each index says |
| Assembly.SwapChangesNothing | agent/minimax_code/agent/core.py:1930-1946 | Neighbouring events about different indexes may swap |
| Assembly.ResplitChangesNothing | agent/minimax_code/agent/core.py:1930-1946 | Splitting a text or JSON piece in two changes nothing |
| Assembly.AssembleChunks | agent/minimax_code/agent/core.py:1892-1927 | The agent core's assembler computes that response |
| Assembly.KeepSolid | agent/minimax_code/agent/core.py:1914-1918 | Slots with neither id nor name are dropped, the others stay in order |
| Assembly.AssembleInClient | agent/minimax_code/agent/llm.py:298-332 | The client's assembler computes the same response |
| Assembly.Accumulator.Merge | agent/minimax_code/agent/core.py:1930-1946 | The core's padding and in-place edit |
| Assembly.Accumulator.MergeInClient | agent/minimax_code/agent/llm.py:335-366 | The client's padding and in-place edit, with the same effect |
| Admission.EveryRunKeepsLedger | agent/minimax_code/computer_hub_sdk/admission.py:141-416 | In every interleaving of connects, admits, timeouts, wakes, closes and releases: free plus held equals capacity on each open semaphore, and never exceeds it on a closed one |
| Admission.NeverOversubscribed | agent/minimax_code/computer_hub_sdk/admission.py:344-416 | Held permits never exceed capacity, open or closed |
| Admission.RefusalGivesBack | agent/minimax_code/computer_hub_sdk/admission.py:321-416 | A refused admit leaves every open semaphore with exactly the permits that call had taken given back |
| Admission.SecondReleaseIsNoOp | agent/minimax_code/computer_hub_sdk/admission.py:284-318 | Whatever happens in between, releasing a released guard again changes nothing at all |
| AdmissionOutcomes.AskedExactly | agent/minimax_code/computer_hub_sdk/admission.py:172-194 | A call that asks a tier, at first or after a wake, is refused for shutdown exactly if that semaphore is closed, takes a permit exactly if it is open and has one, and else lines up behind everybody |
| AdmissionOutcomes.RefusedExactly | agent/minimax_code/computer_hub_sdk/admission.py:321-341 | In any step a call is refused for shutdown if and only if it asks a closed semaphore, and for timeout if and only if its deadline has passed when it asks or its wait was cancelled |
| AdmissionOutcomes.RefusalHasItsStep | agent/minimax_code/computer_hub_sdk/admission.py:321-341 | So each refusal in a run goes back to one such step |
| AdmissionOutcomes.AfterClose | agent/minimax_code/computer_hub_sdk/admission.py:164-206 | From a close on, in every run: the permits held there only run out, and every call that asks there is refused for shutdown, whether or not a permit is free |
| AdmissionOutcomes.ClosedExactly | agent/minimax_code/computer_hub_sdk/admission.py:164-170 | A semaphore is closed by close alone, and for good |
| AdmissionOutcomes.WokenExactly | agent/minimax_code/computer_hub_sdk/admission.py:196-206 | A sleeper whose timer stays quiet is woken exactly when its semaphore closes or a permit of it comes back and everybody ahead in the queue is done sleeping |
| AdmissionOutcomes.LimitsHold | agent/minimax_code/computer_hub_sdk/admission.py:344-416 | In every run, at most the configured number of calls run at once in the process, on each connection and in each bound session |
| AdmissionOutcomes.TiersAsConfigured | agent/minimax_code/computer_hub_sdk/admission.py:354-380 | No two connections or sessions share a semaphore, each has its configured size, and every call runs under its own |
| AdmissionOutcomes.AdmittedUnder | agent/minimax_code/computer_hub_sdk/admission.py:382-402 | A call is admitted under the semaphore its session is bound to; after unbinding it gets one of its own |
| Admission.FinishedStays | agent/minimax_code/computer_hub_sdk/admission.py:284-318 | A released or refused call is never touched again |
| Admission.NoIdlePermit | agent/minimax_code/computer_hub_sdk/admission.py:172-206 | Over every run and semaphore: at no moment do free permits beside a sleeper exceed the woken waiters, if and only if no woken waiter timed out there while another call slept and the free permits equalled the woken waiters |
| Admission.QuiescentIsFull | agent/minimax_code/computer_hub_sdk/admission.py:172-206 | If no timer of the run lost a wake there: with nobody mid-wake, a semaphore with a sleeper has no free permit and is fully held |
| Admission.NotAllBlocked | agent/minimax_code/computer_hub_sdk/admission.py:382-416 | With capacities of at least one, no state of a run whose timers lost no wake has every live call blocked |
| Admission.MovesUnlessIdle | agent/minimax_code/computer_hub_sdk/admission.py:382-416 | In any run at all, all live calls can only be blocked while some semaphore has a free permit, a sleeper and nobody woken |
| Admission.LateTimerLosesWake | agent/minimax_code/computer_hub_sdk/admission.py:186-194 | One step of it: a woken waiter that times out breaks the no-idle-permit property exactly when somebody else sleeps there and the free permits equal the woken waiters |
| Admission.LostWake | agent/minimax_code/computer_hub_sdk/admission.py:186-194 | A run in which it is lost: a free permit beside a sleeper, and nobody left to wake it |
| AdmissionObjects.ClosableSemaphore.Attempt | agent/minimax_code/computer_hub_sdk/admission.py:172-194 | One pass of the acquire loop: refused if closed, a permit if there is one, else a place at the end of the queue |
| AdmissionObjects.ClosableSemaphore.Release | agent/minimax_code/computer_hub_sdk/admission.py:196-206 | One permit back, and exactly the first untouched sleeper woken |
| AdmissionObjects.ClosableSemaphore.Close | agent/minimax_code/computer_hub_sdk/admission.py:164-170 | Closing wakes every untouched sleeper and empties the queue |
| AdmissionObjects.AdmitGuard.Release | agent/minimax_code/computer_hub_sdk/admission.py:305-318 | One permit back at each open scope the first time, nothing after |
| CodeBuilds.AgreesExactly | agent/minimax_code/codebase/indexer.py:155-213 | For any stored shard whatsoever: an incremental build gives what a forced one gives if and only if no discovered file is stale (no readable text at its turn, but something stored), none is torn (recorded as discovered, with other chunks than the text read has), and no undiscovered path has chunks without recorded state |
| CodeBuilds.EveryRunKeepsWhole | agent/minimax_code/codebase/indexer.py:140-351 | In every interleaving of builds, one transaction at a time and broken off anywhere, with invalidations and with edits between the discovery of a file and its turn: a path that nobody left half-written and that was not recorded under another state than was read is absent, faithful to its recorded state, or as far as whoever is at work on it has got |
| CodeBuilds.HistoryIsFaithful | agent/minimax_code/codebase/indexer.py:140-351 | So after any such run that left no torn path, each entry is absent or holds exactly the chunks of the content its recorded state stands for |
| CodeBuilds.IncrementalIsRebuild | agent/minimax_code/codebase/indexer.py:140-351 | After any such run, an incremental build agrees with a forced one if and only if no discovered file is stale and no path that was left torn, or is edited during the comparison, is orphaned or torn |
| CodeBuilds.AllTextAgrees | agent/minimax_code/codebase/indexer.py:155-213 | In particular whenever no path is torn and every discovered file is readable text and stays as discovered |
| CodeBuilds.DiedThenDeleted | agent/minimax_code/codebase/indexer.py:175-193 | A build that raises behind the first chunk of a new file, which is then deleted: the chunks stay through every incremental build |
| CodeBuilds.DiedThenRestored | agent/minimax_code/codebase/indexer.py:181-185 | A build that raises behind the delete of a changed file, which then comes back as it was: it counts as unchanged and stays without chunks |
| CodeBuilds.InvalidatedMidway | agent/minimax_code/codebase/indexer.py:348-351 | An invalidation between two transactions of a build: the file ends up recorded, and without chunks |
| CodeBuilds.EditedThenRestored | agent/minimax_code/codebase/indexer.py:216-314 | A file edited between its discovery and its turn, which then comes back as it was discovered: it counts as unchanged and keeps the chunks of the other text |
| CodeBuilds.UpdateIdempotent | agent/minimax_code/codebase/indexer.py:155-213 | A second incremental build over the same files changes nothing, whatever was stored |
| CodeBuilds.BuiltExactly | agent/minimax_code/codebase/indexer.py:194-314 | A file that is indexed ends up recorded as it was discovered, with exactly the chunks its text is cut into; an incremental build touches no file recorded as it is now |
| CodeBuilds.NothingLeftToIndex | agent/minimax_code/codebase/indexer.py:155-213 | Behind a build the next incremental one finds nothing to index but files that are no readable text |
| CodeBuilds.WrittenConserves | agent/minimax_code/codebase/indexer.py:187-314 | No transaction of a build changes what the build will come to, path by path |
| CodeBuilds.BuildCompletes | agent/minimax_code/codebase/indexer.py:155-213 | Left alone, a build is done after exactly the transactions its plan needs, and every path is then as the build function says |
| CodeBuilds.ForcedHeals | agent/minimax_code/codebase/indexer.py:166-169 | A forced build forgets every torn path: afterwards only files edited during it are torn |
| CodeVectors.OrphanExactly | agent/minimax_code/codebase/store.py:67-121 | Over every interleaving of row and vector transactions of this root, of other roots and of invalidations: a vector has no chunk if and only if at some moment it was stored under an id without a row and no row has come under that id since |
| CodeVectors.MissesOnlyWhenTorn | agent/minimax_code/codebase/indexer.py:302-308 | A build stores a vector without its row only for a file an invalidation has torn |
| CodeVectors.NoOrphans | agent/minimax_code/codebase/indexer.py:288-308 | So without such vectors, of this root or another, no vector is ever without its chunk |
| CodeVectors.EveryRunShows | agent/minimax_code/codebase/indexer.py:264-314 | These runs are the runs of builds and invalidations above: the rows of each path hold exactly the chunks of its shard, and the rows saved for the file being indexed are there unless it is torn |
| CodeVectors.InvalidatedBeforeEmbedding | agent/minimax_code/codebase/store.py:204-212 | An invalidation between a row and its vector: the vector stays without a chunk, through a forced build too |
| CodeIndexer.CodebaseIndexer.RunBuild | agent/minimax_code/codebase/indexer.py:155-213 | With nothing beside it, whatever store call raises: the tables are what a prefix of the transactions of the build leaves, every other root is as it was, and no further vector is without its chunk; if none raises, each path of the root is as the build function says |
| CodeIndexer.CodebaseIndexer.IndexFile | agent/minimax_code/codebase/indexer.py:247-314 | Stores the chunks of what is read at its turn under the state discovered, touching one file only, as far as its transactions got; an unreadable, binary or non-UTF-8 file is left as it was |
| CodeIndexer.CodebaseIndexer.Reindex | agent/minimax_code/codebase/indexer.py:264-314 | Old chunks out, new chunks in, vectors as far as they go, state last: one transaction each, any of which may be the last; if none raises, the row of each chunk carries the vector computed from the text of that chunk |
| CodeIndexer.CodebaseIndexer.Plan | agent/minimax_code/codebase/indexer.py:172-185 | The files to index are those whose recorded state differs, the paths to drop those no longer found |
| CodeIndexer.CodebaseIndexer.InvalidatePath | agent/minimax_code/codebase/indexer.py:348-351 | Afterwards the path has no chunks, vectors or recorded state; if the second call raises, no chunks but its old state |
| CodeIndexer.CodebaseIndexer.SaveWindows | agent/minimax_code/codebase/indexer.py:271-300 | The window loop stores exactly the first chunks of the file, all of them unless a store call raises, each under a new row, and lists rows and texts in chunk order |
| CodeIndexer.CodebaseIndexer.SaveVectors | agent/minimax_code/codebase/indexer.py:302-310 | However far the embedder or the database gets, exactly the first saved rows get a vector, each its own, and nothing else changes |
| CodeIndexer.CodebaseIndexer.RemoveAll | agent/minimax_code/codebase/indexer.py:187-193 | Dropped paths, and no others, end up absent, or the first of them if a store call raises |
| CodeIndexer.CodebaseIndexer.IndexAll | agent/minimax_code/codebase/indexer.py:202-205 | Each listed file gets its new entry and no other path changes, or the first of them if a store call raises |
| CodeStore.CodebaseStore.DeleteChunksForFile | agent/minimax_code/codebase/store.py:67-87 | Removes the rows of one file of one root together with their vectors |
| CodeStore.CodebaseStore.Clear | agent/minimax_code/codebase/store.py:89-121 | Removes everything, or one root and nothing else |
| CodeStore.CodebaseStore.SaveChunk | agent/minimax_code/codebase/store.py:35-65 | Adds one row under a fresh id |
| CodeStore.CodebaseStore.SaveEmbedding | agent/minimax_code/codebase/store.py:204-212 | One vector is set, if the vector table exists |
| CodeStore.CodebaseStore.GetFileIndexState | agent/minimax_code/codebase/store.py:311-327 | The recorded state of the files of one root |
| CodeStore.CodebaseStore.SaveFileIndexState | agent/minimax_code/codebase/store.py:329-346 | One file of one root has its state recorded |
| CodeStore.CodebaseStore.DeleteFileIndexState | agent/minimax_code/codebase/store.py:348-355 | One file of one root has no recorded state any more |
| CodeStore.CodebaseStore.ClearFileIndexState | agent/minimax_code/codebase/store.py:357-367 | Recorded state goes, of all roots or of one |
| Windows.ChunksTileFile | agent/minimax_code/codebase/indexer.py:271-300 | The chunks less their overlaps concatenate to the file's lines |
| Windows.ChunksAreWhereTheySay | agent/minimax_code/codebase/indexer.py:271-300 | A chunk's lines are the lines of the file of the numbers it gives; the first starts at line 1, the next fifty lines on, the last ends with the file |
| Windows.NeighboursOverlap | agent/minimax_code/codebase/indexer.py:271-300 | Neighbours share the first lines of the later chunk: five, or what is left |
| Windows.LineInOneOrTwo | agent/minimax_code/codebase/indexer.py:271-300 | A line lies in its own window and, when among its first five lines, in the one before; nowhere else |
| Windows.RangeKeepsOrder | agent/minimax_code/codebase/indexer.py:363-385 | Flattening the symbols of a range is filtering the flattened tree by line |
| Windows.RangeKeepsNesting | agent/minimax_code/codebase/indexer.py:363-385 | A symbol kept in a window hangs under exactly those of its ancestors that are on the lines of the window too, in the same order |
| Windows.SymbolInOneOrTwo | agent/minimax_code/codebase/indexer.py:271-385 | Every symbol on a real line occurs in exactly the windows that hold its line, as often as in the tree |
| Paths.NormalizeLexically | agent/minimax_code/paths.py:132-163 | The stack loop against the function the next rows are about |
| Paths.NormalizeIdempotent | agent/minimax_code/paths.py:132-163 | Resolving twice is resolving once, for every path |
| Paths.NormalizeShape | agent/minimax_code/paths.py:132-163 | Where no `..` meets a later part that looks like an anchor: anchor, then a run of `..`, then normal parts, and no `..` behind a root |
| Paths.NormalizeMeaning | agent/minimax_code/paths.py:132-163 | In every tree where the parent of a child is the directory and the root is its own parent, the result names the same place |
| Paths.MeaningExactly | agent/minimax_code/paths.py:113-163 | For an anchored path and all its prefixes the place is kept if and only if the loop never clamps `..` on a later part that looks like a root |
| Paths.MeaningDecided | agent/minimax_code/paths.py:113-163 | Two absolute paths name the same place in every tree obeying the laws exactly when they do in the free tree |
| Paths.HeldOrDeeper | agent/minimax_code/paths.py:132-163 | For every absolute path what the loop holds leads where the path leads, or deeper, and which of the two is decided by its clamps and by whether it has since climbed back to the root |
| Paths.MeaningOfOnePath | agent/minimax_code/paths.py:113-163 | One absolute path keeps its place, in every tree obeying the laws, if and only if the loop never clamps on a later part that looks like a root or has since climbed back to the root |
| Paths.ContainmentOfOnePath | agent/minimax_code/paths.py:248-256 | Every true containment answer about one absolute path is right if and only if the path keeps its place and its normal form never leaves the way to its end |
| Paths.ClampedThenRecovered | agent/minimax_code/paths.py:132-163 | A path on which the loop clamps and recovers |
| Paths.ContainmentSound | agent/minimax_code/paths.py:248-256 | A true answer puts `other` at or below `self` |
| Paths.ContainmentExact | agent/minimax_code/paths.py:248-256 | The answer is true exactly for a dot-free `self` that is a lexical ancestor of the place `other` names |
| Paths.ContainmentTrusted | agent/minimax_code/paths.py:248-256 | The answer can be trusted for an absolute path and all its prefixes if and only if no `..` meets a later part that looks like an anchor |
| Paths.OnlyFirstAnchorKept | agent/minimax_code/paths.py:113-129 | A path whose only anchor is its first part meets that condition and stays so |
| Paths.DriveNamedDirectory | agent/minimax_code/paths.py:106-129 | The smallest path outside it: a directory named like a drive |
| Paths.JoinPlace | agent/minimax_code/paths.py:240-242 | Joining keeps a path absolute and names what the second path names from the first |
| WsFanout.EveryRunKeepsHub | agent/minimax_code/http_server.py:378-434 | In every run the ring holds consecutive numbers ending at the counter, at most 512, and each queue at most 256 envelopes |
| WsFanout.ResumeAfterJoin | agent/minimax_code/http_server.py:271-282 | Replayed right after joining, a client has exactly the newest min(256, missed) retained events past its cursor, without a gap |
| WsFanout.EverythingSentWasHeard | agent/minimax_code/http_server.py:398-434 | In every run, whatever a client was sent or has queued is one of the emissions that found somebody connected, under the number it was heard as, with its own name and parameters |
| WsFanout.ResumeSendsHeard | agent/minimax_code/http_server.py:227-307 | A client that comes back is sent the newest 256 of what was emitted while somebody was connected, and nothing else, whatever the others did |
| WsFanout.ResumeKeepsPromiseExactly | agent/minimax_code/http_server.py:180-185 | The resume promise: it is sent everything emitted while it was away, once and in order, if and only if that is at most 256 events and somebody was connected at each of them |
| WsFanout.SoleClientLosesEvents | agent/minimax_code/http_server.py:301-303 | The only client goes and comes back: what was emitted meanwhile is lost and leaves no gap in the numbers |
| WsFanout.ResumedStreamIsGapless | agent/minimax_code/http_server.py:271-434 | From then on, as long as its queue does not overflow, its stream has no gap and no repetition |
| WsFanout.StaysIncreasing | agent/minimax_code/http_server.py:378-434 | Nothing but its own replay can disorder a client's stream, overflow included |
| WsFanout.ReplayIncreasingExactly | agent/minimax_code/http_server.py:244-282 | A replay after the newest event was already sent leaves the stream increasing if and only if nothing was missed, nothing had been sent, or a full replay pushed everything already sent out of reach |
| WsFanout.EveryRunUpToDate | agent/minimax_code/http_server.py:378-434 | In every run, whatever was sent to a client last is the newest broadcast there has been |
| WsFanout.ReplayInRunsExactly | agent/minimax_code/http_server.py:244-282 | So in every run a replay keeps an increasing stream increasing exactly under the conditions of the row above |
| WsFanout.BroadcastBeforeReplayDuplicates | agent/minimax_code/http_server.py:244-282 | One broadcast between joining and replaying is queued twice |
| WsFanout.WsManager.Enqueue | agent/minimax_code/http_server.py:378-396 | Put, dropping the oldest of a full queue |
| WsFanout.WsManager.OnEvent | agent/minimax_code/http_server.py:398-434 | Number the event, keep it in the ring, put it on every queue |
| WsFanout.WsManager.Notify | agent/minimax_code/ipc/server.py:207-220 | An emitted event reaches the manager exactly while it is registered, that is while somebody is connected; otherwise nothing changes |
| WsFanout.WsManager.ReplaySince | agent/minimax_code/http_server.py:271-282 | One pass over the ring past the cursor |
| WsFanout.WsManager.Connect | agent/minimax_code/http_server.py:227-238 | A joining client gets an empty queue, the first one registers the listener, and nothing else changes |
| WsFanout.WsManager.FanOut | agent/minimax_code/http_server.py:429-434 | Every connected client, and nobody else, gets the payload |
| WsFanout.WsManager.TakeNext | agent/minimax_code/http_server.py:345-353 | The sender takes the head of its queue and nothing else changes |
| WsFanout.WsManager.Disconnect | agent/minimax_code/http_server.py:292-307 | The client and its queue are gone, everybody else is as before; with the last one the listener is unregistered |
| UpdateCheck.RankIsPrecedence | agent/minimax_code/update_check.py:117-151 | Comparing keys is the precedence of item 11 of Semantic Versioning 2.0.0, stated over any dot-free identifiers that join to the pre-release |
| UpdateCheck.SplitsExactly | agent/minimax_code/update_check.py:145-150 | The identifiers are exactly the one list of dot-free pieces that join to the pre-release |
| UpdateCheck.NumberReads | agent/minimax_code/update_check.py:129-130 | A numeric identifier is its value in decimal behind leading zeros |
| UpdateCheck.RankIsTotalPreorder | agent/minimax_code/update_check.py:133-151 | Comparing keys is antisymmetric and transitive, equal keys included |
| UpdateCheck.EqualRankMeansSame | agent/minimax_code/update_check.py:117-151 | Without leading zeros, equal precedence means equal up to build metadata |
| UpdateCheck.MaxIsUpperBound | agent/minimax_code/update_check.py:154-164 | Defined exactly when both arguments parse; the result is one of them and at or above both |
| UpdateCheck.MaxIsLater | agent/minimax_code/update_check.py:154-164 | The result is the argument of higher precedence, the first one if they are equal |
| UpdateCheck.MaxAssociates | agent/minimax_code/update_check.py:154-164 | Associative, even as text |
| UpdateCheck.MaxCommutes | agent/minimax_code/update_check.py:154-164 | Commutative up to equal precedence |
| UpdateCheck.ChannelFollowsPrecedence | agent/minimax_code/update_check.py:167-182 | Alpha exactly when stable strictly precedes current; no channel exactly when either does not parse |
| UpdateCheck.FloorHolds | agent/minimax_code/update_check.py:461-489 | Applying a floor gives a version at or above it, never rejected by the install check, idempotent, and leaves an acceptable target alone |
| UpdateCheck.FloorFails | agent/minimax_code/update_check.py:476-489 | It fails exactly on a floor that is set and does not parse |
| UpdateCheck.FloorDecides | agent/minimax_code/update_check.py:404-489 | With a floor that parses, the bumped version and the verdict are decided by one comparison with it |
| UpdateCheck.CheckRejectsExactly | agent/minimax_code/update_check.py:404-473 | The check rejects a target exactly when a floor that parses lies above it |
| UpdateCheck.EvaluatesExactly | agent/minimax_code/update_check.py:404-434 | What is decided about a version and an optional minimum: allowed without one, an error if it does not parse, else blocked exactly if the version does not parse or strictly precedes it |
| UpdateCheck.PickMeetsMinimum | agent/minimax_code/update_check.py:437-458 | The picked target meets minimum and latest and passes the install check for that minimum |
| UpdateCheck.PickExactly | agent/minimax_code/update_check.py:437-458 | The target is the latest version if that is at or above the minimum, else the minimum as it is written |
| Version.PrintThenParse | agent/minimax_code/version.py:101-127 | Parsing what a version prints gives it back |
| Version.ParsedIsWellFormed | agent/minimax_code/version.py:101-112 | Every parse is of the kind that round-trips |
| Version.AcceptedExactly | agent/minimax_code/version.py:101-112 | A text parses if and only if it is, stripped, three numerals with dots, then a pre-release and a build part as the grammar allows, and the parts are those spelled |
| Version.ParseThenPrint | agent/minimax_code/version.py:101-127 | Printing a parse gives the stripped text if and only if that text is ASCII |
| Version.OtherScriptsAccepted | agent/minimax_code/version.py:101-127 | A text outside that: an Arabic-Indic digit is accepted and prints as an ASCII one |
| CancelRegistry.TokenSetExactly | agent/minimax_code/computer_hub_sdk/cancel.py:62-168 | A call's token is set if and only if the registry was closed before it registered, an unevicted tombstone was waiting, or a cancel or teardown came after it and before any deregistration |
| CancelRegistry.EitherOrderCancels | agent/minimax_code/computer_hub_sdk/cancel.py:79-132 | Once register and cancel of an id have both happened, in either order, with no eviction and no deregistration between, its token is set |
| CancelRegistry.RegistryInvariant | agent/minimax_code/computer_hub_sdk/cancel.py:62-168 | In every run live ids and tombstones are disjoint, tombstones bounded, and a closed registry holds nothing live |
| CancelRegistry.ClosedForGood | agent/minimax_code/computer_hub_sdk/cancel.py:146-168 | After teardown nothing is ever live again and every later token starts set |
| CancelRegistry.Registry.Register | agent/minimax_code/computer_hub_sdk/cancel.py:79-107 | New registry state and whether the token was set at once |
| CancelRegistry.Registry.Cancel | agent/minimax_code/computer_hub_sdk/cancel.py:109-132 | New registry state, which token was set, and which tombstone was evicted |
| CancelRegistry.Registry.Deregister | agent/minimax_code/computer_hub_sdk/cancel.py:134-136 | The id leaves, nothing else changes |
| CancelRegistry.Registry.CancelAll | agent/minimax_code/computer_hub_sdk/cancel.py:146-168 | Every live token set, map emptied, registry closed, count returned |
| CallStream.RequestStream | agent/minimax_code/computer_hub_core/remote.py:817-871 | For every order of response and progress: a prefix of the frames in order, then exactly one terminal built from the response; it crashes exactly when progress raises before the response arrives, or the request raises, or its result cannot be decoded |
| CallStream.RaceInFull | agent/minimax_code/computer_hub_core/remote.py:817-871 | Wait cycle by wait cycle, the race comes to the frames that arrive before the response, in order, and then what the response makes of it |
| CallStream.ForwardedShape | agent/minimax_code/computer_hub_core/remote.py:879-1027 | A forwarded stream is progress items, and has its one terminal, in last place, if and only if it ended |
| CallStream.ForwardedInFull | agent/minimax_code/computer_hub_core/remote.py:751-755 | When nothing raises, it is the frames before the response, in order, and the response decoded |
| CallStream.ForwardedInPart | agent/minimax_code/computer_hub_core/remote.py:817-1027 | Otherwise: nothing without a subscription, one error if the parameters have no encoding, else the frames up to where it stops and no terminal |
| CallStream.RaisingRequestHasNoTerminal | agent/minimax_code/computer_hub_core/remote.py:842-845 | The smallest schedule on which the request raises: progress, and then no terminal |
| CallStream.DispatchViaConnection | agent/minimax_code/computer_hub_core/remote.py:985-1027 | Subscription, encoding and race in one: an encoding failure is a single terminal error, a failed subscription no stream at all, otherwise the stream is the race's |
| CallStream.EraseStream | agent/minimax_code/computer_hub_core/resolver.py:408-454 | One item out per item in, of the same kind, so well-formedness is kept both ways |
| CallStream.ResolveAndDispatch | agent/minimax_code/computer_hub_core/resolver.py:502-536 | A local tool hides a remote one, an unknown tool is a single not-found terminal, and the caller gets the erased or forwarded stream of the tool found |
| CallStream.DispatchFinds | agent/minimax_code/computer_hub_core/resolver.py:502-536 | In terms of the registries: a tool of the session in the local one gives that handle's stream erased under the tool's name, whatever the remote one holds; one only in the remote registry gives that call's forwarded stream; a single not-found terminal comes exactly if neither has it |
| CallStream.DispatchIsWellFormed | agent/minimax_code/computer_hub_core/resolver.py:502-536 | Over every pair of registries and every schedule: the caller gets progress items and one terminal if and only if the tool is unknown, or it is local and its own stream is so, or it is remote, the subscription stands, and its parameters cannot be encoded or the response comes before any exception of the progress iterator, is no exception and can be decoded |
| Consent.GrantedExactly | agent/minimax_code/perm_consent.py:125-219 | Over every interleaving of requests, answers, timeouts, failed prompts and cancel-alls: a returned request is granted if and only if its first answer was an allow and nothing ended the wait before; its id is no longer pending |
| Consent.EveryRequestTellsItsStory | agent/minimax_code/perm_consent.py:125-219 | The invariant behind it: at every moment a request's future and phase say exactly what has happened to it |
| Consent.ReturnedIsFinal | agent/minimax_code/perm_consent.py:125-219 | A late answer changes nothing |
| Consent.PermissionGater.Resolve | agent/minimax_code/perm_consent.py:194-207 | Sets an open future only; a decided one is still claimed |
| Consent.PermissionGater.CancelAll | agent/minimax_code/perm_consent.py:209-219 | Denies every open future and counts exactly those |
| Consent.PermissionGater.Park | agent/minimax_code/perm_consent.py:125-160 | A request starts with an open future of its own under its id |
| Consent.PermissionGater.Forget | agent/minimax_code/perm_consent.py:188-192 | The id leaves, nothing else changes |
| Consent.ResolveAny | agent/minimax_code/perm_consent.py:273-292 | The first gater that knows the id claims the answer, and no other future changes |
| Consent.GaterRegistry.RegisterGater | agent/minimax_code/perm_consent.py:227-252 | The run's gater becomes reachable |
| Consent.GaterRegistry.UnregisterGater | agent/minimax_code/perm_consent.py:255-270 | A finished run's gater is out of reach by every path, unless another session has it too, and nobody else's is |

## Left out

- WsFanout.ResumedStreamIsGapless: holds while the client's queue does not overflow; after an overflow only `StaysIncreasing` and the queue bound remain.
- CodeBuilds.IncrementalIsRebuild: takes equal (mtime, size) to mean equal content, as the index itself does; modification times are integers.
- UpdateCheck.MaxIsUpperBound: CPython's `int()` refuses more than 4300 digits, so a version with a longer numeric identifier parses in the model and raises in the code.
- Aliasing inside `run`: the appended assistant message and the call list edited later share one object; the model appends after the edit, with no observer in between except the stored copy.
- The logs of calls and results that `run` returns beside the list, token accounting, and streaming of text to the user interface.
- Wording and triggers of the notes added to model requests: any notes at any iteration are allowed instead.
- Hooks, audit, telemetry, retry and the circuit breaker's own state: their verdicts are inputs. A permission store, breaker or result truncation that raises is one more way for a batch to raise, which `AgentLoop` allows and `ToolDispatch` does not have.
- Reply entries whose name or id is no text, which the stream adapter never produces.
- Tool internals and truncation of results; the text of a tool result is an input.
- Multi-part message content and images; a message is a text with calls.
- JSON decoding of tool arguments during conversion: the argument text is carried over as it is.
- Cancellation by asyncio of a whole batch or of a waiting `acquire`, other than by its own deadline.
- Clocks and latency: a timer is a step that may come at any moment, so the single shared deadline of `admit` bounds nothing here.
- Two spellings of one file are two lock paths, in the code and in the model.
- Symbol parsing, how a vector is computed from a text, full-text and vector search, the graph index, progress counters.
- Rejoining path parts into a platform path (including the `//` root and Windows flavours); a path is its sequence of parts.
- WebSocket sends that fail, the heartbeat, device registration.
- The table of decimal digits follows one version of Unicode.
- `CachedVersion`, binary-name parsing and date handling in `update_check.py`.
- The second check for `closed` behind the insertion in `CancelRegistry.register`: without preemption between the two it never fires.
- `app.py`, configuration, routes, the front end: plumbing.
