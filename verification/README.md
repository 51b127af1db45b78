# Verified model of the agent core

This project models four stateful cores of the program and proves what they promise:

* the agentic query loop (`source/src/query.ts`): streamed replies with mid-stream fallback, model
  fallback, withheld errors and the streaming tool executor; the ladder of recoveries; turns, stop hooks,
  budgets and aborts; and the command queue that all query loops of the process drain;
* the prompt history (`source/src/history.ts`): the write buffer with its lock, retries, cleanup flush and
  undo; the readers; and the pasted-text references, printed, parsed and expanded;
* the conversation engine (`source/src/QueryEngine.ts`): its two message stores and their truncation at
  compaction boundaries, the results that end a submission, the bounded review and repair loop, and the
  turn-scoped error list;
* cost accounting (`source/src/cost-tracker.ts`): the recursive roll-up over advisor replies, totals per
  model, regrouping by short name, saving and restoring.

## How it is built

Each core is written twice. Functions on values say what one step does: a streamed message, an iteration of
the loop, an event of the buffer, a message handed to the engine, a charge. Methods and classes have the
form of the source, with loops, locals and fields that are updated in place, and each is proved equal to its
function. The lemmas are about the functions, so they hold of the methods. The loop's theorems are about runs;
`QueryPlay.RunOfPlay` and `QueryPlay.PlayIsRun` show that the runs are exactly what the method does, and
`QueryMachine.Query` promises the consequences.

What the environment does is a parameter and therefore arbitrary: the model stream, the moment of an
abort, compaction results, hooks, the order in which tools finish, lock and append failures, interleavings
of background tasks, other loops on the same queue, reviews, prices and clocks.

| file | content |
|---|---|
| `QueryMessages.dfy` | messages, pairing of calls and results, the yielded transcript |
| `QueryStream.dfy`, `QueryStreamProofs.dfy` | one request: attempts, fallbacks, the executor; what any stream leaves |
| `QueryLoop.dfy` | one iteration and whole runs |
| `QueryTools.dfy` | the list of results that one tool collects, and draining those lists |
| `QueryPairing.dfy` | the history at every loop head |
| `QueryTranscript.dfy`, `QueryLate.dfy` | which yielded calls get a result; on which streams one does not |
| `QueryBounds.dfy` | retries, turns, the bound on iterations, the task budget |
| `QueryErrors.dfy` | errors kept back and shown, mid-stream fallback |
| `QueryDecisions.dfy` | the conditions of every transition and every reason to stop; how often the output limit is raised |
| `QueryPlay.dfy` | what the loop does with its iterations, against runs |
| `QueryStore.dfy` | the history of a caller that keeps what the loop yields |
| `QueryMachine.dfy` | the loop in the form of the source |
| `CommandQueue.dfy`, `CommandRuns.dfy` | the shared queue, the turn boundary, interleavings of loops |
| `PastedRefs.dfy` | references in prompts |
| `HistoryBuffer.dfy`, `HistoryReading.dfy`, `HistoryProperties.dfy`, `HistoryRetries.dfy`, `HistoryStore.dfy` | the history buffer as steps between awaits, its readers, its guarantees, when its retries run out, the class |
| `EngineStores.dfy`, `QueryEngine.dfy` | the message stores and the submission |
| `ErrorLog.dfy` | the error buffer and its watermark |
| `CostTracker.dfy` | costs |

## What is assumed of the other modules

Stated as the predicates `QueryLoop.Faithful`, `QueryStream.ItemOk` and `QueryLoop.IterationOk`:

* compaction, collapsing, snipping and the other preparations of the history keep it well paired, and what a
  compaction yields is well paired in itself;
* reactive compaction returns nothing once it has been attempted (`source/src/query.ts:1122-1123`);
* a message that reports an API error carries no tool call;
* each tool ends with exactly one result. Of the two result methods of the streaming executor only this is
  proved: each tool is yielded once (`QueryStream.DrainYieldsRest`). The assumption is not guaranteed by the
  executor: even if the tool runner yields one result for each call, a tool can end with two
  (`source/src/services/tools/StreamingToolExecutor.ts:335-344`). `QueryTools.OneOrTwoResults` gives the exact
  condition, and `QueryTools.OneEachIff` shows that the executor then yields what the model says iff no tool has two;
* the history file lock is exclusive, and an append writes all of its lines or none.

## Where the code differs from what it or its documentation says

* The output-limit escalation is said to fire once per turn (`source/src/query.ts:1191-1195`). It can fire
  five times in one turn: `QueryBounds.EscalatesAgain`. It fires once exactly if the limit is not hit again
  later than in the iteration after the one that raised it: `QueryDecisions.RaisedOnceIff`, because every other
  transition takes the raised limit back (`QueryDecisions.EscalatesIff`). The bound that does hold is
  `QueryBounds.RunIsBounded`.
* A tool call that arrives after the abort signal is retained and yielded but not given to the streaming
  executor (`source/src/query.ts:839-845`), so the abort exit, which relies on the executor
  (`source/src/query.ts:1014-1025`), leaves it without a result: `QueryTranscript.AbortThenCallDrops`.
  `QueryTranscript.CompleteIff` gives the exact condition on the request, `QueryLate.LateCallsIff` on the stream.
* An error that was kept back is never shown when it ends a reply in which tools were called, because only
  the branch without tool calls looks at it: `QueryErrors.CutOffAfterCallIsLost`, with the exact condition in
  `QueryErrors.WithheldShown`.
* A tool that has delivered its result and is still sending updates gets a second, synthetic result when an
  abort or the failure of a sibling is seen (`source/src/services/tools/StreamingToolExecutor.ts:335-344`):
  `QueryTools.OneOrTwoResults`.
* The switch to the fallback model answers every call of the replies so far, also those whose result the
  streaming executor has already yielded (`source/src/query.ts:900-903`): `QueryStore.FallbackAnswersTwice`.
  Each call gets one result exactly if none had been collected: `QueryStore.SwitchAnswersOnceIff`.
* The conversation engine keeps replies that the loop withdraws (`source/src/QueryEngine.ts:799-801`). Without the
  streaming executor its history is well paired exactly if no withdrawn reply had calls and no image-size
  failure left one unanswered: `QueryStore.StoreIff`.
* The fallback flag is not cleared within an attempt, so after a mid-stream fallback each further message
  withdraws the replies before it: `QueryErrors.FallbackKeepsLast`.
* A steering prompt in a prompt-like mode other than the plain prompt is removed from the queue and announced
  as started and completed but never attached (`source/src/utils/steerCheckpoint.ts:290-293` against
  `source/src/utils/attachments.ts:1110-1125`): `CommandQueue.ConsumedIsDelivered`.
* Retries of the history flush count flushes and not failures: six successful flushes, each overtaken by a
  new prompt, leave the last prompt in the buffer until the next prompt or the cleanup:
  `HistoryRetries.GivesUpWithoutFailure`. `HistoryRetries.OutOfRetriesIff` says exactly when a flush is out of
  retries, and `HistoryRetries.StuckIff` when entries are left behind by it.
* A command that another consumer removes between a loop's look at the queue and its removal is delivered all the
  same: `CommandRuns.RacedTwice`. Commands are conserved exactly if that never happens: `CommandRuns.ConservedIff`.
* Undo after the flush hides by timestamp, so another prompt of the same millisecond is hidden too:
  `HistoryProperties.CollisionHidesAnother`.
* A restored session continues its wall clock only if some time had elapsed: `CostTracker.SaveThenRestore`.

## Model

| member | source | states |
|---|---|---|
| QueryMessages.PairedAppend | source/src/query.ts:1752-1753 | appending replies and then answers to exactly their calls keeps a history well paired |
| QueryMessages.ResultHasUse | source/src/query.ts:123-151 | in a well-paired history every result has an earlier call |
| QueryMessages.UseHasResult | source/src/query.ts:123-151 | in a well-paired history every call has a later result |
| QueryMessages.ResultIsUnique | source/src/query.ts:123-151 | if an id is used once, its result is the only one |
| QueryStream.YieldedOnce | source/src/services/tools/StreamingToolExecutor.ts:412-440 | collecting completed results takes exactly the yielded ones off what is owed |
| QueryStream.DrainYieldsRest | source/src/services/tools/StreamingToolExecutor.ts:453-490 | whatever the order of completion, draining yields exactly one result for each tool that has none |
| QueryStream.AddedIsOutstanding | source/src/query.ts:839-847 | a tool handed to the executor is owed one result |
| QueryTools.ExecuteTool | source/src/services/tools/StreamingToolExecutor.ts:265-400 | the loop collects the messages of a tool until it ends or sees an abort that is not its own error; one result or two |
| QueryTools.OneOrTwoResults | source/src/services/tools/StreamingToolExecutor.ts:332-345 | if the runner yields one result, the tool ends with two iff it delivered a result that is no error and sees an abort at a later update, and otherwise with one |
| QueryTools.DrainCount | source/src/services/tools/StreamingToolExecutor.ts:426-435 | whatever the order of completion, draining yields the list of every tool that owes one, once |
| QueryTools.OneEachIff | source/src/services/tools/StreamingToolExecutor.ts:453-490 | draining yields exactly one result for each tool that owes one iff none of them holds two, and then it is the drain of the model |
| QueryStreamProofs.WithdrawGood | source/src/query.ts:714-741 | withdrawing orphaned replies tombstones each of them once and keeps the invariant of the request |
| QueryStreamProofs.AcceptGood | source/src/query.ts:801-848 | receiving a reply keeps the invariant, whether it is yielded or kept back, before or after an abort |
| QueryStreamProofs.CollectGood | source/src/query.ts:849-863 | collecting results while streaming keeps the invariant |
| QueryStreamProofs.SwitchGood | source/src/query.ts:895-951 | switching to the fallback model answers the calls made so far, clears them, and keeps the invariant |
| QueryStreamProofs.AttemptsGood | source/src/query.ts:653-955 | after any stream with any fallbacks and aborts: the tool blocks are the calls of the retained replies in order, the loop goes on iff there are any, every received reply was withdrawn once, cleared or retained, each tool given to the executor yielded its result or still owes it, and every yielded call is answered, withdrawn or in hand |
| QueryPairing.EveryCallAnswered | source/src/query.ts:1382-1402 | a request that was not aborted answers every call of its retained replies exactly once |
| QueryPairing.PairedNextTurn | source/src/query.ts:1382-1402 | the history that starts the next turn is well paired |
| QueryPairing.RecoverPaired | source/src/query.ts:1064-1360 | every continuation of a reply without tool calls has a well-paired history |
| QueryPairing.IteratePaired | source/src/query.ts:309-1765 | a well-paired history stays well paired across every continue site |
| QueryPairing.PairedAtEveryHead | source/src/query.ts:309-1765 | the history is well paired at every loop head of every run |
| QueryPairing.HistoryIs | source/src/query.ts:1101-1753 | the exact history of every continuation: what was sent, every retained reply, and the nudge, the hook errors, or one result for each call and the attachments; a raised output limit repeats the request, and a drain or compaction replaces the history |
| QueryPairing.AbortIsFinal | source/src/query.ts:1017-1054 | once the abort signal is set the loop stops in that iteration |
| QueryTranscript.RequestShown | source/src/query.ts:653-955 | every retained reply with calls has been yielded, and every yielded result belongs to a collected result or a reply given up |
| QueryTranscript.ClosedIff | source/src/query.ts:1017-1031 | with distinct calls, a closed request is complete iff what closes it answers everything in hand |
| QueryTranscript.FailKeeps | source/src/query.ts:957-999 | a thrown stream answers every call unless it is the image-size error |
| QueryTranscript.InterruptKeeps | source/src/query.ts:1017-1054 | an abort answers every call unless one came after the signal |
| QueryTranscript.ToolYields | source/src/query.ts:1382-1517 | the tool phase yields the results that are owed and then nothing with calls or results |
| QueryTranscript.IterationComplete | source/src/query.ts:309-1765 | an iteration that drops no call keeps the transcript complete: every yielded call is answered or withdrawn later |
| QueryTranscript.IterationBalanced | source/src/query.ts:986-1031 | without the streaming executor every yielded call has exactly one result or was withdrawn, on every exit but the image-size error |
| QueryTranscript.CompleteIff | source/src/query.ts:839-845 | with distinct calls the transcript is complete iff no call came after the abort and no image-size error left calls in hand |
| QueryTranscript.TranscriptAtEveryHead | source/src/query.ts:309-1765 | the transcript is complete at every loop head, and balanced without the executor |
| QueryTranscript.RunTranscript | source/src/query.ts:221-241 | the same for a whole run including the iteration that stops, with the exact exception |
| QueryTranscript.AbortThenCallDrops | source/src/query.ts:1014-1025 | a concrete family of runs in which the abort exit leaves a call without a result |
| QueryLate.LateCallsIff | source/src/query.ts:839-845 | a call is withheld from the executor iff tools stream and, in the last attempt, a reply with calls follows the abort and no later message withdraws it |
| QueryLate.AbortCompleteIff | source/src/query.ts:1014-1054 | an abort exit leaves a call without a result iff the stream is of that kind |
| QueryBounds.IterateMoves | source/src/query.ts:309-1765 | every continuation is one of seven transitions under its guard, and changes counters and guards as stated |
| QueryBounds.RunIsOrderly | source/src/query.ts:1087-1343 | in every run recoveries are numbered 1, 2, 3 between resets, reactive compaction fires once between turns or budget continuations, drains and escalations never repeat at once, the stop-hook flag and the turn count are what the transitions say, and the retries stay within their allowance |
| QueryBounds.SegmentIsBounded | source/src/query.ts:1087-1255 | between two resets at most nine retries, plus two for each drain |
| QueryBounds.RunIsBounded | source/src/query.ts:1741-1764 | with a turn limit a run takes at most 10(turns + hook blocks + budget continuations) + 2 drains iterations, and the turn count is one more than the turns taken |
| QueryBounds.EscalatesAgain | source/src/query.ts:1190-1222 | a run in which the bound of nine is reached and the escalation fires five times in one turn |
| QueryBounds.RunBudget | source/src/query.ts:506-517 | once a compaction has happened the remaining task budget is the total less all compacted contexts, at least zero, and never grows |
| QueryBounds.CompactBudget | source/src/query.ts:1139-1148 | reactive compaction charges the budget as automatic compaction does |
| QueryErrors.AttemptsShowDue | source/src/query.ts:801-828 | the stream yields a reply as often as it receives it, and an error it keeps back never |
| QueryErrors.FallbackKeepsLast | source/src/query.ts:657-741 | after a mid-stream fallback only a reply that came last is retained |
| QueryErrors.RecoverShows | source/src/query.ts:1064-1258 | an error that ends a reply without calls is retried or shown once, never both and never neither |
| QueryErrors.WithheldShown | source/src/query.ts:788-827 | an iteration shows an error kept back once iff it ends a finished, tool-free, unaborted reply and no recovery is left: nothing to drain or just drained, no compaction, the output limit raised or not to be raised, and three attempts to resume used; otherwise not at all |
| QueryErrors.RetryIff | source/src/query.ts:1064-1255 | a withheld error that ends a reply without calls is retried iff one of the four recoveries is available |
| QueryErrors.ReceivedShown | source/src/query.ts:825-828 | every other reply is shown exactly as often as it was received, whichever way the iteration ends |
| QueryErrors.ErrorAfterCallLost | source/src/query.ts:1064-1065 | an error that ends a reply with tool calls is never shown |
| QueryErrors.CutOffAfterCallIsLost | source/src/query.ts:1064-1065 | a concrete stream: a reply with a call, then the output-limit error, which is received and never shown |
| QueryDecisions.OutcomeIff | source/src/query.ts:646-1765 | in every run an iteration goes on with a given transition, or stops for a given reason, iff the condition of that outcome holds of the transitions so far, the request and the environment |
| QueryDecisions.GuardsExclude | source/src/query.ts:646-1765 | the conditions of two different outcomes never hold together |
| QueryDecisions.EscalatesIff | source/src/query.ts:1190-1222 | the output limit is raised iff a tool-free, unaborted reply hits it while raising is enabled and the previous transition did not raise it |
| QueryDecisions.RaisedOnceIff | source/src/query.ts:1191-1195 | in any stretch of a run the output limit is raised at most once iff, after being raised, it is hit again in the next iteration at most |
| QueryDecisions.StopsAtTheLimit | source/src/query.ts:1741-1749 | a run that stops for the turn limit stops at exactly that many turns |
| QueryMachine.YieldMissingToolResultBlocks | source/src/query.ts:125-151 | the nested loop yields one result for each call of the given replies, in order |
| QueryMachine.GetCompletedResults | source/src/services/tools/StreamingToolExecutor.ts:412-440 | the loop yields the completed results in the order in which tools were added and marks them |
| QueryMachine.GetRemainingResults | source/src/services/tools/StreamingToolExecutor.ts:453-490 | the loop drains the executor |
| QueryMachine.Request.WithdrawOrphans | source/src/query.ts:714-741 | tombstones all replies so far, clears them and replaces the executor |
| QueryMachine.Request.Receive | source/src/query.ts:801-848 | yields or keeps back a message, records it and hands its calls to the executor |
| QueryMachine.Request.CollectResults | source/src/query.ts:849-863 | yields and records the results that are ready |
| QueryMachine.Request.Attempt | source/src/query.ts:658-865 | one attempt of the request is the fold of its messages |
| QueryMachine.Request.SwitchToFallback | source/src/query.ts:896-951 | answers the open calls, announces the switch and clears the request |
| QueryMachine.Request.Run | source/src/query.ts:653-955 | the attempt loop computes the specified request and why it ended |
| QueryMachine.EndReply | source/src/query.ts:1064-1258 | an error that was kept back and ends the reply is shown once iff no recovery is available, and not at all otherwise |
| QueryMachine.RunToolPhase | source/src/query.ts:1382-1766 | if what was sent is well paired, the history of the next turn is, for every request the stream can leave |
| QueryMachine.ReportFailure | source/src/query.ts:957-999 | a failure other than the image-size error leaves no yielded call without a result |
| QueryMachine.StopAborted | source/src/query.ts:1017-1054 | an abort leaves no yielded call without a result unless the executor was not given one |
| QueryMachine.RunIteration | source/src/query.ts:309-1765 | one pass through the loop body is one specified iteration |
| QueryMachine.Query | source/src/query.ts:243-1766 | the loop that replaces its state plays its iterations; from a well-paired history it ends with a well-paired history, within its bounds, and with a complete transcript unless an abort or an image-size error stopped it |
| QueryPlay.PlayIsRun | source/src/query.ts:309-1765 | a run is what the loop does as long as no iteration returns |
| QueryPlay.RunOfPlay | source/src/query.ts:309-1765 | whatever the loop does is a run, followed by the one iteration that returned, if any |
| QueryPlay.PlayIsSound | source/src/query.ts:221-1766 | pairing, bounds, completeness and balance of whatever the loop does, whether it is observed at a loop head or after it has returned |
| QueryStore.StoredPaired | source/src/QueryEngine.ts:798-830 | a caller that keeps every yielded message has a well-paired history iff calls and results of the transcript are equal in number, if no result was yielded before its call |
| QueryStore.IterationLed | source/src/query.ts:309-1765 | without the streaming executor no iteration yields a result before its call |
| QueryStore.StoreIff | source/src/QueryEngine.ts:798-801 | without the streaming executor such a history is well paired iff no withdrawn reply had calls and no image-size failure left a call unanswered |
| QueryStore.SwitchAnswersOnceIff | source/src/query.ts:896-906 | the switch to the fallback model leaves each call of the retained replies with one result iff none of them had a collected result |
| QueryStore.FallbackAnswersTwice | source/src/query.ts:896-906 | a concrete stream with the executor in which the switch to the fallback model answers a call a second time |
| CommandQueue.PartitionQueuedCommandsForBoundary | source/src/utils/steerCheckpoint.ts:235-272 | the loop splits the snapshot into what is attached and what stays |
| CommandQueue.PartitionKeepsAll | source/src/utils/steerCheckpoint.ts:235-272 | the split neither loses nor doubles a command |
| CommandQueue.AttachedIff | source/src/utils/steerCheckpoint.ts:235-272 | attached are exactly the commands that are no prompts and the first prompt that steers |
| CommandQueue.OnePrompt | source/src/utils/steerCheckpoint.ts:245-254 | at most one prompt is taken into a turn |
| CommandQueue.TakesIff | source/src/query.ts:1581-1605 | a turn takes every notification it can see and the first prompt it can see that steers, and no low-priority command unless it slept |
| CommandQueue.ConsumedIsDelivered | source/src/utils/steerCheckpoint.ts:290-293 | what is consumed reaches the model iff no attached prompt is in another prompt-like mode |
| CommandQueue.Queue.Enqueue | source/src/utils/messageQueueManager.ts:149-165 | a fresh copy is appended, ahead of notifications by default, unless it is a disallowed prompt |
| CommandQueue.Queue.EnqueuePendingNotification | source/src/utils/messageQueueManager.ts:171-187 | the same with the lowest urgency by default |
| CommandQueue.Queue.Remove | source/src/utils/messageQueueManager.ts:312-332 | the backward loop removes the given commands and keeps the order of the rest |
| CommandQueue.Queue.Dequeue | source/src/utils/messageQueueManager.ts:205-232 | of the commands that pass the filter the most urgent is taken, and of those the earliest; nothing changes if none passes |
| CommandRuns.NeverTwiceIff | source/src/query.ts:1571-1596 | no interleaving takes a command twice iff no two loops drain the same address |
| CommandRuns.OnlyOwnCommands | source/src/query.ts:1584-1591 | slash commands are never taken, and subagents take only their own task notifications |
| CommandRuns.ConservedIff | source/src/query.ts:1581-1680 | for any loops and interleaving, what arrived is what is queued, taken by loops, or removed by others, iff no loop takes a command that has left the queue since the loop saw it |
| CommandRuns.NothingLost | source/src/query.ts:1669-1680 | with distinct addresses and no racing consumer nothing is lost or doubled |
| CommandRuns.RacedTwice | source/src/query.ts:1581-1680 | with a racing consumer a command can be delivered twice |
| CommandRuns.NoticesMatch | source/src/query.ts:231-239 | on return the completed notices are the started ones, which are the taken commands in order; on a throw there are none |
| PastedRefs.ParseOfDigits | source/src/history.ts:71 | parsing the decimal digits of an id gives the id |
| PastedRefs.MatchIsReference | source/src/history.ts:66-67 | whatever the pattern matches is a reference by its grammar |
| PastedRefs.MatchOfReference | source/src/history.ts:66-67 | every reference of the grammar is matched, over its whole length |
| PastedRefs.ScanFindsEveryReference | source/src/history.ts:63-68 | the scanner reports exactly the spans that are references |
| PastedRefs.ParseOrdered | source/src/history.ts:69-75 | the parsed references are in order, disjoint, and carry the text at their offsets |
| PastedRefs.PrintThenParse | source/src/history.ts:52-76 | parsing printed text and references gives back the references with ids, texts and offsets |
| PastedRefs.ExpandPastedTextRefs | source/src/history.ts:82-101 | the reverse splice equals the simultaneous left-to-right substitution |
| PastedRefs.ExpandOfPrint | source/src/history.ts:52-101 | expanding printed segments replaces each text reference by its content, verbatim, and nothing else |
| HistoryBuffer.FlowAfter | source/src/history.ts:295-356 | how each event changes file, batch and buffer taken together |
| HistoryBuffer.InvStep | source/src/history.ts:284-468 | every event keeps the invariant of the buffer |
| HistoryBuffer.WriterStep | source/src/history.ts:332-347 | every event keeps the writing flag true to whether a background flush is running, so that two never write |
| HistoryBuffer.WatchedStep | source/src/history.ts:332-356 | every event keeps entries in the buffer watched: somebody writes, sleeps before a retry, or has given up |
| HistoryBuffer.InvReachable | source/src/history.ts:284-468 | the invariant holds after any interleaving of adds, flushes, failures, cleanup, undo and clearing |
| HistoryReading.InReadLog | source/src/history.ts:107-144 | which lines a read yields: pending entries, and lines of the file that the skip-set does not hide (their order is `HistoryProperties.ReadNewestFirst`) |
| HistoryReading.GetHistory | source/src/history.ts:191-218 | the window of the first hundred entries of the project, this session's before the others, each in reading order, nothing lost |
| HistoryReading.GetTimestampedHistory | source/src/history.ts:163-181 | the newest entry of each of the first hundred distinct texts, in order |
| HistoryReading.FirstOfEachIs | source/src/history.ts:165-171 | no text twice, none missing, and of each the entry read first |
| HistoryReading.FirstOfEachInOrder | source/src/history.ts:165-181 | the kept entries are in reading order |
| HistoryProperties.ExactlyOnePlace | source/src/history.ts:284-356 | every entry is in exactly one of buffer, batch, file, undone, cleared or lost |
| HistoryProperties.DiskInOrder | source/src/history.ts:319-322 | no entry is written twice, and entries reach the file in the order they were added |
| HistoryProperties.NothingIsLost | source/src/history.ts:295-356 | without undo, clearing or a failed append, file, batch and buffer are what was added, whatever locks fail |
| HistoryProperties.NothingIsLostFromStart | source/src/history.ts:295-356 | the same from the start of the process; when all flushes have ended regularly everything is on disk |
| HistoryProperties.QuietMeansFlushed | source/src/history.ts:332-356 | when every task has ended, entries are left in the buffer iff they were given up |
| HistoryProperties.ReadNewestFirst | source/src/history.ts:107-144 | a read yields the entries of this process newest first, whether they are pending or on disk |
| HistoryProperties.OneBackgroundFlush | source/src/history.ts:332-343 | at most one background flush is active, within its retries |
| HistoryProperties.HiddenExactly | source/src/history.ts:125-130 | exactly which lines of the file a read leaves out |
| HistoryProperties.OnlyUndoneHidden | source/src/history.ts:457-468 | with distinct timestamps only undone entries are hidden |
| HistoryProperties.UndoWins | source/src/history.ts:457-468 | after an undo no read yields the entry, wherever it was, until the session changes or the history is cleared |
| HistoryProperties.UndoOutcome | source/src/history.ts:440-468 | an undone entry is read again iff it is on disk and the history was cleared since |
| HistoryProperties.SecondUndoIsNothing | source/src/history.ts:457-460 | a second undo without a new entry changes nothing |
| HistoryRetries.StuckIff | source/src/history.ts:332-356 | when every task has ended, entries are left iff a flush out of retries found them while nobody was writing, and since then no prompt was added and the buffer was never empty |
| HistoryRetries.OutOfRetriesIff | source/src/history.ts:337-353 | a flush is out of retries iff it wakes with entries that nobody is writing, as the last of six attempts of one chain, each of which ended with entries left |
| HistoryRetries.NextPromptRevives | source/src/history.ts:336-339 | the next prompt starts a flush with all its retries |
| HistoryRetries.CleanupWrites | source/src/history.ts:425-433 | the cleanup writes the entries that were given up |
| HistoryRetries.GivesUpWithoutFailure | source/src/history.ts:337-353 | a run without any failure that gives up with an entry left in the buffer |
| HistoryProperties.CollisionHidesAnother | source/src/history.ts:125-130 | two entries of one millisecond: undoing the second hides the first |
| HistoryStore.PromptHistory.AddToPromptHistory | source/src/history.ts:400-412 | the method is the event of the model |
| HistoryStore.PromptHistory.OnFileMade | source/src/history.ts:305-311 | the step after creating the file |
| HistoryStore.PromptHistory.OnLocked | source/src/history.ts:319-320 | the lock is held: snapshot and clear |
| HistoryStore.PromptHistory.OnLockFailed | source/src/history.ts:311-326 | the lock failed: nothing is lost |
| HistoryStore.PromptHistory.OnAppended | source/src/history.ts:322-327 | the append succeeded or failed |
| HistoryStore.PromptHistory.OnReleased | source/src/history.ts:325-329 | the lock is released |
| HistoryStore.PromptHistory.OnWake | source/src/history.ts:349-353 | the retry after the pause |
| HistoryStore.PromptHistory.StartCleanupFlush | source/src/history.ts:425-429 | cleanup waits for the flush in progress |
| HistoryStore.PromptHistory.OnFlushAwaited | source/src/history.ts:430-433 | the final flush, which ignores the writing flag |
| HistoryStore.PromptHistory.RemoveLastFromHistory | source/src/history.ts:457-468 | the method is the undo of the model |
| HistoryStore.PromptHistory.ClearPendingHistoryEntries | source/src/history.ts:440-444 | the method is the clearing of the model |
| HistoryStore.PromptHistory.MakeLogEntryReader | source/src/history.ts:107-144 | the reader's loops yield the specified lines |
| EngineStores.CutIsInvisible | source/src/QueryEngine.ts:963-974 | cutting a store at boundaries does not change what follows its last boundary |
| EngineStores.ReceiveRefines | source/src/QueryEngine.ts:728-984 | after any message each store is its full log from the last cut on |
| EngineStores.ReceiveInStep | source/src/QueryEngine.ts:757-984 | after any message the local copy is the lasting store without the messages it is not given |
| QueryEngine.StepResult | source/src/QueryEngine.ts:883-914 | a message ends the submission iff it yields a result, as the last output |
| QueryEngine.OneResultLast | source/src/QueryEngine.ts:582-1296 | a submission yields exactly one result, as its last output |
| QueryEngine.SuccessIff | source/src/QueryEngine.ts:1161-1257 | at most one repair; all but the last query were sent back by the review; success iff the last query ended by itself with a successful reply and was approved or had nothing to review |
| QueryEngine.ErrorFlagIff | source/src/QueryEngine.ts:883-1294 | the result is flagged as an error iff the last query was stopped, left no successful reply, was not approved, or left an API error |
| QueryEngine.ConversationRefines | source/src/QueryEngine.ts:449-983 | after any conversation both stores show what the uncut logs would show, and without snips the stores are in step |
| QueryEngine.TurnsReported | source/src/QueryEngine.ts:794-796 | the result reports one turn more than the user messages received over all queries |
| QueryEngine.Engine.OnSystem | source/src/QueryEngine.ts:938-983 | replays a snip, or stores the message and cuts both stores in place at a boundary with metadata |
| QueryEngine.Engine.StoreMessage | source/src/QueryEngine.ts:728-984 | the pushes to both stores are as specified |
| QueryEngine.Engine.SubmitMessage | source/src/QueryEngine.ts:449-1296 | the nested loops compute the specified submission, which ends with its only result and keeps both stores equal to their logs since the last cut |
| ErrorLog.ErrorsAreTurnScoped | source/src/QueryEngine.ts:1147-1156 | for every log, rotated or not, the turn reports exactly its own errors that are still in the buffer |
| ErrorLog.LengthIsNoWatermark | source/src/QueryEngine.ts:687-691 | exactly when counting from the buffer's length would have been right |
| ErrorLog.Log.Add | source/src/utils/log.ts:66-77 | the buffer holds the last hundred entries of its history |
| ErrorLog.Log.TurnErrors | source/src/QueryEngine.ts:1147-1156 | the slice after the watermark is the turn's errors |
| CostTracker.TreeCharged | source/src/cost-tracker.ts:278-323 | charging a reply adds the sum of its tree to the total and to the sum over models |
| CostTracker.ShareCharged | source/src/cost-tracker.ts:250-276 | every model is charged its own share of the tree |
| CostTracker.SessionAgrees | source/src/cost-tracker.ts:278-323 | over any calls the total, the per-model costs and the returned totals agree |
| CostTracker.RegroupKeeps | source/src/cost-tracker.ts:187-210 | regrouping by short name keeps every sum and gives each name the sum of its models |
| CostTracker.SaveThenRestore | source/src/cost-tracker.ts:87-175 | saving and restoring the same session reproduces all costs; exactly when the wall clock continues |
| CostTracker.RestoresOnlyTheSaved | source/src/cost-tracker.ts:87-137 | any other session id restores nothing, and a missing usage table keeps the old one |
| CostTracker.SessionSurvives | source/src/cost-tracker.ts:130-175 | a session that only charged replies is restored exactly, including the limits of its models |
| CostTracker.Tracker.AddToTotalModelUsage | source/src/cost-tracker.ts:250-276 | the field-by-field update adds the reply to its model's counters |
| CostTracker.Tracker.AddToTotalSessionCost | source/src/cost-tracker.ts:278-323 | the recursive loop charges the tree and returns its cost |
| CostTracker.Tracker.UsageByShortName | source/src/cost-tracker.ts:187-210 | the accumulation loop computes the regrouping |

## Left out

* The text of messages, prompts and hook output: a message is reduced to its tool calls, its results, its error and its identity.
* Model and API calls, analytics, profiling, prefetches and tool summaries: arbitrary extra messages or no effect on the state.
* Attachments that tools yield while the reply streams, and a hook stop seen there: the source handles them only in the tool phase, where the model has them as an arbitrary flag and count.
* Boundary messages of snipping and micro-compaction, and the copy of a reply with observable tool inputs filled in: what is yielded has the same calls.
* Stripping signature blocks before a model fallback is retried: it changes no tool call.
* The bookkeeping of automatic compaction (turn counter, consecutive failures) and the query chain depth: they only feed analytics and the compaction module.
* Termination of the model-fallback retry: the attempts of a request are an arbitrary finite list.
* The internals of compaction, collapsing, snipping, hooks and the token budget decision: their results are parameters.
* Concurrency inside the tool executor (which tools may run together): only the order in which results become ready matters here.
* QueryStream.YieldedOnce: a tool is taken to hold one result; lists of results are in `QueryTools`, with the exact condition under which the two agree.
* QueryStream.DrainYieldsRest: the same, and waiting for tools and their progress messages are not modelled.
* QueryMachine.GetCompletedResults: progress messages are left out, and the stop at a running exclusive tool is part of the arbitrary set of ready tools.
* QueryMachine.GetRemainingResults: waiting and progress are an arbitrary list of batches of ready tools.
* QueryTools.OneOrTwoResults: that the tool runner yields one result for each call is assumed.
* QueryStore.StoreIff: the caller keeps all messages; cutting at a compaction boundary is in `EngineStores.dfy`. With the streaming executor there is no such equivalence, as `QueryStore.FallbackAnswersTwice` shows.
* Digit strings beyond the precision of a number: ids are unbounded naturals.
* Counting line breaks of pasted text: the count is a parameter of the printer.
* Failure to release the history lock, and lock staleness: a release succeeds and the lock is exclusive.
* JSON encoding of history lines, the paste store and file access: a line is an entry, a foreign record or malformed.
* HistoryReading.InReadLog: says which lines are read; their order is proved for the entries of this process only.
* Changes to the history while a reader is suspended: a read is one step.
* The structured-output limit as a count: it counts calls in a store that truncation shrinks, so only its verdict is a parameter.
* Usage folding of stream events, permission denials and acknowledgements of replayed messages: they change neither the stores nor the result.
* Sanitising the message list for another provider before the first query: the local copy starts equal to the lasting store.
* Formatting of costs and durations, and floating-point rounding: costs are exact reals.
* Deciding whether a text is a slash command, a continuation or an addition: these are attributes of a command.
