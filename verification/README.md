# Verified model of tianluo's stateful core

A Dafny 4.11 model of seven stateful parts of tianluo and proofs of what they
promise over whole runs. `dafny verify dfyconfig.toml` checks everything.

| files | part of tianluo |
|---|---|
| `StopSignal.dfy`, `StopProtocol.dfy`, `InterjectionWatcher.dfy` | the cooperative stop signal, the SIGINT handler and the interjection watcher |
| `CodexConverter.dfy`, `CodexTurns.dfy`, `CodexStory.dfy` | the streaming converter from codex lifecycle events to stream lines |
| `ContentTracker.dfy` | the redraw-proof progress tracker over a pseudo-terminal |
| `TranscriptTail.dfy`, `TranscriptUsage.dfy` | the transcript tail and its token accounting |
| `HistoryCompactor.dfy` | the 1:1 rewrite of history files |
| `StdinFunnel.dfy` | the single-owner stdin funnel |
| `AgentMigration.dfy`, `StepSequences.dfy` | legacy command migration and step-sequence rewrites |
| `PricingNames.dfy`, `PricingSpellings.dfy`, `PricingCatalog.dfy` | model-name canonicalisation and price overrides |
| `Options.dfy`, `OrderedMaps.dfy`, `Sequences.dfy`, `ByteLines.dfy` | shared vocabulary: optional values, insertion-ordered dicts, sequences of texts, newline-cut bytes |

Objects that the program updates in place are classes whose methods are proved
to compute a specification function (`Next`, `Convert`, `Scanned`, `Tail`,
`CompactLine`, ...). The theorems are about arbitrary runs of those functions, and
state what they come to in terms of the history of inputs.
Threads are interleaved at the grain of one lock acquisition or one
unsynchronised read or write, each a move of a state machine. Parsers,
normalisers and the record compaction are arbitrary functions, so the theorems
hold whatever they do. Time-outs, file-system answers and call failures are
inputs.

## Where the code and what is said about it part

The model follows the code. Each disagreement is a lemma.

- `src/tianluo/stop_signal.py:409-411` says no interrupt is issued after
  `stop()` has returned. With a `join` that times out one can be:
  `LateTripHappens`. Exact condition, over all continuations up to the next start:
  `LateTripIff`.
- `src/tianluo/stop_signal.py:105-114` has the claimed escalation always find its
  raise. It does not when the SIGINT handler or a leaving scope stands down for an
  LLM call that started meanwhile, or when the outermost section ends with an error
  or off the main thread: `CallOrphansEscalation` and
  `FailedSectionOrphansEscalation` end with nothing in flight and nobody left to
  raise (a runner that polls the flag may still notice it). Exact condition over
  all runs: `OrphanedIffAbandoned`.
- `src/tianluo/stdin_channel.py:152-158` says a feeder left behind by `reset()`
  discards what it holds and exits. If the next read finds the same stream it
  goes on beside a second feeder, and lines come out in the wrong order:
  `ResetLeavesTwoFeeders`. Exact condition for a single feeder, over all runs with
  any number of resets: `OneFeederIffClean`. Under it every line comes once and in
  order: `EveryLineOnce`.
- `finalize()` leaves tools open that were started after the last turn end
  (`src/tianluo/codex_runner.py:977`): `FinalizeLeavesOpen`, exact condition in
  `FinalizeCompletes`.
- A result without usage moves the mark back when less was accumulated
  (`src/tianluo/claude_interactive_runner.py:943`), so increments can sum to more
  than was used: `BehindOvercounts`, exact condition in `IncrementsTelescope`. A
  result record dropped by the stream filter still moves the mark; the term
  `Filtered` in `IncrementsBalance` is what is lost that way.
- Agent names are only fresh within one source. Two sources with commands that
  slugify alike share a name and the later chain runs the earlier command:
  `SlugsCollideAcrossSources`, exact condition in `MergedRoundTrips`.
- Canonicalising a model name twice can differ from doing it once when white
  space stands before a date: `NotIdempotent`, exact condition in
  `CanonicalIsIdempotentIff`.

## Model

| member | source | states |
|---|---|---|
| StopSignals.StopSignal.constructor | src/tianluo/stop_signal.py:74-114 | a signal starts without request, scopes or flags |
| StopSignals.StopSignal.EnterLlmCall | src/tianluo/stop_signal.py:123-125 | one more call in flight, nothing else changed |
| StopSignals.StopSignal.ExitLlmCall | src/tianluo/stop_signal.py:127-129 | one fewer, never below zero |
| StopSignals.StopSignal.EnterUninterruptible | src/tianluo/stop_signal.py:138-140 | one more open section |
| StopSignals.StopSignal.ExitUninterruptible | src/tianluo/stop_signal.py:142-144 | one fewer, never below zero |
| StopSignals.StopSignal.Publish | src/tianluo/stop_signal.py:148-175 | publishing opens a new epoch with both flags cleared or extends the pending request in place, skipping empty texts and ids |
| StopSignals.StopSignal.Clear | src/tianluo/stop_signal.py:177-183 | drops the request, both flags and the event |
| StopSignals.StopSignal.Take | src/tianluo/stop_signal.py:299-307 | hands over the very request object, unchanged, and resets the signal |
| StopSignals.StopSignal.ClaimInterruptDelivery | src/tianluo/stop_signal.py:202-218 | wins exactly when nobody delivered before, and marks it delivered |
| StopSignals.StopSignal.ClaimEscalationDelivery | src/tianluo/stop_signal.py:220-238 | wins like an ordinary claim and then arms the handoff, but authorises no raise |
| StopSignals.StopSignal.ConsumeEscalationHandoff | src/tianluo/stop_signal.py:240-251 | succeeds once per armed handoff |
| StopSignals.StopSignal.MaybeRaiseDeferredInterrupt | src/tianluo/stop_signal.py:253-287 | a scope exit raises exactly on the main thread, with a request pending, no call and no section open, and the delivery unclaimed or handed off; if it does not raise it changes nothing |
| StopSignals.StopSignal.HandleSigint | src/tianluo/commands/run.py:102-143 | run undisturbed, the handler raises exactly when nothing is in flight and the request is new, undelivered or handed off to it; in flight it only publishes; texts pending before stay pending |
| StopProtocol.OneDeliveryPerEpoch | src/tianluo/stop_signal.py:202-251 | in every interleaving each epoch has exactly one winner among those who claim and at most one authorised raise, and the two flags are exactly that ledger |
| StopProtocol.LeavingRaisesIff | src/tianluo/stop_signal.py:253-287 | in every run a leaving scope raises exactly on the main thread with a request pending, both counters at zero and no raise authorised for that request yet |
| StopProtocol.NothingStrandedByDeferral | src/tianluo/stop_signal.py:253-287 | after a scope leaves on the main thread with a request pending, no call in flight and no section open, exactly one raise was authorised for it |
| StopProtocol.CountersAreOpenScopes | src/tianluo/stop_signal.py:123-144 | both counters equal entries minus exits exactly on runs where no exit came before its entry |
| StopProtocol.DepthIsOpenScopes | src/tianluo/stop_signal.py:138-144 | a counter clamped at zero is the number of open scopes exactly on bracketed runs, and never below it |
| StopProtocol.PendingIsSummary | src/tianluo/stop_signal.py:148-183 | the pending request is the first publisher's reason with all non-empty texts and ids since the last reset; the event is set exactly when there is one |
| StopProtocol.MessagesConserved | src/tianluo/stop_signal.py:148-183 | texts that left with a request, then the pending ones, are all non-empty texts ever published, in order |
| StopProtocol.TakenIsDropped | src/tianluo/stop_signal.py:299-307 | without `clear` what `take` returned is everything that left the signal |
| InterjectionWatchers.SystemRefinesSignal | src/tianluo/stop_signal.py:361-539 | any interleaving of watchers, handlers and leaving scopes is a run of the signal, so the one-raise theorem holds for the whole system |
| InterjectionWatchers.Reachable | src/tianluo/stop_signal.py:443-539 | in every reachable state the escalation lock is exclusive, a watcher past its check is neither spent nor stopped, claims per start are at most one, a handoff is a delivery, and every loop thread is the owner's or overdue |
| InterjectionWatchers.OneEscalationPerStart | src/tianluo/stop_signal.py:484-504 | at most one escalation claim per start, and none between `stop` taking the lock and the next start, old threads included |
| InterjectionWatchers.OrphanedIffAbandoned | src/tianluo/stop_signal.py:105-114 | in every run a claimed escalation of a pending request has nobody left to raise it exactly when its last carrier stood down for a call or its last section failed or ended off the main thread, with no Ctrl-C, section, leaving scope, `clear` or `take` since |
| InterjectionWatchers.OrphanedStep | src/tianluo/stop_signal.py:220-287 | every single step into and out of those states, exactly |
| InterjectionWatchers.CallOrphansEscalation | src/tianluo/commands/run.py:128-129 | a run in which a short call makes the handler stand down and nobody is left to raise |
| InterjectionWatchers.FailedSectionOrphansEscalation | src/tianluo/stop_signal.py:337-358 | a run in which the section that deferred the handler ends with an error and nobody is left to raise |
| InterjectionWatchers.PendingDroppedOnlyFor | src/tianluo/stop_signal.py:465-504 | over any run a pending escalation is still pending, or before some move there was ineligibility, a spent or stopped watcher, a call in flight, a delivery already claimed, its own claim, or a restart |
| InterjectionWatchers.DeferralSurvivesSection | src/tianluo/stop_signal.py:477-483 | whatever all threads do while a section stays open, a pending escalation stays pending and is not performed |
| InterjectionWatchers.DeferredEscalationFires | src/tianluo/stop_signal.py:512-520 | once the section is over the loop thread claims with a handoff and trips SIGINT |
| InterjectionWatchers.HandlerSpendsHandoff | src/tianluo/commands/run.py:138-143 | the handler run by a trip reaches the handoff and with it the authority to raise |
| InterjectionWatchers.LateTripIff | src/tianluo/stop_signal.py:534-539 | after `stop` has returned and until the next start, a watcher trips SIGINT in some continuation exactly when a thread stood right before its trip at the return, and such a thread is one whose join timed out |
| InterjectionWatchers.TripperIsOverdue | src/tianluo/stop_signal.py:522-539 | from the return of `stop` until the next start has its thread only an overdue thread can stand before a trip |
| InterjectionWatchers.LateTripHappens | src/tianluo/stop_signal.py:409-411 | a run that trips SIGINT after `stop` has returned |
| InterjectionWatchers.CallIsASchedule | src/tianluo/stop_signal.py:443-510 | the watcher method run at once is one schedule of the interleaved machine |
| InterjectionWatchers.PollIsASchedule | src/tianluo/stop_signal.py:424-441 | the poll run at once is one schedule of the machine, which publishes item by item |
| InterjectionWatchers.HandlerIsASchedule | src/tianluo/commands/run.py:102-143 | the handler run at once is one schedule of the machine |
| InterjectionWatchers.PublishAllAdds | src/tianluo/stop_signal.py:434-439 | drained items open or extend one request with all their non-empty texts and ids in order |
| InterjectionWatchers.StoppedLoopEnds | src/tianluo/stop_signal.py:512-520 | the thread of a stopped loop, left alone, ends without touching the signal |
| InterjectionWatchers.RestartIsFresh | src/tianluo/stop_signal.py:522-532 | a start after a stop has a fresh watcher and a new loop |
| InterjectionWatchers.IneligibleNeverEscalates | src/tianluo/stop_signal.py:465-476 | without the opt-in or a main-thread owner no run claims or trips SIGINT |
| InterjectionWatchers.InterjectionWatcher.EscalateIfNoLlmCall | src/tianluo/stop_signal.py:443-510 | interrupts exactly when eligible, outside sections, unspent, not stopped, with no call in flight and nothing delivered; stays pending exactly when an eligible watcher meets a section |
| InterjectionWatchers.InterjectionWatcher.PollOnce | src/tianluo/stop_signal.py:424-441 | all drained texts and call ids are added to the pending request in order, then the escalation is decided on what is pending now; an empty drain changes nothing |
| InterjectionWatchers.InterjectionWatcher.Start | src/tianluo/stop_signal.py:522-532 | re-arms the watcher and starts its loop, but changes nothing when one is running |
| InterjectionWatchers.InterjectionWatcher.Stop | src/tianluo/stop_signal.py:534-539 | asks the loop to stop and forgets it, so that a later start re-arms |
| CodexConverters.CodexEventConverter.ResolveItemId | src/tianluo/codex_runner.py:166-188 | an item's own id, or a new number |
| CodexConverters.CodexEventConverter.EmitToolEvents | src/tianluo/codex_runner.py:440-472 | one tool_use on first sight, one tool_result on the first final sight, in-flight map kept in order |
| CodexConverters.CodexEventConverter.HandleFileChanges | src/tianluo/codex_runner.py:600-640 | one tool per usable change under the item id and its index, and the touched files |
| CodexConverters.CodexEventConverter.HandleItemEvent | src/tianluo/codex_runner.py:642-858 | one item event refines the transducer, kind by kind |
| CodexConverters.CodexEventConverter.CloseInflightTools | src/tianluo/codex_runner.py:881-902 | an interrupted result for every tool in flight, in order of opening, and none left |
| CodexConverters.CodexEventConverter.ResetTurnState | src/tianluo/codex_runner.py:904-909 | a turn starts without messages or tools |
| CodexConverters.CodexEventConverter.HandleTurnEnd | src/tianluo/codex_runner.py:915-967 | closing results, then the result line, then a clean state |
| CodexConverters.CodexEventConverter.ConvertEvent | src/tianluo/codex_runner.py:208-253 | every event refines the transducer |
| CodexConverters.CodexEventConverter.Finish | src/tianluo/codex_runner.py:969-1003 | nothing once a turn has ended, else one closing turn end |
| CodexTurns.TurnsAreBracketed | src/tianluo/codex_runner.py:440-472 | in every event sequence each id of a turn has at most one use and one result, use first; finished turns are complete; the in-flight map is exactly used minus resulted |
| CodexTurns.CompleteIsAllResulted | src/tianluo/codex_runner.py:881-902 | a bracketed turn is complete exactly when every used id has a result |
| CodexTurns.FinalizeCompletes | src/tianluo/codex_runner.py:969-1003 | after finalize no tool is open exactly when no turn had ended or nothing was in flight |
| CodexTurns.FinalizeLeavesOpen | src/tianluo/codex_runner.py:977 | a run whose last item stays open |
| CodexTurns.OneResultPerTurnEnd | src/tianluo/codex_runner.py:915-967 | as many result lines as turn ends, and the terminal flag exactly then |
| CodexTurns.FinishedResultCount | src/tianluo/codex_runner.py:969-1003 | one result per turn end, or one if there was none, and a second finalize is silent |
| CodexTurns.CompletedTextIsLatest | src/tianluo/codex_runner.py:695-712 | a completed turn's text is the last non-empty text per message id, joined in order of first arrival |
| CodexTurns.RepeatsAreSilent | src/tianluo/codex_runner.py:440-472 | at any point of any run an item with an id emits nothing exactly when the open turn shows a use of every tool it speaks about, and for a final report a result; it then changes nothing but touched files |
| CodexTurns.FinishedItemIsSilent | src/tianluo/codex_runner.py:600-640 | once reported in its final state, an item reported again in any state in the rest of the turn emits nothing and changes nothing |
| CodexStory.OutputIsStory | src/tianluo/codex_runner.py:208-253 | the output of every run, line by line, told from the history of events: first sightings, first final sightings, final messages, interruptions in order of first sighting, last texts |
| CodexStory.FinishIsStory | src/tianluo/codex_runner.py:969-1003 | the same for runs ended by finalize, with what was said or the error of an empty run |
| CodexStory.TextsAreFinalMessages | src/tianluo/codex_runner.py:695-712 | the assistant texts are exactly the final non-empty messages in order: no fragment, none missing |
| CodexStory.PayloadsByKind | src/tianluo/codex_runner.py:714-851 | name, input, result and error flag of each kind of item |
| CodexStory.ChangePayload | src/tianluo/codex_runner.py:587-640 | the same for an entry of a list of changes, kind by kind |
| CodexStory.JoinedSplits | src/tianluo/codex_runner.py:911-913 | a text of several messages is theirs, one per line |
| CodexStory.TouchedIsReported | src/tianluo/codex_runner.py:157-160 | the touched files are exactly those some item reported |
| ContentTrackers.MeaningfulContentTracker.Scan | src/tianluo/claude_interactive_runner.py:291-323 | a scan holds the partial line back and judges the completed lines; it bumps the clock by one exactly when one of them was outside the seen set |
| ContentTrackers.ReachableIsConsistent | src/tianluo/claude_interactive_runner.py:311-321 | the seen set is exactly the deque's contents, without duplicates, at most 256 |
| ContentTrackers.ClockCountsFreshScans | src/tianluo/claude_interactive_runner.py:311-323 | over every run the clock is bumped once for each scan that judged a line outside the seen set, and not otherwise |
| ContentTrackers.WindowIsLastFresh | src/tianluo/claude_interactive_runner.py:311-321 | the deque holds the last 256 fresh lines in order, a line being fresh when it is not among the 256 fresh ones before it |
| ContentTrackers.RedrawsCannotHoldTheClock | src/tianluo/claude_interactive_runner.py:278-323 | from any reachable state, lines out of at most 256 strings are judged fresh at most that often, however chunked, and bump the clock no more |
| ContentTrackers.FreshFit | src/tianluo/claude_interactive_runner.py:311-321 | the combinatorial bound: recent fresh lines are all still in the deque |
| ContentTrackers.LongerCycleStaysFresh | src/tianluo/claude_interactive_runner.py:278-282 | 256 is exact: a cycle of 257 lines is fresh for ever |
| ContentTrackers.ChunkingIsImmaterial | src/tianluo/claude_interactive_runner.py:291-310 | with a line-wise normaliser the tracker's memory depends on the text alone, not on chunks and polls |
| TranscriptTail.TailNewRecords | src/tianluo/claude_interactive_runner.py:509-556 | one poll: truncation resets the cursor, only newline-terminated data is consumed, failures return nothing |
| TranscriptTail.TailingIsOneParse | src/tianluo/claude_interactive_runner.py:509-556 | all polls of an append-only file together return one parse of what lies before the cursor; the cursor stands past a newline and no visible newline lies beyond |
| TranscriptTail.ResumeContinues | src/tianluo/claude_interactive_runner.py:837-860 | a watcher resumed at a line start continues the parse of the whole file |
| TranscriptTail.TruncationRestarts | src/tianluo/claude_interactive_runner.py:509-556 | a file shorter than the cursor is read again from its start |
| TranscriptTail.RecordsOfLine | src/tianluo/claude_interactive_runner.py:536-556 | a terminated line gives the one record it parses to, if any |
| TranscriptTail.RecordsConcat | src/tianluo/claude_interactive_runner.py:536-556 | texts cut at a line start have their records side by side |
| ByteLines.SplitGlues | src/tianluo/claude_interactive_runner.py:536-556 | splitting cuts at every newline and loses nothing else |
| TranscriptUsage.SessionTranscriptWatcher.Accumulate | src/tianluo/claude_interactive_runner.py:901-930 | assistant usage is added category by category |
| TranscriptUsage.SessionTranscriptWatcher.ReportResult | src/tianluo/claude_interactive_runner.py:930-980 | the increment, the new mark and the partial flag of a result |
| TranscriptUsage.SessionTranscriptWatcher.Handle | src/tianluo/claude_interactive_runner.py:893-1000 | one record: counts, model line, usage, result and the stream filter |
| TranscriptUsage.SessionTranscriptWatcher.Poll | src/tianluo/claude_interactive_runner.py:874-1000 | a poll emits and accumulates exactly what the newly tailed records amount to |
| TranscriptUsage.PollingIsOnePass | src/tianluo/claude_interactive_runner.py:874-1000 | what was emitted and accumulated depends only on the bytes up to the cursor |
| TranscriptUsage.EmittedIsPassedOn | src/tianluo/claude_interactive_runner.py:893-1000 | all kept records are passed on in order and nothing else, each result at its number, and one model line for the first model named, right before the line of the record that names it |
| TranscriptUsage.StateFollows | src/tianluo/claude_interactive_runner.py:893-925 | record count, model and terminal flag are those of the records read |
| TranscriptUsage.IncrementsBalance | src/tianluo/claude_interactive_runner.py:930-980 | emitted plus filtered increments are the mark plus every fall of the mark |
| TranscriptUsage.IncrementsTelescope | src/tianluo/claude_interactive_runner.py:930-980 | increments sum to the mark exactly when accumulated usage was never behind it at a usage-less result |
| TranscriptUsage.BehindOvercounts | src/tianluo/claude_interactive_runner.py:943 | 16 tokens emitted for a mark of 10 |
| TranscriptUsage.MarkIsRunningMaximum | src/tianluo/claude_interactive_runner.py:930-980 | never behind, the mark is the running maximum of the reported positions |
| TranscriptUsage.AccumulatedIsSpent | src/tianluo/claude_interactive_runner.py:901-930 | accumulated usage is the sum over the assistant records |
| TranscriptUsage.PartialIffBackwards | src/tianluo/claude_interactive_runner.py:926-980 | a result is emitted with its position minus the highest one before it, never below zero, with no usage exactly when there is none anywhere, and partial exactly when it was or its snapshot lies below an earlier position |
| HistoryCompactor.CompactLineIsOneLine | scripts/compact_history_jsonl.py:139-196 | for any compaction one line stays one line, byte-identical or strictly shorter with the same terminator |
| HistoryCompactor.CompactsIff | scripts/compact_history_jsonl.py:139-196 | a line is compacted exactly when it has at least 65536 bytes and a shorter dump that is one line of JSON, and failed exactly in the failing cases; otherwise it is left alone |
| HistoryCompactor.TotalsCount | scripts/compact_history_jsonl.py:239-253 | the totals are the numbers of lines of each kind and the bytes of the oversized ones |
| HistoryCompactor.LinesAreLines | scripts/compact_history_jsonl.py:239-253 | cutting a file into physical lines loses nothing |
| HistoryCompactor.LinesOfFlatten | scripts/compact_history_jsonl.py:239-253 | reading back written lines recovers exactly those lines |
| HistoryCompactor.RewriteKeepsOrdinals | scripts/compact_history_jsonl.py:139-253 | a rewrite keeps number and order of lines, shrinks by exactly the bytes reported saved, and is the identity exactly when no line was compacted |
| HistoryCompactor.SkippingIsIdentity | scripts/compact_history_jsonl.py:219-236 | a file without oversized lines would be rewritten to itself |
| HistoryCompactor.CountPhysicalLines | scripts/compact_history_jsonl.py:199-216 | the chunked count is the number of physical lines for every chunking |
| HistoryCompactor.CountFileLines | scripts/compact_history_jsonl.py:199-216 | reading in blocks of one mebibyte counts the physical lines of the file |
| HistoryCompactor.HasOversizedLine | scripts/compact_history_jsonl.py:219-236 | finds an oversized line if and only if there is one, and counts the lines |
| HistoryCompactor.Stream | scripts/compact_history_jsonl.py:239-253 | writes the rewritten lines and adds up their outcomes |
| HistoryCompactor.Disk.RewriteFile | scripts/compact_history_jsonl.py:281-348 | whatever call fails, the source is as before or exactly its rewrite and only the scratch file is touched; the error names the failing call and there is none without one, so the line-count guard is dead code |
| HistoryCompactor.Disk.ProcessFile | scripts/compact_history_jsonl.py:281-348 | with no failing call an applied pass rewrites the file exactly when some line of it can be made smaller; a dry run changes nothing; every error has its failing call; size drops by the saved bytes |
| HistoryCompactor.UnescapeInverts | scripts/compact_history_jsonl.py:256-278 | the scratch-name escape has an inverse and leaves no dot |
| HistoryCompactor.TmpNamesDiffer | scripts/compact_history_jsonl.py:256-278 | two sources never share a scratch name |
| HistoryCompactor.TmpIsNoHistory | scripts/compact_history_jsonl.py:256-278 | no scratch name contains `.jsonl` |
| StdinFunnel.SharedStdin.EnsureFeederLocked | src/tianluo/stdin_channel.py:65-89 | a new stream resets the buffer; a feeder is started exactly when none lives and the end was not seen |
| StdinFunnel.SharedStdin.Feed | src/tianluo/stdin_channel.py:91-110 | a line is appended, an empty read ends the stream, a superseded feeder leaves everything alone |
| StdinFunnel.SharedStdin.ReadAll | src/tianluo/stdin_channel.py:113-129 | pending exactly before end of file, and then consumes nothing; otherwise everything |
| StdinFunnel.SharedStdin.ReadLine | src/tianluo/stdin_channel.py:131-150 | the first line without its ending; with none, no answer at end of file and pending before, consuming nothing |
| StdinFunnel.SharedStdin.Reset | src/tianluo/stdin_channel.py:152-165 | the funnel is empty and detached |
| StdinFunnel.OneFeederIffClean | src/tianluo/stdin_channel.py:65-165 | over runs with any number of resets, there was never more than one live feeder exactly when no read attached the funnel again before the feeder left behind by a reset had ended |
| StdinFunnel.EveryLineOnce | src/tianluo/stdin_channel.py:65-165 | in every such run delivered then buffered lines are the ones fed since the last reset, in order; with what left before, the line in hand and the unread rest they are the input; end of file means all the rest was fed |
| StdinFunnel.NoResetIsClean | src/tianluo/stdin_channel.py:65-150 | without a reset every run is such a run, and nothing left before |
| StdinFunnel.LineAnswersAreNextInput | src/tianluo/stdin_channel.py:131-150 | a pending line read consumes nothing, no answer comes only at end of file with all delivered, a line is the next one of the input |
| StdinFunnel.WholeAnswersAreRestOfInput | src/tianluo/stdin_channel.py:113-129 | the same for reading to the end, whose answer is all the rest of the input |
| StdinFunnel.EveryReadIsAnswered | src/tianluo/stdin_channel.py:91-150 | from every state of such a run with the funnel attached, the feeder left alone brings end of file and, without a failed read, all the rest of the input: no read waits for ever |
| StdinFunnel.ResetLeavesTwoFeeders | src/tianluo/stdin_channel.py:152-165 | a run, not clean, with two live feeders and two lines in the wrong order |
| AgentMigration.NormalizeCommands | src/tianluo/config.py:2387-2406 | strings and mappings with a command, in order, the rest skipped |
| AgentMigration.NormalizedOne | src/tianluo/config.py:2387-2406 | what one entry of each form normalises to |
| AgentMigration.NormalizedConcat | src/tianluo/config.py:2387-2406 | lists normalise entry by entry |
| AgentMigration.NormalizingUndoes | src/tianluo/config.py:2387-2406 | normalised commands written back as mappings normalise to themselves |
| AgentMigration.SlugIsNameIff | src/tianluo/config.py:1258-1269 | a name is its own slug exactly when it is not empty and has only letters, digits, dashes and underscores; other characters become underscores |
| OrderedMaps.DecimalReads | src/tianluo/config.py:1272-1279 | the number in a generated name reads back |
| AgentMigration.UniqueName | src/tianluo/config.py:1272-1279 | the base or the first free number, found within as many tries as there are names |
| AgentMigration.FirstFreeIsUnique | src/tianluo/config.py:1272-1279 | there is only one such name |
| AgentMigration.MigrateClaudeCommands | src/tianluo/config.py:1282-1336 | every command sits under its own fresh name, nothing else is registered, and resolving the chain and converting back gives the normalised list, in order |
| AgentMigration.NamesAreDetermined | src/tianluo/config.py:1282-1336 | the same commands always get the same names |
| AgentMigration.MergedRoundTrips | src/tianluo/config.py:1485-1494 | after merging into an earlier source it still does, exactly when no generated name was registered for another command |
| AgentMigration.SlugsCollideAcrossSources | src/tianluo/config.py:1485-1494 | two sources for which it does not |
| StepSequences.InsertE2EStep | src/tianluo/config.py:3852-3890 | inserts e2e right after the first test step exactly when it is enabled, missing, and there is one |
| StepSequences.AppendWorktreeMergeSteps | src/tianluo/config.py:3893-3930 | inserts what is missing of integrate and reconcile, in this order, after the first commit or at the end |
| StepSequences.InsertConfirmationSteps | src/tianluo/config.py:1022-1075 | the loop, with its early return, inserts a confirmation after each configured step |
| StepSequences.InsertionsAreIdempotent | src/tianluo/config.py:3852-3930 | each insertion applied again changes nothing |
| StepSequences.InsertionsOfBothCommute | src/tianluo/config.py:3852-3930 | the two insertions commute on every sequence, with or without their anchors |
| StepSequences.InsertionsErase | src/tianluo/config.py:3852-3930 | erasing what was newly inserted gives back the input |
| StepSequences.E2ELands | src/tianluo/config.py:3852-3890 | the e2e step lands right after the first test step and everything else stays in place |
| StepSequences.MergeLands | src/tianluo/config.py:3893-3930 | the missing merge steps land right after the first commit, or at the end |
| StepSequences.ConfirmationsFollow | src/tianluo/config.py:1022-1075 | a step is directly followed by a confirmation exactly when it is configured, none stands first, and erasing them gives back the input |
| StepSequences.ConfirmedStepwise | src/tianluo/config.py:1022-1075 | on any sequence, also with confirmations in it, each step is confirmed on its own |
| PricingNames.CanonicalizePricingModel | src/tianluo/pricing.py:220-248 | the loop terminates; looking up aliases before and after stripping comes to stripping all dates first and then resolving the alias |
| PricingNames.AliasesArePlain | src/tianluo/pricing.py:190-211 | no alias ends in a date or a space, and what it stands for is plain text and itself no alias |
| PricingSpellings.DatesDoNotMatter | src/tianluo/pricing.py:213-248 | any number of dates in either form appended to a name leaves its canonical name unchanged |
| PricingSpellings.SpellingDoesNotMatter | src/tianluo/pricing.py:230-233 | neither do the case of ASCII letters and surrounding white space |
| PricingSpellings.DateForms | src/tianluo/pricing.py:213-217 | the dates are a dash with eight digits, or with four, two and two digits between dashes |
| PricingSpellings.DateBeforeNewline | src/tianluo/pricing.py:213-242 | a date before a final newline is taken off too |
| PricingSpellings.UnmappableIff | src/tianluo/pricing.py:228-244 | a name cannot be mapped exactly when there is none, it has a `$` or `{`, or nothing is left without dates |
| PricingSpellings.ListedMeansCanonical | src/tianluo/pricing.py:190-211 | every alias of the table, with any dates after it, stands for its canonical name |
| PricingNames.ListedIsAlias | src/tianluo/pricing.py:207-211 | the reverse lookup finds everything the table lists |
| PricingNames.AliasIsListed | src/tianluo/pricing.py:207-211 | and nothing else |
| PricingSpellings.CanonicalIsIdempotentIff | src/tianluo/pricing.py:220-248 | a canonical name is its own canonical name exactly when the undated name does not end in white space |
| PricingSpellings.IdempotentWithoutSpace | src/tianluo/pricing.py:220-248 | on names without white space canonicalisation is idempotent |
| PricingSpellings.NotIdempotent | src/tianluo/pricing.py:238-248 | a name on which it is not |
| PricingCatalogs.ReadPatch | src/tianluo/pricing.py:465-482 | reading one table, with its early failure, is a fold over its rows |
| PricingCatalogs.WithOverrides | src/tianluo/pricing.py:435-497 | merging all overrides, with its early failure, is a fold over canonicalised overrides |
| PricingCatalogs.Get | src/tianluo/pricing.py:424-433 | looks the canonical name up |
| PricingCatalogs.KeysOfCategories | src/tianluo/pricing.py:394-403 | a key names a category exactly when it is its value or one of the two friendly names |
| PricingCatalogs.PatchHoldsLast | src/tianluo/pricing.py:465-482 | a patch holds the last price given for a category under any accepted key |
| PricingCatalogs.PatchHoldsPriced | src/tianluo/pricing.py:465-482 | and it holds exactly the categories some row prices |
| PricingCatalogs.PatchIffReadable | src/tianluo/pricing.py:374-388 | a table is refused exactly when a known category holds an invalid price |
| PricingCatalogs.AcceptedIff | src/tianluo/pricing.py:452-482 | overrides are accepted exactly when every mappable model has a table of valid prices |
| PricingCatalogs.OverridesAreOnePatch | src/tianluo/pricing.py:451-497 | all overrides of one model act as one patch of all its rows, and a model without priced rows keeps its entry or its absence |
| PricingCatalogs.LastOverrideWins | src/tianluo/pricing.py:424-497 | any spelling of a model is priced at the last value given under any spelling, and every other model and category keeps its price |

## Left out

- InterjectionWatchers.InterjectionWatcher.Start: the thread itself runs in the interleaved machine, whose moves from clearing to spawning are the source's four steps.
- InterjectionWatchers.InterjectionWatcher.Stop: taking the escalation lock and the timed join are moves of the interleaved machine, not of the sequential object.
- StopSignals.StopSignal.HandleSigint: the sequential method is one undisturbed handler; its interleavings are moves of the watcher machine.
- CodexConverters.CodexEventConverter.HandleItemEvent: the payload has been read into one text per field; fallback chains and the parsing of MCP arguments are not modelled.
- CodexConverters.CodexEventConverter.HandleTurnEnd: usage, cost and session metadata of the result line are not modelled.
- CodexConverters.CodexEventConverter.ConvertEvent: takes parsed events; text parsing and the branch that swallows an exception are not modelled.
- ContentTrackers.ChunkingIsImmaterial: assumes a normaliser that works line by line; an escape sequence spanning a newline can break that.
- TranscriptTail.TailingIsOneParse: append-only files; after a truncation reading starts over, and no theorem relates the records before and after it.
- TranscriptUsage.SessionTranscriptWatcher.ReportResult: provider, model, cost semantics, event id and the diagnostic text of a result record are not modelled.
- TranscriptUsage.SessionTranscriptWatcher.Handle: the last-record fields and the defaults added to result records are not modelled.
- TranscriptUsage.SessionTranscriptWatcher.Poll: locating the file, the activity time and the last-record fields are not modelled.
- HistoryCompactor.Disk.RewriteFile: one process; concurrent writers and crashes between two calls are not modelled.
- StdinFunnel.SharedStdin.EnsureFeederLocked: one stream object; a missing stdin, the disabled feeder of tests and the switch to a second stream are not modelled.
- PricingNames.CanonicalizePricingModel: ASCII names; other digits, capitals and spaces of Unicode are not folded.
- PricingCatalogs.WithOverrides: prices are exact rationals, and version, source, effective date and warnings of an entry are not modelled.
- The signal handler interrupting the main thread inside one of its own critical sections of the re-entrant lock.
- `note_interrupt_delivered`, which bypasses the claim, interrupt callbacks supplied by a caller, and the cooperative polling of the flag by the runners.
- The codex shell-snapshot path, which skips the closing of tools.
- JSON, UTF-8 and ANSI text processing; JSON lines that are no objects.
- The record compaction itself: any function, with valid JSON text being non-empty.
- Configuration loading, validation, deprecation warnings and non-string commands; only the rewrites are modelled.
- Process spawning, pseudo-terminals, wall-clock time, cost estimation and the built-in price table: effects of the operating system or easy members.
