# Verification of the cywl_oopz audio, agent and chat cores

A Dafny 4.11 model of the stateful cores of the repository, with proofs about
every run of them. `dafny verify dfyconfig.toml` covers the whole project.

## What is modelled

**Shared audio output.** `MasterPlayoutLedger` keeps a window of 20 ms master
blocks and maps the SDK's accepted and rendered counters back to cursors of
each source. A flush closes the epoch, hands back the frames of surviving
sources that were never heard, and the bus repacks and registers them again.
`LedgerSpec` says what each ledger operation does to a state, refusals
included; `Ledger` is the class with its fields and loops, each method proved
equal to the specification; `LedgerInvariant`, `LedgerObservation` and
`PlayedSamples` hold facts about all operation sequences. `Replay` and `ReplayPlan` are the
repacking, `Streams` reads heard and unheard frames off the entries, and
`Playout` and `PlayoutWindow` put ledger and replay together as the bus does;
`AbortedFlush` follows the runs in which a flush was cancelled or failed.
`BusProtocol` is the queue and waiter protocol of producers, the writer, a
flush and a close, `BusAnswers` what each producer is told, `BusOrder` what it
means for the blocks of one source. `ConverterSpec`, `Converter`, `Dynamics`
and `ExactGains` are the block converter at 48 kHz and the gain envelope and
limiter in real arithmetic; `Producers` joins converters, lanes and ledger.

**Agent threads.** `SummarySelection` and `AgentThread` model the message log,
the run table and the thread row as the repository calls read and write them,
with one turn at a time under the conversation lock and any number of
background summaries; `ThreadRuns` says what whole runs mean for single rows,
`SummaryProgress` when a summary can still come.

**Conversation state.** `LockPool` and `RateLimit` model the lock pool and the
leases under any interleaving; `Budget`, `ChatHistory` and `ChatExpiry` the
trimmed storage; `AgentContext`, `AgentTrim` and `ImageBudget` the history and
image budgets of a run, and `AgentHistory` what a thread gives it; `Pagination`
the UTF-16 paginator; `Display` and `DisplayEvents` the progress reducer and
what it shows of the events.

Where the source changes state in place the model is a class or a method with
loops, proved against a specification function; the properties are lemmas
about those functions. Protocols are step relations, and a run is any list of
states joined by enabled steps.

## What the proofs say about the code

- The replay of a flush fits the window if and only if the window is a whole
  number of 960-frame blocks (`PlayoutWindow.ReplayFitsExactly`). A 1000-frame
  window, for example, can retain 1000 frames that replay as two full blocks.
  Windows come from milliseconds, so a window of 50 ms is of this kind.
- A flush that is cancelled or fails after the remix sets the failure flag, but
  the writer loop does not look at it and goes on with what is queued. In every
  run from there on the frames still waiting for replay are never heard, while
  the rendered cursor moves over them as soon as a later block is heard
  (`AbortedFlush.LostFramesNeverHeard`, `AbortedFlush.AbortCanSkipABlock`). A
  source stays truthful through the abort if and only if every replay write that
  carries it was registered; right after the remix that is, if and only if the
  plan's cursors say rendered = accepted
  (`AbortedFlush.AbortHarmlessIffReplayed`,
  `AbortedFlush.AbortHarmlessIffRendered`).
- A source block that starts below its accepted cursor is not refused; the
  cursors then no longer tell the truth (`Playout.RegisterFreshTruth`). The
  converter never numbers one that way, and lanes keep its order, so no run of
  converters and bus meets that case (`Producers.ConvertersKeepTheGuard`,
  `BusOrder.RegisteredAsSubmitted`).
- A due summary may never be made. A task sees twice the trigger number of
  messages behind the cut, and only whole turns of them count. When the oldest
  turn and the messages to retain do not fit into what those turns can come to
  hold, every later summary is blocked until the thread is cleared
  (`SummaryProgress.NoRoomBlocksSummaries`), and in every other state some run
  comes to a summary (`SummaryProgress.SummaryPossibleIff`). A turn longer than
  twice the trigger is one such case; a turn of 2 messages followed by one of
  twice the trigger is another. With turns of L messages at most, 2 < L <
  trigger, the settings rule it out if and only if they retain at most
  2 * trigger - 2 * L + 1 messages (`SummaryProgress.BlockedReachableIff`). The
  default settings are safe up to 18 messages, a question, 8 calls with their
  results and an answer, and not from 19 on
  (`SummaryProgress.DefaultsBlockFrom19`); a call whose arguments were rejected
  is one message more.
- A status call deletes an expired chat row without the conversation lock. When
  that falls between the load and the save of an ask, the ask stores the expired
  history again (`ChatHistory.ExpiredHistoryReturns`). The store is one trim of
  the transcript since the last reset if and only if nothing but answers of what
  came back still fits before it (`ChatHistory.StoreRefinesTranscript`). A late
  status call can also delete a row that has not expired
  (`ChatHistory.FreshRowCanBeDeleted`).
- History trimming promises not to separate a call from its result. When ids are
  used once it keeps that promise if and only if, in the suffix that fits, both
  lie on the same side of the first user message (`AgentContext.TornPair`,
  `AgentContext.PairsKeptIffOneSide`). Histories loaded from a thread keep it
  when each result is in the turn of its call, also where calls with rejected
  arguments have no result (`AgentHistory.LoadedHistoryKeepsPairs`).
- Image budgets count declared sizes. An image whose numbers cannot be read
  counts as empty and keeps any amount of data
  (`AgentContext.UnreadableSizeKeepsAll`). The data really kept of given images
  stays within the byte budget under all settings if and only if none holds more
  than it declares, or none holds any (`AgentContext.AlwaysWithinBytesIff`).
- A lock release that is itself cancelled keeps its key in the pool for good
  (`LockPool.LeakedKeyStaysForGood`); mutual exclusion is not affected.

## Model

| member | source | states |
|---|---|---|
| `Playout.CursorsAreTruthful` | src/cywl_oopz/features/audio/ledger.py:138-320 | Main result. After any run of fresh writes, acknowledgements, observations, flushes with replays and releases, for every source not being discarded: the frames below its rendered cursor are exactly the frames it was fed there, heard once each and in order, and the unrendered parts of its slices over the entries, followed by the replays still due, are exactly frames rendered to accepted - 1 |
| `Playout.StepHonest` | src/cywl_oopz/features/audio/session.py:184-218 | Every step of the bus keeps each source truthful, keeps the replay writes valid, and keeps discarded sources out of the entries |
| `Playout.RegisterFreshTruth` | src/cywl_oopz/features/audio/ledger.py:258-263 | A fresh block that is not refused keeps its source truthful if and only if it starts at the number of frames fed so far: a later start is refused, an earlier one repeats frames |
| `Playout.NoGapNoRefusal` | src/cywl_oopz/features/audio/ledger.py:138-162 | With no write pending, a canonical block and no lane ahead of its accepted cursor, registration succeeds exactly when the block fits the window, and a refusal is for lack of room and changes nothing |
| `Playout.ReconcileTruth` | src/cywl_oopz/features/audio/ledger.py:265-320 | Moving the master cursor moves the boundary between heard and unheard frames of a source and nothing else |
| `Playout.ReconcileProgress` | src/cywl_oopz/features/audio/ledger.py:301-320 | The rendered cursor of a source advances by exactly the number of its frames the master newly rendered, although the code computes it as a maximum over entries |
| `Playout.ReconcileReach` | src/cywl_oopz/features/audio/ledger.py:301-320 | Without that assumption, as long as the waiting frame numbers only go up: the rendered cursor moves to one past the last frame newly heard, over any gap in the numbers |
| `Playout.ReplayHonest` | src/cywl_oopz/features/audio/session.py:477-488 | Registering a replay block again keeps every source truthful, although its frames lie below the accepted cursor |
| `Playout.FlushHonest` | src/cywl_oopz/features/audio/ledger.py:213-256 | Closing the epoch hands every kept source its unheard frames as replay writes and leaves no entry behind |
| `Playout.EndFlushHonest` | src/cywl_oopz/features/audio/session.py:184-207 | Forgetting the discarded sources at the end of a flush can never be refused: no entry refers to them |
| `PlayoutWindow.ReplayFitsExactly` | src/cywl_oopz/features/audio/ledger.py:144-145 | Some run ends in a replay write that is refused for lack of room if and only if the window is not a whole number of 960-frame blocks |
| `PlayoutWindow.ReplayAlwaysFits` | src/cywl_oopz/features/audio/session.py:477-488 | With a whole-block window every due replay write of every run is taken, even if nothing rendered meanwhile |
| `PlayoutWindow.PartWindowRefuses` | src/cywl_oopz/features/audio/ledger.py:144-145 | For every other window a reachable state exists from which every plan for the survivors can end in a refused replay |
| `PlayoutWindow.StepKeepsRoom` | src/cywl_oopz/features/audio/ledger.py:223-256 | Unrendered frames and replays still due together never exceed a whole-block window |
| `AbortedFlush.LostFramesNeverHeard` | src/cywl_oopz/features/audio/session.py:198-206 | Main result on cancelled or failed flushes: in every run that goes on after one and neither releases nor discards a source, its frames still waiting for replay are never heard; what was heard and what waits are all other frames in order; the rendered cursor is one past the last frame heard, so once it moves over the start of the lost frames it has moved beyond their end, and while any were lost it does not tell the truth |
| `AbortedFlush.AbortHarmlessIffReplayed` | src/cywl_oopz/features/audio/session.py:477-488 | A kept source stays truthful through an aborted flush if and only if every replay write that carries it had been registered |
| `AbortedFlush.AbortHarmlessIffRendered` | src/cywl_oopz/features/audio/session.py:189-206 | For a flush aborted right after its remix: if and only if the cursors of the remix plan say that all accepted frames of the source were rendered |
| `AbortedFlush.AbortCanSkipABlock` | src/cywl_oopz/features/audio/session.py:343-382 | For every window and every music source a reachable flush exists after whose abort the cursors are untruthful, the next block of the source is still taken, and the source ends with two blocks accepted and rendered of which only the second was heard |
| `AbortedFlush.AbortedBusStillWrites` | src/cywl_oopz/features/audio/session.py:343-382 | Nothing in the ledger stops the writer from accepting further blocks after such a flush, since the writer loop does not look at the failure flag |
| `AbortedFlush.StepLost` | src/cywl_oopz/features/audio/ledger.py:138-320 | No later event of the bus brings the frames of a gap back or makes the source forget the frames fed to it |
| `AbortedFlush.AbortOpensGap` | src/cywl_oopz/features/audio/session.py:198-206 | An aborted flush leaves exactly the frames of its unmade replay writes as a gap at the end of what was fed |
| `Producers.ConvertersKeepTheGuard` | src/cywl_oopz/features/audio/converter.py:196-211 | When every source is fed, in order, what its converter emitted and is not written after its release, every run that the ledger and the bus allow is one whose fresh blocks all start at their accepted cursors: the guard of the runs above rules nothing out |
| `Producers.NextBlockAtCursor` | src/cywl_oopz/features/audio/converter.py:196-211 | After any run the next block of a converter starts exactly at the accepted cursor of its source |
| `BusOrder.RegisteredAsSubmitted` | src/cywl_oopz/features/audio/session.py:152-218 | In every interleaving, failures and closes included, what the ledger got of a source that no flush discarded is a beginning of what was admitted of it, in order and without a hole |
| `BusOrder.StepInOrder` | src/cywl_oopz/features/audio/session.py:343-402 | Until the writer stops, every step keeps registered, in-flight and queued blocks of a source together equal to all that were admitted of it |
| `LedgerInvariant.EveryRunKeepsInv` | src/cywl_oopz/features/audio/ledger.py:138-348 | In every state after any sequence of operations, refused ones included: entries tile the master timeline up to the next frame, rendered <= accepted <= next, unrendered frames stay within the window, a pending write is the last entry, every referenced source is tracked, and each source has rendered <= accepted |
| `LedgerInvariant.CursorsMonotone` | src/cywl_oopz/features/audio/ledger.py:201-320 | A source never loses its cursors and neither of them moves backwards, across epochs, until it is forgotten |
| `LedgerInvariant.PendingIsLast` | src/cywl_oopz/features/audio/ledger.py:283-291 | A cursor reaches the pending write exactly when it reaches the end of everything registered |
| `LedgerInvariant.AdvanceOrdered` | src/cywl_oopz/features/audio/ledger.py:301-320 | Advancing over the entries never lifts a rendered cursor above its accepted cursor, so that error cannot be raised |
| `LedgerInvariant.TiledLength` | src/cywl_oopz/features/audio/ledger.py:138-162 | The retained entries cover their stretch of the timeline with exactly one block each |
| `LedgerInvariant.RemixKeeps` | src/cywl_oopz/features/audio/ledger.py:213-256 | Closing an epoch keeps the ledger invariant and every source cursor |
| `LedgerInvariant.ForgetKeeps` | src/cywl_oopz/features/audio/ledger.py:201-211 | Releasing sources keeps the invariant and every other source |
| `LedgerInvariant.ForgetExactly` | src/cywl_oopz/features/audio/ledger.py:201-211 | Releasing is refused if and only if an entry refers to one of the keys and then changes nothing; otherwise the keys are gone and the answer counts how many of them were tracked |
| `LedgerInvariant.AcknowledgeExactly` | src/cywl_oopz/features/audio/ledger.py:164-178 | A write is acknowledged if and only if the id is its own and the cursor is of the epoch, took in everything registered and renders no less than before; then nothing is pending |
| `LedgerInvariant.GapRegistersNothing` | src/cywl_oopz/features/audio/ledger.py:258-263 | A registration that would leave a gap registers nothing; the source whose slice is too far ahead is tracked below it |
| `LedgerInvariant.CursorMarks` | src/cywl_oopz/features/audio/ledger.py:282-287 | A cursor marks as accepted exactly the entries that end within its accepted range |
| `LedgerInvariant.SampleAtPosition` | src/cywl_oopz/features/audio/ledger.py:322-332 | The sample looked up for a covered position is the one at its offset in its entry |
| `PlayedSamples.RememberedIsLastPlayed` | src/cywl_oopz/features/audio/ledger.py:322-332 | Main result on the remembered sample: after every run of operations it is the last sample played, that is the one just before the rendered cursor of all output registered in the open epoch, or the last played before the flushes that closed earlier epochs, or none |
| `PlayedSamples.ReconcileRemembers` | src/cywl_oopz/features/audio/ledger.py:300-332 | A cursor that moves remembers the output sample just before it, at its offset in its entry; one that does not move changes nothing |
| `PlayedSamples.AcknowledgeRemembers` | src/cywl_oopz/features/audio/ledger.py:164-178 | The same for an acknowledged write |
| `PlayedSamples.RemixRemembers` | src/cywl_oopz/features/audio/ledger.py:213-256 | The plan of a flush passes that sample on and names the epochs it closes and opens and the cursors it left |
| `LedgerObservation.ObserveThenObserve` | src/cywl_oopz/features/audio/ledger.py:180-186 | Path independence: observing a cursor and then a later one gives the same answer and the same ledger as observing the later one only, retained entries, source cursors and last sample included |
| `AudioModels.TrimCutsWhereCursorStopped` | src/cywl_oopz/features/audio/models.py:218-232 | The frames counted as rendered and the slice kept by a trim are together exactly the registered slice, same numbers and samples; the end offset drops by exactly the prefix; nothing is kept exactly when all was counted |
| `Streams.HeardThenUnheard` | src/cywl_oopz/features/audio/ledger.py:265-320 | Moving a cursor splits what was unheard into newly heard and still unheard, nothing skipped, nothing twice |
| `Streams.UnheardAfterDrop` | src/cywl_oopz/features/audio/ledger.py:298-299 | Popping finished entries changes nothing about what is unheard |
| `Streams.ReachIsLastHeard` | src/cywl_oopz/features/audio/ledger.py:301-320 | If the unheard frame numbers of a source only go up from its rendered cursor, the furthest frame reached over all entries is one past the last frame newly heard |
| `Streams.SurvivorsAreUnheard` | src/cywl_oopz/features/audio/ledger.py:213-234 | The survivors of a flush are, source by source, exactly the unheard frames of the sources it keeps and nothing of those it discards, in valid segments, at most one an entry |
| `Streams.SurvivorsAreTight` | src/cywl_oopz/features/audio/ledger.py:223-236 | Every survivor is valid and would not be if it were one frame shorter |
| `Ledger.MasterPlayoutLedger.constructor` | src/cywl_oopz/features/audio/ledger.py:104-116 | A new ledger is the initial state of the specification |
| `Ledger.MasterPlayoutLedger.RegisterPending` | src/cywl_oopz/features/audio/ledger.py:138-162 | The registering method does what the specification says, in every refusal too, including that the first lane is noted before the second can be refused |
| `Ledger.MasterPlayoutLedger.NoteSourceAccepted` | src/cywl_oopz/features/audio/ledger.py:258-263 | The new source table and whether the slice was accepted, as specified |
| `Ledger.MasterPlayoutLedger.MarkAccepted` | src/cywl_oopz/features/audio/ledger.py:164-178 | The acknowledging method does what the specification says and keeps the invariant; the entry lookup cannot fail |
| `Ledger.MasterPlayoutLedger.Observe` | src/cywl_oopz/features/audio/ledger.py:180-186 | The observing method does what the specification says and keeps the invariant |
| `Ledger.MasterPlayoutLedger.Reconcile` | src/cywl_oopz/features/audio/ledger.py:265-299 | The step-by-step reconciliation equals the specification, including the entries it marks before it refuses an uncommitted write |
| `Ledger.MasterPlayoutLedger.AdvanceSources` | src/cywl_oopz/features/audio/ledger.py:301-320 | The loop with its early break computes, for every tracked source, the maximum over all entries |
| `Ledger.MasterPlayoutLedger.CaptureLastRenderedSample` | src/cywl_oopz/features/audio/ledger.py:322-332 | The remembered sample is the output of the entry that holds the last rendered position, at its offset in that entry |
| `Ledger.MasterPlayoutLedger.CollectSurvivors` | src/cywl_oopz/features/audio/ledger.py:223-234 | The loop collects exactly the specified survivors and each of them passes the checks of the segment constructor |
| `Ledger.MasterPlayoutLedger.Remix` | src/cywl_oopz/features/audio/ledger.py:213-256 | The method closes the epoch as specified; every segment of its plan is valid |
| `Ledger.MasterPlayoutLedger.ForgetSources` | src/cywl_oopz/features/audio/ledger.py:201-211 | Refused exactly when an entry still refers to one of the keys; otherwise removes them and counts those that were tracked |
| `Replay.PackSingleLane` | src/cywl_oopz/features/audio/session.py:520-566 | Refused exactly when a slice is not left aligned; otherwise the blocks carry exactly the frames of the slices by source, number and sample, are valid and silent-padded, are full wherever the source runs on, and are no more than the slices when each slice fits a block |
| `Replay.Emit` | src/cywl_oopz/features/audio/session.py:527-548 | Turns the pending frames of one run into blocks: what is emitted and what stays pending are together the frames that were pending |
| `Replay.PackingIsUnique` | src/cywl_oopz/features/audio/session.py:520-566 | Those promises leave no freedom: two packings of the same slices are equal |
| `ReplayPlan.ReplayBlocks` | src/cywl_oopz/features/audio/session.py:491-517 | Always succeeds on the survivors of a remix; a single lane is repacked, otherwise each survivor becomes one write; both keep every source stream |
| `ReplayPlan.BlockFromSlice` | src/cywl_oopz/features/audio/session.py:590-604 | Refused exactly for a slice with an offset; otherwise a valid padded block of the same frames |
| `ReplayPlan.LaneReplays` | src/cywl_oopz/features/audio/session.py:491-513 | A packing of one lane, written as pairs, replays the stream of every source of the survivors |
| `ReplayPlan.PlanExists` | src/cywl_oopz/features/audio/session.py:491-517 | Every list of survivors has a replay plan |
| `BusProtocol.EveryInterleaving` | src/cywl_oopz/features/audio/session.py:152-218 | Main result for the queues: in every interleaving of producers, writer, flush and close each admitted block is conserved, queue bounds hold, each lane reaches the ledger in the order of admission, and flush barriers hold |
| `BusProtocol.ExactlyOnePlace` | src/cywl_oopz/features/audio/session.py:326-402 | Each admitted block is in exactly one of a lane queue, the writer's pair, one flush's removed list or the answers, so its waiter is answered at most once |
| `BusProtocol.DrainedAnswersEveryone` | src/cywl_oopz/features/audio/session.py:326-382 | Once a failed writer or a close has drained the queues and no flush is running, every admitted block has its answer |
| `BusProtocol.SuccessIsTrue` | src/cywl_oopz/features/audio/session.py:207-210 | A producer hears of success only for a block that reached the ledger or that a flush discarded from its queue |
| `BusAnswers.AnsweredIffTold` | src/cywl_oopz/features/audio/session.py:343-380 | Main result on answers: in every interleaving a producer is told success exactly by the return of its own write or the end of the flush that took its block, and failure exactly by its own write failing or being stopped, its flush breaking, or a drain that found it queued |
| `BusAnswers.RefusedOnlyWhenBroken` | src/cywl_oopz/features/audio/session.py:364-376 | A producer is refused only on a bus that has failed or is closing |
| `BusAnswers.FlagsIff` | src/cywl_oopz/features/audio/session.py:198-206 | The bus counts as failed exactly after a write, a flush or a cursor call broke, and as closing exactly after a close began |
| `BusAnswers.OneAnswer` | src/cywl_oopz/features/audio/session.py:378-380 | No producer hears two answers |
| `BusAnswers.RegisteredIsAnswered` | src/cywl_oopz/features/audio/session.py:378-380 | Every block in the ledger is being written, was reported as delivered, or its own write broke |
| `BusAnswers.TakenIsAnswered` | src/cywl_oopz/features/audio/session.py:198-210 | Every block that a flush took out is held by it, was reported as delivered, or its flush broke |
| `BusAnswers.HealthyDelivers` | src/cywl_oopz/features/audio/session.py:343-380 | On a bus that has not failed and is not closing every admitted block waits, is under way, or was reported as delivered |
| `BusAnswers.NobodyIsStuck` | src/cywl_oopz/features/audio/session.py:343-380 | On such a bus, until a block is delivered, the writer or the flush under way can always take a step |
| `BusAnswers.FlushTakesExactly` | src/cywl_oopz/features/audio/session.py:184-188 | A flush takes every queued block of its sources out and no other |
| `BusAnswers.TakesOldest` | src/cywl_oopz/features/audio/session.py:384-402 | The writer takes the oldest block of every lane that has one, music first |
| `BusProtocol.DrainedStaysEmpty` | src/cywl_oopz/features/audio/session.py:640-644 | After that nothing is ever queued again |
| `BusProtocol.StepLaneOrder` | src/cywl_oopz/features/audio/session.py:343-402 | A step may drop tickets of a lane or add a newer one at its end, never reorder them |
| `BusProtocol.KeptInOrder` | src/cywl_oopz/features/audio/session.py:606-624 | Taking discarded blocks out of a queue leaves the others in order |
| `BusProtocol.StepBarriers` | src/cywl_oopz/features/audio/session.py:184-218 | No fresh block reaches the ledger while a flush still owes replays, and a flush ends only when it owes none |
| `BusProtocol.StepConserves` | src/cywl_oopz/features/audio/session.py:152-218 | No step loses, duplicates or invents a block |
| `BusProtocol.LaneQueues.SelectPair` | src/cywl_oopz/features/audio/session.py:384-402 | Pops the head of each lane that has one, music first |
| `BusProtocol.LaneQueues.DiscardQueued` | src/cywl_oopz/features/audio/session.py:606-624 | Splits both lanes into removed and retained blocks, order kept |
| `BusProtocol.LaneQueues.TakeAllQueued` | src/cywl_oopz/features/audio/session.py:626-633 | Empties both lanes and returns everything that was queued, in lane order |
| `ConverterSpec.ChunkingDoesNotMatter` | src/cywl_oopz/features/audio/converter.py:83-116 | Main result: two ways to cut the same frames into pushes before a flush emit the same blocks |
| `ConverterSpec.PushesThenFlush` | src/cywl_oopz/features/audio/converter.py:83-116 | Those blocks are the full blocks of the whole stream and its padded remainder |
| `ConverterSpec.WholeCarries` | src/cywl_oopz/features/audio/converter.py:185-211 | They carry exactly the decoded frames, consecutively numbered, in valid blocks of which only the last is partial: the packing a replay would give |
| `ConverterSpec.FramesConserved` | src/cywl_oopz/features/audio/converter.py:83-134 | Over every run of pushes, flushes and resets: input frames = output frames + pending + discarded |
| `ConverterSpec.CountersAreEmitted` | src/cywl_oopz/features/audio/converter.py:83-134 | Over every run the counted blocks and output frames are those that were emitted |
| `ConverterSpec.CallCounts` | src/cywl_oopz/features/audio/converter.py:83-150 | What one call adds to each counter |
| `ConverterSpec.ResetStartsOver` | src/cywl_oopz/features/audio/converter.py:136-150 | After a reset the converter emits what a new one of that generation would |
| `ConverterSpec.RefusedExactly` | src/cywl_oopz/features/audio/converter.py:83-150 | Which calls are refused and with which error |
| `ConverterSpec.RunContinuesTheSource` | src/cywl_oopz/features/audio/converter.py:196-211 | Within a generation all calls together number the emitted blocks without gap or overlap, so each block starts where the source was accepted |
| `ConverterSpec.BlocksContinueTheSource` | src/cywl_oopz/features/audio/converter.py:196-211 | One call numbers its blocks on from the frames emitted before |
| `ConverterSpec.CutLater` | src/cywl_oopz/features/audio/converter.py:185-194 | Cutting what has arrived and then the rest is cutting the whole |
| `ConverterSpec.PerformKeeps` | src/cywl_oopz/features/audio/converter.py:83-134 | Every call keeps the counters in step, and a refused call changes nothing |
| `ConverterSpec.NativeFrameIsExact` | src/cywl_oopz/features/audio/converter.py:136-141 | At 48 kHz the native frame of an emitted position is that position; any other position is refused |
| `Converter.StreamingAudioConverter.Push` | src/cywl_oopz/features/audio/converter.py:83-98 | The method does what the specification says, refusals in their order |
| `Converter.StreamingAudioConverter.Flush` | src/cywl_oopz/features/audio/converter.py:100-116 | The method does what the specification says; a second flush emits nothing |
| `Converter.StreamingAudioConverter.Reset` | src/cywl_oopz/features/audio/converter.py:118-134 | Refused unless the generation grows; otherwise discards what was pending and reports how much |
| `Converter.StreamingAudioConverter.EmitFullBlocks` | src/cywl_oopz/features/audio/converter.py:185-194 | The loop emits every full block and keeps the rest |
| `Converter.StreamingAudioConverter.NativeFrameForOutput` | src/cywl_oopz/features/audio/converter.py:136-141 | Maps a position as specified |
| `Dynamics.BlockCutsDoNotMatter` | src/cywl_oopz/features/audio/dynamics.py:50-73 | However samples are cut into blocks, gains and end state are those of one block |
| `Dynamics.CutsNeverMatter` | src/cywl_oopz/features/audio/dynamics.py:38-73 | Over any sequence of target changes only the frames between two changes matter |
| `Dynamics.GainAfterAdvance` | src/cywl_oopz/features/audio/dynamics.py:50-73 | The gain j frames after n frames is the gain n + j frames ahead |
| `Dynamics.RampStaysBetween` | src/cywl_oopz/features/audio/dynamics.py:50-73 | Gains move monotonically from the current gain to the target and end exactly on it |
| `Dynamics.GainEnvelope.Process` | src/cywl_oopz/features/audio/dynamics.py:50-73 | The method shapes a block with the specified gains and advances the envelope by its length |
| `Dynamics.GainEnvelope.SetTarget` | src/cywl_oopz/features/audio/dynamics.py:38-48 | Refused for a negative duration, ignored within the tolerance, immediate for no frames, otherwise a ramp from the current gain |
| `ExactGains.GainsAfterSetTarget` | src/cywl_oopz/features/audio/dynamics.py:38-48 | After a new target each frame gets its share of the way, all of it from the last frame of the duration on; a close target changes nothing |
| `Dynamics.LimiterNeverClips` | src/cywl_oopz/features/audio/dynamics.py:110-141 | Main result: after every sequence of blocks and resets the gain lies in (0, 1], every frame of the next block leaves at or below the threshold, and hard clipping finds nothing |
| `Dynamics.LimiterBounds` | src/cywl_oopz/features/audio/dynamics.py:110-141 | One block keeps the gain in (0, 1] and stays below the threshold, attacking or releasing |
| `Dynamics.AttackIsExact` | src/cywl_oopz/features/audio/dynamics.py:118-122 | When a peak forces the gain down, the loudest sample lands exactly on the threshold |
| `ExactGains.NextIsLargestAllowed` | src/cywl_oopz/features/audio/dynamics.py:115-126 | Main result on the limiter: the gain after a block is the largest that is at most one, keeps the peak at or under the threshold, and gives back no more than the release |
| `ExactGains.ReleaseRises` | src/cywl_oopz/features/audio/dynamics.py:123-126 | When the peak leaves room the gain never falls, and it rises unless it is one already or the peak just fits |
| `ExactGains.AttenuationDecays` | src/cywl_oopz/features/audio/dynamics.py:123-126 | Over any blocks that leave room, what the gain lacks to one shrinks by exactly the product of their release factors; a reset ends it |
| `ExactGains.ReleaseIsLinear` | src/cywl_oopz/features/audio/dynamics.py:125-127 | Within a released block the gain goes in equal steps from the old to the new one |
| `ExactGains.PeakIsLoudest` | src/cywl_oopz/features/audio/dynamics.py:114 | The peak is the size of the loudest sample of the block |
| `ExactGains.ClipChangesNothing` | src/cywl_oopz/features/audio/dynamics.py:128-130 | Below full scale the final clip leaves the limited samples as they are |
| `Dynamics.BlockPeakLimiter.Process` | src/cywl_oopz/features/audio/dynamics.py:110-141 | The method outputs the specified samples, never above the threshold, and counts no hard clips |
| `AgentThread.SummariesLoseNothing` | src/cywl_oopz/features/agent/summarization.py:125-171 | Main result: in every run of turns, failures, cancellations, abandonments, model changes, resets and background summaries, the visible history is a list of complete turns, the cut falls at the end of one, and the saved batches are exactly the visible messages up to the cut, with the retained number left behind once a batch was saved |
| `AgentThread.SaveTakesTheNextMessages` | src/cywl_oopz/features/agent/repository.py:326-354 | A save that applies takes a contiguous run of visible messages right after the old cut and leaves at least the retained number visible behind the new one |
| `AgentThread.StaleSummarySavesNothing` | src/cywl_oopz/features/agent/repository.py:342-348 | A summary computed from a row that changed meanwhile, or from a deleted thread, changes nothing |
| `AgentThread.HistoryOnlyGrows` | src/cywl_oopz/features/agent/repository.py:551-585 | No step but clearing takes a visible message back |
| `AgentThread.StepKeepsInv` | src/cywl_oopz/features/agent/run_service.py:134-356 | Every step keeps the history, the cut, the turn in progress and every background task consistent |
| `AgentThread.SucceedShows` | src/cywl_oopz/features/agent/repository.py:433-466 | A successful finish makes exactly its own complete turn visible, at the end |
| `AgentThread.FailureShowsNothing` | src/cywl_oopz/features/agent/repository.py:485-505 | A run that fails, is cancelled or is abandoned leaves the visible messages as they were, and so does an answer that comes after its run was abandoned |
| `ThreadRuns.StatusTellsReason` | src/cywl_oopz/features/agent/models.py:236-263 | In every run of a thread a row that is not running was ended by one step, with the status of its stop reason: succeeded for completed, cancelled for cancelled, abandoned for stale, failed for every other |
| `ThreadRuns.EndedKeepsStatus` | src/cywl_oopz/features/agent/repository.py:433-466 | Once ended, a run keeps its status whatever finishes or abandons it again |
| `ThreadRuns.AnswerShowsWhatWasSaid` | src/cywl_oopz/features/agent/run_service.py:138-150 | A run that succeeds shows exactly the question and the result messages stored for it, numbered on from the rows that were there when the question came |
| `ThreadRuns.LateSummarySavesNothing` | src/cywl_oopz/features/agent/repository.py:342-348 | After a model change, a saved summary or a clear, no summary of anybody who read the row before is ever saved, however many steps later |
| `ThreadRuns.SummaryReadsRowOfLoad` | src/cywl_oopz/features/agent/service.py:251-259 | A summary begins with the row as its turn read it, whatever changed since |
| `ThreadRuns.OtherTasksStay` | src/cywl_oopz/features/agent/service.py:251-259 | No step, not even a clear, touches a background summary but the one it is about |
| `AgentThread.ChoiceFits` | src/cywl_oopz/features/agent/summarization.py:131-141 | What a task with the current version selects are the next whole turns after the cut |
| `AgentThread.SummaryOnlyWhenDue` | src/cywl_oopz/features/agent/summarization.py:136-137 | A task goes on only when the trigger number of messages is visible behind its cut |
| `AgentThread.SaveMovesCut` | src/cywl_oopz/features/agent/repository.py:326-354 | A save moves the cut over exactly its batch, to the end of a turn |
| `SummaryProgress.NoRoomBlocksSummaries` | src/cywl_oopz/features/agent/summarization.py:131-141 | Main result on summaries that never come: when no task holds a batch to save and the turns behind the cut leave no room in the window for the oldest turn and the messages to retain, then in every run that does not clear the thread the cut and the saved batches stay as they are, and a summary that was due stays due |
| `SummaryProgress.SummaryPossibleIff` | src/cywl_oopz/features/agent/summarization.py:125-171 | The exact condition, for every state that keeps the invariant: some run without a clear saves another batch if and only if the thread is not blocked in that sense; turns of at most three messages are then enough |
| `SummaryProgress.BlockedReachableIff` | src/cywl_oopz/features/agent/summarization.py:131-141 | With turns of at most L messages a blocked thread whose summary is due is reachable from the start if and only if more messages are retained than a bound: 2 * trigger - 2 * L + 1 for 2 < L < trigger, with the values for shorter and longer turns beside it |
| `SummaryProgress.DefaultsBlockFrom19` | src/cywl_oopz/settings.py:521-530 | With the default trigger of 24 and 12 retained messages such a thread is reachable if and only if a turn can have 19 messages |
| `SummaryProgress.SelectsIffLengths` | src/cywl_oopz/features/agent/summarization.py:173-195 | Whether something is selected depends on the lengths of the turns alone: the oldest turn and the retained messages must fit into what the whole turns of the window hold |
| `SummaryProgress.ChoosesIff` | src/cywl_oopz/features/agent/summarization.py:131-141 | A task that read the current row goes on to a summary if and only if the trigger number of messages is visible behind the cut and the oldest turn fits with enough whole turns behind it; otherwise it ends |
| `SummaryProgress.LongerLeavesNoRoom` | src/cywl_oopz/features/agent/summarization.py:131-141 | Where there is no room a later turn of any length makes none |
| `SummaryProgress.RoomIsFilled` | src/cywl_oopz/features/agent/summarization.py:131-141 | Where there is room, short turns fill the window until the oldest turn can be taken and the next turn begins a summary of the current row |
| `AgentThread.CutSeparatesHistory` | src/cywl_oopz/features/agent/repository.py:551-585 | The cut separates the messages that summaries took from those still to come |
| `SummarySelection.SelectCompleteTurns` | src/cywl_oopz/features/agent/summarization.py:173-195 | The loops compute the specified selection |
| `SummarySelection.SelectionIsWholeTurns` | src/cywl_oopz/features/agent/summarization.py:173-195 | From a window over complete turns the selection is the oldest so many turns, whole, and leaves the retained number behind |
| `SummarySelection.SelectsIffOldestFits` | src/cywl_oopz/features/agent/summarization.py:131-141 | Something is selected if and only if the oldest turn fits into the window and the whole turns behind it hold the retained number |
| `SummarySelection.SelectionIsMost` | src/cywl_oopz/features/agent/summarization.py:187-195 | The first so many turns are taken if and only if the window holds whole turns behind them with the retained number of messages, so as many are taken as can be |
| `SummarySelection.SplitIgnoresPrefix` | src/cywl_oopz/features/agent/summarization.py:177-182 | Messages before the first user message belong to no turn |
| `SummarySelection.CandidatesAreWholeTurns` | src/cywl_oopz/features/agent/summarization.py:177-187 | A turn cut off by the window is never a candidate |
| `LockPool.OneInsidePerKey` | src/cywl_oopz/features/chat/locks.py:25-41 | In every interleaving, cancellations included, tasks of one key share one slot and at most one of them is inside |
| `LockPool.PoolHoldsKeysInUse` | src/cywl_oopz/features/chat/locks.py:43-47 | The pool holds exactly the keys that tasks refer to and those kept by a release that was itself cancelled |
| `LockPool.WithoutLeaksExactlyInUse` | src/cywl_oopz/features/chat/locks.py:43-47 | If no release is cancelled the pool holds exactly the keys in use |
| `LockPool.SlotsRemovedOnlyIdle` | src/cywl_oopz/features/chat/locks.py:43-47 | A slot is removed only when nobody refers to it any more |
| `LockPool.LeakedKeyStaysForGood` | src/cywl_oopz/features/chat/locks.py:43-47 | From a cancelled release on, its key has a slot in every later state of every run |
| `LockPool.FourStepsLeak` | src/cywl_oopz/features/chat/locks.py:25-47 | Entering, taking the lock, letting it go and being cancelled in the release leaves nobody and a key in the pool |
| `LockPool.BlockedOnlyBySameKey` | src/cywl_oopz/features/chat/locks.py:25-35 | Whoever blocks a waiting task is inside for the same key |
| `LockPool.StepKeepsInv` | src/cywl_oopz/features/chat/locks.py:25-47 | Every step keeps counters, slots and locks consistent |
| `LockPool.ConversationLockPool.TakeReference` | src/cywl_oopz/features/chat/locks.py:28-30 | Finds or makes the slot and counts one user more |
| `LockPool.ConversationLockPool.ReleaseReference` | src/cywl_oopz/features/chat/locks.py:43-47 | Counts one user less and drops an idle, unlocked slot |
| `RateLimit.EveryRunAgrees` | src/cywl_oopz/features/chat/rate_limit.py:60-149 | In every reachable state global, channel and user counters are the counts over the open leases, a key is present exactly when its count is positive, no limit is exceeded, and every cooldown begun is kept |
| `RateLimit.CooldownRespected` | src/cywl_oopz/features/chat/rate_limit.py:64-71 | An acquire that succeeds comes no earlier than every past release of that user plus the cooldown |
| `RateLimit.RefusalExact` | src/cywl_oopz/features/chat/rate_limit.py:58-108 | What an acquire answers, from the leases and past releases alone: a cooldown with the time left exactly until the latest release of that user plus the cooldown, then the first limit whose number of leases is open, else a lease |
| `RateLimit.RefusedOnlyWhenFull` | src/cywl_oopz/features/chat/rate_limit.py:72-106 | A refusal for a limit means that exactly that many leases are open |
| `RateLimit.OpenLeaseCounted` | src/cywl_oopz/features/chat/rate_limit.py:143-149 | Giving an open lease back always finds its counts |
| `RateLimit.SecondReleaseChangesNothing` | src/cywl_oopz/features/chat/rate_limit.py:45-49 | Releasing twice is releasing once |
| `RateLimit.RateLimitService.Acquire` | src/cywl_oopz/features/chat/rate_limit.py:60-118 | Refused with the first reason in the order cooldown, global, channel, user and then unchanged; otherwise counted once in all three |
| `RateLimit.RateLimitService.Release` | src/cywl_oopz/features/chat/rate_limit.py:120-134 | Gives the counts back and begins the cooldown; not ok exactly when a count is missing |
| `RateLimit.RateLimitLease.Release` | src/cywl_oopz/features/chat/rate_limit.py:45-49 | Releases on the first call only |
| `ChatHistory.StoreRefinesTranscript` | src/cywl_oopz/features/chat/service.py:98-211 | Main result: after any run of asks, failures, model choices, clears, status calls and the passing of time, with status calls falling between the load and the save of an ask, the stored history is one trim of what a save brought back and everything since; it is one trim of the transcript since the last reset if and only if no message but answers of what was brought back still fits before it |
| `ChatHistory.UndisturbedStoreIsTrim` | src/cywl_oopz/features/chat/service.py:98-172 | If no status call deletes the row while an ask or a model choice is between load and save, the stored history is one trim of the whole transcript since the last reset, and so is every request with its prompt |
| `ChatExpiry.LoadsOnlyFreshRows` | src/cywl_oopz/features/chat/service.py:98-172 | Whatever an ask or a model choice loads was stored by an earlier one that began less than a lifetime before |
| `ChatExpiry.FoundUntilExpiry` | src/cywl_oopz/features/chat/models.py:62-66 | A stored row that nothing touched is loaded in full until a lifetime after its ask began, and not at all from then on |
| `ChatExpiry.PendingStays` | src/cywl_oopz/features/chat/service.py:98-172 | What an ask or a model choice loaded, and when it began, stay as they are until it ends |
| `ChatHistory.OldLeavesNoTrace` | src/cywl_oopz/features/chat/history.py:24-39 | Trimming older and newer messages together equals trimming the newer ones if and only if no older message but answers fits in front of them |
| `ChatHistory.ExpiredHistoryReturns` | src/cywl_oopz/features/chat/service.py:176-211 | A status call that deletes the expired row while an ask waits for its answer: the whole expired history is stored again with the new pair behind it |
| `ChatHistory.RevivalReachable` | src/cywl_oopz/features/chat/service.py:176-211 | That happens from an empty conversation, for every lifetime above zero and budgets of at least four |
| `ChatHistory.FreshRowCanBeDeleted` | src/cywl_oopz/features/chat/service.py:202-211 | The look and the delete of a status call are two steps: it can delete a row that was stored in between and has not expired |
| `ChatHistory.StepKeepsInv` | src/cywl_oopz/features/chat/service.py:98-211 | Every step keeps what is stored, and what a running ask loaded, one trim of all it stands for |
| `ChatHistory.TrimAgain` | src/cywl_oopz/features/chat/history.py:24-39 | trim(trim(h) + [m]) = trim(h + [m]) for all histories and messages |
| `ChatHistory.TrimKeepsNewest` | src/cywl_oopz/features/chat/history.py:24-39 | The result fits both budgets, is the newest part of the history and does not open with an answer; every longer part that fits does open with one |
| `ChatHistory.RequestEndsWithPrompt` | src/cywl_oopz/features/chat/service.py:102-106 | Every request ends with the validated prompt and does not open with an answer |
| `ChatHistory.TrimHistory` | src/cywl_oopz/features/chat/history.py:24-39 | The loops compute the specified trim |
| `ChatHistory.ChatService.LoadActive` | src/cywl_oopz/features/chat/service.py:202-211 | Deletes an expired row and returns the messages of an active one |
| `ChatHistory.ChatService.BeginAsk` | src/cywl_oopz/features/chat/service.py:84-116 | Refused for an empty or too long prompt and then changes nothing; otherwise the request is one trim of the loaded messages with the prompt |
| `ChatHistory.ChatService.FinishAsk` | src/cywl_oopz/features/chat/service.py:120-132 | Whatever became of the row meanwhile, it holds the trimmed request with its answer and expires a lifetime after the ask began |
| `ChatHistory.ChatService.Ask` | src/cywl_oopz/features/chat/service.py:66-143 | Without anything in between: succeeds exactly for an accepted prompt and an answer, then sends and stores the specified trims; a refusal stores nothing |
| `Budget.KeptIsLongestFit` | src/cywl_oopz/features/chat/history.py:26-36 | The kept part is the longest newest part that fits both budgets |
| `Pagination.PaginationIsBoundedAndFaithful` | src/cywl_oopz/commands/responses.py:58-73 | Every page is non-empty and within the limit, and the text is the pages with only newlines before, between and after them |
| `Pagination.BreaksAtNewlineOrLimit` | src/cywl_oopz/commands/responses.py:58-73 | Where a page ends before the text does: at the last newline that fits, or nowhere before the limit when no newline fits |
| `Pagination.LaterPagesOpenWithText` | src/cywl_oopz/commands/responses.py:72 | All newlines at a page border are dropped: only the first page can open with one |
| `Pagination.TakenIsLongest` | src/cywl_oopz/commands/responses.py:76-84 | A prefix is within the limit exactly when it is no longer than the one taken |
| `Pagination.RenderedBounds` | src/cywl_oopz/commands/responses.py:42-52 | Refused exactly when a response must not be split and is too long; a short text is one page unchanged; all pages are within the limit |
| `Pagination.TruncatedIsLongest` | src/cywl_oopz/commands/responses.py:54-56 | A truncated page is the longest beginning that leaves room for the suffix |
| `Pagination.PaginateText` | src/cywl_oopz/commands/responses.py:58-73 | The loop terminates and computes the specified pages |
| `Pagination.NextPage` | src/cywl_oopz/commands/responses.py:62-72 | One round of the loop: the next page and what remains after dropping newlines |
| `Pagination.Take` | src/cywl_oopz/commands/responses.py:76-84 | The loop splits a text after the longest prefix within the limit |
| `Pagination.PagesFor` | src/cywl_oopz/commands/responses.py:42-52 | The pages by overflow policy, as specified |
| `Pagination.PaginateKeepsText` | src/cywl_oopz/commands/responses.py:42-52 | A response that may be split keeps its whole text, but for newlines around the pages |
| `AgentContext.TrimmedWithinBudgets` | src/cywl_oopz/features/agent/context.py:154-196 | The result is a subsequence within both budgets that is empty or opens with a user message |
| `AgentContext.PairsStayTogether` | src/cywl_oopz/features/agent/context.py:154-196 | If no user message tears a pair of the history, that is from it on an id with a call and a result has both or neither, then each kept call has a kept result of its id and the other way round, wherever the budgets cut |
| `AgentContext.PairsKeptIffOneSide` | src/cywl_oopz/features/agent/context.py:178-195 | When ids are used once: pairs stay whole if and only if, in the suffix that fits the budgets, each call and its result lie on the same side of the first user message that stays |
| `AgentContext.PairsKeptIff` | src/cywl_oopz/features/agent/context.py:178-195 | In general: if and only if no id of that suffix with a call and a result has only one of the two from that user message on |
| `AgentContext.CutThenFilter` | src/cywl_oopz/features/agent/context.py:184-195 | Filtering unpaired messages and then dropping the leading ones is cutting at the first user message that stays and then filtering |
| `AgentContext.TornPair` | src/cywl_oopz/features/agent/context.py:193-195 | A concrete history whose call is dropped while its result stays |
| `AgentContext.FilteredPairsMatch` | src/cywl_oopz/features/agent/context.py:179-192 | Before leading messages are dropped calls and results match by id |
| `AgentContext.Trim` | src/cywl_oopz/features/agent/context.py:154-196 | The loops compute the specified trim |
| `AgentTrim.TrimKeepsExactly` | src/cywl_oopz/features/agent/context.py:154-196 | Main result on what is shown: exactly the messages that, counted from the newest, are within both limits, have their call or result within them too, and stand at or behind a user message of which both hold |
| `AgentTrim.SelectsLongestFit` | src/cywl_oopz/features/agent/context.py:173-179 | The selected part is the longest newest part with no more messages and no larger sum of sizes than the limits |
| `AgentTrim.UnchangedIff` | src/cywl_oopz/features/agent/context.py:154-196 | A history comes back unchanged if and only if it is within both limits, opens with a user message, and calls and results match |
| `AgentContext.DataWithinBudgets` | src/cywl_oopz/features/agent/context.py:198-266 | By their declared sizes the images that keep their data stay within the count, byte and pixel budgets over the whole history |
| `AgentContext.RealDataWithinBudget` | src/cywl_oopz/features/agent/context.py:226-250 | When no image declares less than it holds, the data really kept over the whole history stays within the byte budget |
| `AgentContext.OneImageBreaksBudgetIff` | src/cywl_oopz/features/agent/context.py:226-250 | The data kept of one image alone exceeds the byte budget if and only if the image fits by the sizes it declares and holds more than the budget |
| `AgentContext.AlwaysWithinBytesIff` | src/cywl_oopz/features/agent/context.py:226-250 | The exact condition over all histories made of given images and all settings: the data really kept never exceeds the byte budget if and only if no image holds more than it declares, or none holds any data |
| `AgentContext.UnreadableSizeKeepsAll` | src/cywl_oopz/features/agent/context.py:226-234 | An image with a number that cannot be read counts as empty and keeps any amount of data |
| `AgentContext.DataKeptIffFits` | src/cywl_oopz/features/agent/context.py:233-250 | An image keeps its data if and only if it has data and still fits beside all images that kept theirs before it |
| `ImageBudget.DataKeptOverHistory` | src/cywl_oopz/features/agent/context.py:233-250 | The same over a whole history: beside the images kept in all earlier messages |
| `ImageBudget.ShownWithinBudgets` | src/cywl_oopz/features/agent/context.py:233-238 | The images shown are never more than allowed and, where all numbers can be read, neither are their areas |
| `ImageBudget.MissingSizesAreSafe` | src/cywl_oopz/features/agent/context.py:226-234 | A size that is not given is that of the data: only sizes given too small or numbers that cannot be read let data exceed the byte budget |
| `ImageBudget.NoteCountsMissing` | src/cywl_oopz/features/agent/context.py:246-254 | A message notes exactly how many of its images come without data |
| `AgentContext.MessagesKeepOrder` | src/cywl_oopz/features/agent/context.py:198-266 | Every message stays in its place; only image data and the omission note change, and images keep their order |
| `AgentContext.OmissionsCounted` | src/cywl_oopz/features/agent/context.py:222-252 | Omitted images and those that kept their data are together all images of the message |
| `AgentContext.TrimImages` | src/cywl_oopz/features/agent/context.py:198-266 | The nested loops compute the specified bounding |
| `AgentHistory.LoadedHistoryKeepsPairs` | src/cywl_oopz/features/agent/context.py:107-117 | For every thread of which nothing was lost, when the engine reports each call and its result in one turn: the newest messages behind the cut that a bounded load returns keep every tool pair whole through trimming, even where the load began inside a turn |
| `Display.EverySequenceKeepsInv` | src/cywl_oopz/features/agent/display.py:80-253 | After any sequence of events: call ids distinct, completed and failed counters equal to the step counts, a tool-running phase has a running step, step revisions pairwise distinct and at most the revision |
| `Display.CallsDoNotMix` | src/cywl_oopz/features/agent/display.py:145-249 | The step shown for a call is computed from that call's own events, leaving out repeats of an id and what comes after the end, however events of several calls interleave; only its revision depends on the others |
| `Display.TerminalIffEnded` | src/cywl_oopz/features/agent/display.py:80-97 | A fold is terminal exactly when its events hold an end that is no repeat, and until then it remembers exactly the ids they have |
| `Display.SkippedIff` | src/cywl_oopz/features/agent/display.py:80-97 | Which events do nothing, read off the sequence alone: repeats, and all that follow the end |
| `Display.ReopensIffStarted` | src/cywl_oopz/features/agent/display.py:139-152 | A finished step runs again if and only if its call is started once more by an event that is not skipped |
| `Display.RepeatsDoNotMatter` | src/cywl_oopz/features/agent/display.py:80-97 | Folding a sequence is folding it with later repeats of a non-empty event id removed |
| `Display.TerminalAbsorbs` | src/cywl_oopz/features/agent/display.py:85-86 | A terminal state absorbs every later event |
| `Display.SameRevisionSameDisplay` | src/cywl_oopz/features/agent/display.py:90-97 | Two moments of one run with the same revision show the same |
| `Display.UpdateNeverReopens` | src/cywl_oopz/features/agent/display.py:145-152 | A late update never reopens a finished step |
| `Display.OtherStepsUntouched` | src/cywl_oopz/features/agent/display.py:189-249 | A tool event leaves the steps of every other call as they were, in place |
| `Display.UpdateTool` | src/cywl_oopz/features/agent/display.py:189-249 | The loop over the steps computes the specified view |
| `DisplayEvents.EndDecides` | src/cywl_oopz/features/agent/display.py:157-186 | Main result on the end of a run: the first end that is no repeat decides phase, final text, metrics and message, each from that event, whatever comes before or after |
| `DisplayEvents.ShownFromEvents` | src/cywl_oopz/features/agent/display.py:100-156 | Main result before it, read off the events: the draft is the text since the last event that clears it, the retries are counted, the retry shown is the last unless a thinking event followed, and the phase is that of the last event that takes effect |
| `DisplayEvents.LatestIsLast` | src/cywl_oopz/features/agent/display.py:80-97 | Of the events of some kinds the latest that takes effect is followed by none that does |
| `DisplayEvents.NoEndNoResult` | src/cywl_oopz/features/agent/display.py:80-97 | Without an end there is no final text, no metrics and no message |
| `DisplayEvents.StepShown` | src/cywl_oopz/features/agent/display.py:189-223 | The step shown for a call, field by field, from the call's own events: status, names, texts and lists, and none of the lists after a failure of a known step |
| `DisplayEvents.StepsInOrder` | src/cywl_oopz/features/agent/display.py:189-223 | The steps are those of the calls that had an event, oldest call first |
| `DisplayEvents.RevisionIffChange` | src/cywl_oopz/features/agent/display.py:90-97 | The revision rises by one exactly with an event that changes something shown |

## Left out

- Timing: pacing of the writer, the 20 ms wait for the second lane, drain polling, queue timeouts, deadlines, heartbeats; a timed-out producer was never admitted and changes nothing.
- Diagnostics: metrics, statistics snapshots and logging. The mixing of two lanes and the 5 ms crossfade after a flush: the output samples of an entry are a parameter.
- Foreign arithmetic: resampling, PCM decoding, 32-bit rounding, non-finite samples, decibels and the exponential; the limiter's release factor is any real strictly between 0 and 1, and Converter takes decoded frames.
- Ledger entries are values in a sequence that the methods reassign, where the source mutates the state of entry objects; no other object keeps a reference to an entry. Source identifiers are numbers.
- BusProtocol: the blocks themselves; `Playout` treats what happens to them. Participants and ducking reasons decide only how long the writer waits for a second lane.
- Playout: drain and observe are one cursor event; the master's own buffering is the cursor it reports.
- AbortedFlush.LostFramesNeverHeard: speaks of the flush after its remix; a flush that fails before the remix has no replays to lose. A flush cancelled between registering a write and its acceptance by the SDK leaves that write pending, so the next registration is refused and the writer stops; the model then still lets the write be acknowledged, which only adds runs.
- Producers.ConvertersKeepTheGuard: takes the order in which blocks reach the ledger as a hypothesis that `BusOrder.RegisteredAsSubmitted` states of tickets; blocks and tickets are not one state.
- AgentHistory.LoadedHistoryKeepsPairs: that a result is reported in the same turn as its call, and that an answered id is not used again for a call without an answer in another turn, are hypotheses on the ids that the model provider gives out.
- SummaryProgress: how many messages a turn can have is a parameter; how the framework counts calls, among them rejected ones, against the limit of tool calls is not part of this model (src/cywl_oopz/features/agent/pydantic_ai_engine.py:158-159).
- AgentThread: messages without a run, deletion by database cascade seen one row at a time, reading bounded context for a run, prompts and the text of a summary; a summary text that is empty or a model that fails is a dropped task. SQL statements are atomic steps. A turn whose thread is deleted under it is over, since its later calls find no rows. Between question and answer the engine reports tool calls and tool results only, as its message mapping builds them (src/cywl_oopz/features/agent/pydantic_ai_engine.py:560-600).
- SummarySelection: the content of messages beyond role and kind.
- LockPool: fairness, that is which waiting task takes a free lock first.
- RateLimit: cancellation inside a lease's own release; a release is one step. The clock is a parameter and release times do not run backwards.
- ChatHistory: the system prompt that precedes every request, model choice rules, streaming. Stripping of the prompt happens before the model, and an ask whose answer is blank is a failed ask. Every repository call is one atomic step; expiry times are those of one clock that does not run backwards.
- AgentContext: measuring a message (its size is a field), the wording of the omission note, and the skill, summary and memory messages put before the history.
- Pagination: lone surrogates, which the source cannot encode either; a Dafny character is a Unicode scalar value.
- Display: validation of events when they are built.
- SharedAudioMixerBus beyond the queues, `AudioSourceQueue`, task supervisors, provider registry, model selection, settings, command handlers, permissions, browser, voice and music integrations are not part of this model.
