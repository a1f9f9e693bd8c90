# EventSaucing: commit ordering and stream processing

A Dafny model of the protocol by which EventSaucing turns an append-only commit store into ordered streams,
feeds them to stream processors and projectors, and recovers after crashes. Everything is stated against one
simple specification, "read the store in order" (`CommitStore.dfy`), and the main results are about every run: any
sequence of appends, messages (lost, repeated, late), failures and restarts. The safety results need no more. The
progress results (`NoStallRuns`, `Announcements`, `GraphProgress`) assume that a processor handles what has reached
its mailbox (a message lost on the way never reaches it), and say exactly when progress fails all the same.

| file | models |
|---|---|
| CommitStore, Prelude | the store, checkpoints, truthful pairs `(previous, commit)`, linked runs of them |
| InMemoryCommitSerialiserCache | the bounded cache and the `checkpoint + 1` run it yields |
| EventStorePollerActor | the two replies of the poller |
| LocalEventStreamActor | the actor's handlers; its cache path against its store path |
| LocalOrdering | whole runs of one node: the actor, any number of polls at once, a growing store; what becomes of a notified commit |
| OrderedEventStreamer | the paged reader |
| StreamProcessor, StreamProcessorActor | the catch-up state machine: its transition functions, and the class that computes them |
| MessageEffects | exactly what each message does: which have no effect, when a catch-up begins and ends, what is sent, announced and saved |
| ProcessorGraph | whole runs of a graph of processors; in-order exactly-once processing |
| Sequencing | "proceeded by": safety, the exact condition of the documented guarantee, cycles |
| NoStall, NoStallRuns | phases of a catch-up, and exactly when a processor stalls |
| Quiescence, GraphProgress | catching up terminates; an acyclic graph at rest is at the store's head exactly when no processor is stuck |
| Announcements | what followers get to hear of a processor's checkpoint |
| CrashRecovery | what a read model is after any crashes, for both kinds of projector |
| SafeReading | what "proceeded by" is for: which effects a processor finds in the read models it follows |
| Delivery | what a node publishes is what the processors' runs take as a live commit |
| ReadModelAtHead | end to end: the read model after any crashes, a restart and a catch-up |
| SqlProjector, LegacyProjector | the projectors, their dispatchers and the checkpoint table |
| EventStoreRepository | the optimistic-concurrency retry loop |
| StatusMessageCache | the ring buffer of status messages |
| Counterexamples, NodeCounterexamples | concrete runs that show which guarantees need a condition |

Where the source updates fields, the model is a class whose methods are proved to compute a transition function
of the old state (`State() == OnOrdered(old(State()), ...)`); the properties are then proved about these
functions, and about runs built from them.

## Environment

- The store is a sequence of commits with strictly increasing positive tokens; gaps are allowed; appends come
  in ascending order. A checkpoint is 0 or a token of the store.
- A handler runs atomically with respect to appends. The head poll reads the store twice, and there appends may
  come in between.
- Mailboxes are FIFO; replies of one poller arrive in order, those of different pollers interleave freely.
- A processor that fails is stopped and created anew by its back-off supervisor
  (`EventSaucing/HostedServices/StreamProcessorService.cs:57-69`), so it loses its mailbox, its catch-up stream
  and what it knew of proceeding processors, and starts from its saved checkpoint.
- How `ProcessAsync` ends is an input, `Fate`: it completes, throws with its effects durable or not, throws
  after it moved the checkpoint itself (legacy), or the host dies in the middle. A failure to save the
  checkpoint after a successful commit is a completed commit followed by a restart.
- What the event store does with each attempt to save is an input, `Attempt`; after a concurrency failure its
  stream also holds the events committed by others, and a failed attempt keeps the uncommitted ones.

## Where the code does not do what it says

- "This StreamProcessor's Checkpoint will never be greater than the proceeding StreamProcessor"
  (`EventSaucing/StreamProcessors/StreamProcessor.cs:229`) holds of the highest checkpoint the proceeding one
  ever announced (`NeverAheadOfProceeding`), but not of its current one: `FollowerOvertakes` is a run in which it
  restarts lower. `GuaranteeKeptExactlyUnlessOvertaken` says exactly which steps break it. The purpose given for it
  (line 231), that it is safe to read the other's read models, holds all the same for a SqlProjector: `SafeToRead`.
- It does not hold for a legacy projector, which announces its checkpoint before its transaction commits:
  `FollowerReadsTooEarly` is a run in which the follower passes a commit of which there is nothing to read.
  `LegacyBackedExactly` is the exact condition for one commit, and `SafeToReadLegacy` holds where it is met.
- A catch-up commit that is dropped by the guard at `StreamProcessor.cs:377`, because a proceeding processor
  was heard to have gone back, is not sent again: `OldNewsStalls` is a whole run that ends at rest with the
  proceeding processor at the head and the follower behind, until it is restarted or sent that commit
  again. `KeptLiveExactlyUnlessDropped` is the exact condition for one message, `StalledExactlyWhenStuck` and `GraphReachesHeadUnlessStuck` are those for runs, and
  `StuckStays` and `SentAgainIsLive` say what follows. Hearing of a processor that went back does no harm
  otherwise.
- The legacy projector moves its checkpoint before its transaction commits. If the save in the transaction or
  its commit then throws, the error handler persists the moved checkpoint and the commit's effects are skipped:
  `LegacyExactlyUnlessThrownAhead` is the exact condition for one commit, `ExactlyOnceIffNeverThrownAhead` that for
  whole runs, and `LegacySkips` a run in which it happens.
- A save that fails in storage leaves the events on the cached stream, so that saving again appends them twice:
  `SavingAgainAfterStorageFailure`, with the exact condition in `AppendsExactlyMine`.
- Null events are kept out of what is saved, but not out of the check for conflicts: on one that another writer
  committed it throws (`EventSaucing/NEventStore/EventStoreRepository.cs:186`), before the stream is cleared.
  `CommitsExactlyIfHarmless` is the exact condition; `SavingAgainAfterNullCommitted` shows that the events are
  then appended twice.
- A notified commit is neither streamed nor polled for when the commits cached after the last streamed one stop
  short of it: `NotifiedUnlessStopsShort` is the exact condition, `NotifiedButNotStreamed` a run that so ends with
  nothing under way. Otherwise the commit is streamed once all polls are handled: `NotifiedIsStreamed`.
- Null events in a commit are skipped, but an event message without a body makes both dispatchers throw
  (`EventSaucing/StreamProcessors/Projectors/ConventionBasedEventDispatcher.cs:63`,
  `EventSaucing/StreamProcessors/Projectors/LegacyConventionBasedEventDispatcher.cs:65`): the commit fails at every
  attempt, and as a failing commit is never skipped, the projector stays before it.
- A head poll, unlike any other, may be ignored without the stream having reached what it read:
  `HeadReplyReachesHead` is the exact condition, `HeadPollWithoutEffect` a run in which it happens.

## Model

| member | source | states |
|---|---|---|
| InMemoryCommitSerialiserCache.OnlineTopK | EventSaucing/EventStream/InMemoryCommitSerialiserCache.cs:35-52 | after any history of Cache calls, with repeats and evicted commits cached again, the cache holds exactly the K largest distinct tokens ever cached, each with its most recent commit |
| InMemoryCommitSerialiserCache.TopKUnique | EventSaucing/EventStream/InMemoryCommitSerialiserCache.cs:35-52 | there is only one such map, so the history and K determine the cache |
| InMemoryCommitSerialiserCache.TrimIsTopK | EventSaucing/EventStream/InMemoryCommitSerialiserCache.cs:47-52 | removing minima one at a time keeps exactly the K largest keys with their values |
| InMemoryCommitSerialiserCache.MaximalRun | EventSaucing/EventStream/InMemoryCommitSerialiserCache.cs:59-88 | the run after c is exactly c+1 .. c+n, all cached, c+n+1 is not cached, and n is at most the number of cached commits |
| InMemoryCommitSerialiserCache.CacheAgreesWithStore | EventSaucing/EventStream/InMemoryCommitSerialiserCache.cs:59-88 | if every cached commit is in the store, the run after c is, pair for pair, a prefix of reading the store after c |
| InMemoryCommitSerialiserCache.CommitCache.Cache | EventSaucing/EventStream/InMemoryCommitSerialiserCache.cs:35-38 | the new contents are the old ones with the commit, cut to the K largest tokens |
| InMemoryCommitSerialiserCache.CommitCache.TrimCache | EventSaucing/EventStream/InMemoryCommitSerialiserCache.cs:47-52 | the loop leaves the top K of what was there |
| InMemoryCommitSerialiserCache.CommitCache.GetCommitsAfter | EventSaucing/EventStream/InMemoryCommitSerialiserCache.cs:40-42 | returns the maximal run after the checkpoint and changes nothing |
| InMemoryCommitSerialiserCache.CommitCache.GetNextOrderedCommitsRecursively | EventSaucing/EventStream/InMemoryCommitSerialiserCache.cs:80-88 | appends the maximal run to the results given, and terminates on the keys above the checkpoint |
| EventStorePollerActor.HeadReplyIsTruthful | EventSaucing/EventStream/EventStorePollerActor.cs:49-61 | whatever is appended between the two reads the reply is truthful; with two commits or more it is the head that was queried |
| EventStorePollerActor.HeadReplyOfShortStore | EventSaucing/EventStream/EventStorePollerActor.cs:53-57 | on a store of one commit there is no reply unless a second commit was appended between the two reads, and then it is for that one; on an empty store there is none |
| EventStorePollerActor.ReceivedSendHeadCommit | EventSaucing/EventStream/EventStorePollerActor.cs:49-61 | computes that reply, or none where the source throws |
| EventStorePollerActor.ReceivedSendCommitsAfter | EventSaucing/EventStream/EventStorePollerActor.cs:63-74 | the replies are the store read in order after the checkpoint: linked, truthful, up to the last commit |
| LocalEventStreamActor.NotificationDrainsCache | EventSaucing/EventStream/LocalEventStreamActor.cs:72-95 | after a notification last+1 is not cached; the stream advanced by as many tokens as it published, at most the capacity; a poll starts exactly when nothing was streamed |
| LocalEventStreamActor.NotifiedBeforeStreaming | EventSaucing/EventStream/LocalEventStreamActor.cs:72-78 | before anything is streamed a notification publishes nothing and asks for the head, and the commit takes its place among the K largest cached |
| LocalEventStreamActor.ReplyIgnoredExactly | EventSaucing/EventStream/LocalEventStreamActor.cs:120-129 | a reply changes nothing if and only if something was streamed that it does not follow; else it is published, and no reply ever starts a poll |
| LocalEventStreamActor.FastPathRefinesPoll | EventSaucing/EventStream/LocalEventStreamActor.cs:79-93 | streaming from the cache publishes what the first replies of a poll from the same checkpoint would have made the actor publish |
| LocalEventStreamActor.DeliverLinked | EventSaucing/EventStream/LocalEventStreamActor.cs:120-129 | linked replies that follow the last streamed checkpoint are streamed one and all |
| LocalEventStreamActor.StreamActor.constructor | EventSaucing/EventStream/LocalEventStreamActor.cs:53-66 | starts with nothing streamed and one request for the head commit |
| LocalEventStreamActor.StreamActor.ReceivedCommitNotification | EventSaucing/EventStream/LocalEventStreamActor.cs:72-95 | the handler computes the transition that the run theorems are about, loop included |
| LocalEventStreamActor.StreamActor.ReceivedOrderedCommitNotification | EventSaucing/EventStream/LocalEventStreamActor.cs:120-129 | likewise for a poller's reply |
| LocalEventStreamActor.StreamActor.StreamCommit | EventSaucing/EventStream/LocalEventStreamActor.cs:135-138 | publishes the pair and moves the head pointer to its commit |
| LocalOrdering.StepKeepsInv | EventSaucing/EventStream/LocalEventStreamActor.cs:72-138 | every step keeps the node's invariant, takes back nothing streamed and only grows the store |
| LocalOrdering.PublishedStreamIsOrdered | EventSaucing/EventStream/LocalEventStreamActor.cs:72-138 | in every run the published stream is a contiguous slice of the store: no gap, no duplicate, strictly increasing, each previous pointer truthful and equal to the token published before |
| LocalOrdering.PollsComplete | EventSaucing/EventStream/LocalEventStreamActor.cs:105-129 | in every run, once all replies of a poll are handled, however interleaved, the stream has reached all it read |
| LocalOrdering.CacheHoldsTopOfHeard | EventSaucing/EventStream/LocalEventStreamActor.cs:72-128 | in every run the node caches exactly the K largest tokens of all commits notified, before and after the first one streamed, and of that first one |
| LocalOrdering.ReplyKeepsOk | EventSaucing/EventStream/LocalEventStreamActor.cs:120-129 | a truthful reply keeps the stream in order; if the stream had reached its previous checkpoint it has reached its commit, streamed or ignored |
| LocalOrdering.HeadReplyReachesHead | EventSaucing/EventStream/LocalEventStreamActor.cs:62-66 | a head reply brings the stream to the head if and only if nothing was streamed yet or the checkpoint before the head had been reached |
| LocalOrdering.NotifiedUnlessStopsShort | EventSaucing/EventStream/LocalEventStreamActor.cs:79-93 | once something was streamed, a notified commit is streamed, or read by a poll just requested, if and only if the cache has nothing right after the last streamed commit or no gap up to the notified one |
| LocalOrdering.NotifiedIsStreamed | EventSaucing/EventStream/LocalEventStreamActor.cs:72-129 | in every run in which a commit is so notified and no poll is lost afterwards, the stream has reached the commit once all polls are handled |
| Delivery.PublishedMayBeDelivered | EventSaucing/EventStream/LocalEventStreamActor.cs:135-138 | whatever a node has published in any run may be delivered to any processor, at once or later, any number of times: it is a possible step of every graph over the store or one grown from it |
| OrderedEventStreamer.PagingReadsInOrder | EventSaucing/EventStream/OrderedEventStreamer.cs:16-54 | for every page size and every growth of the store between calls, what Next returned is a prefix of reading the store after the starting checkpoint, previous pointers included; finished means nothing queued |
| OrderedEventStreamer.FullDrain | EventSaucing/EventStream/OrderedEventStreamer.cs:22-54 | on a store that no longer grows n calls to Next return the first n commits, and it is finished exactly when that is all of them |
| OrderedEventStreamer.AtMostOnePage | EventSaucing/EventStream/OrderedEventStreamer.cs:22-54 | after any calls at most one page is queued |
| OrderedEventStreamer.FetchTakesOnePage | EventSaucing/EventStream/OrderedEventStreamer.cs:22-31 | a fetch queues a full page, or all that is left of the store |
| OrderedEventStreamer.ReadsOnlyWhenEmpty | EventSaucing/EventStream/OrderedEventStreamer.cs:34-54 | the store is read only when nothing is queued |
| OrderedEventStreamer.DefaultReader | EventSaucing/EventStream/OrderedEventStreamer.cs:25 | a reader with the default page size starts with up to 512 commits and drains the store |
| OrderedEventStreamer.CalledStreams | EventSaucing/EventStream/OrderedEventStreamer.cs:22-54 | each call keeps: output then queue read the store in order, whatever was appended before the call |
| OrderedEventStreamer.StartOk | EventSaucing/EventStream/OrderedEventStreamer.cs:16-20 | a fresh reader begins with the pair that follows its checkpoint, or the checkpoint is at the head |
| OrderedEventStreamer.NextOk | EventSaucing/EventStream/OrderedEventStreamer.cs:47-53 | Next hands out one truthful pair and uses up one remaining commit; what is queued next follows it, or it was the last |
| OrderedEventStreamer.EventStreamer.constructor | EventSaucing/EventStream/OrderedEventStreamer.cs:16-20 | the reader holds its first page |
| OrderedEventStreamer.EventStreamer.FetchNextPage | EventSaucing/EventStream/OrderedEventStreamer.cs:22-31 | the loop queues the next page of the store, linked to what was queued before |
| OrderedEventStreamer.EventStreamer.Peek | EventSaucing/EventStream/OrderedEventStreamer.cs:34-45 | returns the head of the queue, fetching first if it is empty |
| OrderedEventStreamer.EventStreamer.Next | EventSaucing/EventStream/OrderedEventStreamer.cs:47-53 | takes the head of the queue and refills an emptied queue |
| StreamProcessor.HandleOk | EventSaucing/StreamProcessors/StreamProcessor.cs:160-437 | every message keeps checkpoints in the store, the saved one at or before the current one, the catch-up stream linked and truthful, and self-sent commits never too far ahead |
| StreamProcessor.HandleKnown | EventSaucing/StreamProcessors/StreamProcessor.cs:160-166 | what is known of a proceeding processor changes only to what its own message says |
| StreamProcessor.AdvanceOk | EventSaucing/StreamProcessors/StreamProcessor.cs:422-437 | processing the next commit, however it ends, keeps that consistency |
| StreamProcessor.ResumesAt | EventSaucing/StreamProcessors/StreamProcessor.cs:422-437 | where a restart would resume after each kind of message: at the checkpoint when told to persist, at the end of a catch-up and after effects; before a commit that failed, so it is tried again |
| MessageEffects.NoEffectExactlyIfIgnored | EventSaucing/StreamProcessors/StreamProcessor.cs:160-178 | a message only leaves the mailbox if and only if it is a commit met while blocked, already passed or too far ahead in a catch-up, news already known or of a processor not followed, a call to catch up in a catch-up, or a call to save what is saved |
| MessageEffects.RepeatedNewsHasNoEffect | EventSaucing/StreamProcessors/StreamProcessor.cs:160-164 | news that repeats what is known has no effect: it neither moves nor ends a catch-up |
| MessageEffects.NewsTwiceIsOnce | EventSaucing/StreamProcessors/StreamProcessor.cs:160-164 | hearing the same news twice in a row is hearing it once |
| MessageEffects.HandledExactly | EventSaucing/StreamProcessors/StreamProcessor.cs:160-415 | exactly when a catch-up begins and ends (it ends when a processed commit or fresh news finds the stream exhausted), what the processor sends itself, and which checkpoint is saved afterwards |
| MessageEffects.AnnouncesExactly | EventSaucing/StreamProcessors/StreamProcessor.cs:248-255 | a message announces the checkpoint when it asks for it, and a commit's token outside a catch-up; nothing else is announced, and a catch-up announces nothing |
| MessageEffects.FailsExactly | EventSaucing/StreamProcessors/StreamProcessor.cs:422-437 | what is saved and applied when a commit fails, in each way it can |
| MessageEffects.RestartedIsBlocked | EventSaucing/StreamProcessors/StreamProcessor.cs:183-190 | a restarted processor that follows others is blocked until it hears from them: exactly those that follow none are not |
| StreamProcessorActor.Processor.constructor | EventSaucing/StreamProcessors/StreamProcessor.cs:183-190 | a new incarnation starts from the saved checkpoint, or 0, announces it, and owes itself a catch-up |
| StreamProcessorActor.Processor.ProceededBy | EventSaucing/StreamProcessors/StreamProcessor.cs:234-242 | registers once, at 0, and never resets what is known |
| StreamProcessorActor.Processor.SetCheckpoint | EventSaucing/StreamProcessors/StreamProcessor.cs:248-255 | moves the checkpoint and announces it only when not catching up |
| StreamProcessorActor.Processor.CatchUpStart | EventSaucing/StreamProcessors/StreamProcessor.cs:297-308 | computes the transition the run theorems are about |
| StreamProcessorActor.Processor.CatchUpFinish | EventSaucing/StreamProcessors/StreamProcessor.cs:314-324 | likewise |
| StreamProcessorActor.Processor.CatchUpTryAdvance | EventSaucing/StreamProcessors/StreamProcessor.cs:330-363 | likewise; the pair peeked at is always there |
| StreamProcessorActor.Processor.Advance | EventSaucing/StreamProcessors/StreamProcessor.cs:422-437 | likewise, for every way processing can end |
| StreamProcessorActor.Processor.ReceivedOrderedCommitNotification | EventSaucing/StreamProcessors/StreamProcessor.cs:373-415 | likewise, with all guards in order |
| StreamProcessorActor.Processor.ReceivedCurrentCheckpoint | EventSaucing/StreamProcessors/StreamProcessor.cs:160-178 | likewise |
| StreamProcessorActor.Processor.ReceivedCatchUp | EventSaucing/StreamProcessors/StreamProcessor.cs:262-266 | likewise; catch-ups never nest |
| StreamProcessorActor.Processor.Receive | EventSaucing/StreamProcessors/StreamProcessor.cs:117-178 | one turn of the actor refines the transition function Handle |
| ProcessorGraph.ApplyOk | EventSaucing/StreamProcessors/StreamProcessor.cs:160-437 | every step of any processor, and every append, keeps the invariant of the whole graph |
| ProcessorGraph.ProcessedInOrderExactlyOnce | EventSaucing/StreamProcessors/StreamProcessor.cs:373-437 | in every run an incarnation's log of processed commits is exactly the store's commits from its starting checkpoint to its current one |
| ProcessorGraph.ReplicasAgree | EventSaucing/StreamProcessors/StreamProcessor.cs:373-437 | two replicas started at equal checkpoints and now at equal checkpoints have processed identical sequences |
| Sequencing.HighRises | EventSaucing/StreamProcessors/StreamProcessor.cs:373-393 | one action never takes a processor past both its best and what it knows of any proceeding processor |
| Sequencing.StepKeepsSequenced | EventSaucing/StreamProcessors/StreamProcessor.cs:160-242 | every step keeps every follower, its knowledge and its pending news under the best checkpoint of each proceeding processor |
| Sequencing.NeverAheadOfProceeding | EventSaucing/StreamProcessors/StreamProcessor.cs:229-242 | in every run with any loss, repeat, delay and crash, a follower's checkpoint is at most the highest one each proceeding processor ever announced, hence ever reached, hence at most its current one while that is its highest |
| SafeReading.SafeToRead | EventSaucing/StreamProcessors/StreamProcessor.cs:229-232 | in every such run, the effects due by a follower's checkpoint are all among those its proceeding SqlProjector has applied, in order, also when that one has restarted below the follower |
| SafeReading.AnnouncedIsApplied | EventSaucing/StreamProcessors/StreamProcessor.cs:248-255 | in every run with crashes anywhere, a SqlProjector has applied all effects due by any checkpoint it ever announced |
| SafeReading.LegacyBackedExactly | EventSaucing/StreamProcessors/Projectors/LegacyProjectorConventionBasedCommitProjecter.cs:22-45 | processing a commit keeps this for a legacy projector if and only if it does not fail, on a projectable commit, with the checkpoint moved or, outside a catch-up, by the host dying with the checkpoint set |
| SafeReading.SafeToReadLegacy | EventSaucing/StreamProcessors/StreamProcessor.cs:229-232 | it is safe to read from a legacy projector in every run without such failures |
| Sequencing.GuaranteeKeptExactlyUnlessOvertaken | EventSaucing/StreamProcessors/StreamProcessor.cs:229-242 | a step keeps the documented guarantee if and only if neither the proceeding processor restarts (or dies over a commit) with a saved checkpoint that the follower has passed, nor the follower accepts a commit while level with it |
| Sequencing.CycleNeverAdvances | EventSaucing/StreamProcessors/StreamProcessor.cs:215-242 | in every run the members of a cycle of proceeded-by stay at or below the highest checkpoint they started from |
| NoStall.HandleLive | EventSaucing/StreamProcessors/StreamProcessor.cs:297-415 | every message keeps the phases waiting, streaming, ending, idle, unless it is the last copy of a catch-up commit met by a blocked processor |
| NoStall.KeptLiveExactlyUnlessDropped | EventSaucing/StreamProcessors/StreamProcessor.cs:376-379 | a message keeps the processor live if and only if it is not that last copy |
| NoStall.DroppingSticks | EventSaucing/StreamProcessors/StreamProcessor.cs:376-379 | after it was dropped, the commit that comes next is in neither the stream nor the mailbox |
| NoStall.StuckStays | EventSaucing/StreamProcessors/StreamProcessor.cs:330-363 | no message in the mailbox gets such a processor to move |
| NoStall.SentAgainIsLive | EventSaucing/StreamProcessors/StreamProcessor.cs:373-415 | being sent that commit once more, and nothing else, gets it going again |
| NoStall.CatchUpStartLive | EventSaucing/StreamProcessors/StreamProcessor.cs:396-410 | a catch-up started in any state is in one of the phases again for everything owed up to the head, so nothing dropped before by the "safe to ignore" branch is lost |
| NoStallRuns.RunLiveOrStuck | EventSaucing/StreamProcessors/StreamProcessor.cs:160-415 | in every run a processor is in one of the phases or stuck, whatever it hears of proceeding processors |
| NoStallRuns.StalledExactlyWhenStuck | EventSaucing/StreamProcessors/StreamProcessor.cs:160-415 | in every run, a processor with an empty mailbox is stalled (proceeding ones ahead, yet catching up or behind what it was ever sent) if and only if it is stuck with all proceeding ones ahead |
| NoStallRuns.RunExhausted | EventSaucing/StreamProcessors/StreamProcessor.cs:330-363 | in every run, a processor that has streamed the last commit of its catch-up is not blocked, so that commit is never dropped |
| NoStallRuns.RunFlows | EventSaucing/StreamProcessors/StreamProcessor.cs:160-415 | the phases hold in every run in which the processor drops no last copy of a commit it needs; crashes, and hearing of a regress, are allowed |
| NoStallRuns.NoStallInAnyRun | EventSaucing/StreamProcessors/StreamProcessor.cs:160-415 | in every such run, with an empty mailbox, some known proceeding checkpoint is not ahead, or the processor is not catching up and has reached every commit ever sent to it |
| NoStallRuns.RegressFreeIsReliable | EventSaucing/StreamProcessors/StreamProcessor.cs:160-178 | runs in which no known proceeding checkpoint goes back are such runs |
| Quiescence.HandleDecreases | EventSaucing/StreamProcessors/StreamProcessor.cs:297-415 | every message handled decreases (external messages, commits left to stream, mailbox length) lexicographically |
| Quiescence.Settle | EventSaucing/StreamProcessors/StreamProcessor.cs:297-415 | handling messages until none is left is well founded for every store, mailbox and way of failing, and ends with an empty mailbox or a crash |
| Quiescence.SettlesUnstalledUnlessStuck | EventSaucing/StreamProcessors/StreamProcessor.cs:297-415 | the self-messaging loop ends waiting for a proceeding processor, or with everything owed reached if and only if it does not end stuck |
| Quiescence.SettlesStuckExactlyIfDropped | EventSaucing/StreamProcessors/StreamProcessor.cs:373-415 | it ends stuck if and only if some message on the way drops the last copy of a commit the catch-up needs |
| Quiescence.SettlesUnstalled | EventSaucing/StreamProcessors/StreamProcessor.cs:297-415 | without such a message it ends waiting for a proceeding processor or with everything owed reached |
| Quiescence.SettlesInOrder | EventSaucing/StreamProcessors/StreamProcessor.cs:373-437 | it ends with the log in order and exactly once; without failures it does not end in a crash |
| Quiescence.CatchUpReachesHead | EventSaucing/StreamProcessors/StreamProcessor.cs:297-363 | a restarted processor without proceeding ones ends at the store's head, having processed exactly the commits after its saved checkpoint |
| GraphProgress.GraphReachesHeadUnlessStuck | EventSaucing/StreamProcessors/StreamProcessor.cs:215-242 | for every acyclic graph and every run: with mailboxes empty, every last announcement (or current checkpoint) known to the followers and the head delivered, every processor is at the store's head, has ended its catch-up and announced it, if and only if no processor is stuck |
| GraphProgress.GraphReachesHead | EventSaucing/StreamProcessors/StreamProcessor.cs:215-242 | so every processor is at the head if none drops the last copy of a commit its catch-up needs, restarts of proceeding processors included |
| GraphProgress.AtHeadIsIdle | EventSaucing/StreamProcessors/StreamProcessor.cs:330-363 | no processor at the head rests in the middle of a catch-up |
| Announcements.RunAnnounces | EventSaucing/StreamProcessors/StreamProcessor.cs:248-255 | in every run in which the processor handles what reached its mailbox, outside a catch-up the current checkpoint is the last one announced or its announcement is in the mailbox, although a catch-up announces nothing |
| Announcements.CatchUpEndsSaved | EventSaucing/StreamProcessors/StreamProcessor.cs:314-324 | whichever message ends a catch-up, a restart would resume at the checkpoint reached and its announcement comes last in the mailbox |
| CrashRecovery.AppliedEffectsAreAStorePrefix | EventSaucing/StreamProcessors/Projectors/SqlProjector.cs:24-51 | in every run with crashes anywhere, the log of applied effects without adjacent repeats is exactly a prefix of the projecting commits of the store; everything up to the checkpoint is in it and at most one commit more |
| CrashRecovery.ReadModelIsPrefixFold | EventSaucing/StreamProcessors/StreamProcessor.cs:422-437 | if projecting is idempotent, the read model equals the fold of that prefix |
| CrashRecovery.FoldCollapse | EventSaucing/StreamProcessors/Projectors/SqlProjector.cs:36-49 | for an idempotent projection repeats next to each other do not matter |
| CrashRecovery.AdvanceKeepsRecovery | EventSaucing/StreamProcessors/StreamProcessor.cs:422-437 | processing one commit keeps recovery, also with a crash between the commit of the effects and the saving of the checkpoint |
| CrashRecovery.LegacyExactlyOnce | EventSaucing/StreamProcessors/Projectors/LegacyProjectorConventionBasedCommitProjecter.cs:22-45 | in every run with crashes anywhere, the applied effects are exactly those of the projectable commits up to the checkpoint, without repeats, although other commits save theirs at random |
| CrashRecovery.LegacyExactlyUnlessThrownAhead | EventSaucing/StreamProcessors/Projectors/LegacyProjectorConventionBasedCommitProjecter.cs:26-29 | processing a commit keeps exactly-once if and only if it does not throw with the checkpoint already moved on a projectable commit |
| CrashRecovery.ExactlyOnceIffNeverThrownAhead | EventSaucing/StreamProcessors/Projectors/LegacyProjectorConventionBasedCommitProjecter.cs:22-45 | over whole runs, failing transactions included: the applied effects are exactly those due up to the checkpoint, each once, if and only if the projector never threw with its checkpoint already moved on a projectable commit; else some commit is passed and never applied |
| CrashRecovery.MissedStays | EventSaucing/StreamProcessors/StreamProcessor.cs:422-437 | a commit that the saved checkpoint has passed unapplied is never applied, whatever happens later |
| ReadModelAtHead.RestartedReadModelIsComplete | EventSaucing/StreamProcessors/Projectors/SqlProjector.cs:24-51 | after any run with crashes anywhere, a projector that follows no other, started again without further failures, ends at the head with the fold of all projecting commits of the store, if projecting is idempotent |
| ReadModelAtHead.GraphReadModelIsComplete | EventSaucing/StreamProcessors/Projectors/SqlProjector.cs:24-51 | after any run with crashes anywhere, in any graph without cycles at rest with none stuck, each SqlProjector, whichever it follows, has the fold of all projecting commits of the store, if projecting is idempotent |
| ReadModelAtHead.RestartedLegacyIsComplete | EventSaucing/StreamProcessors/Projectors/LegacyProjectorConventionBasedCommitProjecter.cs:22-45 | a legacy projector so restarted ends with every projectable commit of the store applied exactly once, in order, if and only if it never threw with its checkpoint already moved on one |
| ReadModelAtHead.GraphLegacyIsComplete | EventSaucing/StreamProcessors/Projectors/LegacyProjectorConventionBasedCommitProjecter.cs:22-45 | the same, in any graph without cycles at rest with none stuck |
| SqlProjector.ProjectionMethodsInOrder | EventSaucing/StreamProcessors/Projectors/ConventionBasedEventDispatcher.cs:60-75 | every non-null event with a method is dispatched once, to its method, in the commit's order, and nothing else is |
| SqlProjector.ProjectsIff | EventSaucing/StreamProcessors/Projectors/SqlProjector.cs:25-30 | a commit has effects exactly when some event of it is dispatched |
| SqlProjector.CommitEffectsInOrder | EventSaucing/StreamProcessors/Projectors/SqlProjector.cs:36-46 | the effects of a commit are, one by one and in the commit's order, what their methods do to its dispatched events |
| SqlProjector.EffectsOfProjecting | EventSaucing/StreamProcessors/Projectors/SqlProjector.cs:24-49 | the effects of a log are those of its projecting commits |
| SqlProjector.Projector.ProcessAsync | EventSaucing/StreamProcessors/Projectors/SqlProjector.cs:24-51 | for every event of the commit that has a method, in order, that method on that event becomes durable, or nothing does; the checkpoint is to be saved exactly when there were effects; it fails exactly when an event message has no body, or an effect or the commit of the transaction fails |
| SqlProjector.ReadBack | EventSaucing/StreamProcessors/Projectors/SqlProjectorCheckPointPersister.cs:9-54 | a saved checkpoint is read back by its processor, and others are disturbed exactly when the first 800 characters of the names agree |
| SqlProjector.NeverSavedIsZero | EventSaucing/StreamProcessors/Projectors/SqlProjectorCheckPointPersister.cs:14-23 | a processor under whose kept name nothing was ever saved starts from 0 |
| SqlProjector.LastSavedIsRead | EventSaucing/StreamProcessors/Projectors/SqlProjectorCheckPointPersister.cs:9-54 | after any history of saves by any processors, a processor starts from the checkpoint last saved under its kept name |
| SqlProjector.ShortNamesAreApart | EventSaucing/StreamProcessors/Projectors/SqlProjectorCheckPointPersister.cs:32-35 | distinct names of at most 800 characters never get in each other's way |
| SqlProjector.NamesAreCutAt800 | EventSaucing/StreamProcessors/Projectors/SqlProjectorCheckPointPersister.cs:32-35 | longer names keep their first 800 characters, others are kept whole |
| SqlProjector.CheckpointTable.GetInitialCheckpointAsync | EventSaucing/StreamProcessors/Projectors/SqlProjectorCheckPointPersister.cs:9-30 | the saved row, else 0 |
| SqlProjector.CheckpointTable.PersistCheckpointAsync | EventSaucing/StreamProcessors/Projectors/SqlProjectorCheckPointPersister.cs:37-54 | the upsert leaves the row at the checkpoint and all other rows alone, whether or not the row existed |
| LegacyProjector.CanProjectIffEffects | EventSaucing/StreamProcessors/Projectors/LegacyConventionBasedEventDispatcher.cs:81-83 | CanProject holds exactly when the predicate over commits, if any, lets the commit through and projecting it has an effect |
| LegacyProjector.CanProjectReturns | EventSaucing/StreamProcessors/Projectors/LegacyConventionBasedEventDispatcher.cs:81-83 | the test as it runs gives that answer, unless the commit has an event message without a body: then it throws, or finds an event to project before it |
| LegacyProjector.EventEffectsIff | EventSaucing/StreamProcessors/Projectors/LegacyConventionBasedEventDispatcher.cs:63-70 | an event has effects exactly when some registered function is defined for it |
| LegacyProjector.EventEffectsInOrder | EventSaucing/StreamProcessors/Projectors/LegacyConventionBasedEventDispatcher.cs:98-101 | every function defined for an event runs on it once, in registration order, and no other does |
| LegacyProjector.LegacyEffectsInOrder | EventSaucing/StreamProcessors/Projectors/LegacyConventionBasedEventDispatcher.cs:90-102 | the effects of a commit are those of its events, one event after the other |
| LegacyProjector.NullsInIs | EventSaucing/StreamProcessors/Projectors/LegacyConventionBasedEventDispatcher.cs:93-96 | nulls are counted once for each position that holds one |
| LegacyProjector.Projecter.RunFunctions | EventSaucing/StreamProcessors/Projectors/LegacyConventionBasedEventDispatcher.cs:98-101 | runs every function defined for the event once, in registration order, or throws at the failing one |
| LegacyProjector.Projecter.Dispatch | EventSaucing/StreamProcessors/Projectors/LegacyConventionBasedEventDispatcher.cs:90-104 | runs the effects of all events in order and moves the checkpoint, or throws at a determined event, one without a body or with a failing effect, with the checkpoint where it was; each null event up to there is reported once |
| LegacyProjector.Projecter.Project | EventSaucing/StreamProcessors/Projectors/LegacyProjectorConventionBasedCommitProjecter.cs:22-45 | effects and saved row change together or not at all, and the effects are those of the events in order; it throws with nothing moved exactly when the commit is unprojectable or an effect fails, and with the checkpoint in memory moved although nothing was saved exactly when the save or the commit failed |
| LegacyProjector.Projecter.Advance | EventSaucing/StreamProcessors/StreamProcessor.cs:422-437 | with the error handler around it, checkpoint, saved row and applied commits change as in the state machine the run theorems are about |
| LegacyProjector.EffectsOfProjectable | EventSaucing/StreamProcessors/Projectors/LegacyConventionBasedEventDispatcher.cs:90-104 | the effects of a log are those of its projectable commits |
| EventStoreRepository.CommittedSave | EventSaucing/NEventStore/EventStoreRepository.cs:70-97 | a Save commits if and only if its first attempt that is no concurrency failure is accepted and all before were checked clear; it then has appended exactly the aggregate's non-null events, once and in order, after all other writers' events |
| EventStoreRepository.UncommittedSave | EventSaucing/NEventStore/EventStoreRepository.cs:85-95 | a Save that does not commit appends nothing of the aggregate's and keeps its events; it ends in a conflict, or in an exception of the check, exactly when the first batch not found clear says so; and it leaves the events on the stream exactly after such an exception or a storage failure |
| EventStoreRepository.SaveEndsExactly | EventSaucing/NEventStore/EventStoreRepository.cs:76-95 | exactly when a Save commits, finds a duplicate, fails in storage or is still trying: when all batches were clear and the first attempt that is no concurrency failure says so, or there is none; after a duplicate it leaves the other writers' events and a clean stream |
| EventStoreRepository.SavingAgainAfterDuplicate | EventSaucing/NEventStore/EventStoreRepository.cs:81-84 | saving again after a duplicate appends the events once |
| EventStoreRepository.NonNullInOrder | EventSaucing/NEventStore/EventStoreRepository.cs:163-168 | every event that is not null is saved once, in order, and no null |
| EventStoreRepository.CommitsExactlyIfHarmless | EventSaucing/NEventStore/EventStoreRepository.cs:85-92 | with a detector that compares event by event, an accepted Save commits if and only if no event that others committed meanwhile is null or clashes with one of the aggregate's |
| EventStoreRepository.EveryOtherEventChecked | EventSaucing/NEventStore/EventStoreRepository.cs:74-91 | after a committing Save every event between those on the stream at first and those appended has been checked, whichever turn it was loaded in: the skip counts telescope |
| EventStoreRepository.AppendsExactlyMine | EventSaucing/NEventStore/EventStoreRepository.cs:163-168 | a committing Save appends exactly the aggregate's events if and only if nothing was left uncommitted on the stream or a concurrency failure cleared it |
| EventStoreRepository.SavingAgainAfterStorageFailure | EventSaucing/NEventStore/EventStoreRepository.cs:93-95 | saving again after a storage failure appends the events twice |
| EventStoreRepository.SavingAgainAfterNullCommitted | EventSaucing/NEventStore/EventStoreRepository.cs:185-189 | so does saving again after another writer committed a null event |
| EventStoreRepository.Repository.PrepareStream | EventSaucing/NEventStore/EventStoreRepository.cs:152-171 | finds or creates the stream and adds the aggregate's events, nulls left out, in order; other streams are untouched |
| EventStoreRepository.Repository.ThrowOnConflict | EventSaucing/NEventStore/EventStoreRepository.cs:185-189 | however the committed events split into those skipped and the others, the verdict is the one on the uncommitted events and the others |
| EventStoreRepository.Repository.TryOnce | EventSaucing/NEventStore/EventStoreRepository.cs:73-95 | one turn of the loop, with the right events skipped, computes the transition the Save theorems are about |
| EventStoreRepository.Repository.SaveAggregate | EventSaucing/NEventStore/EventStoreRepository.cs:70-97 | the loop computes Save over the outcomes of its attempts |
| StatusMessageCache.RingBufferHoldsLast | EventSaucing/StreamProcessors/StatusMessageCache.cs:13-23 | after any n messages the array holds exactly the last min(n, K), message j in slot j mod K, the other slots null |
| StatusMessageCache.StatusCache.AddStatus | EventSaucing/StreamProcessors/StatusMessageCache.cs:20-23 | adding in place keeps that, for the history with the message |
| Counterexamples.FollowerOvertakes | EventSaucing/StreamProcessors/StreamProcessor.cs:229 | for every page size there is a run from an empty store, both starting level, after which the follower is at 1 and the proceeding processor at 0 |
| Counterexamples.LegacySkips | EventSaucing/StreamProcessors/Projectors/LegacyProjectorConventionBasedCommitProjecter.cs:26-29 | there is a run in which a legacy projector's saved checkpoint has passed a projectable commit that was not applied |
| Counterexamples.FollowerReadsTooEarly | EventSaucing/StreamProcessors/StreamProcessor.cs:229-232 | there is a run in which the follower of a legacy projector has passed commit 1 and the projector has applied nothing |
| Counterexamples.OldNewsStalls | EventSaucing/StreamProcessors/StreamProcessor.cs:376-379 | for every page size of at least 2 there is a run from an empty store that comes to rest with everything known and delivered, the proceeding processor at the head, and the follower stuck two commits behind |
| NodeCounterexamples.HeadPollWithoutEffect | EventSaucing/EventStream/LocalEventStreamActor.cs:120-129 | for every cache there is a run that ends with a handled head poll which read commit 4, nothing else under way, and the stream at 2 |
| NodeCounterexamples.NotifiedButNotStreamed | EventSaucing/EventStream/LocalEventStreamActor.cs:80-83 | for every cache of at least three commits there is a run that loses no poll and ends with nothing under way, commit 6 notified and the stream at 4 |

## Left out

- Akka, Autofac, hosted services, cluster singletons, pub/sub wiring, timers and logging appear only as message, tick and restart steps.
- SQL text, Dapper and connections: a map for the checkpoint table, all-or-nothing effects for a transaction.
- Tokens and capacities are unbounded integers: overflow of `checkpoint + 1` at the largest 64-bit value is not modelled.
- A negative cache capacity, with which the source's first Cache call throws, is excluded by the type of the capacity.
- StatusMessageCache.StatusCache.constructor: takes a capacity above 0; with 0 the source divides by zero on the first message.
- Store appends in the middle of a stream processor's handler, and commits that become visible out of order.
- Restarts of LocalEventStreamActor; a run of LocalOrdering is one incarnation.
- LegacyProjector.Projecter.Project: on success the source sets the checkpoint twice, in the dispatcher and in the processor's Advance; the second announcement of the same checkpoint is modelled once.
- CrashRecovery.LegacyExactlyOnce: runs in which the legacy transaction's own save or commit throws are excluded; ExactlyOnceIffNeverThrownAhead covers them.
- SafeReading.SafeToReadLegacy: a handler is one step, so what a follower could read between a legacy projector's announcement and the commit of the same transaction, when that commit succeeds, is not modelled.
- NoStallRuns.NoStallInAnyRun: runs in which the processor drops the last copy of a commit its catch-up needs are excluded; StalledExactlyWhenStuck covers them.
- NoStallRuns.StalledExactlyWhenStuck: runs in which a message disappears from the processor's mailbox unhandled are excluded; a mailbox only does so when its processor dies, which is a restart.
- EventStoreRepository.CommitsExactlyIfHarmless: is about detectors that read all committed events; a detector that stops early is covered by CommittedSave and UncommittedSave, in terms of its verdicts. The detector is not part of this repository.
- The declarative checkpoint persister: the initial checkpoint is an input.
- Message counters, status reporting and the supervisor, which only broadcasts.
- Reflection: building the dispatch tables, the event routers, the aggregate factory. A dispatch table is an input.
- Loading aggregates, snapshots and headers in the repository; NEventStore's own code is not part of this model.
- The JSON serialiser, the identity generator, the example application and its web pages.
