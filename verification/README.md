# Verified model of the content assistant's backend protocols

The repository is a backend that transcribes and summarizes uploaded content and answers questions
about it with an agent that runs in a worker. This project models its stateful cores in Dafny and
proves what they keep over whole runs.

- **Agent turns.** `Messages`, `ActiveIndex`, `MessageMetadata`, `TurnStore`, `TurnEndpoints`, `AgentTurn`
  and `AgentDispatcher`: the migration that leaves one active reply per thread, the transactions of
  the three endpoints that queue a reply together with its outbox record, the mapped metadata
  dictionary the record is written to, the guarded updates of workers and of the stale finalizer,
  the dispatch claim and the message lock as keys with an expiry, and the reconcile pass.
- **Relay.** `Relay` and `RelayRecovery`: the SSE relay that merges a lossy live channel with reads of
  the stored row, together with the worker that numbers its tokens and the browser that shows them.
- **Summaries.** `BlockGenerator`, `BlockContents`, `RunContents`, `BlockEngine` and `SectionsJson`: the
  round engine over title, keywords, headings and one section per heading, what its blocks hold in
  the end, the states it hands to its persistence callback, and their JSON form. `SummaryLock` and `SummaryService`: `Content.status` as a lock shared by full
  re-summaries and single-block regenerations.
- **Sessions and logins.** `Sessions`, `AuthStore` and `LoginLimiter`: sessions with idle and absolute
  expiry and per-user revocation, and the fixed-window limiter of failed logins.
- **Media.** `MediaRange`, `MediaCache` and `MediaService`: the Range header, chunked streaming, and the
  local cache of immutable objects with expiry and eviction.
- **Search.** `SearchLoop`: the SEARCH and HYBRID retry loops, whatever their nodes write back.

Protocols are step functions over a world; a run is `Play` of any sequence of steps, so every
interleaving, crash and delay is one of the sequences the run theorems quantify over. What the
source updates in place is a class whose methods are proved against the functions of those worlds.
Clocks, network answers, lock servers, gateway answers and other processes are parameters. The
store is assumed to do what its commands say: `SET NX EX`, scripts and single `UPDATE` statements are
atomic, a key with an expiry disappears when it is reached, and `TTL` rounds to the nearest second. The
mapper is assumed to write a column at a flush if its attribute differs from the value remembered at
the first assignment.

`dafny verify dfyconfig.toml` checks the project.

## Where the code and its description differ

Each of these is a lemma below, with the exact condition under which the description is right.

- A worker deletes the dispatch claim when it starts (backend/app/tasks/agent_task.py:249), so two claims
  are 60 s apart only if no worker started in between (`EarlyReclaimIffDropped`, `WorkerReopensTheClaim`).
- The outbox record is written by changing the loaded metadata dictionary in place and assigning the
  same object back (backend/app/repositories/thread_repository.py:295-298). The flush compares the
  attribute with the remembered previous value, which is that same object, so the record reaches the
  column exactly if the metadata was empty, when a fresh dictionary is used, or the column type
  reports changes (`UpdateMessageMetadata`, `JobKeptIff`). The column is a plain JSONB one
  (backend/app/db/models.py:538) and the metadata of all three endpoints is never empty, so no reply
  they queue carries its record (`EndpointsLoseEveryJob`, `LostJobRun`) and no reconcile pass ever
  finds one (`UnrecordedIsNeverRetried`).
- The reconciler and the finalizer count fewer than they published or moved exactly when an answer of
  the broker, of the extension script or of a commit was lost (`ReconcileOnce`, `FinalizeStale`).
- The finalizer's lock lasts 90 s: it still acts under its own lock exactly if it wrote within them
  (`FinalizerActsUnderItsLockIffInTime`, `StalledFinalizerOverridesWorker`).
- Live tokens do not advance the relay's sequence, so their order is the channel's
  (`LiveTokensKeepChannelOrder`, `SwappedTokensAreShownSwapped`), and a restarted worker's chunks are
  spliced onto what is shown (`RestartedWorkerIsSpliced`).
- A poll restores the row as it was last saved, so tokens shown since then disappear until a later
  save or the end (`PollCanGoBack`); without a poll in between nothing that is delivered is lost
  (`NothingIsDropped`).
- Regenerating a group block resets headings under existing sections, which later regenerations can
  repair only by an answer that gives the sections' names (`ResetKeepsConsistentIff`,
  `RegeneratedGroupAlignsIff`, `RegeneratedSectionAlignsIff`).
- A re-summary whose last transaction fails leaves the file SUMMARIZING (`LostLockStaysTaken`), and a block's
  restore can take away a lock that was re-acquired after a forced transition
  (`RestoreIsExactIff`, `LateRestoreTakesAwayTheLock`).
- A session key can outlive its absolute expiry by under a second, as the clock is read rounded down
  (`TtlsStayWithinLifetime`, `KeyOutlivesAbsoluteExpiry`); validation rejects the session all the same.
- A login window is lengthened by any later request in its last half second (`WindowLengthenedIff`).
- A range that ends at byte 0 of a longer file is answered with the whole file
  (`ServedRangeIsExactIff`), and a download that fails after the size was read leaves the announced
  length over an empty body (`StreamMedia`).

## Model

| member | source | states |
|---|---|---|
| ActiveIndex.SurplusIsBehindSomeone | backend/alembic/versions/20260822_01_add_active_assistant_unique_index.py:38-49 | a rank above 1 means exactly that another active row of the thread is newer, ties broken by id |
| ActiveIndex.MigrationKeepsExactlyTheNewest | backend/alembic/versions/20260822_01_add_active_assistant_unique_index.py:28-51 | from any table, each thread's newest non-stale active row is untouched, every other active row is failed, no other row changes |
| ActiveIndex.SurvivorIsTheLatest | backend/alembic/versions/20260822_01_add_active_assistant_unique_index.py:28-51 | an active row that survives is at most two hours old and no active row of its thread was created after it; one that does not is older, or has such a row |
| ActiveIndex.MigrationReachesOneActive | backend/alembic/versions/20260822_01_add_active_assistant_unique_index.py:27-58 | after the two updates every thread has at most one active assistant row |
| ActiveIndex.ActiveThreadKeepsARow | backend/alembic/versions/20260822_01_add_active_assistant_unique_index.py:36-51 | a thread with a non-stale active row still has one afterwards, unchanged |
| ActiveIndex.MessageTable.Upgrade | backend/alembic/versions/20260822_01_add_active_assistant_unique_index.py:27-58 | the upgrade always gets the index built, on the table of the two updates |
| TurnStore.StepKeepsInv | backend/app/controllers/ai_chat_controller.py:113-150 | every endpoint, worker, finalizer and deletion step keeps one active reply per thread, also counting uncommitted ones |
| TurnStore.OneActivePerThreadForever | backend/app/controllers/ai_chat_controller.py:113-150 | no run of any of those steps ever commits a second active reply to a thread |
| TurnStore.MigratedTableStaysOneActive | backend/alembic/versions/20260822_01_add_active_assistant_unique_index.py:27-58 | starting from any migrated table the same holds for every run |
| TurnStore.RacingRequests | backend/app/controllers/ai_chat_controller.py:101-123 | of two requests for one thread the second waits; it is rolled back with nothing stored if the first commits, and goes on if the first aborts |
| TurnStore.RowsEnterTogether | backend/app/controllers/ai_chat_controller.py:743-792 | a row of a new id appears only by a commit that stores the whole turn: its user message, its reply and its thread |
| MessageMetadata.JobKeptIff | backend/app/repositories/thread_repository.py:295-300 | the job record reaches the column exactly if the metadata was empty or the column type reports changes |
| MessageMetadata.MappedMessage.UpdateMessageMetadata | backend/app/repositories/thread_repository.py:273-301 | the attribute always shows the merged record; what the flush writes, by comparing with a remembered value that may be the same dictionary |
| TurnStore.OutboxForever | backend/app/controllers/ai_chat_controller.py:126-148 | in every run whose turns keep their records, each committed queued reply carries a job naming its own thread and a user message stored there |
| TurnStore.OutboxCompleteIff | backend/app/controllers/ai_chat_controller.py:136-148 | a commit carries the record exactly if the reply had no metadata of its own or the column type reports changes |
| TurnStore.EndpointsLoseEveryJob | backend/app/controllers/ai_chat_controller.py:645-650 | with a plain column, no run of turns that bring metadata ever commits a queued reply with its record |
| TurnStore.LostJobRun | backend/app/controllers/ai_chat_controller.py:743-792 | a run from the empty database that commits a queued reply without its record |
| TurnStore.TerminalIsFinal | backend/app/repositories/thread_repository.py:213-240 | a reply in a terminal status never changes again, whatever workers, finalizers and requests do |
| TurnStore.FinishedAtMostOnce | backend/app/repositories/thread_repository.py:213-240 | over any run a reply makes at most one move to a terminal status |
| TurnEndpoints.RivalGone | backend/app/controllers/ai_chat_controller.py:113-123 | once the transaction that holds a thread's slot ends nobody else is waited for, and the slot is taken exactly if it committed |
| TurnEndpoints.TurnService.AwaitRival | backend/app/controllers/ai_chat_controller.py:113-123 | the insert goes on from exactly the store its rival leaves |
| TurnEndpoints.TurnService.FlushRows | backend/app/controllers/ai_chat_controller.py:766-783 | the inserts of a turn, after any rival, fail with 409 exactly on a thread that holds an active reply; a failure leaves no transaction and no row of the turn |
| TurnEndpoints.TurnService.PostAndCommit | backend/app/controllers/ai_chat_controller.py:136-148 | the commit adds exactly the turn's rows, the reply with its record if that is kept |
| TurnEndpoints.TurnRowsAre | backend/app/controllers/ai_chat_controller.py:113-150 | field by field, the rows of an accepted turn and its job: the question finished, the reply queued and empty, both of this thread and time; the record names thread, user and question |
| TurnEndpoints.TurnService.PersistAndEnqueue | backend/app/controllers/ai_chat_controller.py:126-172 | the turn's rows and thread are stored exactly if everything up to the commit succeeded, also after waiting for a rival; a failed publish removes nothing |
| TurnEndpoints.TurnService.CreateThread | backend/app/controllers/ai_chat_controller.py:743-808 | a created thread comes with its two rows or not at all, and never conflicts; the rows field by field, and the job that is published |
| TurnEndpoints.TurnService.AddMessage | backend/app/controllers/ai_chat_controller.py:811-900 | the answer for every failure point and rival; exactly when it is accepted the question and the queued reply are added, field by field, and the job is published unless the broker fails |
| TurnEndpoints.TurnService.Regenerate | backend/app/controllers/ai_chat_controller.py:599-661 | which of 404, 400, 409 or the turn's own fate is answered, and that an accepted one adds one queued reply, whose job names the last user message |
| TurnEndpoints.TurnService.SaveStatus | backend/app/tasks/agent_task.py:133-151 | the guarded update writes status and content exactly of an active row, and a worker learns when it is terminal |
| TurnEndpoints.TurnService.SavePartial | backend/app/tasks/agent_task.py:154-170 | the same for partial content, which makes the row generating |
| TurnEndpoints.TurnService.SaveCompleted | backend/app/tasks/agent_task.py:173-209 | completing removes exactly the replaced replies of the same thread in the same commit |
| TurnEndpoints.TurnService.FailStaleMessage | backend/app/repositories/thread_repository.py:227-240 | exactly an active row older than the cutoff becomes the failed one |
| AgentTurn.ClaimsOkForever | backend/app/services/agent_dispatcher.py:81-114 | over any run the claim key is the one its history of claims, extensions and deletions explains, each allowed when it happened |
| AgentTurn.ClaimsAreSpaced | backend/app/services/agent_dispatcher.py:81-114 | two claims with no worker's delete between are 60 s apart; once extended, none succeeds before the message is ACTIVE_JOB_TTL old |
| AgentTurn.ExtendIsTheHolders | backend/app/services/agent_dispatcher.py:102-113 | a dispatcher extends only its own claim: nobody claimed or deleted the key since |
| AgentTurn.EarlyReclaimIffDropped | backend/app/tasks/agent_task.py:239-249 | inside the claim window another dispatcher can claim exactly if a worker deleted the key |
| AgentTurn.WorkerReopensTheClaim | backend/app/tasks/agent_task.py:247-249 | a run in which a queued message is claimed twice within a second |
| AgentTurn.FinalizersOkForever | backend/app/services/agent_dispatcher.py:34-78 | over any run a finalizer's cutoff lies ACTIVE_JOB_TTL back and its row before it |
| AgentTurn.FinalizerActsUnderItsLockIffInTime | backend/app/services/agent_dispatcher.py:43-64 | a finalizer fails only an active row older than the cutoff, and holds the live lock, no worker does, exactly if it got there within 90 s |
| AgentTurn.StalledFinalizerOverridesWorker | backend/app/services/agent_dispatcher.py:49-64 | a run in which a stalled finalizer fails a row under a worker that holds the lock |
| AgentTurn.LostClaimExpires | backend/app/services/agent_dispatcher.py:86-93 | the key a waiting claim leaves is its own and ends 60 s after it was made, or earlier by a worker's delete |
| AgentTurn.AttemptOutcome | backend/app/services/agent_dispatcher.py:117-150 | a pass over a queued row with a record publishes it exactly if no claim is live, and otherwise changes nothing |
| AgentTurn.PlayKeepsPending | backend/app/services/agent_dispatcher.py:81-114 | whatever all processes do after a claim whose dispatcher was lost, somebody published since, or the newest claim waits as that one did |
| AgentTurn.BoundedRecovery | backend/app/services/agent_dispatcher.py:117-161 | with a record and any steps of anybody between passes: if at most n of the claims after a lost dispatch are not published at once, the row is published, or no longer queued, within n + 1 times 60 s plus the longest gap |
| AgentTurn.UnrecordedIsNeverRetried | backend/app/services/agent_dispatcher.py:121-129 | without a record, reconcile passes change nothing of any run |
| AgentDispatcher.AttemptIsTheProtocol | backend/app/services/agent_dispatcher.py:81-114 | for every lost or unanswered command, and any steps of other processes between publish and script, the outcome, key and publish are those of the protocol's dispatcher |
| AgentDispatcher.FinalizingIsTheProtocol | backend/app/services/agent_dispatcher.py:44-77 | among any steps of workers, dispatchers and other finalizers between lock and update, the row and lock, also after a lost answer or a failed release, are those of the protocol's finalizer |
| AgentDispatcher.FinalizingIsTheGuardedUpdate | backend/app/repositories/thread_repository.py:227-240 | a row moved by the loop, also after a worker's last write, is changed as the guarded update of the message table changes it |
| AgentDispatcher.QueueIsComplete | backend/app/services/agent_dispatcher.py:121-131 | the queue query finds every queued assistant row with a record exactly once and no other row |
| AgentDispatcher.PassFindsLostJobs | backend/app/services/agent_dispatcher.py:117-150 | after a pass: a queued assistant row with a job record and no live claim was published if store and broker answered; a row in any other status, or without a record, was not, and its key is unchanged |
| AgentDispatcher.PassIsAttempt | backend/app/services/agent_dispatcher.py:117-150 | over a whole table, the pass does to each assistant row what the pass of the message protocol does to a message with its status, record and key |
| AgentDispatcher.Dispatcher.DispatchAgentJob | backend/app/services/agent_dispatcher.py:81-114 | what is returned, published and left in the key when each command is answered, lost or takes effect unanswered |
| AgentDispatcher.Dispatcher.ReconcileRow | backend/app/services/agent_dispatcher.py:133-149 | a broken job record is skipped and an exception swallowed; no other row's key is touched |
| AgentDispatcher.Dispatcher.VisitQueued | backend/app/services/agent_dispatcher.py:133-150 | what happens to a row of the scan depends on its own key alone; the count is that of the attempts that returned true |
| AgentDispatcher.Dispatcher.ReconcileQueue | backend/app/services/agent_dispatcher.py:120-150 | every queued row with a record is tried, no failure or live claim of another prevents it; the count is at most the publishes, equal exactly if each answered; what the two lemmas above speak of is its effect, oldest rows first |
| AgentDispatcher.Dispatcher.ReconcileOnce | backend/app/services/agent_dispatcher.py:117-150 | the finalizer runs first and a failing query ends the pass there; otherwise the queue as it is then is reconciled, with the effect the two lemmas above speak of |
| AgentDispatcher.Dispatcher.FinalizeRow | backend/app/services/agent_dispatcher.py:44-77 | one row: moved exactly under an obtained lock while active and older than the cutoff, and what remains of the lock; no other row or lock changes |
| AgentDispatcher.Dispatcher.VisitStale | backend/app/services/agent_dispatcher.py:43-78 | the same for each row of the scan by itself |
| AgentDispatcher.Dispatcher.FinalizeStale | backend/app/services/agent_dispatcher.py:34-78 | one pass over the oldest 100 stale rows changes only those; the count is at most the rows it failed, equal exactly if no commit's answer was lost |
| Relay.RelaySession.Conclude | backend/app/controllers/ai_chat_controller.py:203-215 | a missing, completed, failed or cancelled row ends the stream with its own final events |
| Relay.RelaySession.Hear | backend/app/controllers/ai_chat_controller.py:228-261 | what one live event makes the relay say, skip or end with |
| Relay.RelaySession.Poll | backend/app/controllers/ai_chat_controller.py:263-285 | after a quiet timeout an active row whose partial text is new is restored and its sequence taken over, and a ping is said; other rows end the stream |
| Relay.RelaySession.Open | backend/app/controllers/ai_chat_controller.py:195-221 | the opening: accepted, first read, restore, status, also when subscribing fails |
| Relay.RelaySession.Run | backend/app/controllers/ai_chat_controller.py:184-305 | the generator's whole output is the one the grammar and ordering lemmas speak of |
| Relay.RelayGrammar | backend/app/controllers/ai_chat_controller.py:191-305 | accepted exactly once and first when supplied, then at most one done or error, last, and always one unless the client left |
| Relay.CompletedRowIsShown | frontend/src/shared/services/chatStreamService.ts:242-285 | a run ended by reading a completed row leaves the stored content on screen, whatever was shown before |
| Relay.SequenceNeverDecreases | backend/app/controllers/ai_chat_controller.py:249-257 | the relay's persisted sequence never decreases |
| Relay.StepKeepsInv | backend/app/controllers/ai_chat_controller.py:216-285 | every publish of any kind of event, also of a worker whose row was failed meanwhile, save, loss, read and delivery keeps the shown text a rendering of increasing chunk numbers, with deliverable tokens ahead of it |
| Relay.TextIsChunksInOrder | backend/app/controllers/ai_chat_controller.py:191-285 | for every interleaving the shown text is chunks with strictly increasing numbers, and after completion exactly the stored content |
| Relay.LiveTokensKeepChannelOrder | backend/app/controllers/ai_chat_controller.py:249-258 | between reads exactly the tokens above the sequence are passed on, in the channel's order |
| Relay.SwappedTokensAreShownSwapped | backend/app/controllers/ai_chat_controller.py:249-258 | a channel that swaps two tokens makes the browser show them swapped |
| Relay.RestartedWorkerIsSpliced | backend/app/tasks/agent_task.py:265-266 | a worker that numbers from 1 again adds exactly its chunks above the relay's sequence to what is shown |
| RelayRecovery.RestoreIsShown | backend/app/controllers/ai_chat_controller.py:263-285 | a read of an active row with a new partial text shows exactly that text, chunks 1 to the row's sequence, and the stream goes on |
| RelayRecovery.RestoreGoesOn | backend/app/controllers/ai_chat_controller.py:249-285 | the row's next token is appended to the restored text, exactly unless content heard before had gone beyond the row |
| RelayRecovery.ReadBringsTheRowBack | backend/app/controllers/ai_chat_controller.py:191-285 | in every run, whatever was lost or delayed: after any read of an active row its partial text is on screen, at the beginning of what is shown |
| RelayRecovery.NothingIsDropped | backend/app/controllers/ai_chat_controller.py:184-261 | from a subscription made before the first token, if the channel loses nothing and nobody polls, the chunks not shown are still on the wire, and once all was heard every chunk is shown |
| RelayRecovery.PollCanGoBack | backend/app/controllers/ai_chat_controller.py:277-285 | a run in which a poll takes a shown token back |
| RelayRecovery.OpeningTells | backend/app/controllers/ai_chat_controller.py:195-221 | a client of an active row first gets its partial text, if any, and then its status |
| RelayRecovery.EveryQuietTimeoutPings | backend/app/controllers/ai_chat_controller.py:263-285 | while the stream goes on there is one ping per quiet timeout |
| RelayRecovery.OtherEventsPass | backend/app/controllers/ai_chat_controller.py:228-261 | events of other types reach the client as they are, each once and in order |
| RelayRecovery.TheReasonIsSaid | backend/app/controllers/ai_chat_controller.py:203-305 | the stream ends at the first event, read or failure that ends it, with that one's own last word |
| BlockGenerator.GroupSavesOk | backend/app/services/block_generator.py:272-342 | the states saved while an extraction is recorded are consistent, each keeping the successes of the one before |
| BlockGenerator.ExpandOk | backend/app/services/block_generator.py:501-524 | expansion yields one section per heading under its name, and never changes existing ones |
| BlockGenerator.RunTasksOk | backend/app/services/block_generator.py:372-419 | whatever order section tasks start and finish in, every state in between is consistent and keeps the successes of the one before |
| BlockGenerator.RoundOk | backend/app/services/block_generator.py:252-270 | the states of one whole round form such a chain |
| BlockGenerator.EveryStateIsConsistent | backend/app/services/block_generator.py:198-247 | from any state a run can be started from, also after regenerations, over all rounds, answers and interleavings: a block that is SUCCESS in one saved state or the start is SUCCESS in every later one and the result, successful sections have 50 characters, and sections stay one per heading if they were |
| BlockGenerator.CrashAndResume | backend/app/services/block_generator.py:198-247 | a run killed anywhere and resumed from any saved state keeps what was found, and headings under existing sections |
| BlockGenerator.IdleRoundIsComplete | backend/app/services/block_generator.py:232-241 | from any such state, a round without progress found every block successful |
| BlockGenerator.NineRoundsTakeTooLong | backend/app/services/block_generator.py:48-50 | the pauses before round 9's check sum to 2255 s, above the 1800 s cap |
| BlockGenerator.RoundBound | backend/app/services/block_generator.py:215-247 | at most 8 round bodies run and the limit of 10 rounds is never what stops the engine |
| BlockGenerator.EndsCompleteOrPastTheCap | backend/app/services/block_generator.py:218-247 | from any such state, unless killed, the engine returns a complete state or past the time cap |
| BlockGenerator.TaskAttempts | backend/app/services/block_generator.py:372-416 | a section gains one attempt per round exactly if its task was started |
| BlockGenerator.SectionAttempts | backend/app/services/block_generator.py:344-420 | from any state, a section is attempted at most once per round body |
| BlockGenerator.AttemptsAfterLateMetadata | backend/app/services/block_generator.py:215-247 | if the extraction first succeeds in round g, each section is attempted at most 9 - g times |
| BlockGenerator.ResetKeepsConsistentIff | backend/app/services/summary_runner.py:184-198 | regenerating a block starts from a consistent state exactly if it is a section or no section exists |
| BlockGenerator.ResetIsStartable | backend/app/services/summary_runner.py:184-198 | regenerating any block, of a state aligned or not, starts from a state the engine's guarantees hold from |
| BlockGenerator.HistoryIsStartable | backend/app/services/summary_runner.py:184-241 | after any number of regenerations of any blocks, each finished or killed at any save, the stored state can be started from again |
| BlockGenerator.RegenerationKeepsAndEnds | backend/app/services/summary_runner.py:184-241 | every regeneration of any such state keeps the successes of its run and, unless killed, ends complete or past the time cap |
| BlockGenerator.RunAlignsIff | backend/app/services/block_generator.py:198-247 | a run under existing sections keeps their number and names, and ends with one per heading exactly if the headings it ends with are those names |
| BlockGenerator.RegeneratedGroupAlignsIff | backend/app/services/summary_runner.py:184-241 | regenerating a group block of any stored state ends with one section per heading exactly if its first complete answer gave the sections' names as headings |
| BlockGenerator.RegeneratedSectionAlignsIff | backend/app/services/summary_runner.py:184-241 | regenerating a section leaves the sections aligned with the headings exactly if they were |
| BlockContents.WaitingSectionIsAnswered | backend/app/services/block_generator.py:372-419 | a section started while fewer than two run gains one attempt and becomes what its first answer says: 50 characters or more are kept whole, a shorter text or an exception fails it and leaves its content |
| BlockContents.AtMostTwoRun | backend/app/services/block_generator.py:408-416 | never more than two section calls at a time |
| BlockContents.RoundSection | backend/app/services/block_generator.py:344-420 | a finished section is left alone in a round, and after one that was not killed every other is as an answer to it says |
| BlockContents.RoundGroup | backend/app/services/block_generator.py:272-342 | one round makes title, keywords and headings those of an extraction that gave all three, or fails the unfinished ones and keeps their contents |
| BlockContents.ResetEmptiesIt | backend/app/services/summary_runner.py:184-198 | regenerating a block empties it, a group block its whole group, and leaves all others alone |
| RunContents.SectionsHoldTheirAnswers | backend/app/services/block_generator.py:372-419 | over whole runs, a section that became SUCCESS is returned with the whole text of an answer to it, one that was SUCCESS as it was |
| RunContents.GroupHoldsFirstAnswer | backend/app/services/block_generator.py:272-342 | over whole runs, title, keywords and headings are those of the first extraction that gave all three, or unchanged |
| RunContents.NothingFoundIsUnsaved | backend/app/services/block_generator.py:198-247 | whatever a run found is in the last state it handed to the callback |
| RunContents.TheCapIsThirtyMinutes | backend/app/services/block_generator.py:218-230 | bodies start only within 30 minutes, and a run ends by the time cap only after them |
| RunContents.StoredRound | backend/app/services/block_generator.py:215-247 | the stored round is that of the last body, or of the check that ended the run, and at most 10 |
| RunContents.GoodAnswersComplete | backend/app/services/block_generator.py:198-247 | with a complete extraction and a long enough answer for every section, a run is complete after its first round and holds those texts |
| SectionsJson.LoadSections | backend/app/services/block_generator.py:109-131 | the reader's loop computes the function the round trip is proved of |
| SectionsJson.ReadingYieldsDistinctKeys | backend/app/services/block_generator.py:118-131 | whatever was stored, reading never yields one key twice |
| SectionsJson.ReadingFailsIff | backend/app/services/block_generator.py:118-130 | reading fails exactly if a block lacks a required member or names no status |
| SectionsJson.RoundTripIffDistinct | backend/app/services/block_generator.py:76-131 | storing and reading back gives the same state exactly if no key occurs twice |
| SectionsJson.ReloadAndResume | backend/app/services/block_generator.py:76-131 | every saved state survives storing and reading, and a run resumed from it keeps it |
| BlockEngine.Engine.RunMetadataGroup | backend/app/services/block_generator.py:272-342 | blocks and saved states after the group call, for failure, incomplete and complete answers |
| BlockEngine.Engine.RecordRaised | backend/app/services/block_generator.py:306-315 | all unfinished group blocks are failed before the first of them is saved |
| BlockEngine.Engine.RecordParsed | backend/app/services/block_generator.py:317-340 | the group is settled block by block, each save showing exactly the blocks settled so far |
| BlockEngine.Engine.ExpandDynamicBlocks | backend/app/services/block_generator.py:501-524 | the loop over headings builds the expansion, once |
| BlockEngine.Engine.RunSections | backend/app/services/block_generator.py:344-420 | the tasks run on exactly the unfinished sections; none means no progress; what they leave is what the lemmas of `BlockContents` speak of |
| BlockEngine.Engine.RunRound | backend/app/services/block_generator.py:252-270 | group, expansion and sections in this order make the round the lemmas speak of |
| BlockEngine.Engine.Generate | backend/app/services/block_generator.py:198-247 | the loop's blocks, saves, ending and stored round are those of the run the lemmas speak of |
| SummaryLock.MutexForever | backend/app/repositories/file_repository.py:271-320 | every run of re-summaries and block regenerations that other writers leave alone keeps the lock invariant |
| SummaryLock.SummarizingIsAMutex | backend/app/services/content_service.py:382-456 | at most one process is between acquire and release, and the file is SUMMARIZING exactly while one is or was lost there |
| SummaryLock.LostLockStaysTaken | backend/app/services/content_service.py:443-456 | a re-summary lost between acquire and release leaves the file SUMMARIZING for the rest of the run |
| SummaryLock.BlockEndsWhereItBegan | backend/app/services/content_service.py:657-730 | a block regeneration ends with exactly the status held just before its acquire |
| SummaryLock.RestoreIsExactIff | backend/app/repositories/file_repository.py:305-320 | under any other writers at most one process owns the lock, and a restore is exact unless the file entered SUMMARIZING again |
| SummaryLock.NewerStatusIsKept | backend/app/repositories/file_repository.py:305-320 | a transition out of SUMMARIZING survives the restore, whatever was tried since, as long as nothing entered SUMMARIZING |
| SummaryLock.LateRestoreTakesAwayTheLock | backend/app/services/content_service.py:719-730 | a run in which a late restore lets a third process in beside the second |
| SummaryService.ContentRow.UpdateFileStatus | backend/app/repositories/file_repository.py:165-239 | the status changes exactly for an allowed or unvalidated transition to another status |
| SummaryService.ContentRow.TryAcquireSummarizingLock | backend/app/repositories/file_repository.py:271-303 | compare-and-set to SUMMARIZING from the allowed statuses only |
| SummaryService.ContentRow.RestoreSummarizingStatus | backend/app/repositories/file_repository.py:305-320 | only a SUMMARIZING row is given its previous status |
| SummaryService.ContentRow.RegenerateSummaryBlock | backend/app/services/content_service.py:601-730 | success, failure and exception end with the status before the acquire, or the newer one of another writer; title and summary are stored exactly by a reported success; its steps are the lock protocol's |
| SummaryService.ContentRow.RetrySummary | backend/app/services/content_service.py:382-456 | status, title, summary and reply for every answer, other writer and failing commit: the answer's own title and summary are kept whenever a status write of its transaction works, also for a partial answer, and otherwise nothing of it; its steps are the protocol's |
| SummaryService.ContentRow.StoreSummary | backend/app/services/content_service.py:405-456 | from the engine's answer to the end: status, title, summary and reply, with the exception handler's second write and the rollback when both writes are invalid |
| SummaryService.BlockStepsPlayed | backend/app/services/content_service.py:657-730 | the protocol run of one block regeneration among other writers ends with the status the service leaves |
| SummaryService.FullStepsPlayed | backend/app/services/content_service.py:868-922 | the same for one full re-summary, including the second validated write of its exception handler |
| Sessions.StepKeepsCoherent | backend/app/core/auth.py:158-289 | every command of creators, validators, revocations and logouts keeps one record per token and a lawful log |
| Sessions.AcceptedSessionsAreValid | backend/app/core/auth.py:185-231 | every acceptance: within the idle TTL of the last write, clock read less than the absolute TTL after the clock of its creation, not revoked since its version was read |
| Sessions.SessionLifetime | backend/app/core/auth.py:158-231 | over every run, a session is accepted only from its login until the absolute TTL after it, however often it was touched, and is the user's who logged in |
| Sessions.CheckPassesIffNotRevoked | backend/app/core/auth.py:213-216 | a version check passes exactly if the user was not revoked since creation read the version, even if storing raced it |
| Sessions.RefusedForever | backend/app/core/auth.py:213-216 | a token once refused as revoked never passes again |
| Sessions.TtlsStayWithinLifetime | backend/app/core/auth.py:169-174 | every TTL is at least 1 s; when a key outlives absolute expiry and by how much, under a second if clock read and write are one step |
| Sessions.KeyOutlivesAbsoluteExpiry | backend/app/core/auth.py:160-174 | a login whose key lasts 999 ms past its absolute expiry |
| Sessions.VersionsOnlyGrow | backend/app/core/auth.py:285-289 | revocation versions never decrease |
| Sessions.LogoutIsFinal | backend/app/core/auth.py:180-182 | after a logout no touch still under way brings the key back, and every later request with the token is rejected |
| AuthStore.ValidationIsTheProtocol | backend/app/core/auth.py:185-231 | one validation call gives the verdict and keys of the protocol's steps |
| AuthStore.SessionStore.CreateSession | backend/app/core/auth.py:158-177 | the stored record has the user, the version read before the write, the whole second of the login and the absolute TTL after it; the key lasts the shorter TTL; a revocation in between makes it refused from the start |
| AuthStore.SessionStore.ValidateSessionToken | backend/app/core/auth.py:185-231 | the verdict for every case, what it deletes and what it renews |
| AuthStore.SessionStore.AuthenticateSession | backend/app/core/auth.py:234-256 | accepted only for an active user, a matching version and an unexpired record; only then is the key renewed, and a refusal changes no key it does not delete |
| AuthStore.SessionStore.RevokeUserSessions | backend/app/core/auth.py:285-289 | from then on every session of the user with a version read before is refused, whenever it is stored, and nobody else's is judged differently |
| LoginLimiter.HandleKeepsWindows | backend/app/core/auth.py:300-345 | one failed or refused request keeps the counter equal to the window's failures, at most 5 |
| LoginLimiter.ElevenTakeAWindow | backend/app/core/auth.py:26-37 | eleven failed checks in a row span at least one whole window |
| LoginLimiter.LimiterBound | backend/app/core/auth.py:300-338 | without a success each window holds at most 5 failed checks and any 300 s at most 10 |
| LoginLimiter.SuccessStartsOver | backend/app/core/auth.py:300-345 | a success forgets the failures: of the wrong passwords that follow in one window exactly the first five are looked at |
| LoginLimiter.RetryAfterIsTheRest | backend/app/core/auth.py:300-316 | Retry-After is the rest of the window to the nearest second, or a whole window when that is zero |
| LoginLimiter.WindowLengthenedIff | backend/app/core/auth.py:29-37 | a failure or refusal lengthens a window exactly if under 500 ms of it are left |
| LoginLimiter.RefusalCanDoubleTheWindow | backend/app/core/auth.py:304-310 | one refused request at the end of a window locks out for another |
| LoginLimiter.Limiter.EnsureLoginAllowed | backend/app/core/auth.py:300-316 | refused exactly at 5 live failures, with a Retry-After of at least 1; no other login id is touched |
| LoginLimiter.Limiter.RecordLoginFailure | backend/app/core/auth.py:319-338 | the script's count and expiry, and the answer at the limit |
| LoginLimiter.Limiter.Login | backend/app/controllers/auth_controller.py:113-139 | the password is looked at exactly if not refused; the key after a failure, a refusal or a success |
| MediaRange.RangeIsWithinTheFile | backend/app/controllers/media_controller.py:27-61 | every header gives 0 <= start <= end < size for a file of at least one byte |
| MediaRange.SatisfiableRangeIsServed | backend/app/controllers/media_controller.py:43-58 | a satisfiable single range is the one that is parsed, cut at the end of the file |
| MediaRange.NoReadableRangeIsWhole | backend/app/controllers/media_controller.py:27-42 | without a header, or with one that names no range, the range is the whole file |
| MediaRange.UnreadableBoundIsWhole | backend/app/controllers/media_controller.py:43-61 | so it is if a bound is not a number |
| MediaRange.EmptyRangeIsWhole | backend/app/controllers/media_controller.py:43-58 | so it is if the start lies behind the end or the file |
| MediaRange.StreamChunks | backend/app/services/media_cache_service.py:154-173 | the chunks joined are the requested stretch of the file |
| MediaRange.ServedRangeIsExactIff | backend/app/controllers/media_controller.py:107-108 | for every header the bytes sent are start..end and as many as declared, exactly unless end is 0 in a longer file |
| MediaCache.FlattenCollidesIff | backend/app/services/media_cache_service.py:39-43 | two keys share a cache file exactly if they differ only in separators |
| MediaCache.UploadsAreKeptApart | backend/app/services/file_service.py:435-441 | keys built for different uploads never share a cache file |
| MediaCache.ByAgeIsOldestFirst | backend/app/services/media_cache_service.py:208-209 | the victims are ordered by age |
| MediaCache.EvictionStopsAtTheMark | backend/app/services/media_cache_service.py:211-215 | the eviction loop stops at the first point where 80% of the limit is left |
| MediaCache.CleanupEvictsOldestToTheMark | backend/app/services/media_cache_service.py:186-219 | a cleanup over the limit removes the oldest files, exactly as many as it takes; one under it removes none |
| MediaCache.StepKeepsFaithful | backend/app/services/media_cache_service.py:49-132 | every request, expiry, eviction, upload and removal keeps each cached file its own object's |
| MediaCache.CacheAgreesWithTheStore | backend/app/services/media_cache_service.py:49-132 | after any run a cached file holds the bytes of the object it is cached for |
| MediaService.Service.GetFileInfo | backend/app/services/media_cache_service.py:49-81 | size and origin from a fresh file or the store; only a stale file is deleted |
| MediaService.Service.GetOrDownload | backend/app/services/media_cache_service.py:83-132 | a path is returned exactly for a fresh file or a successful download, and is then fresh |
| MediaService.Service.StreamFile | backend/app/services/media_cache_service.py:134-173 | the body is the requested stretch of the cached file, or nothing if there is none |
| MediaService.Service.StreamMedia | backend/app/controllers/media_controller.py:64-130 | end to end: 404, or the announced range of the object itself from a fresh file or a download, or nothing at all if neither is there; the cache still agrees |
| MediaService.Service.CleanupIfNeeded | backend/app/services/media_cache_service.py:186-219 | exactly the victims that can be deleted are gone |
| MediaService.Service.CleanupExpired | backend/app/services/media_cache_service.py:221-246 | exactly the deletable expired files are gone, and the result counts the expired ones |
| MediaService.ExpiryCountsRemovals | backend/app/services/media_cache_service.py:231-238 | the count is that of distinct expired files, so of those removed when all can be deleted |
| SearchLoop.PassesAreOrderly | backend/app/agents/graph.py:866-960 | the k-th search runs under count start + k below the limit, in time, after a rewrite; the fallback exactly in SEARCH under the last count that asks for a retry |
| SearchLoop.PassSearchesIff | backend/app/agents/graph.py:866-893 | a pass searches exactly if its count is below the limit and it is not in the last 30 s before a set deadline |
| SearchLoop.PassFollowsItsNodes | backend/app/agents/graph.py:894-960 | how a pass ends, and the count and deadline it leaves, in terms of what each node answers |
| SearchLoop.SearchesAreBounded | backend/app/agents/graph.py:866-960 | whatever the nodes write: at most max_retries searches from 0, none in the last 30 s, at most one fallback, after the last allowed search |
| SearchLoop.SearchesUntilSatisfied | backend/app/agents/graph.py:929-960 | with a deciding evaluator and in time before any deadline there is one search per pass up to the first satisfied one, and the fallback exactly if none was |
| SearchLoop.Agent.SearchOnce | backend/app/agents/graph.py:894-960 | what one pass does to the shared state and how it ends |
| SearchLoop.Agent.Search | backend/app/agents/graph.py:1036-1121 | the loop terminates for any nodes and makes the passes the lemmas speak of |

## Left out

- HTTP, SSE framing, the database and store clients, the broker and telemetry: their effect is modelled, not the calls.
- Gateway calls, prompts and the parsing of their responses: every outcome is possible.
- `update_message_status` and `update_message_partial_content`: unguarded writes; with them a terminal row could change.
- A worker's `content` events between partial saves (backend/app/tasks/agent_task.py:377-385): the agent stream does not produce them.
- Relay.TextIsChunksInOrder: is about one worker run; what a restarted one adds is `RestartedWorkerIsSpliced`.
- TurnEndpoints.TurnService.Regenerate: the last messages of the thread are given to it as the query returns them.
- TurnEndpoints.TurnService.FlushRows: a rival that never ends keeps the insert waiting without an answer.
- The automatic summary path sets SUMMARIZING without a compare-and-set (backend/app/services/stream_consumer.py:382-385); in the lock protocol it is one of the other writers.
- The legacy path of `retry_processing` without a file, which resets the status unconditionally.
- Block updates of `updated_at`, and keys as strings: a block key is kept as a value.
- Session records that do not decode, and store errors: a command that fails ends its process where it stands.
- LoginLimiter.LimiterBound: requests of one login id are handled one at a time, as concurrent ones can all pass the check first.
- Temporary file names of downloads, the `.meta` companions and files evicted while being opened.
- Suffix ranges: `bytes=-n` is read as 0..n, so no conformance with section 14.1.2 of RFC 9110 is claimed.
- Floating point: the search clock is modelled over real numbers, and 80% of the cache limit as 5 * total <= 4 * limit.
- Worker ASR and OCR tasks, compiled agent graphs, quality scripts, the dashboard, other migrations and the frontend's other parts.
