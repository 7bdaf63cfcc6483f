# Verified model of the A2A turn machine, the session store and conversation routing

This project models the transactional core of the agent server in Dafny and proves what its protocols keep over whole
runs. Nothing was executed; every statement below is checked by the Dafny verifier with
`dafny verify dfyconfig.toml`.

Four parts, hardest first.

**The AG-UI turn machine** (`Turn*.dfy`). One durable machine over thread generations, admissions, fences, event
journals, frontend-call ledgers, managed batches, claims and a keyring.

- `TurnTypes` holds one map per table, keyed by its primary key; `ON DELETE CASCADE` is part of the delete step
  (`TurnThreads.DropContext`). A context id is its (publication, key, thread, generation). Handles and secrets come from
  a counter consumed in order, so they are fresh. HMAC (section 2 of RFC 2104) is an injective constructor, and a
  presented token may be any value, forged ones included.
- `TurnTokens`, `TurnJournal`, `TurnThreads`, `TurnBatches` and `TurnAdmissions` give one transaction function per
  public method: the tables it commits and what it answers, every refusal included.
- `TurnInvariants` states what holds in every reachable state and `TurnEvolution` how tables may move between two
  states. `TurnStepTables`, `TurnSteps`, `TurnThreadSteps` and `TurnFreezeSteps` prove both for every transaction;
  `TurnMachine` lifts them to arbitrary sequences of transactions.
- `TurnSafety`, `TurnEffects`, `TurnCredentials`, `TurnHistory`, `TurnManaged`, `TurnCleanup` and `TurnTail` are the
  theorems over whole runs; `TurnEscape` is a concrete run of a success that escapes its batch. `TurnFrames`,
  `TurnThreadFrames` and `TurnBirths` say which tables a transaction leaves alone and which creates a batch.
- `TurnBatchLaws`, `TurnExitLaws`, `TurnEntryLaws` and `TurnTableLaws` say of every transaction, for all arguments, what
  it answers and which rows it writes: from the presented credential, the row fields and the clock, without the
  functions the transactions are built from. `TurnCatalogue` carries the law of a begin over whole runs.
- `TurnStore.Store` is the store itself: one field per table, one method per transaction. Rows are selected, branched on
  and updated one by one where the source does so; an SQL statement over a set of rows, a cascade included, is one
  assignment to its table. Each method is proved to commit exactly its transaction function, and to keep the invariants.

**The standard-API session store** (`Api*.dfy`), built the same way: `ApiTypes`, `ApiSessions` (the transactions),
`ApiInvariants` and `ApiSteps`, `ApiRuns` (sequences of transactions), the theorems in `ApiHeads`, `ApiTools`,
`ApiRetries`, `ApiRepeats` (a finalize repeated later) and `ApiLapse` (which steps give results back, and a run that loses
them), and the class `ApiStore.Store`. `ApiSessionLaws`, `ApiRunLaws` and `ApiHeadLaws` say what every transaction answers
and writes in terms of its arguments and the rows alone.

**Conversation routing and views** (`Conversation*.dfy`, `Seq*.dfy`). `ConversationViews` has the prefixing and
the views; `ConversationRows` expands a message into rows and routes them; `ConversationOrder` says how line numbers run
along the files; `ConversationBursts` is the one-pass bookkeeping of a burst and its refinement proof;
`ConversationStore.Conversation` writes files and caches in place; `ConversationDuplicates` says when a batch is stored;
`ConversationRebuild` is the view rebuilt from the transcript; `SeqCounter` interleaves the locked sections and disk reads
of the line counter, over any number of process restarts, and `SeqAnswers` says what its callers get. Whom a message
reaches is told from the message's own fields in `ConversationRowLaws` (its rows and copies), `ConversationReach` (one
append), `ConversationDelegates` (delegate traffic) and `ConversationBurstReach` (bursts and whole runs), and which rows a
rebuilt view holds in `ConversationRebuildLaws`.

**Two algorithms**: `JsonlReader` (the chunked reverse reader and the early-stopping range scan) and `SubPersister` (the
coalescing persister and its incremental snapshots).

Time, callback results, request bodies, and the choice among rows a query may return in any order are arguments; a run
of a machine is an arbitrary sequence of operations with arbitrary arguments. A row choice the database could not make
commits nothing.

Where code and documentation part ways, the model follows the code:

- The rotation's documentation says that a shared conversation is never touched (core/_a2a_turn_machine.py:23). A
  publication's context policy can be changed between the creation of a context and its rotation, and rotating as
  isolated a context that was created as shared schedules the publication's own conversation for deletion.
  `SharedCanBeScheduled` gives the inputs, `ParentScheduledIff` says exactly when it happens, and `SharedNeverScheduled`
  shows that with fixed policies it never does.
- A managed success is promised to carry a batch. A success journaled directly before a call is recorded escapes the
  freeze: `SuccessEscapes` is such a run, `FinishUncoversIff` says exactly which finishes leave a success uncovered, and
  `ManagedSuccessHasBatch` says, for every run, that a success with pending calls has a batch if and only if a managed
  finish journaled it.
- The classic consumption of calls does not ask whether the run has a batch. On a run with one it breaks the ledger's
  law that a batch's calls stay with it, exactly when it consumes anything (`ConsumeKeepsIff`).
- A run that leaves without a head is meant to give its settled tool results back. An acquire that finds the lease
  lapsed does not: `ResultsAreLost` is such a run, `GivenBackIff` says which steps give back and which do not, and
  `LapsedAcquireKeepsSettled` that the results stay lost, beside `SettleUndone` for failures and the sweep.
- A burst promises what one-at-a-time appending leaves. It seeds a missing agent context before its own shared rows are
  written, so a shared message followed by one for a new agent loses the shared row for that agent (`SeedIsLost`).
  `BurstIsAppendAll` gives the exact condition, and shows that nothing but such contexts ever differs;
  `MissingContextLosesSeed` gives the exact number of rows lost or gained.
- Line numbers are documented to be the index on disk. A new context is seeded in the order of creation times, with the
  numbers its rows have in the shared file, so its numbers can fall: `SeedFalls` is such a conversation,
  `AppendOneOrdered` and `ContextRisesIff` the exact condition.
- The counter is documented to stay monotonic across restarts (core/_llm_seq.py:13-17). It is refilled from the
  transcript's last line and from metadata fed by transcript lines, while context and shared lines draw from the same
  counter after the transcript's, so a restarted process gives out their numbers again: `NumbersRepeat` is such a run of
  the counter, `RestartRepeats` the conversation it leaves, and `RestartClimbsIff` the exact condition.
- The rebuilt view is documented to mirror live routing (core/_conversation_store_agentctx.py:371-376). Live routing takes
  an unrecorded sender of delegate traffic to be the writer, without recording it; the rebuild cannot know the writer.
  `UnsignedReplyIsLost` is such a row, and `RebuiltDelegateIsLive` the exact condition.

## Model

| member | source | states |
|---|---|---|
| TurnMachine.StepKeeps | core/_a2a_turn_machine.py:133-149 | Every transaction, successful or refused, keeps all fifteen table invariants and moves the tables only forward |
| TurnMachine.Reachable | core/_a2a_turn_machine.py:133-149 | Every state of every run satisfies the invariants |
| TurnMachine.Forward | core/_a2a_turn_machine.py:133-149 | Between any two states of a run, however far apart, tables only moved forward: no fence, generation, terminal outcome or decided call ever goes back |
| TurnSafety.FenceExact | core/_a2a_turn_acquire.py:509-515 | In every later state the fence check accepts the token given to a run if and only if that run's admission is still active, across acquire, finish, orphan sweep, cancel and rotation |
| TurnSafety.FencesIncrease | core/_a2a_turn_acquire.py:312-321 | A later admission of a context always has a strictly larger token than an earlier one |
| TurnSafety.FenceNeverReturns | core/_a2a_turn_attach.py:195-200 | A token that stopped being current is never accepted again, whichever of the three exits retired it and whatever rotations follow |
| TurnSafety.OneWriterAlways | core/_a2a_turn_acquire.py:224-311 | Per thread: at most one context (the current generation's), at most one active admission, at most one unconsumed batch, and never an active admission beside an unconsumed batch |
| TurnSafety.AcquireReplays | core/_a2a_turn_acquire.py:224-262 | Replaying an acquire at any later point changes no table; with the same body it answers the same admission as it stands now, with another body it is refused, and after a rotation both are refused |
| TurnSafety.ExitsAgree | core/_a2a_turn_acquire.py:517-655 | An admission that left the active states has a terminal journal with the same outcome for good, and calls still emitted or a batch only if that outcome is success |
| TurnSafety.OneLeaseOwner | core/_a2a_turn_acquire.py:434-494 | Over a run's whole life at most one worker ever holds its lease |
| TurnSafety.OneAdopter | core/_agui_managed_runtime.py:213-232 | Of all pilots that ever adopt a run, one wins: a second success is the same worker's and changes nothing |
| TurnSafety.BatchLawAlways | core/_a2a_turn_batch.py:767-787 | A batch is open if and only if some emitted call of it is unbegun or executing; it is consumed if and only if an admission names its run as parent, and at most one ever does |
| TurnSafety.ClosedForGood | core/_a2a_turn_batch.py:778-839 | A closed batch never reopens and a consumed batch never changes again |
| TurnSafety.OutcomesFinal | core/_a2a_turn_batch.py:704-765 | A decided call keeps its outcome and payload, a begun one is never unbegun, and one that left the emitted state keeps its state |
| TurnEffects.EffectsAreBegun | core/_a2a_turn_batch.py:614-702 | Every call found executing, or with an outcome only an execution can have, was let through by an earlier successful begin under a receipt of its batch |
| TurnCatalogue.EffectsAreRecorded | core/_a2a_turn_batch.py:614-702 | Every call found executing or with an effect was let through once, under a valid receipt of its batch and exactly the catalogue identity it is recorded with; a call recorded without one needs none |
| TurnCredentials.GenerationFrozen | core/_a2a_turn_batch.py:442-537 | Once a call of a batch is begun or carries an effect, the batch's claim generation never changes again |
| TurnCredentials.OneClaimGeneration | core/_a2a_turn_batch.py:614-702 | Over a whole run, all successful begins of one batch's calls present receipts of a single claim generation |
| TurnCredentials.ClaimRepeats | core/_a2a_turn_batch.py:461-537 | Repeating a claim id on a batch either fails or answers the identical generation, owner token and receipts, and changes no table |
| TurnCredentials.ClaimAnswersIff | core/_a2a_turn_batch.py:461-537 | At any later point, repeating a claim id succeeds if and only if that claim is still live on the batch, its lease has not lapsed before an effect and the absolute deadline has not passed |
| TurnCredentials.ExpiredForGood | core/_a2a_turn_batch.py:443-459 | A claim id whose lease was seen to expire never obtains credentials again |
| TurnCredentials.PassedCredentials | core/_a2a_turn_batch.py:539-765 | Once a later claim generation exists, no receipt or owner token of the earlier claim begins, deposits or renews anything, for any arguments, and presenting one changes no table |
| TurnCredentials.FrozenPasses | core/_a2a_turn_batch.py:443-459 | While a batch is frozen every claim ever handed out for it belongs to a passed generation |
| TurnTokens.VerifyGenerationBound | core/_a2a_turn_batch.py:295-317 | The downward search answers valid, stale or invalid exactly when the token equals the derivation at the current, some earlier, or no generation |
| TurnHistory.JournalIsWindow | core/_a2a_turn_journal.py:300-446 | In every reachable state a run's surviving rows are exactly the slice (watermark, committed] of everything ever journaled for it, and its counters are that history's length and bytes |
| TurnHistory.TerminalIsLast | core/_a2a_turn_acquire.py:517-555 | The transaction that ends a journal writes exactly one event, nothing is journaled afterwards, and the outcome stays |
| TurnHistory.QuotaHolds | core/_a2a_turn_journal.py:300-364 | Under a fixed quota, all events but the terminal one fit the event and byte limits in every reachable state |
| TurnManaged.ManagedSuccessHasBatch | core/_a2a_turn_acquire.py:557-655 | In every run, a success with pending calls has a batch if and only if some managed finish journaled that success; then its journaled RUN_FINISHED carries the batch's token, and claiming with that token reaches the batch |
| TurnManaged.FinishUncoversIff | core/_a2a_turn_acquire.py:595-655 | A successful managed finish leaves a success with pending calls outside a batch if and only if the journal had already ended in success with a call emitted |
| TurnManaged.CoveredAlways | core/_a2a_turn_acquire.py:557-655 | When successes go through the finish and the publication stays managed, every successful run has left and its pending calls are in a batch, in every state |
| TurnEscape.SuccessEscapes | core/_a2a_turn_acquire.py:595-655 | A concrete run of eight transactions: a success journaled directly, a call recorded after it, and a finish that leaves them without a batch |
| TurnBirths.NoOtherBirth | core/_a2a_turn_batch.py:319-347 | No transaction but a finish creates a batch |
| TurnCleanup.DroppedIsAccountedFor | core/_a2a_turn_machine.py:289-400 | At every point of every interleaving and crash, a conversation dropped by an isolated rotation is the thread's pending marker or its deletion callback has returned |
| TurnCleanup.HandsOutClean | core/_a2a_turn_machine.py:202-285 | Resolve hands out a context only for the current generation, with no cleanup pending and every conversation the thread ever dropped deleted |
| TurnCleanup.ParentScheduledIff | core/_a2a_turn_machine.py:340-380 | A rotation schedules the publication's own conversation for deletion if and only if it runs as isolated on a context created as shared |
| TurnCleanup.SharedCanBeScheduled | core/_a2a_turn_machine.py:340-380 | A concrete policy change after which the publication's own conversation is scheduled |
| TurnCleanup.SharedNeverScheduled | core/_a2a_turn_machine.py:289-400 | With fixed policies no interleaving ever schedules a publication's own conversation |
| TurnTail.TailJournal | core/_agui_managed_runtime.py:577-628 | Under interleaved appends, prunes and takeovers, a tail emits a contiguous stretch of the run's history starting right after its cursor, malformed payloads skipped, every row while its subscriber is the current one, and the whole rest of it if it ends because the run is terminal; it stops as taken over, expired or failed only in a state that says so |
| TurnTail.EmitPage | core/_agui_managed_runtime.py:596-620 | One page advances the cursor row by row and never claims the run drained |
| TurnTail.RunsAreWindowed | core/_a2a_turn_journal.py:366-412 | Every run of the machine can be tailed: all its states are windows on the history |
| TurnStore.Store.EnsureThread | core/_a2a_turn_machine.py:171-200 | Creates the thread row at generation zero once, and answers the current generation otherwise |
| TurnStore.Store.ClearPending | core/_a2a_turn_machine.py:241-247 | Clears the cleanup marker by compare-and-set on the marker, and on the generation when a rotation does it |
| TurnStore.Store.ResolveFinish | core/_a2a_turn_machine.py:247-285 | Creates or answers the context of the current generation; a stale or closed generation is refused |
| TurnStore.Store.RotateThread | core/_a2a_turn_machine.py:310-380 | A rotation moves exactly one generation on, drops the old context with all dependent rows and leaves the marker; it is refused on a stale generation, a pending cleanup, an active turn or an open batch |
| TurnTableLaws.RotateLaw | core/_a2a_turn_machine.py:310-380 | Which rotations are refused and why; one that goes through drops every row of the old context and no other, moves the generation on, and leaves a marker exactly if it runs isolated and a context was there |
| TurnStore.Store.OpenRun | core/_a2a_turn_journal.py:163-192 | Opens a journal of a live context once, and leaves an existing one alone |
| TurnStore.Store.AcquireSubscriber | core/_a2a_turn_journal.py:202-234 | A takeover raises the subscriber epoch by one; a cursor beyond the committed events is refused |
| TurnStore.Store.Append | core/_a2a_turn_journal.py:300-364 | Appends one event and the counters, refuses ended journals and unfrozen managed successes, and over quota journals the quota's own terminal event instead |
| TurnTableLaws.AppendLaw | core/_a2a_turn_journal.py:300-364 | An event is written behind the last one with the counters moved on by it, or the run is ended by a quota row, exactly when either limit would be passed |
| TurnStore.Store.ReadEvents | core/_a2a_turn_journal.py:366-412 | A page holds the run's next rows in sequence order with no gap, at most the limit; a shorter page leaves no row of the run behind it; a wrong epoch, a cursor beyond the journal and one below the watermark are refused |
| TurnTableLaws.PageLaw | core/_a2a_turn_journal.py:366-412 | A page is the rows right after the cursor up to the limit, refused for an unknown run, a passed subscriber or a cursor outside the window |
| TurnStore.Store.Prune | core/_a2a_turn_journal.py:414-446 | The loop over ended runs past retention leaves exactly the pruned journals and watermarks, and counts the runs pruned |
| TurnStore.Store.AcquireTurn | core/_a2a_turn_acquire.py:202-356 | Replay, conflict, tombstone, busy, parent and generation checks in order, then one new admission with the next fence, an open journal and a run handle |
| TurnEntryLaws.AcquireLaw | core/_a2a_turn_acquire.py:202-356 | Which arguments are replayed, refused or admitted, by run id, body, tombstone, generation, turn under way and parent, and the one admission, fence step, journal and handle that an admission writes |
| TurnStore.Store.ClaimDispatch | core/_a2a_turn_acquire.py:368-400 | Claims an oldest dispatchable admission, or says that there is none |
| TurnEntryLaws.DispatchLaw | core/_a2a_turn_acquire.py:368-400 | A dispatch goes to a row that waits or whose claim lapsed, none waiting longer, for the asked time, and none is claimed only if none waits |
| TurnStore.Store.OldestDispatchable | core/_a2a_turn_acquire.py:378-392 | The scan finds a reserved or lapsed admission no newer than any other, and finds none only if there is none |
| TurnStore.Store.AckDispatch | core/_a2a_turn_acquire.py:402-428 | Accepts for the claim's owner only, drops the payload, and repeats harmlessly once accepted |
| TurnStore.Store.AdoptRun | core/_a2a_turn_acquire.py:434-468 | Gives the lease of an active run to the first worker and only it, answering the run's own fence |
| TurnStore.Store.StartTurn | core/_a2a_turn_acquire.py:474-494 | Starts accepted turns only |
| TurnStore.Store.Heartbeat | core/_a2a_turn_acquire.py:497-507 | Refreshes the lease of its holder and of nobody else |
| TurnStore.Store.FinishTurn | core/_a2a_turn_acquire.py:557-655 | In one transaction freeze the batch if due, end the journal, adopt its outcome, release the lease, raise the fence and abandon calls unless it succeeded |
| TurnExitLaws.FinishLaw | core/_a2a_turn_acquire.py:557-655 | The row at the old committed count plus one is the event the worker provided, or a bare one that is Finished exactly for a success and otherwise carries the outcome; with a batch due only its token and length differ. Journal and admission get the requested outcome, the lease is released, the fence moves on, and unless it succeeded the emitted calls are abandoned |
| TurnStore.Store.OrphanExpired | core/_a2a_turn_acquire.py:657-721 | The sweep takes every stale run exactly once, adopts the outcome of an ended journal or journals run_lost, and leaves no stale run |
| TurnExitLaws.OrphanLaw | core/_a2a_turn_acquire.py:657-721 | A stale run leaves as orphaned with one RunLost row on a live journal; if its journal had ended it leaves as terminal with that outcome and no row |
| TurnExitLaws.StaleLaw | core/_a2a_turn_acquire.py:657-690 | The sweep takes exactly the running turns whose last heartbeat is at least the timeout, and at least a second, old |
| TurnStore.Store.CancelRun | core/_a2a_turn_attach.py:157-206 | A valid cancel credential ends an active run like a finish, an ended journal's outcome winning; a run that already left is answered unchanged |
| TurnExitLaws.CancelLaw | core/_a2a_turn_attach.py:157-206 | A cancel credential of the run ends an active one with one Cancelled row on a live journal, or with the outcome the journal already has; on a run that left it commits nothing |
| TurnStore.Store.RecordCall | core/_a2a_turn_acquire.py:723-766 | Records a call of a running turn once; managed publications need the catalogue identity |
| TurnEntryLaws.RecordLaw | core/_a2a_turn_acquire.py:723-766 | A running turn records a new call once as emitted, with its catalogue identity if managed, where both halves are needed |
| TurnStore.Store.ConsumeCalls | core/_a2a_turn_acquire.py:776-801 | Consumes the pending calls when exactly those are provided, and nothing otherwise; the invariants survive if and only if the run has no batch, nothing was provided or the call was refused |
| TurnSteps.ConsumeKeepsIff | core/_a2a_turn_acquire.py:776-801 | The classic consumption keeps the invariants if and only if the run has no batch, it consumes nothing or it is refused |
| TurnStore.Store.Freeze | core/_a2a_turn_batch.py:319-347 | Freezes a batch under the current key, gives every emitted call its handle and answers the batch's claimable token |
| TurnStore.Store.ClaimBatch | core/_a2a_turn_batch.py:461-537 | Verifies the batch token, expires a lapsed claim first, then claims, repeats or refuses |
| TurnBatchLaws.ClaimLaw | core/_a2a_turn_batch.py:461-537 | A claim needs the batch's own token and the caller's scope; it leases for the asked time, at least a second, raises the generation by one, or by two over a lapsed claim, and answers one receipt for each emitted call |
| TurnStore.Store.RenewBatch | core/_a2a_turn_batch.py:539-588 | Extends a live claim, never beyond the absolute deadline, and expires a lapsed one |
| TurnBatchLaws.RenewLaw | core/_a2a_turn_batch.py:539-588 | A renewal needs the owner token of the current generation and extends the lease by the asked time, at least a second, never past the absolute deadline; a committed batch needs none, a lapsed claim is revoked |
| TurnStore.Store.CallByReceipt | core/_a2a_turn_batch.py:590-612 | Finds the one call a receipt names and judges the receipt at the batch's current generation |
| TurnStore.Store.BeginCall | core/_a2a_turn_batch.py:614-702 | Deadline, lease, replay and catalogue checks in order, then the call executes and the batch is committed |
| TurnBatchLaws.ReceiptLaw | core/_a2a_turn_batch.py:590-612 | A receipt opens exactly the call it was made for, under the batch's key, handle and current claim generation and for a caller of that key and publication; one of an earlier generation is expired, anything else invalid |
| TurnBatchLaws.BeginLaw | core/_a2a_turn_batch.py:614-702 | A begin lets a call through if and only if it is claimed in time, undecided, and records no catalogue id or both presented halves equal the recorded ones; missing halves end it as unverifiable, different ones as changed, a lapsed claim is revoked, and nothing else is written |
| TurnStore.Store.DepositCall | core/_a2a_turn_batch.py:704-765 | Records an outcome once: effects for executing calls, refusals for unbegun ones, the recorded outcome on a repeat |
| TurnBatchLaws.DepositLaw | core/_a2a_turn_batch.py:704-765 | What a deposit answers and writes for every outcome kind and every state of call and batch, the same outcome again, another one, a closed batch and a lapsed lease included |
| TurnStore.Store.CompleteIfDone | core/_a2a_turn_batch.py:767-787 | Closes the batch with its last undecided call |
| TurnStore.Store.ExpireBatches | core/_a2a_turn_batch.py:807-828 | The deadline sweep terminates with no overdue open batch left, counts exactly the overdue ones and changes no other batch |
| TurnBatchLaws.ExpiryLaw | core/_a2a_turn_batch.py:807-828 | An overdue batch is closed: each undecided emitted call that was never begun is abandoned for the deadline, each executing one has an unknown outcome, every other row stays |
| TurnStore.Store.ConsumeBatch | core/_a2a_turn_batch.py:829-839 | A complete batch is consumed together with its emitted calls |
| TurnStore.Store.BindParent | core/_a2a_turn_acquire.py:272-311 | A follow-up must name the run of the unconsumed batch, which must be complete, or of the pending calls; otherwise no parent may be named |
| TurnEntryLaws.BindsIs | core/_a2a_turn_acquire.py:272-311 | While a batch waits, the parent must be its run, and a complete batch is then consumed; otherwise it must be a run with unanswered calls if there is one, and nobody if there is none |
| TurnStore.Store.MintRunHandle | core/_a2a_turn_attach.py:87-104 | Mints a run handle once, under the current key |
| TurnStore.Store.PruneKeys | core/_a2a_turn_batch.py:235-251 | Drops exactly the keys neither current nor referenced by a batch or run handle, and counts them |
| TurnTableLaws.PruneKeysLaw | core/_a2a_turn_batch.py:235-251 | A key stays exactly if it is the newest or some batch or run handle was made under it |
| TurnStore.HighestKey | core/_a2a_turn_batch.py:210-233 | The loop finds the highest key version |
| ApiRuns.StepKeeps | core/_a2a_standard_api.py:977-1234 | Every session-store transaction keeps all invariants and moves sessions, runs and batches only forward |
| ApiRuns.LeaseLawAlways | core/_a2a_standard_api.py:997-1234 | A session is running if and only if it has an active run, if and only if it holds a lease; that run is the only one, carries the session's lease and builds on its current head and count; no other running session shares the lease |
| ApiRuns.ReservationsNameRuns | core/_a2a_standard_api.py:1075-1190 | Every admission row names an active run of a running session under exactly that run's key and replay deadline |
| ApiRuns.RetiredForGood | core/_a2a_standard_api.py:1026-1040 | A quarantined or expired session stays retired in every later state, and acquiring it changes nothing and never answers a run |
| ApiHeads.HeadsAreLinear | core/_a2a_standard_api.py:1236-1501 | The completed runs of a session form one unforked chain from the head it was created with to its current head, each once, with non-decreasing item counts |
| ApiHeads.HeadMovedByOwner | core/_a2a_standard_api.py:1349-1501 | Only a finalize under the session's own lease moves its head, from the head its run built on, to the published head and count |
| ApiTools.ToolLawAlways | core/_a2a_standard_api.py:1370-1442 | A session has at most one pending batch; a waiting session has exactly one, at its current head and count; a batch and all its calls share one state |
| ApiTools.SettleUndone | core/_a2a_standard_api.py:1522-1707 | However many transactions lie between, a settle whose run then fails or lapses into the sweep leaves the batch and all its calls exactly as before the settle |
| ApiTools.SettledForGood | core/_a2a_standard_api.py:1522-1639 | A batch settled by a run that is over is never changed again |
| ApiTools.LapsedAcquireKeepsSettled | core/_a2a_standard_api.py:1005-1023 | An acquire that finds the lease lapsed leaves what the lost run had settled, for good |
| ApiLapse.GivenBackIff | core/_a2a_standard_api.py:1641-1824 | When a run ends, the batch it had settled is given back if and only if the run failed or was swept; otherwise it finalized or its session's lease was found lapsed by an acquire, and batch and calls stay as they are |
| ApiLapse.ResultsAreLost | core/_a2a_standard_api.py:1005-1023 | A concrete run of seven transactions after which a batch is still settled in the name of an abandoned run |
| ApiRepeats.FinalizeRepeated | core/_a2a_standard_api.py:1263-1348 | However many transactions lie between, repeating a successful finalize under any lease commits nothing, and is recognised if and only if the session still stands at the head and count it published, refused otherwise |
| ApiRepeats.ResponseStays | core/_a2a_standard_api.py:357-383 | A stored response is there, with all the columns modelled, for as long as its session is; the deletion mark that the source can set on it is not one of them |
| ApiRetries.GuardedAlways | core/_a2a_standard_api.py:919-975 | With a clock that never runs backwards, every active run inside its replay window holds the reservation of its key |
| ApiRetries.RetriesAreNotStartedTwice | core/_a2a_standard_api.py:1075-1190 | With such a clock, no run is started while another run with the same namespace, parent head, item count and fingerprint is active inside its replay window, in whichever session |
| ApiStore.Store.CreateSession | core/_a2a_standard_api.py:638-703 | Creates an idle session within the key's quota, one per conversation |
| ApiSessionLaws.CreateLaw | core/_a2a_standard_api.py:638-703 | A session is created exactly for a served namespace, below the key's quota of sessions that still count, on an unused conversation |
| ApiStore.Store.DiscardEmpty | core/_a2a_standard_api.py:713-724 | Deletes an idle session without runs, and says whether it did |
| ApiStore.Store.QuarantineUnstarted | core/_a2a_standard_api.py:726-741 | Quarantines an idle session without runs, and says whether it did |
| ApiStore.Store.Acquire | core/_a2a_standard_api.py:977-1072 | Lapsed lease, attach, busy, retired, expired and stale answers in order before the head is taken |
| ApiRunLaws.AcquireLaw | core/_a2a_standard_api.py:977-1234 | Which arguments are attached, answered busy, unavailable, expired or stale, refused, or start a run, by the session's row, the runs under way and the reservations; on a running session busy is answered exactly if no active run of it has the caller's fingerprint, head and count inside its window |
| ApiRunLaws.AttachedIsSame | core/_a2a_standard_api.py:1024-1190 | Whoever is attached, to the session or across sessions, gets an active run with the caller's fingerprint, parent head, item count and namespace, inside its window, and that run's lease |
| ApiStore.Store.AcquireHead | core/_a2a_standard_api.py:1068-1234 | Deduplicates across sessions, checks the run quota, then reserves the key and starts the run under a fresh lease |
| ApiStore.Store.FinalizeRun | core/_a2a_standard_api.py:1236-1501 | Publishes the head, the response record and the tool calls under the run's lease, or refuses in the source's order; on a completed run commits nothing |
| ApiHeadLaws.FinalizeLaw | core/_a2a_standard_api.py:1236-1501 | A publication by the lease's owner moves the head and the count, ends the run and the lease, frees its reservation, stores its response and one pending call for each request at its place, and lets the session live for its time if its generation is current and end at once if not; every refusal and its condition |
| ApiStore.Store.RepeatedFinalize | core/_a2a_standard_api.py:1275-1340 | Recognises a repeat if and only if head, count, tool rows, response id and every stored part of the response record agree |
| ApiStore.Store.InsertRows | core/_a2a_standard_api.py:1424-1437 | The loop writes one pending call per tool request, at its position |
| ApiStore.Store.SettleBatch | core/_a2a_standard_api.py:1522-1639 | Settles the newest batch at the run's parent head with results for exactly its calls, repeats harmlessly, refuses anything else |
| ApiHeadLaws.SettleLaw | core/_a2a_standard_api.py:1522-1639 | Results for exactly the calls of the newest batch at the run's parent head, under unchanged schemas and the run's own lease, settle them; the same ones again are a repeat, everything else is refused |
| ApiStore.Store.NewestBatch | core/_a2a_standard_api.py:1565-1577 | The scan finds a newest batch at the parent head, and none only if there is none |
| ApiStore.Store.FailRun | core/_a2a_standard_api.py:1641-1707 | Ends the run, gives its settled batches back and quarantines the session |
| ApiSessionLaws.FailLaw | core/_a2a_standard_api.py:1641-1707 | The run ends as failed or canceled, exactly the results it settled are pending again, its reservations go, and its session is quarantined and expires no later than now |
| ApiStore.Store.Heartbeat | core/_a2a_standard_api.py:1709-1724 | Extends the deadline of the running session with this lease, and answers whether run and session both matched |
| ApiStore.Store.AbandonExpired | core/_a2a_standard_api.py:1777-1824 | The sweep takes every lapsed session once, gives settled batches back and quarantines it |
| ApiSessionLaws.AbandonLaw | core/_a2a_standard_api.py:1777-1824 | A lapsed session loses its lease, its active runs end, exactly what they settled is pending again, and all its reservations go |
| ApiStore.Store.SweepClaim | core/_a2a_standard_api.py:1837-1851 | Selects at most the limit of expired idle or quarantined sessions, the longest expired first, and claims exactly those, one by one; a limit below one is refused |
| ApiStore.Store.SelectExpired | core/_a2a_standard_api.py:1840-1846 | No session outside the selection expired before one inside it, and one is left out only if the limit is reached |
| ApiStore.Store.SweepDone | core/_a2a_standard_api.py:1852-1873 | After the callback drops a claimed session, or puts it back for a later sweep |
| ApiStore.Store.ResetSessions | core/_a2a_standard_api.py:456-484 | Raises the session generation and refuses publications without one |
| ApiSessionLaws.ResetLaw | core/_a2a_standard_api.py:180-213 | Exactly the pending batches and calls of sessions of other generations are withdrawn, their idle and quarantined sessions expire no later than now, and their waiting ones are retired |
| ApiStore.Store.ExpireGenerations | core/_a2a_standard_api.py:180-213 | The four updates in turn withdraw pending calls and batches of older generations and retire or schedule their sessions |
| ApiStore.Store.FindActive | core/_a2a_standard_api.py:919-975 | Answers a live reservation of the key, after purging the lapsed ones |
| ConversationViews.StripUndoesPrefix | core/_conversation_store_ctxio.py:152-181 | Stripping a prefix gives the content back if and only if it is a string not beginning with the prefix and a newline, or a block list not beginning with the prefix block |
| ConversationViews.ViewsCommute | core/_conversation_store_ctxio.py:200-302 | For every message and agent, personalizing the shared form equals the direct transform if and only if the message commutes: its own turns in the assistant role, and content addressed by or to the agent restorable; one form is refused exactly when the other is |
| ConversationOrder.AppendOneOrdered | core/_conversation_store_paths.py:22-49 | An append numbers its lines above all earlier ones; transcript and shared context keep rising, and an agent context rises afterwards if and only if it did before or, when the append seeds it, the times along the shared context rise |
| ConversationOrder.ContextRisesIff | core/_conversation_store_ctxio.py:121-150 | Over any number of appends, an agent context rises if and only if it did at the start and every seed of it was taken while the times along the shared context rose |
| ConversationOrder.SeedFalls | core/_conversation_store_ctxio.py:361-381 | Three messages, the later one written first, after which the new agent's context begins with lines 4, 2 |
| ConversationRows.InOrderIs | core/_conversation_store_ctxio.py:361-381 | Reading a context file gives the same rows, sorted by time and then line number |
| ConversationOrder.RestartFilesIff | core/_conversation_store_cache.py:196-206 | After a restart the counter is past every line again if and only if no shared or context line is above the transcript's last one and the saved number |
| ConversationOrder.RestartRepeats | core/_conversation_store_cache.py:196-206 | A message, a restart and a message, after which two shared lines carry number 3 |
| ConversationRows.AppendedIdsStay | core/_conversation_store_append.py:233-300 | Every valid appended message's id is found in the transcript after any later appends |
| ConversationRowLaws.RowsLaw | core/_conversation_store_paths.py:87-168 | A message becomes its own row, then its thinking, then its calls, hung on it, the unnamed ones under new ids; a tool result hangs on the call it names, the one known, or the newest written |
| ConversationRowLaws.CopiesLaw | core/_conversation_store_ctxio.py:200-302 | The shared copy is a user row under the agent's name, with its task or aside, or under whom it was for; an agent reads its own turns and what was said to it as they are |
| ConversationReach.ReachLaw | core/_conversation_store_append.py:233-389 | A target-only, display-only or injected message changes neither the shared context nor any inbox, nor any context but the one it is meant for; any other adds exactly its one copy to the shared context, unless it says nothing, and that agent's copy of it to exactly the inboxes of the other known agents |
| ConversationReach.AcceptedLaw | core/_conversation_store_append.py:233-389 | An append raises exactly for an improper message, an unnamed author of something to share, or one that nobody signs and somebody would overhear |
| ConversationReach.RosterLaw | core/_conversation_store_append.py:355-389 | Exactly the agents a message reaches are added to the roster, on a warm or a cold one |
| ConversationReach.ParentsLaw | core/_conversation_store_paths.py:58-85 | After an append a tool call's row is known by the newest line just written for it, by the line it had to be searched for, or as before |
| ConversationDelegates.DelegateLaw | core/_conversation_store_append.py:622-687 | Who keeps, shares and overhears which copy of delegate traffic, under which tag, what raises, and whom the roster gains |
| ConversationBurstReach.BurstLaw | core/_conversation_store_append.py:500-593 | On any roster a message of a burst piles up for exactly the files it would reach alone: private ones share and queue nothing |
| ConversationBurstReach.BurstAcceptedLaw | core/_conversation_store_append.py:500-593 | A message of a burst raises exactly if it would alone, on the roster as the burst has it |
| ConversationBurstReach.SharedLaw | core/_conversation_store_append.py:233-389 | After any appends the shared context is what it was, then one copy of each public message and of each request between agents, in order |
| ConversationBurstReach.BurstSharedLaw | core/_conversation_store_append.py:500-600 | The same of a burst that is written out, whatever the roster |
| ConversationBurstReach.InboxLaw | core/_conversation_store_append.py:233-687 | Whatever an inbox holds after any appends was there before, or is the copy of a public message meant for somebody else or of a request between two others |
| ConversationBursts.BurstIsAppendAll | core/_conversation_store_append.py:448-593 | For a warm roster, a burst leaves the same transcript, shared context, agent contexts, inboxes, parent map, row ids and line numbers as appending its messages one at a time if and only if every routed agent has a context or gets the same seed either way; everything but the contexts agrees in any case |
| ConversationBursts.SameCanonical | core/_conversation_store_paths.py:87-168 | With a batch map in front of the parent cache a message expands into the same rows as with the cache alone |
| ConversationBursts.MissingContextLosesSeed | core/_conversation_store_append.py:534-575 | For an agent without a context, the exact difference in rows: those the burst shared before the agent's first message are missing, and after an injection that came first the old shared rows are seeded only by the burst |
| ConversationBursts.SeedIsLost | core/_conversation_store_append.py:534-575 | A concrete burst of two messages after which the new agent misses the shared row |
| ConversationStore.Conversation.AppendMessage | core/_conversation_store_append.py:233-389 | Writes a valid message to every file it belongs in; an invalid one is refused untouched, and one that cannot be routed fails with the files written up to there |
| ConversationStore.Conversation.AppendMessages | core/_conversation_store_append.py:448-620 | On any roster: one message is one append, a plain burst is written file by file or given up where its first unroutable message stops it, delegate traffic falls back to one append at a time, and a refused burst changes nothing; on a warm roster a willing burst equals one-at-a-time appending if and only if it coalesces |
| ConversationStore.Conversation.AppendIfAbsent | core/_conversation_store_append.py:191-231 | A batch any part of which is already stored is never appended; it is a duplicate exactly when for every message the first row with its id in the newest segment that has one agrees in role, printed content, target and attachments; only unminted or repeated ids are refused beforehand |
| ConversationDuplicates.RowOfLaw | core/_conversation_store_append.py:214-224 | Exactly one row speaks for a stored id: the first with it in the newest segment that has one |
| ConversationDuplicates.StoredLaw | core/_conversation_store_append.py:214-224 | A message counts as stored if and only if that row agrees with it in role, print, target and attachments |
| ConversationDuplicates.IdentifiedLaw | core/_conversation_store_append.py:199-211 | A batch is let through to the lookup if and only if it is not empty, has as many ids as messages, none of them missing, and every time it needs |
| ConversationStore.Conversation.RouteDelegate | core/_conversation_store_append.py:622-687 | The sender keeps every row, a request is shared and queued for bystanders under its shared number, and the answer names the agents touched; it fails where a bystander is to be told of a request nobody sent |
| ConversationStore.Conversation.BurstStep | core/_conversation_store_append.py:500-593 | One message of the pass advances the accumulated rows, the files written at once and the roster exactly as the burst bookkeeping says, on any roster |
| ConversationStore.Conversation.OneByOne | core/_conversation_store_append.py:471-485 | Appends up to the first message that fails, and names it |
| ConversationRebuild.PersonalizeTranscript | core/_conversation_store_agentctx.py:251-369 | The two-pass loop computes the rebuilt view |
| ConversationRebuildLaws.RebuildLaw | core/_conversation_store_agentctx.py:251-417 | The rebuilt view is exactly the transcript rows the agent may see, each once, in order: no aside to another agent, no turn of another agent in a task or an aside, every other user row, and another agent's turn in the user role under its name |
| ConversationRebuildLaws.NothingApart | core/_conversation_store_agentctx.py:305-357 | No row of the view comes from an aside to another agent or another agent's turn in a task or an aside |
| ConversationRebuildLaws.UsersAreSeen | core/_conversation_store_agentctx.py:347-365 | Every other user row is in the view, its text prefixed exactly if it was said to another agent |
| ConversationRebuildLaws.TurnsAreTold | core/_conversation_store_agentctx.py:300-342 | Another agent's turn that says something is in the view as a user row under its name |
| ConversationRebuildLaws.ResultsAreOwn | core/_conversation_store_agentctx.py:268-295 | A tool result is in the view if and only if its call id is that of one of the agent's own tool calls |
| ConversationRebuild.ResultsHaveCalls | core/_conversation_store_agentctx.py:251-369 | Every kept tool result has its own tool_call row, by this agent, in the rebuilt view |
| ConversationRebuild.OthersNeverSpeakAsOwn | core/_conversation_store_agentctx.py:300-369 | No row authored by another agent keeps the assistant, thinking or tool_call role |
| ConversationRebuild.OwnTurnsKept | core/_conversation_store_agentctx.py:251-369 | The agent's own turns and traces, and the thinking and tool calls of its ordinary and delegate-mode turns, are in the rebuilt view unchanged and in the order of the transcript, and no other row of the view passes for one |
| ConversationRebuild.RebuiltDelegateIsLive | core/_conversation_store_agentctx.py:371-417 | A delegate row's rebuilt copy for its routed sender or a bystander equals what live routing gave it if and only if the row records its sender, or one of the named cases makes the sender irrelevant |
| ConversationRebuild.UnsignedReplyIsLost | core/_conversation_store_append.py:631-645 | A concrete reply without a recorded sender that its writer holds, and loses on rebuild |
| ConversationRebuild.DelegatedLeavesCopies | core/_conversation_store_append.py:622-687 | Live routing leaves exactly that copy with the sender, its children behind it, and with each bystander at the end of its inbox under the number it has in the shared context; nobody else's context or inbox changes |
| ConversationRebuildLaws.LiveLaw | core/_conversation_store_append.py:622-687 | That copy is the sender's note of what it keeps, the request under sender and recipient for everybody else, and none for whom it is addressed to |
| SeqCounter.SequenceClimbs | core/_llm_seq.py:63-114 | However the locked sections and disk reads of next, record and seed interleave with writes and metadata flushes, the numbers a process gives out are exactly those right behind what the disk showed it at its start, one after the other |
| SeqCounter.NumbersAreDistinct | core/_llm_seq.py:73-95 | Within one process no two calls ever receive the same number |
| SeqAnswers.SeenLaw | core/_llm_seq.py:22-38 | A reader takes the larger of the saved number and the one on the transcript's last line, whatever the other files hold |
| SeqAnswers.EachItsOwn | core/_llm_seq.py:73-95 | However the calls of a process interleave, each is answered with a number of its own, and every number given out answers a call |
| SeqAnswers.CallIsAnswered | core/_llm_seq.py:73-95 | A call that looks, reads and fills in its turn is answered whatever happens in between, and keeps its answer |
| SeqAnswers.StepsLaw | core/_llm_seq.py:63-114 | Seeding and recording only lift the counter, to what was seen and to a number given out; lines are written and the saved number raised under the stated conditions alone; a restart forgets all but the disk |
| SeqCounter.RestartClimbsIff | core/_llm_seq.py:22-38 | The numbers a process gives out are above every line on disk if and only if, when it started, no line of any file was above the transcript's last line and the saved metadata |
| SeqCounter.FilesKeepRising | core/_llm_seq.py:73-95 | A process that starts with no such line keeps the numbers rising along every file |
| SeqCounter.NumbersRepeat | core/_conversation_store_cache.py:196-206 | A concrete run with one restart after which two lines of the shared file carry one number |
| JsonlReader.ReadReverse | core/_conversation_store_cache.py:43-75 | For every byte sequence and every chunk size of at least one, the rows are the reverse of parsing the lines from the front |
| JsonlReader.SplitChunk | core/_conversation_store_cache.py:55-70 | Keeping only a chunk's first line in front of it loses no line and splits none |
| JsonlReader.SplitLaw | core/_conversation_store_cache.py:43-75 | The lines of a file are free of newlines, and joined by newlines they are the file |
| JsonlReader.LoadRange | core/_conversation_store_cache.py:78-101 | On increasing numbers the early-stopping scan equals filtering the whole transcript |
| JsonlReader.EarlyStopExact | core/_conversation_store_cache.py:78-101 | For any numbering, stopping early loses nothing if and only if no line of the range stands before the last line below it |
| SubPersister.Snapshots.Snapshot | core/_agent_executor_loop.py:365-376 | The incremental snapshot is the serialization of the whole list, however often the list grew or was swapped |
| SubPersister.IncrementalExact | core/_agent_executor_loop.py:365-376 | Without that discipline it is so exactly when the list is rebuilt, or the cached rows still are its beginning |
| SubPersister.PersisterIsSound | core/_agent_executor_loop.py:386-405 | In every interleaving there is at most one worker, saves never go back to an older snapshot, and when no worker runs the last save is the last scheduled snapshot |
| SubPersister.WorkerDrains | core/_agent_executor_loop.py:386-395 | Left alone, the worker saves the newest snapshot and stops within four of its steps |

## Left out

- TurnHistory.QuotaHolds: assumes that every progress append of the run passes the same limits, since the limits are arguments of each append.
- TurnCleanup.SharedNeverScheduled: assumes that publications keep their policy; without it the statement is false (SharedCanBeScheduled).
- ApiRetries.RetriesAreNotStartedTwice: assumes that the clock never runs backwards; a clock that does can purge a reservation still in its window.
- ConversationBursts.BurstIsAppendAll: compares the two on a warm roster with the routed agents on it, for named authors and senders, no delegate traffic and context injections without tool calls; what a burst leaves outside these bounds is stated by AppendMessages, without a comparison.
- TurnManaged.CoveredAlways: assumes the pilot's discipline and a publication that stays managed; ManagedSuccessHasBatch covers all runs.
- A run takes the classic consumption as committing nothing on a run with a batch, because only tests call it there.
- TurnStore.Store.Prune: the row order of the selection is not stated, because no result depends on it.
- SQL text, schema migration, connections and the store base class: each transaction is atomic and foreign keys are enforced.
- Real HMAC, SHA-256, UUIDs and random handles, base64 forms of tokens and the text of error messages.
- Columns no decision reads: creation and update times of most rows, the public context id, receipt order in a claim's answer.
- Tombstones of admissions are read by acquire but no transaction of the repository inserts one, so in a run they only shrink.
- The keyring's high-water mark is a counter, where the source takes the maximum over three tables.
- Deleting publications and keys, thread expiry by TTL and its throttle, and summaries for the administration pages.
- HTTP and SSE framing, keepalive lines, terminal snapshots, thread creation, agent submission and force-stop around the pilot and the tail.
- Stored prefixes and run events of the session store, and the lookup, deletion and expiry of its responses and prefixes: a finalize checks its prefixes and stores its response record, whose field types, bounds and finite encoding are one flag. The head's checkpoint id on a session is left out.
- The per-key session and run quotas are checked where the source checks them, but are not global bounds: a heartbeat can revive a lapsed lease.
- Conversation creation, encryption, owners, TTLs, metadata caches, background notifications, checkpoints and git history.
- Case folding of agent names and file-name escaping: agent names are taken as canonical.
- The inbox store: a catch-up inbox is the sequence of rows queued for an agent; how that store treats a repeated message id, and how it is drained, is not modelled.
- The segmented log is a sequence of lines; where its segments begin is an argument where a lookup depends on it. Segment files, fsync and rewrites, including a transcript re-saved while its counter runs, are not modelled.
- An undated system message takes one writing time for all its lines, where the source reads the clock for each.
- Save failures inside the persister's worker are swallowed by the source and count as saves; the closing synchronous flush (core/_agent_executor_loop.py:718-721) is not part of the persister.
- The background bucket build and the delegate-row cache rest on stores outside this model.
