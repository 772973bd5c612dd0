# Message Work Coordinator: a verified model

The coordinator moves chat messages into agent conversations and agent output back to chat platforms.
It keeps two durable queues per conversation lane, *intake* and *delivery*, in one SQLite store. Workers
claim rows under a fence (a generation number), a projector derives deliveries from an append-only event
log, a scheduler submits occurrences of tasks as intake, and operators repair what got stuck. Workers
crash, stall, lose responses and overlap; the design promises order, at-most-once sends and exactly-once
projection through all of it.

This project models that behaviour and proves those promises for every run, together with four smaller
protocols of the same kind: conversation leases, run recovery, the WhatsApp ledger with its poll loop, and
the Slack checker's handoff. `dafny verify dfyconfig.toml` checks everything.

## How it is organised

- **Transactions as functions.** `WorkTable`, `TaskSchedule`, `LedgerTables`, `LeaseProtocol`, `RunProgress`
  and `SlackHandoff` give each transaction of the program as a function on a value. Time is an integer;
  identities built by concatenation and hashing are datatype constructors, so they are injective
  (`Identities`).
- **The program's own form.** `MessageWorkStore`, `MessageRelay`, `DeliveryDispatcher`, `IntakeWorker`,
  `TaskScheduler`, `RelayRuntime`, `RunRecovery`, `ConversationLease`, `WhatsAppLedger`, `WhatsAppPoll` and
  `SlackChecker` hold the classes: fields updated in place, the program's loops and branches. Every method is
  proved to be the transaction it stands for, or to meet the property the program promises of it.
- **Every interleaving.** `Relay`, `ScheduledIntake`, `RecoveryReplay`, `PollChat` and `SlackHandoff` are step
  systems: one step is one transaction or one external event, a crash forgets what a worker held, and a
  request that left a worker may land late or never. The theorems speak of every step sequence, or of every
  world that some step sequence reaches (`Relay.Reachable`).
- **What each operation grants.** `StoreLaws`, `Reconciliation`, `DeliveredEvents`, `ScheduleLaws` and the lemmas
  named `...Means` elsewhere say field by field what each operation does, without naming the function that
  specifies it: which outcome it has, what becomes of the row it is about, and that nothing else moves.
- **Any caller.** `WorkInvariants`, `RetryBudget`, `ClaimFairness` and `ScheduleInvariants` quantify over every
  sequence of API calls, with no assumption on the callers. What needs well-behaved callers (marked sends
  are never retried, attempted commands are never settled) is `CoordinatorInvariants.LegalCall`, and
  `RelayInvariants` proves that the workers only make such calls.

Five statements one might expect are false of the code. Each has a lemma with a concrete input and one that
says exactly when the code meets the statement, by a condition that can be checked beforehand:

- Send marks follow the event log. An operator's skip changes echo decisions, so a page replayed after a
  crash can queue a reply behind deliveries of later events and send it after them
  (`RelayReorder.MarksCanLeaveTheLog`). A run's outbox follows the log if and only if no step processed an
  event overtaken in this way (`RelayOrder.OutboxFollowsTheLogIff`), its marks if and only if no such pair was
  marked (`RelayOrder.MarksFollowTheLogIff`); `ReplayOrder.ReplayKeepsOrderIff` foretells it for a whole pass,
  and `SkipSafety.SkipEndangersIff` says exactly which skips make it possible.
- A due head is bypassed by another row at most once. With a retry that waits nothing a failing row is claimed
  again past a head that is due (`ClaimFairness.ZeroBackoffBypassesTwice`); it holds if and only if every retry
  the policy grants waits a positive time (`ClaimFairness.BypassedAtMostOnceIff`).
- What polling marks seen and others wrote was accepted. A WhatsApp message whose author changes between the
  transcript and the seen mark is marked seen without having been in a prompt
  (`ChangedAuthors.ChangedAuthorIsOverlooked`); it holds if and only if no mark overlooks such a message
  (`ChangedAuthors.SeenRightlyIff`).
- What polling marks dispatched and others wrote was passed by or accepted. The dispatch mark that follows such
  a seen mark loses the message (`PollDispatch.ChangedAuthorIsLost`), and so does passing by a segment when the
  author changed while a command ahead of it was being accepted (`PollDispatch.ChangedAuthorIsPassedBy`);
  `PollDispatch.NothingIsLostIff` says exactly when none is lost.
- No replay un-parks a run. A run parked while its projection cursor is parked partway can be un-parked by
  replaying an old user message (`RecoveryReplay.ParkedPartway`); `RecoveryReplay.ReplayUnparksIff` says exactly
  when.

Two further findings: a cancelled task becomes paused when its started run is found interrupted
(`ScheduleInvariants.CancelledUnlessReconciled` gives the exact condition), and the Slack acknowledgement,
which compares in one direction only, still decides equality of identity sets
(`SlackHandoff.SameSetIsEquality`).

## Model

| member | source | states |
|---|---|---|
| WorkInvariants.ReachedKeeps | src/coordinator/store.ts:266-316 | After any history of store calls: rows numbered per lane and kind in insertion order, one row per (kind, source key), nothing touched behind an unresolved row, claims carry a deadline exactly while claimed |
| WorkInvariants.ReachedEvolves | src/coordinator/store.ts:487-588 | Between any two points of a history a row keeps its identity, its generation never falls, done and skipped absorb as a set, and a mark is cleared only by a new generation |
| WorkInvariants.LaneShape | src/coordinator/store.ts:266-316 | Every reachable lane and kind is numbered 1..n and is a resolved prefix, at most one row that was worked on, then untouched ready rows |
| WorkInvariants.ResolvedAbsorbs | src/coordinator/store.ts:532-573 | A done or skipped row stays resolved, in its lane and at its number, whatever is called later |
| WorkInvariants.ClaimsAreDistinct | src/coordinator/store.ts:343-365 | No two claims of a history share an (id, generation) pair; later claims of a row have higher generations |
| WorkInvariants.SettlingKills | src/coordinator/store.ts:398-468 | Settling or releasing with a live token kills the token |
| WorkInvariants.SettlesAtMostOnce | src/coordinator/store.ts:398-408 | In any history the second settlement under one token changes nothing |
| WorkInvariants.DeadForever | src/coordinator/store.ts:393-397 | Once a row has left the claimed state at a generation, no continuation brings that token back to life |
| WorkInvariants.DeadIsPowerless | src/coordinator/store.ts:381-408 | A dead token can never again mark, settle, release or start a command |
| CoordinatorInvariants.LegalCallKeeps | src/coordinator/store.ts:219-254 | With the calls the workers make: a marked send is never back in the queue, and every command is pending on an unfinished row, attempted on a claimed row under its own deadline, or final on a done row with its receipt |
| RowMoves.LegalCallExplained | src/coordinator/store.ts:326-588 | Only a mark marks, only a requeue clears a mark, only a skip skips, only a claim claims, only a Sent settlement or a confirmation completes a message or delivery; commands move forward, each for one cause |
| MessageWorkStores.MessageWorkStore.ResolveLane | src/coordinator/store.ts:128-173 | The first message of a lane binds it; later ones get that binding unchanged |
| MessageWorkStores.MessageWorkStore.Lookup | src/coordinator/store.ts:597-602 | The row with this unique (kind, source key) |
| MessageWorkStores.MessageWorkStore.NextSequence | src/coordinator/store.ts:266-316 | One more than the highest sequence of the lane and kind |
| MessageWorkStores.MessageWorkStore.InsertWork | src/coordinator/store.ts:266-316 | Idempotent on (kind, source key), refuses an unknown lane, appends an untouched row with the next sequence |
| MessageWorkStores.MessageWorkStore.AcceptIntake | src/coordinator/store.ts:198-210 | A replayed source returns its row and changes nothing, so a message is never promoted to a command |
| MessageWorkStores.MessageWorkStore.Candidates | src/coordinator/store.ts:331-345 | The eight first due heads in (available_at, sequence) order, or all of them if fewer |
| MessageWorkStores.MessageWorkStore.ClaimReady | src/coordinator/store.ts:326-374 | Returns nothing exactly when no head is due, despite the eight-row scan; otherwise claims a least due head under a fresh generation |
| MessageWorkStores.MessageWorkStore.MarkSending | src/coordinator/store.ts:381-389 | Sets the send mark exactly for a live claim |
| MessageWorkStores.MessageWorkStore.Release | src/coordinator/store.ts:552-562 | Exactly a live claim returns to ready with the attempt uncounted |
| MessageWorkStores.MessageWorkStore.Settle | src/coordinator/store.ts:398-468 | A stale claim changes nothing; each outcome moves the row as specified; a command that would fail unstarted completes as rejected; retry_wait only with attempts left |
| MessageWorkStores.MessageWorkStore.CompleteCommand | src/coordinator/store.ts:247-254 | Journal outcome, one receipt and a done row in one commit |
| MessageWorkStores.MessageWorkStore.StartCommand | src/coordinator/store.ts:219-231 | Starts exactly a pending command under a live claim and extends that claim to the deadline |
| MessageWorkStores.MessageWorkStore.FinishCommand | src/coordinator/store.ts:234-245 | Completes an attempted command of a live claim, or a pending one that is rejected; nothing else |
| MessageWorkStores.MessageWorkStore.Reconcile | src/coordinator/store.ts:487-527 | Afterwards no claim is past its deadline and no elapsed retry waits; an expired claim is ambiguous if it is a marked delivery and else ready with its attempts kept, under the next generation; lost commands end as rejected or unknown with their receipts; every other row is as it was |
| MessageWorkStores.MessageWorkStore.SweepClaims | src/coordinator/store.ts:503-520 | Exactly the expired claims move: ambiguous if a delivery was marked, ready otherwise, always under a new generation |
| MessageWorkStores.MessageWorkStore.WakeRetries | src/coordinator/store.ts:521-527 | Exactly the retries whose backoff has elapsed become ready |
| MessageWorkStores.MessageWorkStore.Skip | src/coordinator/store.ts:532-534 | Skips exactly a failed or ambiguous row |
| MessageWorkStores.MessageWorkStore.ConfirmDelivered | src/coordinator/store.ts:537-545 | Completes exactly an ambiguous delivery |
| MessageWorkStores.MessageWorkStore.Requeue | src/coordinator/store.ts:564-573 | Returns exactly a failed or ambiguous row to ready, unmarked, under a new generation and with its attempts kept |
| MessageWorkStores.MessageWorkStore.SetCursor | src/coordinator/store.ts:613-621 | Moves the cursor and leaves the parked flag |
| MessageWorkStores.MessageWorkStore.ParkCursor | src/coordinator/store.ts:636-645 | Parks the cursor and keeps its position |
| MessageWorkStores.MessageWorkStore.UnparkCursor | src/coordinator/store.ts:647-652 | Un-parks the cursor at its position |
| StoreLaws.ResolveMeans | src/coordinator/store.ts:128-173 | The first binding of a lane stands and nothing but the directory changes |
| StoreLaws.InsertMeans | src/coordinator/store.ts:266-316 | A source is queued once, in a known lane, as a fresh row with the next number of its lane and kind |
| StoreLaws.AcceptMeans | src/coordinator/store.ts:198-210 | A new message or command is one fresh row, a command with its journal entry; a replay or an unknown lane changes nothing |
| StoreLaws.ClaimableMeans | src/coordinator/store.ts:326-345 | A row may be claimed exactly if it is ready, due, of the wanted kind, behind resolved rows only, and first by time and number among such rows |
| StoreLaws.ClaimMeans | src/coordinator/store.ts:345-365 | A claim sets owner and deadline, counts an attempt and raises the generation of that row alone |
| StoreLaws.MarkAndReleaseMean | src/coordinator/store.ts:381-389 | A mark or release moves exactly the row of a claim still held |
| StoreLaws.SettleMeans | src/coordinator/store.ts:398-468 | What each outcome makes of a row whose claim is held, its wait included, and that no other row moves |
| StoreLaws.SettleOtherwise | src/coordinator/store.ts:403-412 | A lost claim settles nothing; giving up on a command that never started completes it as rejected with its receipt |
| StoreLaws.StartMeans | src/coordinator/store.ts:219-231 | A command starts once, under a held claim, and its deadline becomes the claim deadline |
| StoreLaws.FinishMeans | src/coordinator/store.ts:234-254 | Exactly a started command under its claim, or an unstarted one being rejected, is completed: journal, row and one receipt together |
| StoreLaws.RepairsMean | src/coordinator/store.ts:532-573 | Skip, requeue and confirm move exactly a stuck row, each to its own state |
| StoreLaws.CursorsMean | src/coordinator/store.ts:606-652 | A cursor's position and parked flag move independently of each other and of other lanes |
| Reconciliation.ReconcileMeans | src/coordinator/store.ts:487-527 | For every store: what a reconciliation leaves of each row, command and receipt, and that nothing overdue remains |
| RetryBudget.DelayBounds | src/coordinator/store.ts:470-476 | The backoff without jitter lies between min(base, cap) and cap |
| RetryBudget.DelayGrows | src/coordinator/store.ts:470-476 | Later attempts never wait less |
| RetryBudget.DelayDoubles | src/coordinator/store.ts:470-476 | The first retry waits the base and each later one twice as long as the one before, up to the cap |
| RetryBudget.TotalDelayBounds | src/coordinator/store.ts:470-476 | n retries wait at most min(n*cap, base*(2^n - 1)) in all |
| RetryBudget.RetryWaitHasAttemptsLeft | src/coordinator/store.ts:434-455 | In every reachable store a row in retry_wait has fewer attempts than the maximum |
| RetryBudget.ClaimsAreBounded | src/coordinator/store.ts:398-476 | Without new work, expiries, releases or requeues every interleaving makes at most as many claims as the attempts left in the store, counting the receipts unfinished commands will queue |
| ClaimFairness.ClaimableIffDue | src/coordinator/store.ts:331-345 | Some row can be claimed exactly when some lane head is due |
| ClaimFairness.BypassedAtMostOnce | src/coordinator/store.ts:326-374 | With positive backoff, while a due head stays ready each other row is claimed past it at most once, whatever else is called and whatever arrives, as long as no claim is handed back |
| ClaimFairness.ZeroBackoffBypassesTwice | src/coordinator/store.ts:470-476 | For every attempt after which a granted retry waits nothing, a reachable row that fails at that attempt is claimed twice past a head that is due all along |
| ClaimFairness.BypassedAtMostOnceIff | src/coordinator/store.ts:326-476 | In every reachable store, whatever is called from there, each other row passes a ready due head at most once if and only if every retry the policy grants waits a positive time |
| RelayInvariants.StepIsLegal | src/coordinator/deliveryDispatcher.ts:67-131 | Every store call of every dispatcher, intake worker, command and projector step is a legal one |
| RelayInvariants.RunKeeps | src/coordinator/deliveryDispatcher.ts:67-131 | In every run workers hold distinct tokens, a live unsent claim is unmarked, and a live intake claim has started no command |
| RelayDelivery.AtMostOnce | src/coordinator/deliveryDispatcher.ts:67-131 | In every run the external sends of a row number at most 1 plus its operator requeues, with any number of workers, stalls, crashes and expired claims |
| RelayDelivery.ReleaseIsUncounted | src/coordinator/store.ts:552-562 | Whatever happens between claim and release, a transport-unavailable release restores the attempt count and adds no mark and no send |
| RelayDelivery.NoOvertaking | src/coordinator/store.ts:326-374 | In one lane send marks never go back, and a row is marked only when every earlier row of the lane is done or skipped |
| RelayCommands.CondensedAtMostOnce | src/coordinator/messageRelay.ts:233-240 | In every run the condense request of a command reaches the server at most once |
| RelayCommands.OutcomeStands | src/coordinator/store.ts:234-254 | In every continuation a started command never becomes pending again and a final outcome never changes |
| RelayCommands.OneReceiptPerCommand | src/coordinator/store.ts:247-254 | A command is final exactly when its row is done, exactly when its one receipt exists; until then an attempted command stays claimed under its deadline |
| RelayIntake.IntakeReachesTheLog | src/coordinator/messageRelay.ts:222-262 | Through retries, lost responses and stale workers a conversation log holds each accepted message at most once, holds every done message, and holds them in lane order |
| RelayIntake.LoggedMessageHasOneRow | src/coordinator/httpAgentServerClient.ts:13-15 | Every inbound event of a log is one accepted message of that lane |
| ProjectionFold.EchoAgrees | src/coordinator/messageRelay.ts:362-378 | The echo test on the outbox and the declarative test on the log agree while nothing is skipped |
| ProjectionFold.SyncedIsFold | src/coordinator/messageRelay.ts:328-349 | Processing an event for the first time or again leaves the outbox at the one-pass fold of the events seen |
| RelayProjection.ProjectionRefinesFold | src/coordinator/messageRelay.ts:308-356 | For every page size and every pattern of crashes, failures, restarts and log growth, while no projected delivery of the lane is skipped its outbox is exactly the one-pass fold of the processed events, in order, and a caught-up lane holds the fold of its whole log |
| DeliveredEvents.TrimMeans | src/coordinator/messageRelay.ts:156-159 | Trimming takes off exactly the surrounding white space and leaves nothing exactly of a blank text |
| DeliveredEvents.EventMeans | src/coordinator/messageRelay.ts:52-154 | What an event delivers and what bounds a turn, said of the kinds of events |
| DeliveredEvents.ProjectsMeans | src/coordinator/messageRelay.ts:328-378 | Whatever was skipped, processing an event queues its text exactly if it is an explicit send, an error, or a final reply that repeats no queued, unskipped send of its turn |
| DeliveredEvents.OutboxMeans | src/coordinator/messageRelay.ts:328-349 | A caught-up outbox holds a row with the text of an event exactly if the event is an explicit send, an error, or a final reply that repeats no send of its turn, and no other row |
| DeliveredEvents.ReachedSaysExactly | src/coordinator/messageRelay.ts:308-356 | The same of every reached world in which no projected delivery of the lane was skipped |
| ReplayOrder.ReplayKeepsOrderIff | src/coordinator/messageRelay.ts:328-349 | One uninterrupted pass keeps the outbox in log order if and only if no event it would queue was overtaken before it began |
| RelayReorder.MarksCanLeaveTheLog | src/coordinator/messageRelay.ts:371-372 | A concrete run of 21 steps, with one crash and one operator skip, whose send marks leave event-log order: the skipped send no longer suppresses its echo when the page is replayed |
| RelayReorder.EchoDecides | src/coordinator/messageRelay.ts:366-373 | The finish that repeats a send is projected exactly when that send was skipped |
| RelayOrder.InvertedIff | src/coordinator/messageRelay.ts:328-356 | In every run two deliveries of a lane are out of log order if and only if some step queued the second, of the earlier event, when the first was queued already |
| RelayOrder.OutboxFollowsTheLogIff | src/coordinator/messageRelay.ts:308-356 | After every interleaving a lane's outbox is in event-log order if and only if no step processed an event overtaken by a queued delivery of a later one |
| RelayOrder.MarksFollowTheLogIff | src/coordinator/messageRelay.ts:299-357 | After every interleaving the durable send marks of a lane follow the event log if and only if no step queued a delivery behind one of a later event with both then marked |
| RelayOrder.MarksFollowTheLog | src/coordinator/deliveryDispatcher.ts:67-131 | Where no overtaken event was processed, the durable send marks of a lane occur in event-log order |
| GentleSkips.GentleRunsOvertakeNothing | src/coordinator/store.ts:532-534 | If no operator skip turns a decision the projector may still replay, no step of the run processes an overtaken event |
| SkipSafety.OvertakesIffEndangered | src/coordinator/messageRelay.ts:308-356 | From every reached world some continuation without a skip processes an overtaken event if and only if a replay from the durable cursor would now queue an event that is overtaken, or that the rest of the page in hand will overtake |
| SkipSafety.SkipEndangersIff | src/coordinator/store.ts:532-534 | In every reached world a skip has such a continuation if and only if the outbox it leaves fulfils that condition, which can be checked before the skip |
| SkipSafety.SafeRunsOvertakeNothing | src/coordinator/store.ts:532-534 | If no skip of a run leaves that condition, no step of the run processes an overtaken event |
| MessageRelays.MessageRelay.ScanEvent | src/coordinator/messageRelay.ts:366-373 | One event ends the backward scan with false exactly if it bounds the turn, with true exactly if it is a queued, unskipped send of the text |
| MessageRelays.MessageRelay.IsQueuedFinalEcho | src/coordinator/messageRelay.ts:362-378 | The page-by-page backward scan terminates and, for every page size, answers whether an earlier send of the same turn queued this text |
| MessageRelays.MessageRelay.ProjectEvent | src/coordinator/messageRelay.ts:328-349 | Queues the delivery of one event, unless it is a final echo, once |
| MessageRelays.MessageRelay.SyncDeliveryOutbox | src/coordinator/messageRelay.ts:299-357 | From any state a crash may have left, the outbox says exactly what the events the call reached say (explicit sends, errors, final replies that repeat no send of their turn); it reaches them all unless a request fails, and counts exactly the rows it adds |
| DeliveryDispatchers.DeliveryDispatcher.Attempt | src/coordinator/deliveryDispatcher.ts:67-131 | Rejected exactly if the platform has no target or the payload does not validate, released exactly if it validates and the transport is not ready, otherwise delivered or ambiguous by the result of the send; the row ends accordingly and nothing else changes; it sends only after the durable mark |
| DeliveryDispatchers.DeliveryDispatcher.DispatchNext | src/coordinator/deliveryDispatcher.ts:67-131 | One call works on a first due head, has the outcome of that attempt, and sends at most once |
| IntakeWorkers.AgentServer.AppendEvent | src/coordinator/httpAgentServerClient.ts:134-157 | Appending is idempotent on the event id |
| IntakeWorkers.IntakeWorker.Recover | src/coordinator/messageRelay.ts:246-261 | A retryable error waits only while attempts remain; giving up fails a message and completes a command as rejected with a receipt |
| IntakeWorkers.IntakeWorker.IntegrateNextIntake | src/coordinator/messageRelay.ts:222-262 | A command starts and a message is integrated exactly if the agent-server took it, an error that may pass is retried exactly while attempts remain, anything else is given up; the log grows by at most that user message and nothing else changes |
| IntakeWorkers.IntakeWorker.PerformCommand | src/coordinator/messageRelay.ts:269-292 | A command that may still report ends as succeeded, rejected or unknown by the answer, with journal, row and receipt together; a lost claim changes nothing |
| IntakeWorkers.AnswersMean | src/coordinator/messageRelay.ts:269-292 | Success only if the server says so, rejection only for a missing operation or a client error other than a timeout, the special receipt only for a recognized conflict, and otherwise nobody knows |
| ScheduleInvariants.HistoryKeeps | src/coordinator/taskScheduler.ts:78-181 | After any history of commands, sweeps, submissions and observations: references resolve, a task with a next run has no open run, a task and a conversation have at most one, and every schedule can be read again |
| ScheduleInvariants.OpenRunsAreSingle | src/coordinator/taskScheduler.ts:138-158 | Two open runs of one task or one conversation are the same run, and their task has no next run scheduled |
| ScheduleInvariants.RunsNeverRegress | src/coordinator/taskScheduler.ts:159-181 | Between any two points a run keeps its identity and its status only advances; cancelled only from ready |
| ScheduleInvariants.RefusedChangesNothing | src/coordinator/taskScheduler.ts:78-88 | A failing command changes no task, run or lane |
| ScheduleInvariants.RepeatedChangesNothing | src/coordinator/taskScheduler.ts:78-83 | However much later it is repeated, and with whatever action, a command returns its first result and changes nothing |
| ScheduleInvariants.CommandsStayInScope | src/coordinator/taskScheduler.ts:90-113 | A command touches only tasks its caller's scope may see and their runs, and creates at most a task that scope may see |
| ScheduleInvariants.EndedRunsClose | src/coordinator/taskScheduler.ts:160-181 | The event that ends a started run always closes it: the stored schedule can always be read again |
| ScheduleLaws.NextMeans | src/coordinator/taskScheduler.ts:68-77 | An interval from now, the next cron time after now, or the given date; none exactly where the value cannot be read |
| ScheduleLaws.ObserveMeans | src/coordinator/taskScheduler.ts:160-181 | What an event does to an open run and its task: start, end with the next run as the schedule and the status say, or nothing |
| ScheduleLaws.ScheduleMeans | src/coordinator/taskScheduler.ts:97-110 | Accepted exactly if scope, target, prompt and schedule are; then the stored task is as asked and nothing else changed |
| ScheduleLaws.PauseMeans | src/coordinator/taskScheduler.ts:111-112 | Pauses exactly a task the caller may touch, and that alone |
| ScheduleLaws.CancelMeans | src/coordinator/taskScheduler.ts:113-116 | Cancels the task and exactly its ready runs |
| ScheduleLaws.ResumeMeans | src/coordinator/taskScheduler.ts:117-121 | A resumed task waits for its open run or gets its next time |
| ScheduleLaws.UpdateMeans | src/coordinator/taskScheduler.ts:122-132 | Keeps what the update does not name; accepted exactly if prompt and schedule are |
| ScheduleLaws.ListMeans | src/coordinator/taskScheduler.ts:93-96 | Lists exactly the tasks the caller may touch |
| ScheduleLaws.ConsiderMeans | src/coordinator/taskScheduler.ts:138-156 | A due task gets its run, in its own conversation or an isolated one, except a group task whose conversation is occupied |
| ScheduleLaws.EnqueueMeans | src/coordinator/taskScheduler.ts:159 | Only a ready run becomes enqueued |
| ScheduleInvariants.CancelledUnlessReconciled | src/coordinator/taskScheduler.ts:174-179 | A cancelled task stays cancelled if and only if no started run of it is parked for reconciliation |
| ScheduleClock.RecurringReservationsAreFresh | src/coordinator/taskScheduler.ts:68-73 | With a non-decreasing clock, at every point of a sweep reserving a due interval or cron task creates a run id that never existed |
| ScheduledIntake.OneRowPerOccurrence | src/coordinator/relayRuntime.ts:208-221 | However often crashes make an occurrence come back as due, it has exactly one intake row once submitted and none before, and an enqueued occurrence was submitted |
| TaskSchedulers.TaskScheduler.Register | src/coordinator/taskScheduler.ts:53-56 | Registers or replaces a lane |
| TaskSchedulers.TaskScheduler.HasOpenRun | src/coordinator/taskScheduler.ts:117-118 | Whether some run of the task is ready, enqueued or started |
| TaskSchedulers.TaskScheduler.Execute | src/coordinator/taskScheduler.ts:78-89 | Runs a command once and records its result, which a repetition returns |
| TaskSchedulers.TaskScheduler.Perform | src/coordinator/taskScheduler.ts:90-135 | Each command in the program's order of checks |
| TaskSchedulers.TaskScheduler.Schedule | src/coordinator/taskScheduler.ts:97-110 | Schedules in the caller's scope or, for the main scope, in another; refuses unknown targets, blank prompts and unreadable schedules |
| TaskSchedulers.TaskScheduler.Withdraw | src/coordinator/taskScheduler.ts:113-116 | Cancels exactly the ready runs of one task |
| TaskSchedulers.TaskScheduler.Resume | src/coordinator/taskScheduler.ts:117-121 | A resumed task with an open run waits for it; otherwise it gets its next run |
| TaskSchedulers.TaskScheduler.Update | src/coordinator/taskScheduler.ts:122-132 | An update is checked whole before anything is stored |
| TaskSchedulers.TaskScheduler.DueRuns | src/coordinator/taskScheduler.ts:138-158 | In one sweep every task whose time has come gets its run or, if grouped, waits for its occupied conversation; every other task and every earlier run is as it was; every ready run of an active task is listed |
| TaskSchedulers.TaskScheduler.Enqueued | src/coordinator/taskScheduler.ts:159 | Records exactly a ready run as enqueued |
| TaskSchedulers.TaskScheduler.Observe | src/coordinator/taskScheduler.ts:160-181 | An event starts or ends the one open run of its conversation; at the end an active recurring task gets its next time after now, a one-off one is completed, a run to be reconciled pauses its task, any other task stays as it was |
| RelayRuntimes.RelayRuntime.Submit | src/coordinator/relayRuntime.ts:208-218 | Binds the lane, registers it and queues the run in it with its prompt, once, under its own source key |
| RelayRuntimes.RelayRuntime.SubmitDue | src/coordinator/relayRuntime.ts:208-221 | Every task whose time has come gets its run, and every ready run of this store ends up enqueued with its intake row; other stores' runs are left alone |
| RunProgress.PendingMeansUnanswered | src/coordinator/runRecovery.ts:9-20 | A run is pending exactly when the last event that starts or ends a turn is a user message |
| RunProgress.ObservedMeans | src/coordinator/runRecovery.ts:9-20 | What each kind of event does to the pending flag, the open actions and the parked issue |
| RunProgress.OpenMeansUnobserved | src/coordinator/runRecovery.ts:15-16 | An action is open exactly when no observation of it follows it |
| RunProgress.SuffixReplayIsOnePass | src/coordinator/runRecovery.ts:9-20 | Observing a prefix and then any suffix of it again gives the pending flag and open actions of one pass, for every log |
| RecoveryReplay.CaughtUpIsOnePass | src/coordinator/runRecovery.ts:9-20 | Through any crashes and replays from the durable cursor, whenever a pass has reached everything seen the progress is that of one pass |
| RecoveryReplay.ParkedUntilAsked | src/coordinator/relayRuntime.ts:242-254 | A parked run is pending again only after a user message at or beyond where the durable cursor stood when it was parked, so after a finished sync only after a new one |
| RecoveryReplay.ReplayUnparksIff | src/coordinator/relayRuntime.ts:242-254 | Replaying events seen before can un-park a run if and only if a seen user message lies at or beyond the durable cursor at the time of parking |
| RecoveryReplay.ParkedPartway | src/coordinator/messageRelay.ts:306-325 | A concrete run that crashes before its commit and then finds the conversation gone, after which the run can be parked with a user message still to be replayed |
| RunRecoveries.RunRecovery.Observe | src/coordinator/runRecovery.ts:9-20 | Applies one event to one conversation's record |
| RunRecoveries.RunRecovery.Pending | src/coordinator/runRecovery.ts:21-25 | Exactly the pending, unparked conversations with their open actions |
| RunRecoveries.RunRecovery.Park | src/coordinator/runRecovery.ts:26-28 | Parks a known conversation |
| LeaseProtocol.FencedAfterTakeover | packages/openhands-agent-server/src/conversationLease.ts:75-105 | After another owner's successful claim no renewal, guarded write or release under the earlier ownership takes effect, with any generation, until that owner claims again |
| LeaseProtocol.TakeoverRaisesGeneration | packages/openhands-agent-server/src/conversationLease.ts:56-73 | Claims of two owners with no release between them have strictly rising generations |
| LeaseProtocol.LiveLeaseIsKept | packages/openhands-agent-server/src/conversationLease.ts:65-69 | A lease is taken over only after it ran out, or when its recorded process on the same host is gone |
| LeaseProtocol.ClaimMeans | packages/openhands-agent-server/src/conversationLease.ts:56-73 | A claim is granted exactly on a missing, own, expired or dead owner's lease, with that owner's generation or another's plus one, for the whole time to live |
| LeaseProtocol.OwnerActsMean | packages/openhands-agent-server/src/conversationLease.ts:75-105 | Renewing, writing and releasing take effect exactly for the owner at its generation |
| ConversationLeases.ConversationLease.Claim | packages/openhands-agent-server/src/conversationLease.ts:56-73 | Grants a missing, own, expired or dead owner's lease; refuses a held or unreadable one |
| ConversationLeases.ConversationLease.Renew | packages/openhands-agent-server/src/conversationLease.ts:75-80 | Extends the lease exactly for its owner at its generation |
| ConversationLeases.ConversationLease.GuardedWrite | packages/openhands-agent-server/src/conversationLease.ts:82-87 | Writes exactly for the lease's owner at its generation |
| ConversationLeases.ConversationLease.Release | packages/openhands-agent-server/src/conversationLease.ts:89-98 | Removes exactly the owner's own lease; leaving another's alone is no error |
| LedgerTables.QueryIsUnmarked | apps/whatsapp/src/ledger.ts:185-207 | A query filtered by the chat's cursor returns exactly the unmarked messages the assistant did not write |
| LedgerTables.QueryMeans | apps/whatsapp/src/ledger.ts:185-207 | A query finds exactly the chat's messages of others that do not bear the mark |
| LedgerTables.StoreMeans | apps/whatsapp/src/ledger.ts:151-179 | A known message keeps its number and its media; a new one gets a number beyond all others |
| LedgerTables.DispatchMeans | apps/whatsapp/src/ledger.ts:236-239 | Marks exactly the chat's messages up to the cursor, which only moves forward |
| LedgerTables.AgentMeans | apps/whatsapp/src/ledger.ts:251-254 | Marks exactly the chat's messages up to the cursor as seen |
| LedgerTables.CommandMarkMeans | apps/whatsapp/src/ledger.ts:257-259 | Sets one mark of one message |
| LedgerTables.ImportKeepsPending | src/whatsapp-progress.ts:33-48 | Right after the import the queries return, message by message, exactly what lies after the old sequence or timestamp cursors |
| PollChat.QueriesAreExact | apps/whatsapp/src/ledger.ts:185-259 | At every point of every interleaving of arrivals, re-stored messages, polls and crashes the cursor-filtered queries are exact |
| PollChat.SeenWasAccepted | apps/whatsapp/src/adapter.ts:520-542 | What polling marks seen was in an accepted prompt, was an accepted command, or was the assistant's own when the transcript was read |
| ChangedAuthors.SeenRightlyIff | apps/whatsapp/src/adapter.ts:520-542 | In every run, each message of others that a step marks seen was in an accepted prompt or was an accepted command, if and only if no mark is made while a message left out of the transcript as the assistant's own is somebody else's and was not accepted |
| ChangedAuthors.SeenWasAcceptedOrOwn | apps/whatsapp/src/adapter.ts:520-542 | Where no mark overlooks a message, everything polling marked seen was accepted or was the assistant's own at its mark, whatever authors changed otherwise |
| ChangedAuthors.OthersSeenWereAccepted | apps/whatsapp/src/adapter.ts:520-542 | If re-stored messages keep their author, every message of others that polling marks seen was in an accepted prompt or was an accepted command |
| PollDispatch.NothingIsLostIff | apps/whatsapp/src/adapter.ts:507-543 | At every point of every run, all messages of others that a poll marks dispatched are in the unaddressed segment passed by or were accepted or imported as seen, if and only if none up to the segment's end has turned from the assistant's own, as the poll read it, to owed without being taken in |
| PollDispatch.NothingIsLost | apps/whatsapp/src/adapter.ts:507-543 | In every interleaving in which re-stored messages keep their author, a message of others that a poll marks dispatched is in the unaddressed segment passed by, was in an accepted prompt, was an accepted command, or was imported as seen |
| PollDispatch.ChangedAuthorIsLost | apps/whatsapp/src/adapter.ts:528-541 | A concrete run where a message that changes its author after the transcript was read is marked seen and then dispatched without being in any prompt |
| PollDispatch.ChangedAuthorIsPassedBy | apps/whatsapp/src/adapter.ts:517-527 | A concrete run where a message that changes its author while a command ahead of it is being accepted is marked dispatched with the next segment, in which it is not |
| ChangedAuthors.ChangedAuthorIsOverlooked | apps/whatsapp/src/adapter.ts:531-541 | A concrete run where a message that changes its author between transcript and mark is marked seen without being in any prompt |
| PollChat.SplitIsPartition | apps/whatsapp/src/handler.ts:161-174 | Segments hold the messages in order, none lost or doubled; commands stand alone between nonempty batches without commands |
| PollChat.SplitIsUnique | apps/whatsapp/src/handler.ts:161-174 | No other such partition exists |
| PollChat.SplitMeans | apps/whatsapp/src/handler.ts:161-174 | Exactly the eligible, media-free messages that the trigger accepts and that parse as a command stand alone |
| PollChat.TranscriptMeans | apps/whatsapp/src/adapter.ts:528-530 | A prompt holds exactly what others said unseen up to the segment's end, or else the segment |
| WhatsAppLedgers.WhatsAppLedger.InitializeProgress | src/whatsapp-progress.ts:14-49 | Imports once, refuses history without any cursor, keeps existing marks, leaves no cursor |
| WhatsAppLedgers.WhatsAppLedger.StoreMessage | apps/whatsapp/src/ledger.ts:151-179 | A replayed id keeps its sequence and its marks; a new message gets the next sequence |
| WhatsAppLedgers.WhatsAppLedger.GetDispatchSeq | apps/whatsapp/src/ledger.ts:227-234 | Reads the cursor and moves none |
| WhatsAppLedgers.WhatsAppLedger.SetDispatchSeq | apps/whatsapp/src/ledger.ts:236-239 | Marks every message up to the sequence, then moves the cursor forward only; the queries stay exact if and only if the sequence is not beyond the last ingested one |
| WhatsAppLedgers.WhatsAppLedger.SetLastAgentSeq | apps/whatsapp/src/ledger.ts:251-254 | Marks every message up to the sequence seen and sets the cursor, with the same exact condition |
| WhatsAppLedgers.WhatsAppLedger.MarkCommandSeen | apps/whatsapp/src/ledger.ts:257-259 | Marks one message and no earlier one |
| WhatsAppLedgers.WhatsAppLedger.GetNewMessages | apps/whatsapp/src/ledger.ts:185-196 | Exactly the undispatched messages of others |
| WhatsAppLedgers.WhatsAppLedger.GetMessagesSince | apps/whatsapp/src/ledger.ts:198-207 | Exactly the unseen messages of others |
| WhatsAppLedgers.WhatsAppLedger.MarkMessages | src/whatsapp-progress.ts:51-55 | Sets one mark of each given message and no other |
| WhatsAppPolls.SegmentDone | apps/whatsapp/src/ledger.ts:236-239 | Moving the cursor past the first waiting segment leaves exactly the later segments waiting |
| WhatsAppPolls.WhatsAppBridge.SplitCommandBatches | apps/whatsapp/src/handler.ts:161-174 | The loop computes the partition |
| WhatsAppPolls.WhatsAppBridge.PollSegment | apps/whatsapp/src/adapter.ts:520-542 | A segment is accepted before anything is marked past it; when the accept fails it is still waiting |
| WhatsAppPolls.WhatsAppBridge.PollChat | apps/whatsapp/src/adapter.ts:507-543 | Whether a poll completes or fails on the way, exactly the segments not dealt with are still waiting and every message newly seen was accepted or is the assistant's own |
| SlackHandoff.SameSetIsEquality | apps/relay-server/src/slackChecker.ts:99-100 | The one-directional comparison decides equality of duplicate-free identity sets |
| SlackHandoff.NotifyHandsOver | src/coordinator/notifySmolpaws.ts:54-95 | A successful notification leaves the row of exactly this task and identity set in the owner's lane; a new row needs the whole pending batch; a retry changes nothing |
| SlackHandoff.NotifyMeans | src/coordinator/notifySmolpaws.ts:31-95 | Succeeds exactly with a text, duplicate-free identities, an owner whose lane is bound, and either an earlier row that needs no repair or the whole pending batch; then the row is that one or a fresh one in the owner lane |
| SlackHandoff.CheckMeans | apps/relay-server/src/slackChecker.ts:119-148 | A pending batch stays, new items become pending, an empty reading moves the position, an unusable one changes nothing |
| SlackHandoff.AcknowledgeMeans | apps/relay-server/src/slackChecker.ts:96-107 | Accepted exactly for the identity set of the pending batch or of the last acknowledged one; only the first moves the position |
| SlackHandoff.AcknowledgedWasHandedOver | apps/relay-server/src/scheduledAgentTools.ts:62-77 | In every run the checker has moved past a batch only with the intake row of exactly that task and identity set in the owner's lane, and every other batch found is still pending |
| SlackHandoff.RetriesAddNoRow | src/coordinator/notifySmolpaws.ts:66-95 | However often and from however many runs a notification is retried, one task and identity set has at most one row |
| SlackCheckers.SlackChecker.CheckTabs | apps/relay-server/src/slackChecker.ts:119-148 | A batch once found is returned until acknowledged; an empty reading only moves the position |
| SlackCheckers.SlackChecker.IsSameSet | apps/relay-server/src/slackChecker.ts:99-100 | Decides the comparison |
| SlackCheckers.SlackChecker.AcknowledgeBatch | apps/relay-server/src/slackChecker.ts:96-107 | Accepts exactly the whole pending batch or the one acknowledged last, and then moves past it |
| SlackCheckers.NotifyTool.NotifySmolpaws | src/coordinator/notifySmolpaws.ts:31-95 | Each refusal in the program's order, otherwise the one idempotent enqueue |
| SlackCheckers.NotifyTool.Execute | apps/relay-server/src/scheduledAgentTools.ts:62-77 | Enqueue first, acknowledge after; the checker's position moves only on success |

## Left out

- SQL text, schema migration, WAL, JSON and ISO encodings, and the hash functions: transactions are atomic, time is an integer, identities are injective.
- HTTP clients, platform sockets, the browser script, media files, typing indicators, logging, the process supervisor and OutboundRelay's tick budget: I/O or thin policy.
- The legacy root process and its scheduler, importLegacy and exportLegacy: outside the rules proved here.
- A work row's random id is its position in the table, and a lane is identified with its conversation, which the lane directory maps one to one; lastError, createdAt, last-seen times and the counters of the reconcile report are not kept.
- ensureConversation, the conversation-ready flag and markLaneConversationReady: in the step system a failing ensureConversation is a retry or a failure of the intake row, in IntakeWorker it is the argument ensured.
- MessageWorkStores.MessageWorkStore.Reconcile: SQL leaves open in which order several commands complete; the model takes table order, which decides only the order of receipts in different lanes.
- RelayProjection.ProjectionRefinesFold: is about runs in which no projected delivery of the lane is skipped; a skip changes echo decisions (RelayReorder.EchoDecides).
- Relay: an echo scan is one step with the event it decides about, so a skip between two of its page requests is not modelled; MessageRelays.MessageRelay.IsQueuedFinalEcho covers its paging and termination.
- MessageRelays, DeliveryDispatchers, IntakeWorkers, RelayRuntimes and WhatsAppPolls: their methods run without interleaving; interleavings are the step systems' part.
- ScheduleInvariants: TaskScheduler.observe is not claimed to be safe under re-observation and is modelled without it; its select and updates are one step.
- ScheduleClock.RecurringReservationsAreFresh: is about interval and cron tasks; a resumed once task reuses its run id and is then reserved without a new run.
- TaskSchedulers.TaskScheduler.Schedule: which lane of another scope is found first depends on the order of hashed ids and is an argument; last_result and the sorting of due runs are not modelled.
- RecoveryReplay: whether the server knows a conversation and what execution status it reports are free at every step.
- LeaseProtocol: waiting for the lock file and its timeout; a timed-out operation has no effect.
- WhatsAppPolls.WhatsAppBridge.PollChat: the debounce and the rendering of prompts; batches are at least once, since a batch may grow after a crash and get a new source id.
- LedgerTables.ImportKeepsPending: a router state file that is not of the expected shape is an error of the program and not modelled.
- SlackHandoff: the owner's lane of a task is fixed; chat and thread ids of a lane are compared by the program and are not part of the model; Chrome recovery actions are readings like any other.
