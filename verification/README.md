# Verification of the job queue

This project models the lease-based job queue (store, queue, retention, worker)
and the archive verifier that replays exported histories, and proves what runs
of them guarantee. The store, the queue, the worker and the verifier are
classes and methods with loops, as in the Go code; each is proved equal to a
function of the tables, and says in terms of rows and events what its caller sees.
The theorems about whole runs are about those functions.

## How it is modelled

- **Tables.** The database is a value (`Tables.Db`): jobs keyed by id, the event
  table with rising ids, the retention runs, and the sets of ids and tokens ever
  drawn. Each SQL statement is one function on it, and one atomic step.
- **Two levels.** *Coarse*: every queue method is one step, under an integer
  clock that never runs backwards (`Coarse`, `Changes`, `Histories`, `Progress`,
  `Bypass`, `Accounting`, `Heartbeat`, `TurnLease`, `UnfencedFailure`, and `Worker`
  and `Pool` without the clock). *Fine*: every SQL statement is one step of some
  client, any number of clients interleave freely under one clock, and a client
  remembers what it read and which events it still has to append, with the time of
  the change each belongs to (`Fine`, `Timeline`, `Fencing`, `Recoveries`,
  `Conservation`, `Idempotency`, `EventCounts`, `LogOrder`, `Exports`, `OwedEvents`,
  `FencedHeartbeat`, `StaleRecovery`). The levels are tied both ways: `Serial` proves that a coarse
  step is what its statements do when nobody runs in between, and `Linearization`
  that every interleaving whose recovery writes hit rows that are still due has the
  jobs table of a legal coarse run. For that run the coarse level also has the
  recovery of a single row, stamped with the time of its scan
  (`QueueOps.RecoverRow`).
- **Log order.** A row update and its event are not in one transaction. At the
  coarse level every log replays to its job's state. At the fine level the log
  *counts* are right in every interleaving without prunes, and the log *order* is
  right exactly when every append followed an edge of the automaton from the state
  its log then stood for (`LogOrder`). `Exports` carries that to the verifier's
  verdict; it holds in particular when nobody changes a job for which an event is
  owed.
- **Time** is an integer number of nanoseconds; 0 stands for Go's zero time. The
  text order of stored timestamps is its own module (`Timestamps`).
- **Fresh values.** A drawn job id or lease token was never drawn before; that is
  an enabling condition of the step that draws it.
- **Prune** is one step at both levels, because it is one transaction.
- **The event log** of a job must be a path of the automaton in `EventLog`; the
  verifier's two transition tables are proved to be that automaton.
- **An archive line** is blank, undecodable, or a decoded record.
- **The worker slot** appears three times: as one sequential turn with any
  heartbeats while the handler runs (`Worker`), as one of many slots whose leases,
  heartbeats and finishes interleave (`Pool`), and as two goroutines whose steps
  interleave (`Slot`).

## What the documentation says and the code does not do

- The repository's README (lines 460 and 1057) and the comment at
  `internal/queue/sqlite.go:437-439` promise that concurrent recovery applies each
  orphan exactly once. The write guards on the state alone. It is a recovery of the
  scanned lease if and only if the job was not leased again since the scan and its
  deadline still lies before the scan (`Recoveries.RecoveryWriteExact`); without
  negative lease durations the deadline alone decides
  (`Recoveries.DeadlineDecides`). `StaleRecovery` reaches both failures: a job
  leased again (`LiveLeaseEnded`, which also loses an attempt) and a lease renewed
  (`RenewedLeaseEnded`), each ended while its deadline lies ahead.
- The schema declares that events refer to jobs, but foreign keys are not switched
  on: a client that appends after a prune removed the job leaves an event without
  one (`OwedEvents.EventOutlivesJob`). It happens only then
  (`OwedEvents.NoEventOutlivesJob`, `OwedEvents.AppendOrphansExact`).
- A lease may be logged before the creation of its job; the verifier then refuses
  the export of an undisturbed queue (`LogOrder.LeaseLoggedFirst`). It accepts the
  export of jobs for which nothing is owed if and only if each is within its budget
  and each append to its log followed an edge of the automaton and was stamped no
  earlier than the append before it (`Exports.ExportExact`).
- Every state change appends one event, but the unfenced `Fail` also appends one
  when no row changed. The history stays acceptable exactly when the job was
  leased (`UnfencedFailure.UnfencedFailExact`).
- Stored times are compared as text. That is time order except for two times in
  one second where one trimmed fraction is a prefix of the other
  (`Timestamps.TextOrderExact`, `Timestamps.LiveLeaseScanned`).
- The comment at `internal/queue/sqlite.go:512-513` measures aging from the earlier
  of the run time and the creation time; the code takes the run time when there is
  one. The model follows the code.
- The comment at `internal/queue/queue.go:319-320` says that recovered jobs get one
  extra attempt; recovery consumes one. The comment at `internal/fault/fault.go:42-43`
  counts attempts from zero in one sentence and from one in the other; the code
  counts from one.
- Aging prevents starvation given a cap on priorities; with aging off there is no
  bound at all (`Bypass.BoundedBypass`, `Bypass.NoBoundWithoutAging`).

## Model

| member | source | states |
|---|---|---|
| Store.SQLiteStore.InsertJob | internal/queue/sqlite.go:180-211 | the given row is stored unless some job has its key; then nothing changes, and the caller is told |
| Store.SQLiteStore.FindJobByIdempotencyKey | internal/queue/sqlite.go:213-225 | finds a job with the key exactly when there is one |
| Store.SQLiteStore.LeaseJob | internal/queue/sqlite.go:238-265 | exactly the foremost job that may run becomes leased until now plus the duration, under the drawn token; nothing changes when none may |
| Store.SQLiteStore.CompleteJob | internal/queue/sqlite.go:311-332 | completes a leased job, under its token when one is given; otherwise nothing changes and the error says which case it was |
| Store.SQLiteStore.FailJob | internal/queue/sqlite.go:344-376 | retries or dead-letters a leased job under the same guard; without a token a miss is silent |
| Store.SQLiteStore.RenewJob | internal/queue/sqlite.go:380-396 | extends the deadline only for the holder of the current token |
| Store.SQLiteStore.RequeueJob | internal/queue/sqlite.go:402-432 | a dead-lettered job becomes pending with no retries, the given budget and the new payload if one is given; any other job is refused unchanged |
| Store.SQLiteStore.ScanOrphans | internal/queue/sqlite.go:444-460 | returns each leased job past its deadline once, and no other |
| Store.SQLiteStore.RecoverRow | internal/queue/sqlite.go:466-502 | one guarded recovery write; reports whether it changed the row |
| Store.SQLiteStore.RecoverOrphanedLeases | internal/queue/sqlite.go:442-505 | one guarded write per scanned row: every scanned job loses its lease and one attempt, the last one ends it, no other row changes, and the changed rows are returned in scan order |
| Store.SQLiteStore.AppendEvent | internal/queue/sqlite.go:911-925 | one event with the next id at the end of the table |
| Store.SQLiteStore.DeleteByPolicy | internal/queue/prune.go:59-108 | a job goes, with all its events, exactly when the age limit is on and it is completed, dead-lettered or failed and was last updated before the cutoff; every other row stays, and of its events the newest under the cap, in order |
| Store.SQLiteStore.PruneWithSource | internal/queue/prune.go:45-122 | a zero policy does nothing, an unknown source is refused, any other run does the same and records its time, source, limits and true counts |
| Store.SQLiteStore.ListJobs | internal/queue/sqlite.go:547-554 | exactly the jobs that match the filter, sorted by creation time, first event and id |
| Store.SQLiteStore.GroupEvents | internal/queue/sqlite.go:564-581 | grouping the event rows in a map gives every listed job its own events in append order |
| Store.SQLiteStore.GetJobHistories | internal/queue/sqlite.go:547-588 | exactly the jobs of the state and kind asked for, oldest first, then by first event and id, each with exactly its events in append order |
| HistoryOrder.ListedTotal | internal/queue/sqlite.go:549-551 | the listing key is a strict total order: ids break the last ties |
| HistoryOrder.ListedExact | internal/queue/sqlite.go:549-551 | what the key means: an earlier creation comes first, then a job without events, then the earlier first event, then the smaller id |
| HistoryOrder.SortedUnique | internal/queue/sqlite.go:538-551 | there is only one such listing, so exports are stable when jobs share a time |
| Store.SQLiteStore.GetRetentionStats | internal/queue/sqlite.go:816-848 | manual then automatic totals, zeros when a source has no run, all when every run is its own, adding up to the totals over all runs |
| Store.Queue.Enqueue | internal/queue/queue.go:114-191 | stores the caller's kind, payload, priority, run time and key with a budget of at least one, and logs the creation; or returns the job that has the key and changes nothing |
| Store.Queue.Lease | internal/queue/queue.go:193-212 | leases the foremost job that may run and logs it, or changes no row when none may |
| Store.Queue.Renew | internal/queue/queue.go:297-316 | renews and logs for the token's holder, refuses everyone else without a trace |
| Store.Queue.Acknowledge | internal/queue/queue.go:224-243 | completes and logs, with or without fencing |
| Store.Queue.Fail | internal/queue/queue.go:255-293 | decides retry or dead letter from the row read, writes under the guard, and logs the decision; not found and lease lost change nothing |
| Store.Queue.Recover | internal/queue/queue.go:323-346 | every orphan loses its lease and one attempt, is pending or, after its last, dead-lettered, and has the one event that says so, in scan order; no other row changes |
| Store.Queue.Requeue | internal/queue/queue.go:351-385 | requeues a dead letter under the new budget, or the old one when none is given, with the new payload if one is given, and logs it |
| Idempotency.OneJobAKey | internal/queue/queue.go:139-161 | in every interleaving, prunes included: the enqueues under a key that stored a job are the one whose job is present, if any, and one for each time a prune removed it; no two jobs share a key |
| Dispatch.BeforeTransitive | internal/queue/sqlite.go:514-523 | the five-part dispatch key is transitive |
| Dispatch.BeforeTotal | internal/queue/sqlite.go:514-523 | the key is irreflexive and total: ids break every tie |
| Dispatch.Choose | internal/queue/sqlite.go:246-264 | nothing is chosen exactly when no job of the kind is ready; otherwise a ready job that comes before every other ready one |
| Dispatch.ChosenExact | internal/queue/sqlite.go:514-523 | a job is chosen if and only if it may run and, against every other that may, it has the higher effective priority, then the higher stored one, then the earlier ready time, then the earlier creation, then the smaller id |
| Dispatch.AgingPoints | internal/queue/sqlite.go:507-523 | the effective priority is the stored one plus the number of whole intervals since the run time, or the creation of a job without one; the stored one when aging is off |
| Dispatch.EarlierFirst | internal/queue/sqlite.go:514-523 | with any aging and with none, at equal priority the job that was ready earlier is leased first |
| Dispatch.BestUnique | internal/queue/sqlite.go:246-264 | there is only one such job |
| Coarse.StepKeeps | internal/queue/queue.go:114-385 | every operation, a prune and the recovery of a single due row included, keeps budgets, lease columns, unique tokens and keys, rising event ids, and each log replaying to its job's state |
| Coarse.RunKeeps | internal/queue/queue.go:114-385 | so does every legal run |
| Coarse.RecoverIsRecoverEach | internal/queue/sqlite.go:442-505 | all row updates followed by all appends amount to recovering and logging the orphans one at a time |
| Coarse.PruneEvents | internal/queue/prune.go:60-108 | what survives a prune keeps its order, and no event outlives its job |
| Coarse.PruneLogs | internal/queue/prune.go:60-108 | every surviving log still replays to its job's state |
| Changes.StepShape | internal/queue/queue.go:114-385 | every operation is a series of single-job changes, each with the event its automaton edge and retry counter call for |
| Histories.WriterVerifierAgreement | internal/cli/export.go:69-83 | after every run, prunes included, any export has no issue and never two warnings for one job, none when no log was trimmed, and each log replays to exactly the stored state |
| Histories.WriteHistoryExport | internal/cli/export.go:38-83 | one record of schema version 1 for each job the filter lists, in listing order, with its stored row and its events, and their number |
| Histories.ExportOk | internal/cli/export.go:69-83 | exported records are good one by one and share no ids |
| Histories.AttemptAccounting | internal/queue/queue.go:119-121 | in every run the leases granted since the last enqueue or requeue equal retry count plus one if leased or completed, and never exceed the budget; a job is dead-lettered exactly at its full budget |
| Histories.LogShowsAttempts | internal/queue/queue.go:193-212 | when no log was trimmed, the job's log shows exactly these leases |
| Histories.RunKeepsHistory | internal/queue/queue.go:170-191 | an untrimmed log starts with scheduled or enqueued, by whether the job has a run time |
| UnfencedFailure.UnfencedFailExact | internal/queue/sqlite.go:359-375 | after an unfenced failure the job's export is accepted if and only if the job was leased |
| UnfencedFailure.PendingJobFailed | internal/queue/queue.go:255-293 | the smallest case: a job just enqueued, failed without a token |
| Archive.ValidateRecord | internal/archive/archive.go:92-183 | the loop's issues, warnings and shared maps are those of the declared checks, in order |
| Archive.ValidateEvent | internal/archive/archive.go:134-177 | one turn of the event loop |
| Archive.ValidateEventId | internal/archive/archive.go:134-140 | a bad or repeated event id is reported, and only a good new one is remembered |
| Archive.ValidateEventFields | internal/archive/archive.go:141-177 | the other field checks in order, then the automaton, which stays where it was when it refuses an event |
| Archive.ValidateHeader | internal/archive/archive.go:103-128 | the header checks in order, and the job id remembered |
| Archive.ValidateIdentity | internal/archive/archive.go:103-112 | schema version, missing and repeated job id, and only a new id is remembered |
| Archive.ValidateFields | internal/archive/archive.go:113-128 | budget, retry count, state, times and presence of events, in order |
| Archive.VerifyLine | internal/archive/archive.go:61-79 | what one line adds to the report: nothing when blank, one issue when undecodable; one record otherwise, valid when it adds no issue |
| Archive.Verify | internal/archive/archive.go:54-90 | the report of the whole input, valid exactly when the archive is good, with the number of lines with content and of good records; a reader failure is passed on with what was read so far |
| Archive.TablesAreTheAutomaton | internal/archive/archive.go:196-234 | both transition tables are the automaton's edges, in both directions |
| Archive.EventsTellStates | internal/archive/archive.go:196-234 | each event leads to one state, whatever came before, and follows from one state only; creation events follow from none |
| Archive.RecordExact | internal/archive/archive.go:92-183 | a record has no issue if and only if header and history are good and none of its ids was seen before |
| Archive.VerifierExact | internal/archive/archive.go:54-183 | no issue if and only if every non-blank line decodes to a good record and all job ids and event ids are distinct across the archive |
| Archive.ReportExact | internal/archive/archive.go:26-42 | a line is blamed if and only if it is bad, and warned about if and only if its first event can come first in a history but did not create the job |
| Archive.CodesExact | internal/archive/archive.go:92-183 | for every line and every code, the code is reported there if and only if the line has that very fault |
| Archive.CountsExact | internal/archive/archive.go:35-79 | for every input: records counts the lines with content, valid records the good records among them, and there is one warning for each history that starts late |
| Archive.IssuesInLineOrder | internal/archive/archive.go:26-33 | issues come in line order, each naming the job of its line |
| Archive.WarningsExact | internal/archive/archive.go:158-168 | warnings come in line order, at most one a line, each of the one warning code and naming the job of its line |
| EventLog.ReplayUnique | internal/archive/archive.go:215-234 | a log replays to at most one state |
| EventLog.ReplaySuffix | internal/archive/archive.go:196-213 | every non-empty suffix of an accepted log is accepted and ends in the same state |
| Retention.KeepNewestLog | internal/queue/prune.go:91-108 | the cap leaves each job exactly its newest events, in order |
| Retention.DropJobsLog | internal/queue/prune.go:60-75 | deleting expired jobs' events leaves every other log whole |
| Retention.SurvivorsExact | internal/queue/prune.go:60-108 | the staged deletes remove exactly the outdated jobs and leave of every other log exactly its newest events under the cap |
| Retention.CapTwice | internal/queue/prune.go:91-108 | capping twice is capping at the smaller limit |
| Retention.PruneAbsorbs | internal/queue/prune.go:45-122 | two prunes in a row leave what one prune at the later time under the tighter cap leaves |
| Retention.SourcesAddUp | internal/queue/sqlite.go:816-848 | runs and removals per source add up to those over all runs |
| Retention.OfSourceExact | internal/queue/sqlite.go:822-824 | the runs counted for a source are exactly those recorded under it |
| Accounting.RetentionConservation | internal/queue/prune.go:110-121 | over every run of whole operations: jobs inserted = jobs present + jobs removed, events appended = events present + events removed, both split by source; no event outlives its job |
| Conservation.InterleavedConservation | internal/queue/prune.go:45-122 | both equations, split by source, in every interleaving of statements and prunes |
| Bypass.BoundedBypass | internal/queue/sqlite.go:507-523 | while a ready job waits, the leases of its kind granted to others are at most the attempts left to jobs ready before its horizon, those of jobs enqueued or requeued meanwhile included |
| Bypass.LateJobsDoNotDelay | internal/queue/sqlite.go:507-523 | jobs of its kind enqueued or requeued with a ready time from the horizon on, and all jobs of other kinds, never delay it |
| Bypass.GrantIsAhead | internal/queue/sqlite.go:246-264 | each such lease goes to a job ready before the horizon |
| Bypass.NoBoundWithoutAging | internal/queue/sqlite.go:514-517 | with aging off, a ready job can be passed over any number of times, however late |
| Progress.Outranks | internal/queue/sqlite.go:514-523 | at every instant a waiting job precedes every job ready at or after its ready time plus (top - priority + 1) intervals |
| Progress.HorizonExact | internal/queue/sqlite.go:514-523 | against a job of higher, top priority it does so at every instant if and only if that job is ready from then on |
| Progress.DrainBound | internal/queue/sqlite.go:344-376 | without enqueues and requeues every lease, acknowledgement, failure and recovery uses up work, so a drain ends |
| Progress.DrainedExact | internal/queue/models.go:5-16 | no work is left if and only if no job is pending or leased |
| Progress.StuckExact | internal/queue/sqlite.go:238-265 | a drain can do nothing at an instant if and only if no job is ready or leased then |
| Ledger.RecordKeeps | internal/queue/sqlite.go:238-265 | granting, keeping and ending leases row by row keeps every lease either held or over, never both |
| Ledger.RememberedKeeps | internal/queue/queue.go:255-267 | while a lease lasts, the budget columns a client read stay right |
| Fine.StepKeeps | internal/queue/sqlite.go:238-505 | every statement of any client keeps the lease ledger and every client's memory |
| Fine.ReachableOk | internal/queue/sqlite.go:238-505 | in every interleaving |
| Fencing.LeasesEndOnce | internal/queue/sqlite.go:238-396 | in every reachable state a job is leased exactly when it has a token and a deadline, no token is granted twice, no lease ends twice, and every granted lease is held or over |
| Fencing.CompletedAtMostOnce | internal/queue/sqlite.go:311-332 | in every interleaving, prunes included, each job id is completed at most once |
| Fencing.EndedForGood | internal/queue/queue.go:106-108 | a token that left a job never returns to any job |
| Fencing.StaleCallsDoNothing | internal/queue/queue.go:218-316 | renewal, acknowledgement and failure under a lease that is over change no row and append no event |
| Fencing.SplitFailureIsAtomic | internal/queue/queue.go:255-275 | in every interleaving the guarded write of a failure decides as one atomic read and write would |
| Fencing.WriteEndsScannedLease | internal/queue/sqlite.go:466-502 | a recovery write ends the scanned lease if and only if the job was not leased again since the scan; otherwise another lease ends in its place |
| Recoveries.RecoveryWriteExact | internal/queue/sqlite.go:466-502 | a recovery write is an enabled atomic recovery of the scanned lease if and only if the job was not leased again and is still due at the time of the scan |
| Recoveries.DeadlineDecides | internal/queue/sqlite.go:444-490 | when no lease was taken or renewed for a negative time, if and only if it is still due |
| Timeline.ReachableTimes | internal/queue/sqlite.go:443-447 | in every interleaving rows and scans are no newer than the clock, and a scanned job is no newer than its scan |
| Fencing.RecoveryAppliesOnce | internal/queue/sqlite.go:434-505 | when no write hits a job leased again since its scan, all clients' recovered rows are distinct leases: none is recovered twice |
| Linearization.JobsAreLinearizable | internal/queue/queue.go:114-385 | when every recovery write hits a row still due under the scanned lease, any interleaving leaves the jobs, ids and tokens of a legal run of its operations, in the order they took effect |
| Linearization.StatementEffect | internal/queue/sqlite.go:238-505 | at each statement these tables change as one whole operation, or not at all |
| Linearization.EffectEnabled | internal/queue/sqlite.go:238-505 | and that operation is one the queue could perform then |
| Linearization.PunctualBudgets | internal/queue/queue.go:264-267 | when no recovery write hits a job leased again, attempts stay inside the budget, which is spent exactly by the dead letters |
| Linearization.InterleavedAttempts | internal/queue/queue.go:264-267 | attempts are accounted for in every interleaving that is linearized |
| StaleRecovery.LiveLeaseEnded | internal/queue/sqlite.go:483-486 | a reachable state in which a late write ends a later lease whose deadline lies ahead and does not count its attempt |
| StaleRecovery.RenewedLeaseEnded | internal/queue/sqlite.go:380-396 | a reachable state in which a late write ends the same lease, renewed since the scan, with its deadline ahead |
| EventCounts.EventCountConservation | internal/queue/queue.go:163-385 | in every interleaving without prunes, events appended or owed balance for every job: one creation, every lease taken is accounted for, every dead letter is requeued or still dead, at most one acknowledgement |
| EventCounts.ActFollowsEdge | internal/queue/queue.go:224-385 | every statement that changes a row owes exactly the event of its automaton edge |
| LogOrder.TidyLogsReplay | internal/queue/queue.go:163-385 | in every interleaving in which nobody changes a job for which an event is owed, a job's log replays to its state as soon as nothing is owed for it |
| LogOrder.SettledLogDecides | internal/queue/queue.go:163-385 | whatever the order of appends without a prune, the log of a job for which nothing is owed replays to no state other than the stored one |
| LogOrder.SettledLogExact | internal/queue/queue.go:163-385 | and it replays to that if and only if every append followed an edge of the automaton from the state its log then replayed to |
| LogOrder.LeaseLoggedFirst | internal/queue/queue.go:193-212 | a reachable state in which nothing is owed and the export is refused |
| Exports.ExportExact | internal/archive/archive.go:92-183 | in every interleaving without a prune, the verifier accepts an export of jobs for which nothing is owed if and only if each is within its budget, and each append to it followed an edge and was stamped no earlier than the one before |
| Exports.TidyExportAccepted | internal/cli/export.go:69-83 | such an export is accepted after every interleaving in which nobody changes a job for which an event is owed and no recovery write hits a job leased again since its scan |
| OwedEvents.NoEventOutlivesJob | internal/queue/prune.go:60-89 | in every interleaving no event outlives its job, provided that no prune removes a job for which an event is owed |
| OwedEvents.AppendOrphansExact | internal/queue/sqlite.go:911-925 | a statement leaves an event without its job if and only if it appends an owed event of a job that is gone |
| OwedEvents.EventOutlivesJob | internal/queue/queue.go:224-243 | a reachable state with such an event |
| Serial.OperationIsSerialRun | internal/queue/queue.go:114-385 | every enabled queue method or prune, failures fenced, is an uninterrupted run of an idle client's own statements and leaves it idle |
| Serial.RecoverCall | internal/queue/queue.go:323-346 | in particular recovery: scan, one write a row, then one append a changed row |
| Worker.Worker.ProcessOne | internal/worker/worker.go:141-189 | one turn: lease, heartbeats while the handler runs, then fenced failure or acknowledgement |
| Worker.Worker.Heartbeat | internal/worker/worker.go:209-221 | one renewal a beat: while the token is held, the deadline is the last beat plus the full lease |
| Worker.Worker.Poll | internal/worker/worker.go:125-138 | any number of turns of one slot, one after the other |
| TurnLease.TurnNeverOrphan | internal/worker/worker.go:194-221 | the job of a turn is no orphan at any instant of it if and only if every heartbeat, and the finish, comes at most one lease after the one before |
| TurnLease.BeatsAreARun | internal/worker/worker.go:209-221 | the heartbeats of a turn are a run of renewals by the owner, which keeps time exactly when each gap fits |
| Worker.TurnOnJob | internal/worker/worker.go:151-188 | a turn runs one attempt of the job it leased, which completes, retries or dead-letters it by the handler's result, and leaves every other row and log alone |
| Worker.FaultCourse | internal/fault/fault.go:108-148 | whatever else is in the queue, after any turns a job that fails through attempt f is waiting with one retry a lease, or completed at retry count f after its attempt f + 1, or dead-lettered at its budget |
| Worker.FaultOutcome | internal/fault/fault.go:108-148 | once there were as many turns as the waiting jobs have attempts left, a budget of m with faults through attempt f gave exactly min(f + 1, m) leases, ending completed at retry count f when f < m and dead-lettered at m otherwise; a handler that hangs until cancelled fails every attempt |
| Pool.PoolOutcome | internal/worker/worker.go:112-138 | the same for any number of interleaved slots and other clients, with recoveries that run while heartbeats are in time: never more leases, exactly as many when the job ended, and never two slots on one job |
| Heartbeat.HeartbeatKeepsLease | internal/worker/worker.go:194-224 | when calls are atomic: whatever all other clients do, a lease whose heartbeats come in time stays with its owner through the run |
| Heartbeat.HeartbeatExact | internal/queue/sqlite.go:380-396 | when calls are atomic: heartbeats at most a gap apart keep a running job in every legal run if and only if the gap fits the lease |
| Heartbeat.LateHeartbeatExact | internal/worker/worker.go:194-221 | for a timer that restarts at the lease and at each renewal, with every heartbeat taking effect within d of being due: the job is kept in every legal run if and only if interval plus d fits the lease |
| FencedHeartbeat.NoScanSelectsRunning | internal/worker/worker.go:194-224 | statement by statement: once a job runs and no recovering client has it in hand, heartbeats before the deadline keep the lease and no recovery scan ever selects the job |
| FencedHeartbeat.TimerKeepsLease | internal/worker/worker.go:194-221 | the same for the worker's timer: every heartbeat takes effect within d of being due, and interval plus d fits the lease |
| Heartbeat.RenewalIntervalExact | internal/worker/worker.go:195-201 | a positive setting is the interval; otherwise it is the whole third of the lease, and there is a heartbeat exactly for leases of length at least 3 |
| Slot.CallsEndOnce | internal/worker/worker.go:160-223 | in every interleaving of handler and heartbeat: renewals, then at most one last call, which reports the handler's outcome; none after a finish or a failed renewal, and that cancels the handler |
| Timestamps.PadOrder | internal/queue/sqlite.go:12 | zero-padded decimal fields sort by value |
| Timestamps.FractionOrder | internal/queue/sqlite.go:12 | inside one second, trimming inverts the order exactly when the earlier fraction is a proper prefix of the later |
| Timestamps.TextOrderExact | internal/queue/sqlite.go:12 | text order of stored times is time order if and only if neither is such a prefix of the other |
| Timestamps.RoundTrip | internal/queue/sqlite.go:963-986 | every time, written in the stored layout, reads back as it was, to the nanosecond |
| Timestamps.OrphanScanExact | internal/queue/sqlite.go:444-447 | a lease due in an earlier second is always scanned, one due in a later second never, and inside the second exactly the inverted pairs are misjudged |
| Timestamps.LiveLeaseScanned | internal/queue/sqlite.go:444-447 | a deadline half a second ahead that the scan takes for past |

## Left out

- SQL text, the driver, migrations, WAL and busy timeouts: each statement is its relational meaning as one atomic step, and statement errors do not occur.
- `julianday` arithmetic: the aging quotient is exact and truncated toward zero; floating-point error is not modelled.
- 64-bit integers: counters, ids and times do not overflow.
- Randomness of ids and tokens: they are assumed fresh. Enqueue options and payload-derived fault policies come in decoded.
- JSON coding, event metadata and issue messages: no transition or check depends on them.
- `LeaseJobByID`: it bypasses the dispatch order and appends no event.
- Crashes that lose an owed event append, rows in state `failed`, and leased rows without a token: no initial state or step has them.
- Go's time parser: the reader in `Timestamps` takes the stored layout only and checks no calendar ranges.
- Text-ordered times in the main model: integer time there, exact deviation in `Timestamps`.
- The moment between reading the clock and running a statement: a statement's time is the time when it runs, and statements run in time order. A recovery write keeps the time of its scan. A creation event is stamped with the time of its insert, any other with some time between its change and its append.
- Two prunes or a prune and another statement overlapping inside the prune transaction: SQLite excludes it.
- The slot semaphore, start-up recovery and shutdown of `Run`, and the retention timer: a slot's turns, recoveries and prunes are steps that may come at any time.
- Linearization.JobsAreLinearizable: recovery writes to rows still due only, because any other is no operation's effect (Recoveries.RecoveryWriteExact); and jobs, ids and tokens only, because events are appended later than their change.
- LogOrder.TidyLogsReplay: no prune; Exports.ExportExact is for runs without one too, since a trimmed log no longer holds the events that the counts speak of.
- EventCounts.EventCountConservation: fenced operations and no prune, because the unfenced failure appends an event for no change and a prune deletes events; Fencing.CompletedAtMostOnce holds with prunes.
- Accounting.RetentionConservation: whole operations; Conservation.InterleavedConservation has its equations in every interleaving, and there its last part needs prunes to spare jobs with owed events (OwedEvents.NoEventOutlivesJob).
- Bypass.BoundedBypass: the priorities of the kind have a cap; Progress.HorizonExact shows that the horizon for that cap cannot be shortened.
- Worker.FaultOutcome: the slot's leases are never lost to recovery (TurnLease.TurnNeverOrphan says when), and only hanging handlers are cancelled.
- Pool.PoolOutcome: nobody else requeues, finishes or leases the job; all slots share one kind, lease duration and handler.
- Heartbeat.HeartbeatKeepsLease: a late write of a split recovery is not a coarse operation; FencedHeartbeat.NoScanSelectsRunning covers it.
- Web server, dashboard, authentication, metrics, command line, fixtures and demo: input and output, or only easy members.
