/**
  Runs of whole operations: every queue method is one atomic step under a clock
  that never runs backwards. Job ids and lease tokens are fresh when drawn.
 */
module Coarse {
  import opened Records
  import opened Dispatch
  import opened Tables
  import opened Retention
  import opened EventLog
  import Q = QueueOps

  datatype World = World(db: Db, clock: int)

  const START := World(EMPTY, 1)

  datatype Op =
    | Enqueue(id: JobId, spec: Q.NewJob, now: int)
    | Lease(kind: string, duration: int, token: Token, now: int, logged: int)
    | Renew(id: JobId, token: Token, duration: int, now: int, logged: int)
    | Acknowledge(id: JobId, token: Token, now: int, logged: int)
    | Fail(id: JobId, token: Token, now: int, logged: int)
    | Recover(scan: seq<Row>, now: int, logged: int)
    | RecoverRow(id: JobId, due: int, now: int, logged: int)
    | Requeue(id: JobId, maxAttempts: int, payload: Option<string>, now: int, logged: int)
    | PruneRun(policy: Policy, source: Source, now: int)
  {
    /** When the operation's event is stamped. */
    function End(): int {
      if Enqueue? || PruneRun? then now else logged
    }
  }

  /**
    Time order and freshness; a scan is what the database returns; the row of a
    single recovery write was due when it was scanned and still is; an unfenced
    failure is only reported on a leased job.
   */
  ghost predicate Enabled(w: World, op: Op) {
    && w.clock <= op.now <= op.End()
    && match op
       case Enqueue(id, _, _) => id != "" && id !in w.db.ids
       case Lease(_, _, token, _, _) => token != "" && token !in w.db.tokens
       case Fail(id, token, _, _) => token != "" || (id in w.db.jobs ==> w.db.jobs[id].state == Leased)
       case Recover(scan, now, _) => IsOrphanScan(w.db.jobs, scan, now)
       case RecoverRow(id, due, now, _) =>
         due <= now && id in w.db.jobs && IsOrphan(w.db.jobs[id], due) && w.db.jobs[id].createdAt <= due
       case _ => true
  }

  ghost function Apply(aging: int, db: Db, op: Op): Db {
    match op
    case Enqueue(id, spec, now) => Q.Enqueue(db, id, spec, now)
    case Lease(kind, duration, token, now, logged) => Q.Lease(db, aging, kind, duration, token, now, logged)
    case Renew(id, token, duration, now, logged) => Q.Renew(db, id, token, duration, now, logged)
    case Acknowledge(id, token, now, logged) => Q.Acknowledge(db, id, token, now, logged)
    case Fail(id, token, now, logged) => Q.Fail(db, id, token, now, logged)
    case Recover(scan, now, logged) => Q.Recover(db, scan, now, logged)
    case RecoverRow(id, due, _, logged) => Q.RecoverRow(db, id, due, logged)
    case Requeue(id, maxAttempts, payload, now, logged) => Q.Requeue(db, id, maxAttempts, payload, now, logged)
    case PruneRun(policy, source, now) => Prune(db, policy, source, now)
  }

  ghost function Step(aging: int, w: World, op: Op): World {
    World(Apply(aging, w.db, op), op.End())
  }

  ghost function After(aging: int, from: World, ops: seq<Op>): World {
    if ops == [] then from else Step(aging, After(aging, from, ops[..|ops| - 1]), ops[|ops| - 1])
  }

  ghost predicate Legal(aging: int, from: World, ops: seq<Op>) {
    ops == [] || (Legal(aging, from, ops[..|ops| - 1]) &&
                  Enabled(After(aging, from, ops[..|ops| - 1]), ops[|ops| - 1]))
  }

  // ---- Invariant ----

  /** Budget, lease columns and times of one row. */
  predicate RowOk(j: Job, clock: int) {
    && ZERO_TIME < j.createdAt <= j.updatedAt <= clock
    && (j.state == Pending || j.state == Leased || j.state == Completed || j.state == DeadLetter)
    && (if j.state == DeadLetter then j.retryCount == j.maxAttempts else 0 <= j.retryCount < j.maxAttempts)
    && j.maxAttempts >= 1
    && (j.state == Leased <==> j.token.Some?) && (j.state == Leased <==> j.leasedUntil.Some?)
    && (j.token.Some? ==> j.token.value != "")
  }

  ghost predicate RowsOk(db: Db, clock: int) {
    forall id | id in db.jobs :: id != "" && id in db.ids && RowOk(db.jobs[id], clock)
  }

  /** Live tokens are known and belong to one job; idempotency keys belong to one job. */
  ghost predicate UniqueOk(db: Db) {
    && (forall id | id in db.jobs && db.jobs[id].token.Some? :: db.jobs[id].token.value in db.tokens)
    && (forall a, b | a in db.jobs && b in db.jobs && a != b ::
          (db.jobs[a].token.Some? ==> db.jobs[a].token != db.jobs[b].token) &&
          (db.jobs[a].key.Some? ==> db.jobs[a].key != db.jobs[b].key))
  }

  ghost predicate EventsOk(db: Db, clock: int) {
    && Rising(db.events)
    && 0 < db.nextEventId
    && forall e | e in db.events :: 0 < e.id < db.nextEventId && ZERO_TIME < e.at <= clock && e.jobId in db.jobs
  }

  /** Every job's log replays to the state its row stores. */
  ghost predicate LogsOk(db: Db) {
    forall id | id in db.jobs :: Replays(Log(db.events, id), db.jobs[id].state)
  }

  /** What was inserted or appended is present or was removed by a recorded run. */
  ghost predicate CountsOk(db: Db) {
    && |db.ids| == |db.jobs| + JobsRemoved(db.runs)
    && db.nextEventId - 1 == |db.events| + EventsRemoved(db.runs)
    && forall r | r in db.runs :: !r.source.OtherSource?
  }

  ghost predicate Inv(w: World) {
    RowsOk(w.db, w.clock) && UniqueOk(w.db) && EventsOk(w.db, w.clock) && LogsOk(w.db) && CountsOk(w.db)
    && w.clock > ZERO_TIME
  }

  function Known(tokens: set<Token>, freshToken: Option<Token>): set<Token> {
    if freshToken.Some? then tokens + {freshToken.value} else tokens
  }

  /** One job changes along an edge of the automaton and the matching event is appended. */
  function Move(db: Db, id: JobId, j: Job, kind: EventType, at: int, freshToken: Option<Token>): Db {
    AppendStmt(db.(jobs := db.jobs[id := j], tokens := Known(db.tokens, freshToken)), id, kind, at)
  }

  /** The new row keeps the key, and its token is gone, kept or fresh. */
  predicate SafeUpdate(db: Db, before: Job, after: Job, freshToken: Option<Token>) {
    && after.key == before.key
    && (after.token == None || after.token == before.token ||
        (freshToken.Some? && after.token == freshToken && freshToken.value !in db.tokens))
  }

  lemma MoveEvents(db: Db, clock: int, id: JobId, j: Job, kind: EventType, at: int, freshToken: Option<Token>)
    requires EventsOk(db, clock) && ZERO_TIME < clock <= at && id in db.jobs
    ensures EventsOk(Move(db, id, j, kind, at, freshToken), at)
  {
    var after := Move(db, id, j, kind, at, freshToken).events;
    forall i, k | 0 <= i < k < |after| ensures after[i].id < after[k].id && after[i].at <= after[k].at {
      assert after[i] == db.events[i] && db.events[i] in db.events;
    }
  }

  lemma MoveUnique(db: Db, id: JobId, j: Job, kind: EventType, at: int, freshToken: Option<Token>)
    requires UniqueOk(db) && id in db.jobs && SafeUpdate(db, db.jobs[id], j, freshToken)
    ensures UniqueOk(Move(db, id, j, kind, at, freshToken))
  {
  }

  lemma MoveLogs(db: Db, id: JobId, j: Job, kind: EventType, at: int, freshToken: Option<Token>)
    requires LogsOk(db) && id in db.jobs && Edge(db.jobs[id].state, kind, j.state)
    ensures LogsOk(Move(db, id, j, kind, at, freshToken))
  {
    var e := Event(db.nextEventId, id, kind, at);
    forall other | other in db.jobs
      ensures Replays(Log(db.events + [e], other), db.jobs[id := j][other].state)
    {
      LogAppend(db.events, e, other);
      if other == id {
        ReplayExtend(Log(db.events, id), db.jobs[id].state, e, j.state);
      } else {
        assert Log(db.events, other) + [] == Log(db.events, other);
      }
    }
  }

  lemma MoveRows(db: Db, clock: int, id: JobId, j: Job, kind: EventType, at: int, freshToken: Option<Token>)
    requires RowsOk(db, clock) && clock <= at && id in db.jobs && RowOk(j, at)
    ensures RowsOk(Move(db, id, j, kind, at, freshToken), at)
  {
  }

  lemma MoveCounts(db: Db, id: JobId, j: Job, kind: EventType, at: int, freshToken: Option<Token>)
    requires CountsOk(db) && id in db.jobs
    ensures CountsOk(Move(db, id, j, kind, at, freshToken))
  {
    assert |db.jobs[id := j].Keys| == |db.jobs.Keys| by { assert db.jobs[id := j].Keys == db.jobs.Keys; }
  }

  lemma MoveKeeps(w: World, id: JobId, j: Job, kind: EventType, at: int, freshToken: Option<Token>)
    requires Inv(w) && w.clock <= at && id in w.db.jobs
    requires Edge(w.db.jobs[id].state, kind, j.state) && RowOk(j, at)
    requires SafeUpdate(w.db, w.db.jobs[id], j, freshToken)
    ensures Inv(World(Move(w.db, id, j, kind, at, freshToken), at))
  {
    MoveRows(w.db, w.clock, id, j, kind, at, freshToken);
    MoveUnique(w.db, id, j, kind, at, freshToken);
    MoveEvents(w.db, w.clock, id, j, kind, at, freshToken);
    MoveLogs(w.db, id, j, kind, at, freshToken);
    MoveCounts(w.db, id, j, kind, at, freshToken);
  }

  // ---- Every operation keeps the invariant ----

  lemma NoLogYet(db: Db, clock: int, id: JobId)
    requires EventsOk(db, clock) && id !in db.jobs
    ensures Log(db.events, id) == []
  {
    LogEmpty(db.events, id);
  }

  lemma InsertLogs(db: Db, clock: int, id: JobId, row: Job, kind: EventType, at: int)
    requires LogsOk(db) && EventsOk(db, clock) && id !in db.jobs
    requires row.state == Pending && (kind.Enqueued? || kind.Scheduled?)
    ensures LogsOk(AppendStmt(db.(jobs := db.jobs[id := row]), id, kind, at))
  {
    var e := Event(db.nextEventId, id, kind, at);
    NoLogYet(db, clock, id);
    ReplayOne(e, Pending);
    forall other | other in db.jobs[id := row]
      ensures Replays(Log(db.events + [e], other), db.jobs[id := row][other].state)
    {
      LogAppend(db.events, e, other);
      if other == id { assert [] + [e] == [e]; }
      else { assert Log(db.events, other) + [] == Log(db.events, other); }
    }
  }

  lemma InsertEvents(db: Db, clock: int, id: JobId, row: Job, kind: EventType, at: int)
    requires EventsOk(db, clock) && ZERO_TIME < clock <= at
    ensures EventsOk(AppendStmt(db.(jobs := db.jobs[id := row]), id, kind, at), at)
  {
    var after := AppendStmt(db.(jobs := db.jobs[id := row]), id, kind, at).events;
    forall i, k | 0 <= i < k < |after| ensures after[i].id < after[k].id && after[i].at <= after[k].at {
      assert after[i] == db.events[i] && db.events[i] in db.events;
    }
  }

  lemma InsertRows(db: Db, clock: int, id: JobId, row: Job)
    requires RowsOk(db, clock) && clock <= row.updatedAt && id != "" && RowOk(row, row.updatedAt)
    ensures RowsOk(db.(jobs := db.jobs[id := row], ids := db.ids + {id}), row.updatedAt)
  {
  }

  lemma InsertCounts(db: Db, id: JobId, row: Job, kind: EventType, at: int)
    requires CountsOk(db) && id !in db.jobs && id !in db.ids
    ensures CountsOk(AppendStmt(db.(jobs := db.jobs[id := row], ids := db.ids + {id}), id, kind, at))
  {
  }

  lemma InsertUnique(db: Db, id: JobId, row: Job, kind: EventType, at: int)
    requires UniqueOk(db) && id !in db.jobs && row.token == None && !KeyTaken(db.jobs, row.key)
    ensures UniqueOk(AppendStmt(db.(jobs := db.jobs[id := row], ids := db.ids + {id}), id, kind, at))
  {
  }

  lemma EnqueueKeeps(w: World, id: JobId, spec: Q.NewJob, now: int)
    requires Inv(w) && w.clock <= now && id != "" && id !in w.db.ids
    ensures Inv(World(Q.Enqueue(w.db, id, spec, now), now))
  {
    var row, kind := Q.NewRow(spec, now), Q.CreationEvent(spec);
    if KeyTaken(w.db.jobs, row.key) {
      WaitKeeps(w, now);
    } else {
      InsertRows(w.db, w.clock, id, row);
      InsertUnique(w.db, id, row, kind, now);
      InsertLogs(w.db, w.clock, id, row, kind, now);
      InsertEvents(w.db, w.clock, id, row, kind, now);
      InsertCounts(w.db, id, row, kind, now);
    }
  }

  /** Old events that survive still belong to surviving jobs: no event outlives its job. */
  lemma PruneEvents(db: Db, clock: int, p: Policy, now: int)
    requires EventsOk(db, clock) && clock <= now
    ensures EventsOk(db.(jobs := SurvivingJobs(db.jobs, p, now),
            events := SurvivingEvents(db.jobs, db.events, p, now)), now)
  {
    var gone := Doomed(db.jobs, p, now);
    var kept := DropJobs(db.events, gone);
    DropJobsSubsequence(db.events, gone);
    SubsequenceRising(kept, db.events);
    SubsequenceMembers(kept, db.events);
    var capped := CapEvents(kept, p.maxEventsPerJob);
    if p.maxEventsPerJob > 0 {
      KeepNewestSubsequence(kept, p.maxEventsPerJob);
      SubsequenceRising(capped, kept);
      SubsequenceMembers(capped, kept);
    }
  }

  /** A surviving log is the newest part of the old one, so it still replays to the same state. */
  lemma PruneLogs(db: Db, p: Policy, now: int)
    requires LogsOk(db)
    ensures LogsOk(db.(jobs := SurvivingJobs(db.jobs, p, now), events := SurvivingEvents(db.jobs, db.events, p, now)))
  {
    var gone := Doomed(db.jobs, p, now);
    forall id | id in db.jobs && id !in gone
      ensures Replays(Log(SurvivingEvents(db.jobs, db.events, p, now), id), db.jobs[id].state)
    {
      var log := Log(db.events, id);
      DropJobsLog(db.events, gone, id);
      if p.maxEventsPerJob > 0 {
        KeepNewestLog(DropJobs(db.events, gone), p.maxEventsPerJob, id);
        if |log| > p.maxEventsPerJob { ReplaySuffix(log, |log| - p.maxEventsPerJob, db.jobs[id].state); }
      }
    }
  }

  lemma PruneRows(db: Db, clock: int, gone: set<JobId>, now: int)
    requires RowsOk(db, clock) && clock <= now
    ensures RowsOk(db.(jobs := db.jobs - gone), now)
  {
    forall id | id in db.jobs - gone ensures id != "" && id in db.ids && RowOk((db.jobs - gone)[id], now) {
      assert RowOk(db.jobs[id], clock);
    }
  }

  lemma PruneUnique(db: Db, gone: set<JobId>)
    requires UniqueOk(db)
    ensures UniqueOk(db.(jobs := db.jobs - gone))
  {
  }

  /** A recorded run accounts for exactly the rows that are gone. */
  lemma PruneCounts(db: Db, p: Policy, source: Source, now: int, jobs: Jobs, events: seq<Event>)
    requires CountsOk(db) && !source.OtherSource?
    ensures CountsOk(Pruned(db, p, source, now, jobs, events))
  {
    var after := Pruned(db, p, source, now, jobs, events);
    assert after.runs[..|db.runs|] == db.runs;
  }

  /** The parts of the invariant look at different tables, and a prune records its run. */
  lemma PruneParts(db: Db, clock: int, p: Policy, source: Source, now: int, jobs: Jobs, events: seq<Event>)
    requires clock <= now && clock > ZERO_TIME
    requires RowsOk(db.(jobs := jobs), now) && UniqueOk(db.(jobs := jobs)) &&
              CountsOk(Pruned(db, p, source, now, jobs, events))
    requires EventsOk(db.(jobs := jobs, events := events), now) && LogsOk(db.(jobs := jobs, events := events))
    ensures Inv(World(Pruned(db, p, source, now, jobs, events), now))
  {
  }

  lemma PruneKeeps(w: World, p: Policy, source: Source, now: int)
    requires Inv(w) && w.clock <= now
    ensures Inv(World(Prune(w.db, p, source, now), now))
  {
    if (p.maxJobAge <= 0 && p.maxEventsPerJob <= 0) || source.OtherSource? {
      WaitKeeps(w, now);
    } else {
      var jobs, events := SurvivingJobs(w.db.jobs, p, now), SurvivingEvents(w.db.jobs, w.db.events, p, now);
      PruneRows(w.db, w.clock, Doomed(w.db.jobs, p, now), now);
      PruneUnique(w.db, Doomed(w.db.jobs, p, now));
      PruneCounts(w.db, p, source, now, jobs, events);
      PruneEvents(w.db, w.clock, p, now);
      PruneLogs(w.db, p, now);
      PruneParts(w.db, w.clock, p, source, now, jobs, events);
    }
  }

  // ---- Recovery: all row updates and then all appends amount to one move per orphan ----

  function RecoverOne(db: Db, r: Row, now: int, logged: int): Db {
    Move(db, r.id, RecoveredRow(r.job, r.job, now), Q.RecoveryEvent(RecoveryState(r.job)), logged, None)
  }

  function RecoverEach(db: Db, scan: seq<Row>, now: int, logged: int): Db
    decreases |scan|
  {
    if scan == [] then db else RecoverEach(RecoverOne(db, scan[0], now, logged), scan[1..], now, logged)
  }

  lemma {:induction false} AppendCommutes(db: Db, scan: seq<Row>, now: int, id: JobId, kind: EventType, at: int)
    ensures Q.RecoverRows(AppendStmt(db, id, kind, at), scan, now) ==
            AppendStmt(Q.RecoverRows(db, scan, now), id, kind, at)
    ensures Q.Touched(AppendStmt(db, id, kind, at), scan, now) == Q.Touched(db, scan, now)
    decreases |scan|
  {
    if scan != [] {
      assert RecoverStmt(AppendStmt(db, id, kind, at), scan[0], now) ==
          AppendStmt(RecoverStmt(db, scan[0], now), id, kind, at);
      AppendCommutes(RecoverStmt(db, scan[0], now), scan[1..], now, id, kind, at);
    }
  }

  lemma {:induction false} LoggingKeepsJobs(db: Db, touched: seq<Row>, logged: int)
    ensures Q.LogRecovered(db, touched, logged).jobs == db.jobs
    decreases |touched|
  {
    if touched != [] {
      var one := AppendStmt(db, touched[0].id, Q.RecoveryEvent(touched[0].job.state), logged);
      LoggingKeepsJobs(one, touched[1..], logged);
    }
  }

  lemma {:induction false} RecoverIsRecoverEach(db: Db, scan: seq<Row>, now: int, logged: int)
    requires Q.ScanCurrent(db.jobs, scan)
    ensures Q.Recover(db, scan, now, logged) == RecoverEach(db, scan, now, logged)
    decreases |scan|
  {
    if scan != [] {
      var r, rest := scan[0], scan[1..];
      var updated := RecoverStmt(db, r, now);
      var kind := Q.RecoveryEvent(RecoveryState(r.job));
      var one := RecoverOne(db, r, now, logged);
      assert one == AppendStmt(updated, r.id, kind, logged);
      Q.ScanShrinks(db.jobs, scan, RecoveredRow(r.job, r.job, now));
      RecoverIsRecoverEach(one, rest, now, logged);
      AppendCommutes(updated, rest, now, r.id, kind, logged);
      var touched := Q.Touched(updated, rest, now);
      assert Q.Touched(db, scan, now) == [Q.TouchedRow(r)] + touched;
      assert ([Q.TouchedRow(r)] + touched)[1..] == touched;
    }
  }

  lemma {:induction false} RecoverEachKeeps(w: World, scan: seq<Row>, now: int, logged: int)
    requires Inv(w) && w.clock <= logged && now <= logged && Q.ScanCurrent(w.db.jobs, scan)
    requires forall i | 0 <= i < |scan| :: scan[i].job.createdAt <= now
    ensures Inv(World(RecoverEach(w.db, scan, now, logged), logged))
    decreases |scan|
  {
    if scan != [] {
      var r := scan[0];
      var j := RecoveredRow(r.job, r.job, now);
      assert RowOk(w.db.jobs[r.id], w.clock);
      MoveKeeps(w, r.id, j, Q.RecoveryEvent(RecoveryState(r.job)), logged, None);
      Q.ScanShrinks(w.db.jobs, scan, j);
      RecoverEachKeeps(World(RecoverOne(w.db, r, now, logged), logged), scan[1..], now, logged);
    } else {
      WaitKeeps(w, logged);
    }
  }

  lemma WaitKeeps(w: World, at: int)
    requires Inv(w) && w.clock <= at
    ensures Inv(World(w.db, at))
  {
  }

  lemma LeaseKeeps(w: World, aging: int, kind: string, duration: int, token: Token, now: int, logged: int)
    requires Inv(w) && w.clock <= now <= logged && token != "" && token !in w.db.tokens
    ensures Inv(World(Q.Lease(w.db, aging, kind, duration, token, now, logged), logged))
  {
    var best := Choose(w.db.jobs, kind, now, aging);
    if best.Some? {
      var j := w.db.jobs[best.value];
      assert RowOk(j, w.clock);
      MoveKeeps(w, best.value, LeasedRow(j, now, duration, token), LeaseTaken, logged, Some(token));
    } else {
      WaitKeeps(w, logged);
    }
  }

  lemma RenewKeeps(w: World, id: JobId, token: Token, duration: int, now: int, logged: int)
    requires Inv(w) && w.clock <= now <= logged
    ensures Inv(World(Q.Renew(w.db, id, token, duration, now, logged), logged))
  {
    WaitKeeps(w, logged);
    if HoldsToken(w.db.jobs, id, token) {
      var j := w.db.jobs[id];
      assert RowOk(j, w.clock);
      MoveKeeps(w, id, RenewedRow(j, now, duration), LeaseRenewed, logged, None);
    }
  }

  lemma AcknowledgeKeeps(w: World, id: JobId, token: Token, now: int, logged: int)
    requires Inv(w) && w.clock <= now <= logged
    ensures Inv(World(Q.Acknowledge(w.db, id, token, now, logged), logged))
  {
    WaitKeeps(w, logged);
    if HoldsLease(w.db.jobs, id, token) {
      var j := w.db.jobs[id];
      assert RowOk(j, w.clock);
      MoveKeeps(w, id, Released(j, Completed, j.retryCount, now), EventType.Acknowledged, logged, None);
    }
  }

  lemma FailKeeps(w: World, id: JobId, token: Token, now: int, logged: int)
    requires Inv(w) && w.clock <= now <= logged
    requires token != "" || (id in w.db.jobs ==> w.db.jobs[id].state == Leased)
    ensures Inv(World(Q.Fail(w.db, id, token, now, logged), logged))
  {
    WaitKeeps(w, logged);
    if id in w.db.jobs && (token == "" || HoldsToken(w.db.jobs, id, token)) {
      var j := w.db.jobs[id];
      assert RowOk(j, w.clock);
      MoveKeeps(w, id, FailedRow(j, Q.ShouldRetry(j), now), Q.FailureEvent(Q.ShouldRetry(j)), logged, None);
    }
  }

  lemma RequeueKeeps(w: World, id: JobId, maxAttempts: int, payload: Option<string>, now: int, logged: int)
    requires Inv(w) && w.clock <= now <= logged
    ensures Inv(World(Q.Requeue(w.db, id, maxAttempts, payload, now, logged), logged))
  {
    WaitKeeps(w, logged);
    if id in w.db.jobs && w.db.jobs[id].state == DeadLetter {
      var j := w.db.jobs[id];
      assert RowOk(j, w.clock);
      var budget := if maxAttempts >= 1 then maxAttempts else j.maxAttempts;
      MoveKeeps(w, id, RequeuedRow(j, budget, payload, now), Requeued, logged, None);
    }
  }

  lemma RecoverRowKeeps(w: World, id: JobId, due: int, now: int, logged: int)
    requires Inv(w) && Enabled(w, RecoverRow(id, due, now, logged))
    ensures Inv(World(Q.RecoverRow(w.db, id, due, logged), logged))
  {
    var j := w.db.jobs[id];
    assert RowOk(j, w.clock);
    MoveKeeps(w, id, RecoveredRow(j, j, due), Q.RecoveryEvent(RecoveryState(j)), logged, None);
  }

  lemma StepKeeps(aging: int, w: World, op: Op)
    requires Inv(w) && Enabled(w, op)
    ensures Inv(Step(aging, w, op))
  {
    match op
    case Enqueue(id, spec, now) => EnqueueKeeps(w, id, spec, now);
    case Lease(kind, duration, token, now, logged) => LeaseKeeps(w, aging, kind, duration, token, now, logged);
    case Recover(scan, now, logged) =>
      forall i | 0 <= i < |scan| ensures scan[i].job.createdAt <= now {
        assert RowOk(w.db.jobs[scan[i].id], w.clock);
      }
      RecoverIsRecoverEach(w.db, scan, now, logged);
      RecoverEachKeeps(w, scan, now, logged);
    case RecoverRow(id, due, now, logged) => RecoverRowKeeps(w, id, due, now, logged);
    case PruneRun(policy, source, now) => PruneKeeps(w, policy, source, now);
    case Renew(id, token, duration, now, logged) => RenewKeeps(w, id, token, duration, now, logged);
    case Acknowledge(id, token, now, logged) => AcknowledgeKeeps(w, id, token, now, logged);
    case Fail(id, token, now, logged) => FailKeeps(w, id, token, now, logged);
    case Requeue(id, maxAttempts, payload, now, logged) => RequeueKeeps(w, id, maxAttempts, payload, now, logged);
  }

  /** The invariant holds after every legal run. */
  lemma {:induction false} RunKeeps(aging: int, from: World, ops: seq<Op>)
    requires Inv(from) && Legal(aging, from, ops)
    ensures Inv(After(aging, from, ops))
  {
    if ops != [] {
      RunKeeps(aging, from, ops[..|ops| - 1]);
      StepKeeps(aging, After(aging, from, ops[..|ops| - 1]), ops[|ops| - 1]);
    }
  }
}
