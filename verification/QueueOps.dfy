/**
  The queue's operations on the database value, each one the composition of the
  statements it runs. Here an operation is one atomic step; time is passed in,
  "now" for the state change and "logged" for the event append.
 */
module QueueOps {
  import opened Records
  import opened Dispatch
  import opened Tables
  import opened Retention

  datatype NewJob = NewJob(
    kind: string, payload: string, maxAttempts: int, priority: int, key: string, runAt: Option<int>)

  /** The row Enqueue inserts: at least one attempt, no key when the key is empty. */
  function NewRow(spec: NewJob, now: int): Job {
    Job(spec.kind, spec.payload, Pending, 0, if spec.maxAttempts < 1 then 1 else spec.maxAttempts, spec.priority,
        if spec.key == "" then None else Some(spec.key), now, now, None, None, spec.runAt)
  }

  function CreationEvent(spec: NewJob): EventType {
    if spec.runAt.Some? then Scheduled else Enqueued
  }

  ghost function Enqueue(db: Db, id: JobId, spec: NewJob, now: int): Db {
    var row := NewRow(spec, now);
    if KeyTaken(db.jobs, row.key) then db
    else AppendStmt(InsertStmt(db, id, row), id, CreationEvent(spec), now)
  }

  ghost function Lease(db: Db, aging: int, kind: string, duration: int, token: Token, now: int, logged: int): Db {
    var best := Choose(db.jobs, kind, now, aging);
    var taken := LeaseStmt(db, aging, kind, duration, token, now);
    if best == None then taken else AppendStmt(taken, best.value, LeaseTaken, logged)
  }

  function Renew(db: Db, id: JobId, token: Token, duration: int, now: int, logged: int): Db {
    if HoldsToken(db.jobs, id, token) then
      AppendStmt(RenewStmt(db, id, token, duration, now), id, LeaseRenewed, logged)
    else db
  }

  /** Acknowledge when the token is empty, AcknowledgeLease otherwise. */
  function Acknowledge(db: Db, id: JobId, token: Token, now: int, logged: int): Db {
    if HoldsLease(db.jobs, id, token) then
      AppendStmt(CompleteStmt(db, id, token, now), id, Acknowledged, logged)
    else db
  }

  predicate ShouldRetry(j: Job) {
    j.retryCount + 1 < j.maxAttempts
  }

  function FailureEvent(retry: bool): EventType {
    if retry then Retried else DeadLettered
  }

  /**
    Fail when the token is empty, FailLease otherwise. The unfenced form appends
    its event even when the update matched no row.
   */
  function Fail(db: Db, id: JobId, token: Token, now: int, logged: int): Db {
    if id !in db.jobs || (token != "" && !HoldsToken(db.jobs, id, token)) then db
    else
      var retry := ShouldRetry(db.jobs[id]);
      AppendStmt(FailStmt(db, id, token, retry, now), id, FailureEvent(retry), logged)
  }

  function Requeue(db: Db, id: JobId, maxAttempts: int, payload: Option<string>, now: int, logged: int): Db {
    if id in db.jobs && db.jobs[id].state == DeadLetter then
      var budget := if maxAttempts >= 1 then maxAttempts else db.jobs[id].maxAttempts;
      AppendStmt(RequeueStmt(db, id, budget, payload, now), id, Requeued, logged)
    else db
  }

  // ---- Recovery: one scan, then one guarded write per row, then one event per changed row ----

  function RecoverRows(db: Db, scan: seq<Row>, now: int): Db
    decreases |scan|
  {
    if scan == [] then db else RecoverRows(RecoverStmt(db, scan[0], now), scan[1..], now)
  }

  /** The rows whose write matched, as RecoverOrphanedLeases returns them. */
  function Touched(db: Db, scan: seq<Row>, now: int): seq<Row>
    decreases |scan|
  {
    if scan == [] then []
    else
      var rest := Touched(RecoverStmt(db, scan[0], now), scan[1..], now);
      if HoldsLease(db.jobs, scan[0].id, "") then [TouchedRow(scan[0])] + rest else rest
  }

  function TouchedRow(r: Row): Row {
    Row(r.id, r.job.(state := RecoveryState(r.job), retryCount := r.job.retryCount + 1))
  }

  function RecoveryEvent(state: JobState): EventType {
    if state == DeadLetter then DeadLettered else Recovered
  }

  function LogRecovered(db: Db, touched: seq<Row>, logged: int): Db
    decreases |touched|
  {
    if touched == [] then db
    else LogRecovered(AppendStmt(db, touched[0].id, RecoveryEvent(touched[0].job.state), logged), touched[1..], logged)
  }

  function Recover(db: Db, scan: seq<Row>, now: int, logged: int): Db {
    LogRecovered(RecoverRows(db, scan, now), Touched(db, scan, now), logged)
  }

  /** One row after its recovery: an attempt is spent, and the last one ends the job. */
  function AfterRecovery(j: Job, now: int): Job {
    j.(state := if j.retryCount + 1 < j.maxAttempts then Pending else DeadLetter, retryCount := j.retryCount + 1,
       leasedUntil := None, token := None, updatedAt := now)
  }

  /** The scanned rows are still the stored rows, one per job. */
  ghost predicate ScanCurrent(jobs: Jobs, scan: seq<Row>) {
    && (forall i | 0 <= i < |scan| ::
          scan[i].id in jobs && jobs[scan[i].id] == scan[i].job && scan[i].job.state == Leased)
    && (forall i, k | 0 <= i < k < |scan| :: scan[i].id != scan[k].id)
  }

  lemma ScanShrinks(jobs: Jobs, scan: seq<Row>, j: Job)
    requires scan != [] && ScanCurrent(jobs, scan)
    ensures ScanCurrent(jobs[scan[0].id := j], scan[1..])
  {
  }

  /** Every scanned row is recovered, and no other row is touched. */
  ghost predicate RowsRecovered(before: Jobs, after: Jobs, scan: seq<Row>, now: int) {
    && after.Keys == before.Keys
    && (forall i | 0 <= i < |scan| :: scan[i].id in after && after[scan[i].id] == AfterRecovery(scan[i].job, now))
    && (forall id | id in before && (forall i | 0 <= i < |scan| :: scan[i].id != id) :: after[id] == before[id])
  }

  lemma {:induction false} RecoveredRows(db: Db, scan: seq<Row>, now: int)
    requires ScanCurrent(db.jobs, scan)
    ensures RowsRecovered(db.jobs, RecoverRows(db, scan, now).jobs, scan, now)
    ensures RecoverRows(db, scan, now).events == db.events && RecoverRows(db, scan, now).nextEventId == db.nextEventId
    decreases |scan|
  {
    if scan != [] {
      var next, rest := RecoverStmt(db, scan[0], now), scan[1..];
      var after := RecoverRows(db, scan, now).jobs;
      ScanShrinks(db.jobs, scan, next.jobs[scan[0].id]);
      RecoveredRows(next, rest, now);
      assert forall i | 0 <= i < |rest| :: rest[i] == scan[i + 1];
      assert after[scan[0].id] == next.jobs[scan[0].id];
      forall i | 0 <= i < |scan| ensures scan[i].id in after && after[scan[i].id] == AfterRecovery(scan[i].job, now) {
        if i > 0 { assert scan[i] == rest[i - 1]; }
      }
      forall id | id in db.jobs && (forall i | 0 <= i < |scan| :: scan[i].id != id) ensures after[id] == db.jobs[id] {
        assert forall i | 0 <= i < |rest| :: rest[i].id != id;
        assert id != scan[0].id && next.jobs[id] == db.jobs[id];
      }
    }
  }

  lemma {:induction false} TouchedAll(db: Db, scan: seq<Row>, now: int)
    requires ScanCurrent(db.jobs, scan)
    ensures |Touched(db, scan, now)| == |scan|
    ensures forall i | 0 <= i < |scan| :: Touched(db, scan, now)[i] == TouchedRow(scan[i])
    decreases |scan|
  {
    if scan != [] {
      var next, rest := RecoverStmt(db, scan[0], now), scan[1..];
      ScanShrinks(db.jobs, scan, next.jobs[scan[0].id]);
      TouchedAll(next, rest, now);
      assert Touched(db, scan, now) == [TouchedRow(scan[0])] + Touched(next, rest, now);
      forall i | 0 < i < |scan| ensures Touched(db, scan, now)[i] == TouchedRow(scan[i]) {
        assert scan[i] == rest[i - 1];
      }
    }
  }

  /** The events of a recovery: one a row, in scan order. */
  function RecoveryLog(scan: seq<Row>, first: int, logged: int): seq<Event> {
    seq(|scan|, i requires 0 <= i < |scan| => Event(
      first + i, scan[i].id, if scan[i].job.retryCount + 1 < scan[i].job.maxAttempts then Recovered else DeadLettered,
      logged))
  }

  lemma {:induction false} LoggedAll(db: Db, touched: seq<Row>, scan: seq<Row>, logged: int)
    requires |touched| == |scan| && forall i | 0 <= i < |scan| :: touched[i] == TouchedRow(scan[i])
    ensures LogRecovered(db, touched, logged).jobs == db.jobs
    ensures LogRecovered(db, touched, logged).events == db.events + RecoveryLog(scan, db.nextEventId, logged)
    decreases |touched|
  {
    if touched != [] {
      var kind := RecoveryEvent(touched[0].job.state);
      var next := AppendStmt(db, touched[0].id, kind, logged);
      LoggedAll(next, touched[1..], scan[1..], logged);
      var e := Event(db.nextEventId, touched[0].id, kind, logged);
      var more := RecoveryLog(scan[1..], next.nextEventId, logged);
      assert RecoveryLog(scan, db.nextEventId, logged) == [e] + more;
      assert (db.events + [e]) + more == db.events + ([e] + more);
    }
  }

  /** A recovery spends one attempt of every scanned job, logs one event for each, and does nothing else. */
  lemma RecoverExact(db: Db, scan: seq<Row>, now: int, logged: int)
    requires ScanCurrent(db.jobs, scan)
    ensures RowsRecovered(db.jobs, Recover(db, scan, now, logged).jobs, scan, now)
    ensures Recover(db, scan, now, logged).events == db.events + RecoveryLog(scan, db.nextEventId, logged)
    ensures |Touched(db, scan, now)| == |scan|
  {
    RecoveredRows(db, scan, now);
    TouchedAll(db, scan, now);
    LoggedAll(RecoverRows(db, scan, now), Touched(db, scan, now), scan, logged);
  }

  /**
    The part of a recovery that concerns one job: the write for a row that was due
    at the time of the scan and still is that row, and its event. The row is
    stamped with the time of the scan.
   */
  function RecoverRow(db: Db, id: JobId, due: int, logged: int): Db {
    if id in db.jobs && IsOrphan(db.jobs[id], due) then
      AppendStmt(RecoverStmt(db, Row(id, db.jobs[id]), due), id, RecoveryEvent(RecoveryState(db.jobs[id])), logged)
    else db
  }
}
