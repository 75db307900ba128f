/**
  The database as a value, and the relational meaning of each SQL statement the
  queue runs. Every function here is one atomic step of the store.
 */
module Tables {
  import opened Records
  import opened Dispatch

  /** ids and tokens are every job id and every lease token ever handed out. */
  datatype Db = Db(
    jobs: Jobs, events: seq<Event>, nextEventId: int, runs: seq<RetentionRun>,
    ids: set<JobId>, tokens: set<Token>)

  const EMPTY := Db(map[], [], 1, [], {}, {})

  /** WHERE id = ? AND state = 'leased' [AND lease_token = ?]; the empty token is the unfenced form. */
  predicate HoldsLease(jobs: Jobs, id: JobId, token: Token) {
    id in jobs && jobs[id].state == Leased && (token == "" || jobs[id].token == Some(token))
  }

  /** The token's current owner: the fenced guard. */
  predicate HoldsToken(jobs: Jobs, id: JobId, token: Token) {
    id in jobs && jobs[id].state == Leased && jobs[id].token == Some(token)
  }

  // ---- Row updates ----

  function LeasedRow(j: Job, now: int, duration: int, token: Token): Job {
    j.(state := Leased, leasedUntil := Some(now + duration), token := Some(token), updatedAt := now)
  }

  function RenewedRow(j: Job, now: int, duration: int): Job {
    j.(leasedUntil := Some(now + duration), updatedAt := now)
  }

  /** The lease ends: both lease columns become NULL. */
  function Released(j: Job, state: JobState, retryCount: int, now: int): Job {
    j.(state := state, retryCount := retryCount, leasedUntil := None, token := None, updatedAt := now)
  }

  function FailedRow(j: Job, retry: bool, now: int): Job {
    Released(j, if retry then Pending else DeadLetter, j.retryCount + 1, now)
  }

  function RecoveryState(scanned: Job): JobState {
    if scanned.retryCount + 1 >= scanned.maxAttempts then DeadLetter else Pending
  }

  /** The target of recovery's update, computed from the row the scan returned. */
  function RecoveredRow(current: Job, scanned: Job, now: int): Job {
    Released(current, RecoveryState(scanned), scanned.retryCount + 1, now)
  }

  function RequeuedRow(j: Job, maxAttempts: int, payload: Option<string>, now: int): Job {
    Released(j, Pending, 0, now).(
      maxAttempts := maxAttempts, payload := if payload.Some? then payload.value else j.payload)
  }

  // ---- Statements ----

  ghost predicate KeyTaken(jobs: Jobs, key: Option<string>) {
    key.Some? && exists id | id in jobs :: jobs[id].key == key
  }

  ghost function InsertStmt(db: Db, id: JobId, j: Job): Db {
    if KeyTaken(db.jobs, j.key) then db
    else db.(jobs := db.jobs[id := j], ids := db.ids + {id})
  }

  ghost function LeaseStmt(db: Db, aging: int, kind: string, duration: int, token: Token, now: int): Db {
    var best := Choose(db.jobs, kind, now, aging);
    if best == None then db.(tokens := db.tokens + {token})
    else db.(jobs := db.jobs[best.value := LeasedRow(db.jobs[best.value], now, duration, token)],
             tokens := db.tokens + {token})
  }

  function RenewStmt(db: Db, id: JobId, token: Token, duration: int, now: int): Db {
    if HoldsToken(db.jobs, id, token) then
      db.(jobs := db.jobs[id := RenewedRow(db.jobs[id], now, duration)])
    else db
  }

  function CompleteStmt(db: Db, id: JobId, token: Token, now: int): Db {
    if HoldsLease(db.jobs, id, token) then
      db.(jobs := db.jobs[id := Released(db.jobs[id], Completed, db.jobs[id].retryCount, now)])
    else db
  }

  function FailStmt(db: Db, id: JobId, token: Token, retry: bool, now: int): Db {
    if HoldsLease(db.jobs, id, token) then
      db.(jobs := db.jobs[id := FailedRow(db.jobs[id], retry, now)])
    else db
  }

  function RequeueStmt(db: Db, id: JobId, maxAttempts: int, payload: Option<string>, now: int): Db {
    if id in db.jobs && db.jobs[id].state == DeadLetter then
      db.(jobs := db.jobs[id := RequeuedRow(db.jobs[id], maxAttempts, payload, now)])
    else db
  }

  /** state = 'leased' AND leased_until < now; NULL deadlines never match. */
  predicate IsOrphan(j: Job, now: int) {
    j.state == Leased && j.leasedUntil.Some? && j.leasedUntil.value < now
  }

  ghost function Orphans(jobs: Jobs, now: int): set<JobId> {
    set id | id in jobs && IsOrphan(jobs[id], now)
  }

  /** Some order in which the scan may return its rows. */
  ghost predicate IsOrphanScan(jobs: Jobs, scan: seq<Row>, now: int) {
    && (forall i | 0 <= i < |scan| ::
          scan[i].id in jobs && scan[i].job == jobs[scan[i].id] && IsOrphan(scan[i].job, now))
    && (forall i, k | 0 <= i < k < |scan| :: scan[i].id != scan[k].id)
    && (forall id | id in jobs && IsOrphan(jobs[id], now) :: exists i :: 0 <= i < |scan| && scan[i].id == id)
  }

  /** Recovery's write for one scanned row. It guards on the state alone, not on the token. */
  function RecoverStmt(db: Db, scanned: Row, now: int): Db {
    if HoldsLease(db.jobs, scanned.id, "") then
      db.(jobs := db.jobs[scanned.id := RecoveredRow(db.jobs[scanned.id], scanned.job, now)])
    else db
  }

  function AppendStmt(db: Db, id: JobId, kind: EventType, at: int): Db {
    db.(events := db.events + [Event(db.nextEventId, id, kind, at)], nextEventId := db.nextEventId + 1)
  }
}
