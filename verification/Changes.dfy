/**
  Every operation but a prune is a series of changes to single jobs, each with
  its event. What a whole run keeps is proved change by change.
 */
module Changes {
  import opened Records
  import opened Dispatch
  import opened Tables
  import opened EventLog
  import opened Coarse
  import Q = QueueOps

  datatype Change =
    | Born(id: JobId, row: Job, kind: EventType, at: int)
    | Moved(id: JobId, row: Job, kind: EventType, at: int)

  /** The tables of a database that changes touch. */
  datatype Contents = Contents(jobs: Jobs, events: seq<Event>, nextEventId: int)

  function ContentsOf(db: Db): Contents {
    Contents(db.jobs, db.events, db.nextEventId)
  }

  function ApplyChange(t: Contents, c: Change): Contents {
    Contents(t.jobs[c.id := c.row], t.events + [Event(t.nextEventId, c.id, c.kind, c.at)], t.nextEventId + 1)
  }

  /** What each event says about the row before and after it. */
  predicate GoodMove(before: Job, kind: EventType, after: Job) {
    && after.kind == before.kind && after.priority == before.priority
    && after.createdAt == before.createdAt && after.runAt == before.runAt && after.key == before.key
    && Edge(before.state, kind, after.state)
    && (!kind.Requeued? ==> after.maxAttempts == before.maxAttempts && after.payload == before.payload)
    && match kind
       case LeaseTaken | LeaseRenewed | Acknowledged => after.retryCount == before.retryCount < before.maxAttempts
       case Retried | Recovered => after.retryCount == before.retryCount + 1 < before.maxAttempts
       case DeadLettered => after.retryCount == before.retryCount + 1 == before.maxAttempts
       case Requeued => after.retryCount == 0 < after.maxAttempts && before.retryCount == before.maxAttempts
       case _ => false
  }

  ghost predicate GoodChange(t: Contents, c: Change) {
    match c
    case Born(id, row, kind, _) =>
      && id !in t.jobs && (forall e | e in t.events :: e.jobId != id)
      && row.state == Pending && row.retryCount == 0 < row.maxAttempts
      && kind == (if row.runAt.Some? then Scheduled else Enqueued)
    case Moved(id, row, kind, _) => id in t.jobs && GoodMove(t.jobs[id], kind, row)
  }

  function ApplyAll(t: Contents, cs: seq<Change>): Contents
    decreases |cs|
  {
    if cs == [] then t else ApplyAll(ApplyChange(t, cs[0]), cs[1..])
  }

  ghost predicate AllGood(t: Contents, cs: seq<Change>)
    decreases |cs|
  {
    cs == [] || (GoodChange(t, cs[0]) && AllGood(ApplyChange(t, cs[0]), cs[1..]))
  }

  function RecoveryChange(r: Row, now: int, logged: int): Change {
    Moved(r.id, RecoveredRow(r.job, r.job, now), Q.RecoveryEvent(RecoveryState(r.job)), logged)
  }

  function RecoveryChanges(scan: seq<Row>, now: int, logged: int): seq<Change> {
    seq(|scan|, i requires 0 <= i < |scan| => RecoveryChange(scan[i], now, logged))
  }

  ghost function ChangesOf(aging: int, db: Db, op: Op): seq<Change> {
    match op
    case Enqueue(id, spec, now) =>
      var row := Q.NewRow(spec, now);
      if KeyTaken(db.jobs, row.key) then [] else [Born(id, row, Q.CreationEvent(spec), now)]
    case Lease(kind, duration, token, now, logged) =>
      var best := Choose(db.jobs, kind, now, aging);
      if best == None then []
      else [Moved(best.value, LeasedRow(db.jobs[best.value], now, duration, token), LeaseTaken, logged)]
    case Renew(id, token, duration, now, logged) =>
      if !HoldsToken(db.jobs, id, token) then []
      else [Moved(id, RenewedRow(db.jobs[id], now, duration), LeaseRenewed, logged)]
    case Acknowledge(id, token, now, logged) =>
      if !HoldsLease(db.jobs, id, token) then []
      else [Moved(id, Released(db.jobs[id], Completed, db.jobs[id].retryCount, now), EventType.Acknowledged, logged)]
    case Fail(id, token, now, logged) =>
      if id !in db.jobs || (token != "" && !HoldsToken(db.jobs, id, token)) then []
      else
        var retry := Q.ShouldRetry(db.jobs[id]);
        [Moved(id, FailedRow(db.jobs[id], retry, now), Q.FailureEvent(retry), logged)]
    case Recover(scan, now, logged) => RecoveryChanges(scan, now, logged)
    case RecoverRow(id, due, _, logged) =>
      if id !in db.jobs || !IsOrphan(db.jobs[id], due) then []
      else [RecoveryChange(Row(id, db.jobs[id]), due, logged)]
    case Requeue(id, maxAttempts, payload, now, logged) =>
      if id !in db.jobs || db.jobs[id].state != DeadLetter then []
      else
        var budget := if maxAttempts >= 1 then maxAttempts else db.jobs[id].maxAttempts;
        [Moved(id, RequeuedRow(db.jobs[id], budget, payload, now), Requeued, logged)]
    case PruneRun(_, _, _) => []
  }

  lemma One(t: Contents, c: Change)
    ensures ApplyAll(t, [c]) == ApplyChange(t, c)
    ensures AllGood(t, [c]) <==> GoodChange(t, c)
  {
    assert [c][1..] == [];
  }

  lemma {:induction false} RecoveryShape(db: Db, scan: seq<Row>, now: int, logged: int)
    requires Q.ScanCurrent(db.jobs, scan)
    requires forall i | 0 <= i < |scan| :: 0 <= scan[i].job.retryCount < scan[i].job.maxAttempts
    ensures AllGood(ContentsOf(db), RecoveryChanges(scan, now, logged))
    ensures ApplyAll(ContentsOf(db), RecoveryChanges(scan, now, logged)) ==
            ContentsOf(RecoverEach(db, scan, now, logged))
    decreases |scan|
  {
    var cs := RecoveryChanges(scan, now, logged);
    if scan != [] {
      var r := scan[0];
      assert cs[1..] == RecoveryChanges(scan[1..], now, logged);
      assert ApplyChange(ContentsOf(db), cs[0]) == ContentsOf(RecoverOne(db, r, now, logged));
      Q.ScanShrinks(db.jobs, scan, cs[0].row);
      RecoveryShape(RecoverOne(db, r, now, logged), scan[1..], now, logged);
    }
  }

  lemma EnqueueShape(db: Db, clock: int, op: Op)
    requires EventsOk(db, clock) && op.Enqueue? && op.id !in db.jobs
    ensures AllGood(ContentsOf(db), ChangesOf(0, db, op))
    ensures ApplyAll(ContentsOf(db), ChangesOf(0, db, op)) == ContentsOf(Apply(0, db, op))
  {
    var row := Q.NewRow(op.spec, op.now);
    if !KeyTaken(db.jobs, row.key) {
      One(ContentsOf(db), Born(op.id, row, Q.CreationEvent(op.spec), op.now));
    }
  }

  lemma LeaseShape(aging: int, db: Db, clock: int, op: Op)
    requires op.Lease?
    requires var best := Choose(db.jobs, op.kind, op.now, aging); best.Some? ==> RowOk(db.jobs[best.value], clock)
    ensures AllGood(ContentsOf(db), ChangesOf(aging, db, op))
    ensures ApplyAll(ContentsOf(db), ChangesOf(aging, db, op)) == ContentsOf(Apply(aging, db, op))
  {
    var best := Choose(db.jobs, op.kind, op.now, aging);
    if best.Some? {
      var row := LeasedRow(db.jobs[best.value], op.now, op.duration, op.token);
      assert GoodMove(db.jobs[best.value], LeaseTaken, row);
      One(ContentsOf(db), Moved(best.value, row, LeaseTaken, op.logged));
    }
  }

  lemma RenewShape(db: Db, clock: int, op: Op)
    requires op.Renew? && (op.id in db.jobs ==> RowOk(db.jobs[op.id], clock))
    ensures AllGood(ContentsOf(db), ChangesOf(0, db, op))
    ensures ApplyAll(ContentsOf(db), ChangesOf(0, db, op)) == ContentsOf(Apply(0, db, op))
  {
    if HoldsToken(db.jobs, op.id, op.token) {
      var row := RenewedRow(db.jobs[op.id], op.now, op.duration);
      assert GoodMove(db.jobs[op.id], LeaseRenewed, row);
      One(ContentsOf(db), Moved(op.id, row, LeaseRenewed, op.logged));
    }
  }

  lemma AcknowledgeShape(db: Db, clock: int, op: Op)
    requires op.Acknowledge? && (op.id in db.jobs ==> RowOk(db.jobs[op.id], clock))
    ensures AllGood(ContentsOf(db), ChangesOf(0, db, op))
    ensures ApplyAll(ContentsOf(db), ChangesOf(0, db, op)) == ContentsOf(Apply(0, db, op))
  {
    if HoldsLease(db.jobs, op.id, op.token) {
      var j := db.jobs[op.id];
      var row := Released(j, Completed, j.retryCount, op.now);
      assert GoodMove(j, EventType.Acknowledged, row);
      One(ContentsOf(db), Moved(op.id, row, EventType.Acknowledged, op.logged));
    }
  }

  lemma FailShape(db: Db, clock: int, op: Op)
    requires op.Fail? && (op.id in db.jobs ==> RowOk(db.jobs[op.id], clock))
    requires op.token == "" && op.id in db.jobs ==> db.jobs[op.id].state == Leased
    ensures AllGood(ContentsOf(db), ChangesOf(0, db, op))
    ensures ApplyAll(ContentsOf(db), ChangesOf(0, db, op)) == ContentsOf(Apply(0, db, op))
  {
    var id, token := op.id, op.token;
    if id in db.jobs && (token == "" || HoldsToken(db.jobs, id, token)) {
      var j := db.jobs[id];
      var row, kind := FailedRow(j, Q.ShouldRetry(j), op.now), Q.FailureEvent(Q.ShouldRetry(j));
      assert GoodMove(j, kind, row);
      One(ContentsOf(db), Moved(id, row, kind, op.logged));
    }
  }

  lemma RequeueShape(db: Db, clock: int, op: Op)
    requires op.Requeue? && (op.id in db.jobs ==> RowOk(db.jobs[op.id], clock))
    ensures AllGood(ContentsOf(db), ChangesOf(0, db, op))
    ensures ApplyAll(ContentsOf(db), ChangesOf(0, db, op)) == ContentsOf(Apply(0, db, op))
  {
    if op.id in db.jobs && db.jobs[op.id].state == DeadLetter {
      var j := db.jobs[op.id];
      var row := RequeuedRow(j, if op.maxAttempts >= 1 then op.maxAttempts else j.maxAttempts, op.payload, op.now);
      assert GoodMove(j, Requeued, row);
      One(ContentsOf(db), Moved(op.id, row, Requeued, op.logged));
    }
  }

  lemma RecoverRowShape(db: Db, clock: int, op: Op)
    requires op.RecoverRow? && (op.id in db.jobs ==> RowOk(db.jobs[op.id], clock))
    ensures AllGood(ContentsOf(db), ChangesOf(0, db, op))
    ensures ApplyAll(ContentsOf(db), ChangesOf(0, db, op)) == ContentsOf(Apply(0, db, op))
  {
    if op.id in db.jobs && IsOrphan(db.jobs[op.id], op.due) {
      var c := RecoveryChange(Row(op.id, db.jobs[op.id]), op.due, op.logged);
      assert GoodMove(db.jobs[op.id], c.kind, c.row);
      One(ContentsOf(db), c);
    }
  }

  /** Every operation but a prune is its series of good changes. */
  lemma StepShape(aging: int, w: World, op: Op)
    requires Inv(w) && Enabled(w, op) && !op.PruneRun?
    ensures AllGood(ContentsOf(w.db), ChangesOf(aging, w.db, op))
    ensures ApplyAll(ContentsOf(w.db), ChangesOf(aging, w.db, op)) == ContentsOf(Apply(aging, w.db, op))
  {
    match op
    case Enqueue(_, _, _) => EnqueueShape(w.db, w.clock, op);
    case Lease(_, _, _, _, _) => LeaseShape(aging, w.db, w.clock, op);
    case Renew(_, _, _, _, _) => RenewShape(w.db, w.clock, op);
    case Acknowledge(_, _, _, _) => AcknowledgeShape(w.db, w.clock, op);
    case Fail(_, _, _, _) => FailShape(w.db, w.clock, op);
    case Requeue(_, _, _, _, _) => RequeueShape(w.db, w.clock, op);
    case RecoverRow(_, _, _, _) => RecoverRowShape(w.db, w.clock, op);
    case Recover(scan, now, logged) =>
      forall i | 0 <= i < |scan| ensures 0 <= scan[i].job.retryCount < scan[i].job.maxAttempts {
        assert RowOk(w.db.jobs[scan[i].id], w.clock);
      }
      RecoverIsRecoverEach(w.db, scan, now, logged);
      RecoveryShape(w.db, scan, now, logged);
  }
}
