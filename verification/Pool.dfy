/**
  Any number of slots, in one worker or several, working on one queue: their
  leases, heartbeats and finishes interleave with each other and with other
  clients' operations. The outcome under injected faults is still determined.
 */
module Pool {
  import opened Records
  import opened Dispatch
  import opened Tables
  import opened Retention
  import opened Worker
  import Accounting
  import C = Coarse
  import Q = QueueOps

  /** A slot is free or runs the handler on the row it leased. */
  datatype SlotState = Free | Busy(row: Row, token: Token)

  /** taken lists the job of every lease a slot was granted. */
  datatype Pool = Pool(db: Db, slots: seq<SlotState>, taken: seq<JobId>)

  datatype Action =
    | Take(slot: nat, token: Token, now: int, logged: int)
    | Renew(slot: nat, now: int, logged: int)
    | Finish(slot: nat, now: int, logged: int)
    | Outside(op: C.Op)

  /** What the slots share: one kind, one lease duration, one handler. */
  datatype Config = Config(aging: int, kind: string, duration: int, handler: Row -> Outcome)

  ghost function Next(c: Config, p: Pool, a: Action): Pool {
    match a
    case Take(slot, token, now, logged) =>
      var best := Choose(p.db.jobs, c.kind, now, c.aging);
      if slot >= |p.slots| || p.slots[slot] != Free then p
      else
        var db := Q.Lease(p.db, c.aging, c.kind, c.duration, token, now, logged);
        if best == None then p.(db := db)
        else Pool(db, p.slots[slot := Busy(Row(best.value, db.jobs[best.value]), token)], p.taken + [best.value])
    case Renew(slot, now, logged) =>
      if slot >= |p.slots| || p.slots[slot] == Free then p
      else p.(db := Q.Renew(p.db, p.slots[slot].row.id, p.slots[slot].token, c.duration, now, logged))
    case Finish(slot, now, logged) =>
      if slot >= |p.slots| || p.slots[slot] == Free then p
      else p.(db := Ended(p.db, p.slots[slot].row.id, p.slots[slot].token, c.handler(p.slots[slot].row), now, logged),
              slots := p.slots[slot := Free])
    case Outside(op) => p.(db := C.Apply(c.aging, p.db, op))
  }

  function Ended(db: Db, id: JobId, token: Token, outcome: Outcome, now: int, logged: int): Db {
    if outcome == Failure then Q.Fail(db, id, token, now, logged) else Q.Acknowledge(db, id, token, now, logged)
  }

  ghost function After(c: Config, p: Pool, actions: seq<Action>): Pool {
    if actions == [] then p else Next(c, After(c, p, actions[..|actions| - 1]), actions[|actions| - 1])
  }

  /** Operations of others that do not take the job over: it is not recovered, requeued, finished or leased by them. */
  predicate LeavesJob(op: C.Op, id: JobId, kind: string) {
    match op
    case Lease(other, _, _, _, _) => other != kind
    case Recover(scan, _, _) => forall r | r in scan :: r.id != id
    case PruneRun(_, _, _) => true
    case _ => op.id != id
  }

  predicate Allowed(a: Action, id: JobId, kind: string) {
    match a
    case Take(_, token, _, _) => token != ""
    case Outside(op) => LeavesJob(op, id, kind)
    case _ => true
  }

  function CountOf(taken: seq<JobId>, id: JobId): nat {
    if taken == [] then 0 else CountOf(taken[..|taken| - 1], id) + if taken[|taken| - 1] == id then 1 else 0
  }

  predicate Holds(s: SlotState, id: JobId) {
    s.Busy? && s.row.id == id
  }

  /** A slot that runs the job owns its lease, on the attempt it read. */
  predicate Owns(s: SlotState, jobs: Jobs, id: JobId)
    requires s.Busy?
  {
    && s.token != "" && HoldsToken(jobs, id, s.token)
    && s.row.job.retryCount == jobs[id].retryCount && SameBudget(s.row.job, jobs[id])
  }

  /** Where the job stands after so many more leases by the slots; while one runs, its attempt is not yet counted. */
  predicate JobOnCourse(first: Job, j: Job, leases: int, f: int) {
    if j.state == Leased then
      && SameBudget(first, j)
      && first.retryCount <= j.retryCount == first.retryCount + leases - 1 <= Min(f, j.maxAttempts - 1)
    else OnCourse(first, j, leases, f)
  }

  /** All attempts there will be. */
  function AllLeases(first: Job, f: int): int {
    Min(f + 1, first.maxAttempts) - first.retryCount
  }

  ghost predicate PoolOk(p: Pool, first: Job, id: JobId, f: int) {
    && first.retryCount < first.maxAttempts && first.retryCount <= f
    && (forall i, k | 0 <= i < k < |p.slots| :: !(Holds(p.slots[i], id) && Holds(p.slots[k], id)))
    && (forall i | 0 <= i < |p.slots| && Holds(p.slots[i], id) :: Owns(p.slots[i], p.db.jobs, id))
    && id in p.db.ids
    && if id in p.db.jobs then JobOnCourse(first, p.db.jobs[id], CountOf(p.taken, id), f)
       else CountOf(p.taken, id) == AllLeases(first, f)
  }

  lemma CountAppend(taken: seq<JobId>, x: JobId, id: JobId)
    ensures CountOf(taken + [x], id) == CountOf(taken, id) + if x == id then 1 else 0
  {
    assert (taken + [x])[..|taken|] == taken;
  }

  /** The lease that a take was granted. */
  lemma Granted(c: Config, p: Pool, a: Action, best: JobId)
    requires a.Take? && a.slot < |p.slots| && p.slots[a.slot] == Free
    requires Choose(p.db.jobs, c.kind, a.now, c.aging) == Some(best)
    ensures best in p.db.jobs && p.db.jobs[best].state == Pending
    ensures var row := LeasedRow(p.db.jobs[best], a.now, c.duration, a.token);
            && Next(c, p, a).db.jobs == p.db.jobs[best := row] && Next(c, p, a).db.ids == p.db.ids
            && Next(c, p, a).slots == p.slots[a.slot := Busy(Row(best, row), a.token)]
            && Next(c, p, a).taken == p.taken + [best]
  {
  }

  lemma TakeKeeps(c: Config, p: Pool, a: Action, first: Job, id: JobId, f: int)
    requires PoolOk(p, first, id, f) && a.Take? && a.token != ""
    ensures PoolOk(Next(c, p, a), first, id, f)
  {
    var best := Choose(p.db.jobs, c.kind, a.now, c.aging);
    if a.slot < |p.slots| && p.slots[a.slot] == Free && best.Some? {
      Granted(c, p, a, best.value);
      CountAppend(p.taken, best.value, id);
    }
  }

  lemma RenewKeeps(c: Config, p: Pool, a: Action, first: Job, id: JobId, f: int)
    requires PoolOk(p, first, id, f) && a.Renew?
    ensures PoolOk(Next(c, p, a), first, id, f)
  {
  }

  lemma FinishKeeps(c: Config, p: Pool, a: Action, first: Job, id: JobId, f: int)
    requires PoolOk(p, first, id, f) && a.Finish? && FailsThrough(c.handler, id, first, f)
    ensures PoolOk(Next(c, p, a), first, id, f)
  {
  }

  lemma {:induction false} WritesElsewhere(db: Db, scan: seq<Row>, now: int, id: JobId)
    requires forall r | r in scan :: r.id != id
    ensures var after := Q.RecoverRows(db, scan, now).jobs;
            (id in after <==> id in db.jobs) && (id in db.jobs ==> after[id] == db.jobs[id])
    decreases |scan|
  {
    if scan != [] {
      assert scan[0] in scan && forall r | r in scan[1..] :: r in scan;
      WritesElsewhere(RecoverStmt(db, scan[0], now), scan[1..], now, id);
    }
  }

  /** A batch recovery of other jobs. */
  lemma RecoveryElsewhere(db: Db, scan: seq<Row>, now: int, logged: int, id: JobId)
    requires forall r | r in scan :: r.id != id
    ensures var after := Q.Recover(db, scan, now, logged);
            && (id in after.jobs <==> id in db.jobs) && (id in db.jobs ==> after.jobs[id] == db.jobs[id])
            && after.ids == db.ids
  {
    WritesElsewhere(db, scan, now, id);
    C.LoggingKeepsJobs(Q.RecoverRows(db, scan, now), Q.Touched(db, scan, now), logged);
    Accounting.RecoverKeepsIds(db, scan, now);
    Accounting.LoggingKeepsIds(Q.RecoverRows(db, scan, now), Q.Touched(db, scan, now), logged);
  }

  lemma OutsideKeepsRow(c: Config, db: Db, op: C.Op, id: JobId)
    requires id in db.jobs && LeavesJob(op, id, db.jobs[id].kind)
    ensures var after := C.Apply(c.aging, db, op).jobs;
            if id in after then after[id] == db.jobs[id] else op.PruneRun? && Terminal(db.jobs[id].state)
  {
    if op.Recover? {
      RecoveryElsewhere(db, op.scan, op.now, op.logged, id);
    } else if op.Lease? {
      var best := Choose(db.jobs, op.kind, op.now, c.aging);
      assert best.Some? ==> db.jobs[best.value].kind == op.kind;
    }
  }

  lemma OutsideKeepsIds(c: Config, db: Db, op: C.Op, id: JobId, kind: string)
    requires id in db.ids && LeavesJob(op, id, kind)
    ensures id in C.Apply(c.aging, db, op).ids
    ensures id !in db.jobs ==> id !in C.Apply(c.aging, db, op).jobs
  {
    if op.Recover? { RecoveryElsewhere(db, op.scan, op.now, op.logged, id); }
  }

  lemma OutsideKeeps(c: Config, p: Pool, a: Action, first: Job, id: JobId, f: int)
    requires PoolOk(p, first, id, f) && a.Outside? && LeavesJob(a.op, id, first.kind)
    ensures PoolOk(Next(c, p, a), first, id, f)
  {
    OutsideKeepsIds(c, p.db, a.op, id, first.kind);
    if id in p.db.jobs { OutsideKeepsRow(c, p.db, a.op, id); }
  }

  // ---- Recoveries that run in time find other jobs ----

  ghost predicate Held(p: Pool, id: JobId) {
    exists i :: 0 <= i < |p.slots| && Holds(p.slots[i], id)
  }

  /** The slot whose lease or heartbeat the action is, if it is this job's. */
  ghost predicate RenewsJob(c: Config, p: Pool, a: Action, id: JobId) {
    match a
    case Take(slot, _, now, _) =>
      slot < |p.slots| && p.slots[slot] == Free && Choose(p.db.jobs, c.kind, now, c.aging) == Some(id)
    case Renew(slot, _, _) => slot < |p.slots| && Holds(p.slots[slot], id)
    case _ => false
  }

  /** When a slot last took the job or renewed its lease. */
  ghost function RenewedAt(c: Config, p: Pool, actions: seq<Action>, id: JobId): int {
    if actions == [] then 0
    else
      var front, a := actions[..|actions| - 1], actions[|actions| - 1];
      if RenewsJob(c, After(c, p, front), a, id) then a.now else RenewedAt(c, p, front, id)
  }

  /**
    A recovery is one of whole scans, and while a slot runs the job it comes no later
    than one lease after the slot's last heartbeat. Nobody else takes the job over.
   */
  ghost predicate InTime(c: Config, p: Pool, a: Action, id: JobId, kind: string, renewed: int) {
    if a.Outside? && a.op.Recover? then
      IsOrphanScan(p.db.jobs, a.op.scan, a.op.now) && (Held(p, id) ==> a.op.now <= renewed + c.duration)
    else Allowed(a, id, kind)
  }

  ghost predicate AllInTime(c: Config, p: Pool, actions: seq<Action>, id: JobId, kind: string) {
    actions == [] || (
      var front, a := actions[..|actions| - 1], actions[|actions| - 1];
      && AllInTime(c, p, front, id, kind)
      && InTime(c, After(c, p, front), a, id, kind, RenewedAt(c, p, front, id)))
  }

  /** While the job is leased, a slot runs it, for a full lease from its last heartbeat. */
  ghost predicate DeadlineOk(p: Pool, id: JobId, deadline: int) {
    id in p.db.jobs && p.db.jobs[id].state == Leased ==>
      Held(p, id) && p.db.jobs[id].leasedUntil == Some(deadline)
  }

  lemma ScanSparesJob(c: Config, p: Pool, a: Action, id: JobId, kind: string, renewed: int)
    requires DeadlineOk(p, id, renewed + c.duration) && InTime(c, p, a, id, kind, renewed)
    ensures Allowed(a, id, kind)
  {
  }

  lemma OtherSlotsHold(p: Pool, next: Pool, slot: nat, id: JobId)
    requires slot < |p.slots| && |next.slots| == |p.slots| && !Holds(p.slots[slot], id) && Held(p, id)
    requires forall i | 0 <= i < |p.slots| && i != slot :: next.slots[i] == p.slots[i]
    ensures Held(next, id)
  {
    var i :| 0 <= i < |p.slots| && Holds(p.slots[i], id);
    assert Holds(next.slots[i], id);
  }

  lemma TakeDeadline(c: Config, p: Pool, a: Action, id: JobId, renewed: int)
    requires a.Take? && DeadlineOk(p, id, renewed + c.duration)
    ensures DeadlineOk(Next(c, p, a), id, (if RenewsJob(c, p, a, id) then a.now else renewed) + c.duration)
  {
    var best, next := Choose(p.db.jobs, c.kind, a.now, c.aging), Next(c, p, a);
    if a.slot < |p.slots| && p.slots[a.slot] == Free && best.Some? {
      Granted(c, p, a, best.value);
      if best.value == id {
        assert Holds(next.slots[a.slot], id);
      } else if Held(p, id) {
        OtherSlotsHold(p, next, a.slot, id);
      }
    }
  }

  lemma RenewDeadline(c: Config, p: Pool, a: Action, first: Job, id: JobId, f: int, renewed: int)
    requires PoolOk(p, first, id, f) && a.Renew? && DeadlineOk(p, id, renewed + c.duration)
    ensures DeadlineOk(Next(c, p, a), id, (if RenewsJob(c, p, a, id) then a.now else renewed) + c.duration)
  {
    var next := Next(c, p, a);
    assert next.slots == p.slots;
    assert Held(next, id) <==> Held(p, id);
  }

  lemma FinishDeadline(c: Config, p: Pool, a: Action, first: Job, id: JobId, f: int, renewed: int)
    requires PoolOk(p, first, id, f) && a.Finish? && DeadlineOk(p, id, renewed + c.duration)
    ensures DeadlineOk(Next(c, p, a), id, renewed + c.duration)
  {
    var next := Next(c, p, a);
    if a.slot < |p.slots| && Held(p, id) && !Holds(p.slots[a.slot], id) { OtherSlotsHold(p, next, a.slot, id); }
  }

  lemma OutsideDeadline(c: Config, p: Pool, a: Action, first: Job, id: JobId, f: int, renewed: int)
    requires PoolOk(p, first, id, f) && a.Outside? && LeavesJob(a.op, id, first.kind)
    requires DeadlineOk(p, id, renewed + c.duration)
    ensures DeadlineOk(Next(c, p, a), id, renewed + c.duration)
  {
    var next := Next(c, p, a);
    OutsideKeepsIds(c, p.db, a.op, id, first.kind);
    if id in p.db.jobs { OutsideKeepsRow(c, p.db, a.op, id); }
    assert next.slots == p.slots;
    assert Held(next, id) <==> Held(p, id);
  }

  /** The pool is on its course, and the deadline a full lease ahead of the last heartbeat. */
  ghost predicate OnTime(c: Config, p: Pool, first: Job, id: JobId, f: int, renewed: int) {
    PoolOk(p, first, id, f) && DeadlineOk(p, id, renewed + c.duration)
  }

  lemma SlotStepOnTime(c: Config, p: Pool, a: Action, first: Job, id: JobId, f: int, renewed: int)
    requires OnTime(c, p, first, id, f, renewed) && FailsThrough(c.handler, id, first, f)
    requires !a.Outside? && Allowed(a, id, first.kind)
    ensures OnTime(c, Next(c, p, a), first, id, f, if RenewsJob(c, p, a, id) then a.now else renewed)
  {
    if a.Take? {
      TakeKeeps(c, p, a, first, id, f);
      TakeDeadline(c, p, a, id, renewed);
    } else if a.Renew? {
      RenewKeeps(c, p, a, first, id, f);
      RenewDeadline(c, p, a, first, id, f, renewed);
    } else {
      FinishKeeps(c, p, a, first, id, f);
      FinishDeadline(c, p, a, first, id, f, renewed);
    }
  }

  lemma StepOnTime(c: Config, p: Pool, a: Action, first: Job, id: JobId, f: int, renewed: int)
    requires OnTime(c, p, first, id, f, renewed) && FailsThrough(c.handler, id, first, f)
    requires InTime(c, p, a, id, first.kind, renewed)
    ensures OnTime(c, Next(c, p, a), first, id, f, if RenewsJob(c, p, a, id) then a.now else renewed)
  {
    ScanSparesJob(c, p, a, id, first.kind, renewed);
    if a.Outside? {
      OutsideKeeps(c, p, a, first, id, f);
      OutsideDeadline(c, p, a, first, id, f, renewed);
    } else {
      SlotStepOnTime(c, p, a, first, id, f, renewed);
    }
  }

  lemma {:induction false} RunOnTime(c: Config, p: Pool, actions: seq<Action>, first: Job, id: JobId, f: int)
    requires OnTime(c, p, first, id, f, 0) && FailsThrough(c.handler, id, first, f)
    requires AllInTime(c, p, actions, id, first.kind)
    ensures OnTime(c, After(c, p, actions), first, id, f, RenewedAt(c, p, actions, id))
  {
    if actions != [] {
      var front := actions[..|actions| - 1];
      RunOnTime(c, p, front, first, id, f);
      StepOnTime(c, After(c, p, front), actions[|actions| - 1], first, id, f, RenewedAt(c, p, front, id));
    }
  }

  /** What the course says at the end. */
  lemma CourseEnds(p: Pool, first: Job, id: JobId, f: int)
    requires PoolOk(p, first, id, f)
    ensures CountOf(p.taken, id) <= AllLeases(first, f)
    ensures forall i, k | 0 <= i < k < |p.slots| :: !(Holds(p.slots[i], id) && Holds(p.slots[k], id))
    ensures id in p.db.jobs && p.db.jobs[id].state != Pending && p.db.jobs[id].state != Leased ==>
              && CountOf(p.taken, id) == AllLeases(first, f)
              && p.db.jobs[id].state == (if f < first.maxAttempts then Completed else DeadLetter)
              && p.db.jobs[id].retryCount == Min(f, first.maxAttempts)
    ensures id !in p.db.jobs ==> CountOf(p.taken, id) == AllLeases(first, f)
  {
  }

  /**
    In every interleaving of any number of slots, with any other jobs and policies
    in the queue, recoveries that run no later than one lease after the last
    heartbeat, and whatever else other clients do short of requeueing, finishing or
    leasing this job: a job with budget m whose policy fails it through
    attempt f is leased at most min(f + 1, m) times; when it ended, exactly that
    many times, completed with retry count f when f < m and dead-lettered with
    retry count m otherwise; and never run by two slots at once.
   */
  lemma PoolOutcome(c: Config, p: Pool, actions: seq<Action>, id: JobId, policy: (JobId, string) -> FaultPolicy)
    requires c.handler == Injected(policy) && p.taken == [] && forall i | 0 <= i < |p.slots| :: !Holds(p.slots[i], id)
    requires id in p.db.jobs && id in p.db.ids && p.db.jobs[id].state == Pending
    requires p.db.jobs[id].retryCount < p.db.jobs[id].maxAttempts
    requires AllInTime(c, p, actions, id, p.db.jobs[id].kind)
    ensures var first, end := p.db.jobs[id], After(c, p, actions);
            var f := LastFailing(policy(id, first.payload), first);
            && CountOf(end.taken, id) <= AllLeases(first, f)
            && (forall i, k | 0 <= i < k < |end.slots| :: !(Holds(end.slots[i], id) && Holds(end.slots[k], id)))
            && (id in end.db.jobs && end.db.jobs[id].state != Pending && end.db.jobs[id].state != Leased ==>
                  && CountOf(end.taken, id) == AllLeases(first, f)
                  && end.db.jobs[id].state == (if f < first.maxAttempts then Completed else DeadLetter)
                  && end.db.jobs[id].retryCount == Min(f, first.maxAttempts))
            && (id !in end.db.jobs ==> CountOf(end.taken, id) == AllLeases(first, f))
  {
    var first, f := p.db.jobs[id], LastFailing(policy(id, p.db.jobs[id].payload), p.db.jobs[id]);
    InjectorFailsThrough(policy, id, first);
    RunOnTime(c, p, actions, first, id, f);
    CourseEnds(After(c, p, actions), first, id, f);
  }
}
