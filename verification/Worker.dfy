/** The worker's turn with the fault injector around its handler, and the outcome the two determine. */
module Worker {
  import opened Records
  import opened Dispatch
  import opened Tables
  import opened EventLog
  import opened Progress
  import opened Store
  import Q = QueueOps

  // ---- Injected faults ----

  datatype Mode = ModeNone | ModeError | ModePanic | ModeSlow | ModeStall | OtherMode(text: string)

  datatype FaultPolicy = FaultPolicy(mode: Mode, failUntilAttempt: int, delay: int)

  /** A handler's result; a recovered panic is a failure. */
  datatype Outcome = Success | Failure

  /**
    The injector around an inner handler that would return "inner"; a cancelled
    context ends every wait with an error.
   */
  function Handle(p: FaultPolicy, job: Job, inner: Outcome, cancelled: bool): Outcome {
    var attempt := job.retryCount + 1;
    if p.delay > 0 && cancelled then Failure
    else match p.mode
      case ModeStall | ModeSlow => Failure
      case ModePanic | ModeError => if attempt <= p.failUntilAttempt then Failure else inner
      case _ => inner
  }

  // ---- One slot's turn, when its heartbeat never loses the lease ----

  /** When one heartbeat renewed the lease and logged it. */
  datatype Beat = Beat(now: int, logged: int)

  /** The token drawn, the times of the turn's statements, and the heartbeats while the handler ran. */
  datatype Tick = Tick(token: Token, leased: int, leaseLogged: int, beats: seq<Beat>, finished: int, finishLogged: int)

  function RenewAll(db: Db, id: JobId, token: Token, duration: int, beats: seq<Beat>): Db {
    if beats == [] then db
    else
      var last := beats[|beats| - 1];
      Q.Renew(RenewAll(db, id, token, duration, beats[..|beats| - 1]), id, token, duration, last.now, last.logged)
  }

  ghost function Turn(db: Db, aging: int, kind: string, duration: int, handler: Row -> Outcome, t: Tick): Db {
    var best := Choose(db.jobs, kind, t.leased, aging);
    var taken := Q.Lease(db, aging, kind, duration, t.token, t.leased, t.leaseLogged);
    if best == None then taken
    else
      var renewed := RenewAll(taken, best.value, t.token, duration, t.beats);
      match handler(Row(best.value, taken.jobs[best.value]))
      case Failure => Q.Fail(renewed, best.value, t.token, t.finished, t.finishLogged)
      case Success => Q.Acknowledge(renewed, best.value, t.token, t.finished, t.finishLogged)
  }

  ghost function Turns(db: Db, aging: int, kind: string, duration: int, handler: Row -> Outcome, ts: seq<Tick>): Db
    decreases |ts|
  {
    if ts == [] then db
    else Turns(Turn(db, aging, kind, duration, handler, ts[0]), aging, kind, duration, handler, ts[1..])
  }

  class Worker {
    const queue: Queue
    const kind: string
    const leaseDuration: int

    constructor (q: Queue, k: string, lease: int)
      ensures queue == q && kind == k && leaseDuration == lease
    {
      queue, kind, leaseDuration := q, k, lease;
    }

    /** The heartbeat beside the handler: one renewal a beat. */
    method Heartbeat(id: JobId, t: Tick)
      modifies queue.store
      ensures queue.store.Table() == RenewAll(old(queue.store.Table()), id, t.token, leaseDuration, t.beats)
      ensures t.beats != [] && old(HoldsToken(queue.store.jobs, id, t.token)) ==>
                && HoldsToken(queue.store.jobs, id, t.token)
                && queue.store.jobs[id].leasedUntil == Some(t.beats[|t.beats| - 1].now + leaseDuration)
    {
      var n := 0;
      while n < |t.beats|
        invariant 0 <= n <= |t.beats|
        invariant queue.store.Table() == RenewAll(old(queue.store.Table()), id, t.token, leaseDuration, t.beats[..n])
      {
        assert t.beats[..n + 1][..n] == t.beats[..n];
        var _ := queue.Renew(id, t.token, leaseDuration, t.beats[n].now, t.beats[n].logged);
        n := n + 1;
      }
      assert t.beats[..n] == t.beats;
      if t.beats != [] && old(HoldsToken(queue.store.jobs, id, t.token)) {
        RenewalsExtend(old(queue.store.Table()), id, t.token, leaseDuration, t.beats);
      }
    }

    method ProcessOne(handler: Row -> Outcome, t: Tick)
      modifies queue.store
      ensures queue.store.Table() ==
              Turn(old(queue.store.Table()), queue.store.agingInterval, kind, leaseDuration, handler, t)
    {
      var job := queue.Lease(kind, leaseDuration, t.token, t.leased, t.leaseLogged);
      if job == None {
        return;
      }
      Heartbeat(job.value.id, t);
      var outcome := handler(job.value);
      if outcome == Failure {
        var _ := queue.Fail(job.value.id, t.token, t.finished, t.finishLogged);
        return;
      }
      var _ := queue.Acknowledge(job.value.id, t.token, t.finished, t.finishLogged);
    }

    /** The polling loop of one slot over some number of turns. */
    method Poll(handler: Row -> Outcome, ts: seq<Tick>)
      modifies queue.store
      ensures queue.store.Table() ==
              Turns(old(queue.store.Table()), queue.store.agingInterval, kind, leaseDuration, handler, ts)
    {
      var i := 0;
      while i < |ts|
        invariant 0 <= i <= |ts|
        invariant Turns(old(queue.store.Table()), queue.store.agingInterval, kind, leaseDuration, handler, ts)
               == Turns(queue.store.Table(), queue.store.agingInterval, kind, leaseDuration, handler, ts[i..])
      {
        assert ts[i..][0] == ts[i] && ts[i..][1..] == ts[i + 1..];
        ProcessOne(handler, ts[i]);
        i := i + 1;
      }
    }
  }

  /** Leases in a job's log. */
  function Leases(log: seq<Event>): nat {
    if log == [] then 0 else Leases(log[..|log| - 1]) + if log[|log| - 1].kind.LeaseTaken? then 1 else 0
  }

  /** The injector with one policy a job, around a handler that succeeds, never cancelled. */
  function Injected(policy: (JobId, string) -> FaultPolicy): Row -> Outcome {
    (r: Row) => Handle(policy(r.id, r.job.payload), r.job, Success, false)
  }

  lemma {:induction false} LeasesAppend(log: seq<Event>, e: Event)
    ensures Leases(log + [e]) == Leases(log) + if e.kind.LeaseTaken? then 1 else 0
  {
    assert (log + [e])[..|log|] == log;
  }

  /** Appending an event adds its lease to the count of its job's log, and touches no other log. */
  lemma LogLeases(events: seq<Event>, e: Event)
    ensures Leases(Log(events + [e], e.jobId)) == Leases(Log(events, e.jobId)) + if e.kind.LeaseTaken? then 1 else 0
    ensures forall other | other != e.jobId :: Log(events + [e], other) == Log(events, other)
  {
    LogAppend(events, e, e.jobId);
    LeasesAppend(Log(events, e.jobId), e);
    forall other | other != e.jobId ensures Log(events + [e], other) == Log(events, other) {
      LogAppend(events, e, other);
      assert Log(events, other) + [] == Log(events, other);
    }
  }

  /** The table after a step on one job: nothing else changed, and the job's log has so many more leases. */
  ghost predicate OnlyThisJob(before: Db, after: Db, id: JobId, leases: int) {
    && id in before.jobs && after.jobs.Keys == before.jobs.Keys
    && (forall other | other in before.jobs && other != id :: after.jobs[other] == before.jobs[other])
    && (forall other | other != id :: Log(after.events, other) == Log(before.events, other))
    && Leases(Log(after.events, id)) == Leases(Log(before.events, id)) + leases
  }

  predicate SameBudget(a: Job, b: Job) {
    a.kind == b.kind && a.payload == b.payload && a.runAt == b.runAt && a.maxAttempts == b.maxAttempts
  }

  lemma {:induction false} RenewalsKeepLease(db: Db, id: JobId, token: Token, duration: int, beats: seq<Beat>)
    requires HoldsToken(db.jobs, id, token)
    ensures var after := RenewAll(db, id, token, duration, beats);
            && OnlyThisJob(db, after, id, 0) && HoldsToken(after.jobs, id, token)
            && SameBudget(db.jobs[id], after.jobs[id]) && after.jobs[id].retryCount == db.jobs[id].retryCount
  {
    if beats != [] {
      var front, last := beats[..|beats| - 1], beats[|beats| - 1];
      RenewalsKeepLease(db, id, token, duration, front);
      var mid := RenewAll(db, id, token, duration, front);
      LogLeases(mid.events, Event(mid.nextEventId, id, LeaseRenewed, last.logged));
    }
  }

  /** Each heartbeat is for the full lease, from its own time. */
  lemma RenewalsExtend(db: Db, id: JobId, token: Token, duration: int, beats: seq<Beat>)
    requires HoldsToken(db.jobs, id, token) && beats != []
    ensures var after, now := RenewAll(db, id, token, duration, beats), beats[|beats| - 1].now;
            HoldsToken(after.jobs, id, token) &&
            after.jobs[id].leasedUntil == Some(now + duration) && after.jobs[id].updatedAt == now
  {
    RenewalsKeepLease(db, id, token, duration, beats[..|beats| - 1]);
  }

  lemma LeaseOnJob(db: Db, aging: int, id: JobId, kind: string, duration: int, t: Tick)
    requires id in db.jobs && Choose(db.jobs, kind, t.leased, aging) == Some(id)
    ensures db.jobs[id].ReadyFor(kind, t.leased)
    ensures var taken := Q.Lease(db, aging, kind, duration, t.token, t.leased, t.leaseLogged);
            OnlyThisJob(db, taken, id, 1) && taken.jobs[id] == LeasedRow(db.jobs[id], t.leased, duration, t.token)
  {
    LogLeases(db.events, Event(db.nextEventId, id, LeaseTaken, t.leaseLogged));
  }

  /** State and retry count after an attempt that ran to its end. */
  predicate Attempted(before: Job, after: Job, outcome: Outcome) {
    if outcome == Success then after.state == Completed && after.retryCount == before.retryCount
    else
      && after.retryCount == before.retryCount + 1
      && after.state == if before.retryCount + 1 < before.maxAttempts then Pending else DeadLetter
  }

  lemma FinishOnJob(db: Db, id: JobId, outcome: Outcome, t: Tick)
    requires HoldsToken(db.jobs, id, t.token) && t.token != ""
    ensures var after := if outcome == Failure then Q.Fail(db, id, t.token, t.finished, t.finishLogged)
                         else Q.Acknowledge(db, id, t.token, t.finished, t.finishLogged);
            && OnlyThisJob(db, after, id, 0) && SameBudget(db.jobs[id], after.jobs[id])
            && Attempted(db.jobs[id], after.jobs[id], outcome)
  {
    var kind := if outcome == Failure then Q.FailureEvent(Q.ShouldRetry(db.jobs[id])) else Acknowledged;
    LogLeases(db.events, Event(db.nextEventId, id, kind, t.finishLogged));
  }

  /** A turn that leases a job runs one attempt of it, and leaves every other row and log alone. */
  lemma TurnOnJob(db: Db, aging: int, id: JobId, kind: string, duration: int, handler: Row -> Outcome, t: Tick)
    requires id in db.jobs && Choose(db.jobs, kind, t.leased, aging) == Some(id) && t.token != ""
    ensures var after := Turn(db, aging, kind, duration, handler, t);
            && OnlyThisJob(db, after, id, 1) && SameBudget(db.jobs[id], after.jobs[id])
            && Attempted(db.jobs[id], after.jobs[id],
                handler(Row(id, LeasedRow(db.jobs[id], t.leased, duration, t.token))))
  {
    LeaseOnJob(db, aging, id, kind, duration, t);
    var taken := Q.Lease(db, aging, kind, duration, t.token, t.leased, t.leaseLogged);
    RenewalsKeepLease(taken, id, t.token, duration, t.beats);
    FinishOnJob(RenewAll(taken, id, t.token, duration, t.beats), id, handler(Row(id, taken.jobs[id])), t);
  }

  function Min(a: int, b: int): int {
    if a <= b then a else b
  }

  /**
    From where the job first stands, the handler fails its attempts through number f
    and then succeeds; nothing is said of other jobs.
   */
  ghost predicate FailsThrough(handler: Row -> Outcome, id: JobId, first: Job, f: int) {
    forall j: Job | j.payload == first.payload && j.maxAttempts == first.maxAttempts &&
                    first.retryCount <= j.retryCount < j.maxAttempts ::
      handler(Row(id, j)) == if j.retryCount + 1 <= f then Failure else Success
  }

  /** The last attempt that the policy fails: the configured one, every one of a hanging handler, or none. */
  function LastFailing(p: FaultPolicy, j: Job): int {
    var last := match p.mode
                case ModeError | ModePanic => p.failUntilAttempt
                case ModeSlow | ModeStall => j.maxAttempts
                case _ => j.retryCount;
    if last >= j.retryCount then last else j.retryCount
  }

  lemma InjectorFailsThrough(policy: (JobId, string) -> FaultPolicy, id: JobId, first: Job)
    ensures FailsThrough(Injected(policy), id, first, LastFailing(policy(id, first.payload), first))
  {
  }

  /** Where a job stands after so many more leases. */
  predicate OnCourse(first: Job, j: Job, leases: int, f: int) {
    && SameBudget(first, j)
    && match j.state
       case Pending => first.retryCount <= j.retryCount == first.retryCount + leases <= Min(f, j.maxAttempts - 1)
       case Completed => j.retryCount == f < j.maxAttempts && leases == f + 1 - first.retryCount
       case DeadLetter => j.retryCount == j.maxAttempts <= f && leases == j.maxAttempts - first.retryCount
       case _ => false
  }

  function MoreLeases(before: Db, after: Db, id: JobId): int {
    Leases(Log(after.events, id)) - Leases(Log(before.events, id))
  }

  ghost predicate Course(start: Db, db: Db, id: JobId, f: int)
    requires id in start.jobs
  {
    id in db.jobs && OnCourse(start.jobs[id], db.jobs[id], MoreLeases(start, db, id), f)
  }

  lemma OwnTurn(start: Db, db: Db, aging: int, id: JobId, f: int, kind: string, duration: int,
                handler: Row -> Outcome, t: Tick)
    requires id in start.jobs && Course(start, db, id, f) && t.token != ""
    requires FailsThrough(handler, id, start.jobs[id], f) && Choose(db.jobs, kind, t.leased, aging) == Some(id)
    ensures Course(start, Turn(db, aging, kind, duration, handler, t), id, f)
  {
    var row := LeasedRow(db.jobs[id], t.leased, duration, t.token);
    TurnOnJob(db, aging, id, kind, duration, handler, t);
    assert db.jobs[id].state == Pending;
    assert handler(Row(id, row)) == if row.retryCount + 1 <= f then Failure else Success;
  }

  lemma TurnKeepsCourse(start: Db, db: Db, aging: int, id: JobId, f: int, kind: string, duration: int,
                        handler: Row -> Outcome, t: Tick)
    requires id in start.jobs && Course(start, db, id, f) && t.token != ""
    requires FailsThrough(handler, id, start.jobs[id], f)
    ensures Course(start, Turn(db, aging, kind, duration, handler, t), id, f)
  {
    var best := Choose(db.jobs, kind, t.leased, aging);
    if best == Some(id) {
      OwnTurn(start, db, aging, id, f, kind, duration, handler, t);
    } else if best.Some? {
      TurnOnJob(db, aging, best.value, kind, duration, handler, t);
    }
  }

  /**
    The outcome under an injected fault depends on nothing but the job: whatever
    other jobs are in the queue and whatever their policies, after any number of
    turns a job that fails through attempt f is waiting with one retry a lease, or
    completed at retry count f after f + 1 attempts, or dead-lettered at its budget.
   */
  lemma {:induction false} FaultCourse(start: Db, db: Db, aging: int, id: JobId, f: int, kind: string, duration: int,
                                       handler: Row -> Outcome, ts: seq<Tick>)
    requires id in start.jobs && Course(start, db, id, f) && FailsThrough(handler, id, start.jobs[id], f)
    requires forall t | t in ts :: t.token != ""
    ensures Course(start, Turns(db, aging, kind, duration, handler, ts), id, f)
    decreases |ts|
  {
    if ts != [] {
      assert ts[0] in ts && forall t | t in ts[1..] :: t in ts;
      TurnKeepsCourse(start, db, aging, id, f, kind, duration, handler, ts[0]);
      var next := Turn(db, aging, kind, duration, handler, ts[0]);
      FaultCourse(start, next, aging, id, f, kind, duration, handler, ts[1..]);
    }
  }

  // ---- Enough turns end the job ----

  /** Attempts left to the waiting jobs of the kind. */
  function Waiting(kind: string): Row -> int {
    (r: Row) => if r.job.kind == kind && r.job.state == Pending then r.job.maxAttempts - r.job.retryCount else 0
  }

  predicate Budgeted(jobs: Jobs) {
    forall id | id in jobs && jobs[id].state == Pending :: jobs[id].retryCount < jobs[id].maxAttempts
  }

  lemma {:induction false} WaitingNatural(ids: set<JobId>, jobs: Jobs, kind: string)
    requires ids <= jobs.Keys && Budgeted(jobs)
    ensures Total(ids, jobs, Waiting(kind)) >= 0
    decreases |ids|
  {
    if ids != {} {
      var id :| id in ids;
      TotalSplit(ids, jobs, Waiting(kind), id);
      WaitingNatural(ids - {id}, jobs, kind);
    }
  }

  lemma WaitingCounts(jobs: Jobs, kind: string, id: JobId)
    requires Budgeted(jobs) && id in jobs && jobs[id].kind == kind && jobs[id].state == Pending
    ensures Sum(jobs, Waiting(kind)) >= 1
  {
    TotalSplit(jobs.Keys, jobs, Waiting(kind), id);
    WaitingNatural(jobs.Keys - {id}, jobs, kind);
  }

  lemma TurnLowersWaiting(db: Db, aging: int, kind: string, duration: int, handler: Row -> Outcome, t: Tick)
    requires Budgeted(db.jobs) && t.token != "" && Choose(db.jobs, kind, t.leased, aging).Some?
    ensures Budgeted(Turn(db, aging, kind, duration, handler, t).jobs)
    ensures Sum(Turn(db, aging, kind, duration, handler, t).jobs, Waiting(kind)) < Sum(db.jobs, Waiting(kind))
  {
    var best := Choose(db.jobs, kind, t.leased, aging).value;
    var after := Turn(db, aging, kind, duration, handler, t).jobs;
    TurnOnJob(db, aging, best, kind, duration, handler, t);
    assert after == db.jobs[best := after[best]];
    SumChange(db.jobs, best, after[best], Waiting(kind));
  }

  /** Once it ended, the job stays as it is. */
  lemma EndedStays(start: Db, db: Db, aging: int, id: JobId, f: int, kind: string, duration: int,
                   handler: Row -> Outcome, ts: seq<Tick>)
    requires id in start.jobs && Course(start, db, id, f) && db.jobs[id].state != Pending
    requires FailsThrough(handler, id, start.jobs[id], f) && forall t | t in ts :: t.token != ""
    ensures var after := Turns(db, aging, kind, duration, handler, ts);
            id in after.jobs && after.jobs[id] == db.jobs[id]
    decreases |ts|
  {
    if ts != [] {
      assert ts[0] in ts && forall t | t in ts[1..] :: t in ts;
      var best := Choose(db.jobs, kind, ts[0].leased, aging);
      if best.Some? { TurnOnJob(db, aging, best.value, kind, duration, handler, ts[0]); }
      TurnKeepsCourse(start, db, aging, id, f, kind, duration, handler, ts[0]);
      var next := Turn(db, aging, kind, duration, handler, ts[0]);
      EndedStays(start, next, aging, id, f, kind, duration, handler, ts[1..]);
    }
  }

  lemma {:induction false} EnoughTurnsEnd(start: Db, db: Db, aging: int, id: JobId, f: int, duration: int,
                                          handler: Row -> Outcome, ts: seq<Tick>)
    requires id in start.jobs && Course(start, db, id, f) && FailsThrough(handler, id, start.jobs[id], f)
    requires Budgeted(db.jobs) && |ts| >= Sum(db.jobs, Waiting(start.jobs[id].kind))
    requires forall t | t in ts ::
               t.token != "" && (start.jobs[id].runAt.Some? ==> start.jobs[id].runAt.value <= t.leased)
    ensures var after := Turns(db, aging, start.jobs[id].kind, duration, handler, ts);
            id in after.jobs && after.jobs[id].state != Pending
    decreases |ts|
  {
    var kind := start.jobs[id].kind;
    if db.jobs[id].state != Pending {
      EndedStays(start, db, aging, id, f, kind, duration, handler, ts);
    } else {
      WaitingCounts(db.jobs, kind, id);
      assert ts[0] in ts && forall t | t in ts[1..] :: t in ts;
      assert db.jobs[id].ReadyFor(kind, ts[0].leased);
      TurnLowersWaiting(db, aging, kind, duration, handler, ts[0]);
      TurnKeepsCourse(start, db, aging, id, f, kind, duration, handler, ts[0]);
      EnoughTurnsEnd(start, Turn(db, aging, kind, duration, handler, ts[0]), aging, id, f, duration, handler, ts[1..]);
    }
  }

  /**
    The outcome is also reached: once a slot has taken as many turns as the waiting
    jobs of the kind have attempts left, a job with budget m whose policy fails it
    through attempt f was leased exactly min(f + 1, m) times in all, and is completed
    with retry count f when f < m and dead-lettered with retry count m otherwise. A
    handler that hangs until it is cancelled fails every attempt.
   */
  lemma FaultOutcome(db: Db, aging: int, id: JobId, duration: int, policy: (JobId, string) -> FaultPolicy,
      ts: seq<Tick>)
    requires id in db.jobs && db.jobs[id].state == Pending && Budgeted(db.jobs)
    requires forall t | t in ts :: t.token != "" && (db.jobs[id].runAt.Some? ==> db.jobs[id].runAt.value <= t.leased)
    requires |ts| >= Sum(db.jobs, Waiting(db.jobs[id].kind))
    ensures var j, f := db.jobs[id], LastFailing(policy(id, db.jobs[id].payload), db.jobs[id]);
            var after := Turns(db, aging, j.kind, duration, Injected(policy), ts);
            && id in after.jobs
            && after.jobs[id].state == (if f < j.maxAttempts then Completed else DeadLetter)
            && after.jobs[id].retryCount == Min(f, j.maxAttempts)
            && MoreLeases(db, after, id) == Min(f + 1, j.maxAttempts) - j.retryCount
  {
    var j, f := db.jobs[id], LastFailing(policy(id, db.jobs[id].payload), db.jobs[id]);
    InjectorFailsThrough(policy, id, j);
    FaultCourse(db, db, aging, id, f, j.kind, duration, Injected(policy), ts);
    EnoughTurnsEnd(db, db, aging, id, f, duration, Injected(policy), ts);
  }
}
