/**
  The fine level: every SQL statement is one step, and any number of clients
  interleave. Between its statements a client remembers what it read and which
  events it still has to append.
 */
module Fine {
  import opened Records
  import opened Dispatch
  import opened Tables
  import opened Retention
  import opened Ledger
  import Q = QueueOps

  /** An event still to be appended, and when its change was made. */
  datatype Owed = Owed(id: JobId, kind: EventType, at: int)

  /** Where a client is inside a queue call; "at" is the number of leases granted when it read. */
  datatype Pc =
    | Idle
    | Owing(events: seq<Owed>)
    | FailRead(row: Row, at: nat)
    | RequeueRead(id: JobId, maxAttempts: int, payload: Option<string>)
    | Recovering(todo: seq<Row>, owed: seq<Owed>, at: nat, now: int)

  /**
    clock is the time of the latest statement; taken lists the scanned lease of
    every row that a recovery write changed.
   */
  datatype System = System(
    db: Db, clock: int, pcs: seq<Pc>, grants: seq<Grant>, ended: seq<Token>, taken: seq<Token>)

  datatype Stmt =
    | InsertJob(client: nat, id: JobId, spec: Q.NewJob, now: int)
    | LeaseJob(client: nat, kind: string, duration: int, token: Token, now: int)
    | RenewJob(client: nat, id: JobId, token: Token, duration: int, now: int)
    | CompleteJob(client: nat, id: JobId, token: Token, now: int)
    | FailGet(client: nat, id: JobId, token: Token)
    | FailWrite(client: nat, now: int)
    | RequeueGet(client: nat, id: JobId, maxAttempts: int, payload: Option<string>)
    | RequeueWrite(client: nat, now: int)
    | OrphanScan(client: nat, scan: seq<Row>, now: int)
    | RecoverWrite(client: nat)
    | Append(client: nat, time: int)
    | PruneTx(client: nat, policy: Policy, source: Source, now: int)
  {
    /**
      When the statement runs: a read and a recovery write carry no time of their
      own, and an append runs no earlier than the time it stamps.
     */
    function At(clock: int): int {
      if FailGet? || RequeueGet? || RecoverWrite? then clock
      else if Append? then (if time > clock then time else clock)
      else now
    }
  }

  /** A creation event carries the time of the insert; any other is stamped after its change. */
  predicate StampOk(o: Owed, time: int) {
    o.at <= time && (o.kind.Enqueued? || o.kind.Scheduled? ==> time == o.at)
  }

  /**
    The client is where the statement belongs, time does not run backwards, and
    drawn ids and tokens are fresh. Failures are fenced.
   */
  ghost predicate Can(s: System, stmt: Stmt) {
    && stmt.client < |s.pcs| && s.clock <= stmt.At(s.clock)
    && var pc := s.pcs[stmt.client];
       match stmt
       case InsertJob(_, id, _, _) => pc == Idle && id != "" && id !in s.db.ids
       case LeaseJob(_, _, _, token, _) => pc == Idle && token != "" && token !in s.db.tokens
       case FailGet(_, _, token) => pc == Idle && token != ""
       case OrphanScan(_, scan, now) => pc == Idle && IsOrphanScan(s.db.jobs, scan, now)
       case FailWrite(_, _) => pc.FailRead?
       case RequeueWrite(_, _) => pc.RequeueRead?
       case RecoverWrite(_) => pc.Recovering? && pc.todo != []
       case Append(_, time) =>
         (pc.Owing? || (pc.Recovering? && pc.todo == [])) && (PcOwed(pc) != [] ==> StampOk(PcOwed(pc)[0], time))
       case _ => pc == Idle
  }

  /** The change the statement makes to the jobs table. */
  ghost function ActOf(aging: int, s: System, stmt: Stmt): Act
    requires Can(s, stmt)
  {
    var jobs := s.db.jobs;
    match stmt
    case InsertJob(_, id, spec, now) =>
      if KeyTaken(jobs, Q.NewRow(spec, now).key) then Stay else Insert(id, Q.NewRow(spec, now))
    case LeaseJob(_, kind, duration, token, now) =>
      var best := Choose(jobs, kind, now, aging);
      if best == None then Stay else Give(best.value, LeasedRow(jobs[best.value], now, duration, token), token)
    case RenewJob(_, id, token, duration, now) =>
      if HoldsToken(jobs, id, token) then Keep(id, RenewedRow(jobs[id], now, duration)) else Stay
    case CompleteJob(_, id, token, now) =>
      if HoldsLease(jobs, id, token) then Release(id, Released(jobs[id], Completed, jobs[id].retryCount, now)) else Stay
    case FailWrite(client, now) =>
      var r := s.pcs[client].row;
      if r.job.token.Some? && HoldsToken(jobs, r.id, r.job.token.value)
      then Release(r.id, FailedRow(jobs[r.id], Q.ShouldRetry(r.job), now)) else Stay
    case RequeueWrite(client, now) =>
      var pc := s.pcs[client];
      if pc.id in jobs && jobs[pc.id].state == DeadLetter
      then Release(pc.id, RequeuedRow(jobs[pc.id], pc.maxAttempts, pc.payload, now)) else Stay
    case RecoverWrite(client) =>
      var pc := s.pcs[client];
      var r := pc.todo[0];
      if HoldsLease(jobs, r.id, "") then Release(r.id, RecoveredRow(jobs[r.id], r.job, pc.now)) else Stay
    case _ => Stay
  }

  /** The event a statement that changed a row leaves to be appended. */
  function Debt(s: System, stmt: Stmt, act: Act): seq<Owed>
    requires stmt.client < |s.pcs|
  {
    var at := stmt.At(s.clock);
    match act
    case Stay => []
    case Insert(id, _) => if stmt.InsertJob? then [Owed(id, Q.CreationEvent(stmt.spec), at)] else []
    case Give(id, _, _) => [Owed(id, LeaseTaken, at)]
    case Keep(id, _) => [Owed(id, LeaseRenewed, at)]
    case Release(id, row) =>
      var pc := s.pcs[stmt.client];
      if stmt.CompleteJob? then [Owed(id, Acknowledged, at)]
      else if stmt.FailWrite? && pc.FailRead? then [Owed(id, Q.FailureEvent(Q.ShouldRetry(pc.row.job)), at)]
      else if stmt.RequeueWrite? then [Owed(id, Requeued, at)]
      else if stmt.RecoverWrite? && pc.Recovering? && pc.todo != [] then
        [Owed(id, Q.RecoveryEvent(RecoveryState(pc.todo[0].job)), at)]
      else []
  }

  function Settle(events: seq<Owed>): Pc {
    if events == [] then Idle else Owing(events)
  }

  function PcOwed(pc: Pc): seq<Owed> {
    if pc.Owing? then pc.events else if pc.Recovering? then pc.owed else []
  }

  ghost function NextPc(aging: int, s: System, stmt: Stmt): Pc
    requires Can(s, stmt)
  {
    var pc := s.pcs[stmt.client];
    var jobs := s.db.jobs;
    match stmt
    case FailGet(_, id, token) =>
      if id in jobs && jobs[id].token == Some(token) then FailRead(Row(id, jobs[id]), |s.grants|) else Idle
    case RequeueGet(_, id, maxAttempts, payload) =>
      if id in jobs && jobs[id].state == DeadLetter
      then RequeueRead(id, if maxAttempts >= 1 then maxAttempts else jobs[id].maxAttempts, payload) else Idle
    case OrphanScan(_, scan, now) => Recovering(scan, [], |s.grants|, now)
    case RecoverWrite(_) => pc.(todo := pc.todo[1..], owed := pc.owed + Debt(s, stmt, ActOf(aging, s, stmt)))
    case Append(_, _) => var owed := PcOwed(pc); if owed == [] then Idle else Settle(owed[1..])
    case PruneTx(_, _, _, _) => Idle
    case _ => Settle(Debt(s, stmt, ActOf(aging, s, stmt)))
  }

  /** The database after the statement, by the meaning of the statement itself. */
  ghost function NextDb(aging: int, s: System, stmt: Stmt): Db
    requires Can(s, stmt)
  {
    var db, pc := s.db, s.pcs[stmt.client];
    match stmt
    case InsertJob(_, id, spec, now) => InsertStmt(db, id, Q.NewRow(spec, now))
    case LeaseJob(_, kind, duration, token, now) => LeaseStmt(db, aging, kind, duration, token, now)
    case RenewJob(_, id, token, duration, now) => RenewStmt(db, id, token, duration, now)
    case CompleteJob(_, id, token, now) => CompleteStmt(db, id, token, now)
    case FailWrite(_, now) =>
      if pc.row.job.token == None then db
      else FailStmt(db, pc.row.id, pc.row.job.token.value, Q.ShouldRetry(pc.row.job), now)
    case RequeueWrite(_, now) => RequeueStmt(db, pc.id, pc.maxAttempts, pc.payload, now)
    case RecoverWrite(_) => RecoverStmt(db, pc.todo[0], pc.now)
    case Append(_, time) => if PcOwed(pc) == [] then db else AppendStmt(db, PcOwed(pc)[0].id, PcOwed(pc)[0].kind, time)
    case PruneTx(_, policy, source, now) => Prune(db, policy, source, now)
    case _ => db
  }

  ghost function LedgerOf(s: System): Ledger {
    Ledger(s.db.jobs, s.grants, s.ended)
  }

  /** One statement; a statement that cannot run changes nothing. The histories record leases as they begin and end. */
  ghost function Exec(aging: int, s: System, stmt: Stmt): System {
    if !Can(s, stmt) then s
    else
      var act := ActOf(aging, s, stmt);
      System(
        NextDb(aging, s, stmt),
        stmt.At(s.clock),
        s.pcs[stmt.client := NextPc(aging, s, stmt)],
        if act.Give? then s.grants + [Grant(act.id, act.token)] else s.grants,
        if act.Release? && s.db.jobs[act.id].token.Some? then s.ended + [s.db.jobs[act.id].token.value] else s.ended,
        if act.Release? && stmt.RecoverWrite? && s.pcs[stmt.client].todo[0].job.token.Some?
        then s.taken + [s.pcs[stmt.client].todo[0].job.token.value] else s.taken)
  }

  function Fresh(clients: nat): System {
    System(EMPTY, 1, seq(clients, i => Idle), [], [], [])
  }

  ghost function Run(aging: int, from: System, stmts: seq<Stmt>): System {
    if stmts == [] then from else Exec(aging, Run(aging, from, stmts[..|stmts| - 1]), stmts[|stmts| - 1])
  }

  /** The states that some interleaving of statements of some number of clients reaches. */
  ghost predicate Reachable(aging: int, s: System) {
    exists clients: nat, stmts: seq<Stmt> :: s == Run(aging, Fresh(clients), stmts)
  }

  // ---- Invariant ----

  ghost predicate PcOk(s: System, pc: Pc) {
    match pc
    case FailRead(row, at) => Remembered(LedgerOf(s), at, row)
    case Recovering(todo, _, at, _) => forall r | r in todo :: Remembered(LedgerOf(s), at, r)
    case _ => true
  }

  ghost predicate SystemOk(s: System) {
    && LedgerOk(LedgerOf(s))
    && (forall g | g in s.grants :: g.id in s.db.ids && g.token in s.db.tokens && g.token != "")
    && s.db.jobs.Keys <= s.db.ids
    && forall pc | pc in s.pcs :: PcOk(s, pc)
  }

  lemma LeaseActOk(aging: int, s: System, stmt: Stmt)
    requires SystemOk(s) && Can(s, stmt) && stmt.LeaseJob?
    ensures ActOk(LedgerOf(s), ActOf(aging, s, stmt))
  {
    var best := Choose(s.db.jobs, stmt.kind, stmt.now, aging);
    if best.Some? {
      assert s.db.jobs[best.value].state == Pending;
    }
  }

  lemma ActOfOk(aging: int, s: System, stmt: Stmt)
    requires SystemOk(s) && Can(s, stmt)
    ensures ActOk(LedgerOf(s), ActOf(aging, s, stmt))
  {
    if stmt.LeaseJob? { LeaseActOk(aging, s, stmt); }
  }

  /** Except for a prune, the jobs table changes as the statement's act says. */
  lemma NextJobs(aging: int, s: System, stmt: Stmt)
    requires SystemOk(s) && Can(s, stmt) && !stmt.PruneTx?
    ensures ActOk(LedgerOf(s), ActOf(aging, s, stmt))
    ensures LedgerOf(Exec(aging, s, stmt)) == Recorded(LedgerOf(s), ActOf(aging, s, stmt))
  {
    ActOfOk(aging, s, stmt);
    if stmt.FailWrite? {
      assert PcOk(s, s.pcs[stmt.client]);
    }
  }

  /** The jobs table after any statement but a prune. */
  lemma JobsAfter(aging: int, s: System, stmt: Stmt)
    requires SystemOk(s) && Can(s, stmt) && !stmt.PruneTx?
    ensures var act := ActOf(aging, s, stmt);
            ActOk(LedgerOf(s), act)
            && Exec(aging, s, stmt).db.jobs == if act.Stay? then s.db.jobs else s.db.jobs[act.id := act.row]
  {
    NextJobs(aging, s, stmt);
    var act := ActOf(aging, s, stmt);
    assert Recorded(LedgerOf(s), act).jobs == if act.Stay? then s.db.jobs else s.db.jobs[act.id := act.row];
  }

  lemma NextTokens(aging: int, s: System, stmt: Stmt)
    requires Can(s, stmt)
    ensures s.db.tokens <= NextDb(aging, s, stmt).tokens
    ensures stmt.LeaseJob? ==> stmt.token in NextDb(aging, s, stmt).tokens
  {
  }

  lemma NextKnown(aging: int, s: System, stmt: Stmt)
    requires Can(s, stmt) && s.db.jobs.Keys <= s.db.ids
    ensures s.db.ids <= NextDb(aging, s, stmt).ids && NextDb(aging, s, stmt).jobs.Keys <= NextDb(aging, s, stmt).ids
  {
  }

  lemma NextIds(aging: int, s: System, stmt: Stmt)
    requires SystemOk(s) && Can(s, stmt)
    ensures s.db.ids <= NextDb(aging, s, stmt).ids && s.db.tokens <= NextDb(aging, s, stmt).tokens
    ensures NextDb(aging, s, stmt).jobs.Keys <= NextDb(aging, s, stmt).ids
    ensures stmt.LeaseJob? ==> stmt.token in NextDb(aging, s, stmt).tokens
  {
    NextTokens(aging, s, stmt);
    NextKnown(aging, s, stmt);
  }

  lemma PruneDropsUnleased(jobs: Jobs, p: Policy, source: Source, now: int, db: Db) returns (gone: set<JobId>)
    requires db.jobs == jobs && forall id | id in jobs :: NoLease(jobs[id]) || HasLease(jobs[id])
    ensures forall id | id in gone && id in jobs :: NoLease(jobs[id])
    ensures Prune(db, p, source, now).jobs == jobs - gone
  {
    gone := {};
    assert jobs - {} == jobs;
    if !source.OtherSource? {
      gone := Doomed(jobs, p, now);
      PruneTables(db, p, source, now);
    }
  }

  lemma PruneLedger(aging: int, s: System, stmt: Stmt) returns (gone: set<JobId>)
    requires SystemOk(s) && Can(s, stmt) && stmt.PruneTx?
    ensures forall id | id in gone && id in s.db.jobs :: NoLease(s.db.jobs[id])
    ensures LedgerOf(Exec(aging, s, stmt)) == LedgerOf(s).(jobs := s.db.jobs - gone)
    ensures LedgerOk(LedgerOf(Exec(aging, s, stmt)))
  {
    gone := PruneDropsUnleased(s.db.jobs, stmt.policy, stmt.source, stmt.now, s.db);
    DropKeeps(LedgerOf(s), gone);
  }

  /** The jobs table after a prune: some jobs without a lease are gone. */
  lemma JobsPruned(aging: int, s: System, stmt: Stmt) returns (gone: set<JobId>)
    requires SystemOk(s) && Can(s, stmt) && stmt.PruneTx?
    ensures forall id | id in gone && id in s.db.jobs :: NoLease(s.db.jobs[id])
    ensures Exec(aging, s, stmt).db.jobs == s.db.jobs - gone
  {
    gone := PruneLedger(aging, s, stmt);
    assert LedgerOf(Exec(aging, s, stmt)).jobs == s.db.jobs - gone;
  }

  /** What any client remembers stays right, whoever runs the statement. */
  lemma MemoryKeeps(aging: int, s: System, stmt: Stmt, at: nat, r: Row)
    requires SystemOk(s) && Can(s, stmt) && Remembered(LedgerOf(s), at, r)
    ensures Remembered(LedgerOf(Exec(aging, s, stmt)), at, r)
  {
    if stmt.PruneTx? {
      var gone := PruneLedger(aging, s, stmt);
      RememberedDrop(LedgerOf(s), gone, at, r);
    } else {
      NextJobs(aging, s, stmt);
      RememberedKeeps(LedgerOf(s), ActOf(aging, s, stmt), at, r);
    }
  }

  lemma PcKeeps(aging: int, s: System, stmt: Stmt, pc: Pc)
    requires SystemOk(s) && Can(s, stmt) && PcOk(s, pc)
    ensures PcOk(Exec(aging, s, stmt), pc)
  {
    if pc.FailRead? { MemoryKeeps(aging, s, stmt, pc.at, pc.row); }
    if pc.Recovering? {
      forall r | r in pc.todo ensures Remembered(LedgerOf(Exec(aging, s, stmt)), pc.at, r) {
        MemoryKeeps(aging, s, stmt, pc.at, r);
      }
    }
  }

  lemma NewPcOk(aging: int, s: System, stmt: Stmt)
    requires SystemOk(s) && Can(s, stmt)
    ensures PcOk(Exec(aging, s, stmt), NextPc(aging, s, stmt))
  {
    var pc := s.pcs[stmt.client];
    assert PcOk(s, pc);
    if stmt.RecoverWrite? {
      PcKeeps(aging, s, stmt, pc);
      assert forall r | r in pc.todo[1..] :: r in pc.todo;
    } else if stmt.FailGet? && stmt.id in s.db.jobs && s.db.jobs[stmt.id].token == Some(stmt.token) {
      RememberNow(LedgerOf(s), Row(stmt.id, s.db.jobs[stmt.id]));
    } else if stmt.OrphanScan? {
      forall r | r in stmt.scan ensures Remembered(LedgerOf(s), |s.grants|, r) {
        RememberNow(LedgerOf(s), r);
      }
    }
  }

  lemma LedgerKeeps(aging: int, s: System, stmt: Stmt)
    requires SystemOk(s) && Can(s, stmt)
    ensures LedgerOk(LedgerOf(Exec(aging, s, stmt)))
  {
    if stmt.PruneTx? {
      var _ := PruneLedger(aging, s, stmt);
    } else {
      NextJobs(aging, s, stmt);
      RecordKeeps(LedgerOf(s), ActOf(aging, s, stmt));
    }
  }

  lemma GrantsKeep(aging: int, s: System, stmt: Stmt)
    requires SystemOk(s) && Can(s, stmt)
    ensures var s' := Exec(aging, s, stmt);
            && (forall g | g in s'.grants :: g.id in s'.db.ids && g.token in s'.db.tokens && g.token != "")
            && s'.db.jobs.Keys <= s'.db.ids
  {
    NextIds(aging, s, stmt);
    if stmt.LeaseJob? { LeaseActOk(aging, s, stmt); }
  }

  lemma StepKeeps(aging: int, s: System, stmt: Stmt)
    requires SystemOk(s) && Can(s, stmt)
    ensures SystemOk(Exec(aging, s, stmt))
  {
    var s' := Exec(aging, s, stmt);
    LedgerKeeps(aging, s, stmt);
    GrantsKeep(aging, s, stmt);
    NewPcOk(aging, s, stmt);
    forall pc | pc in s'.pcs ensures PcOk(s', pc) {
      if pc in s.pcs { PcKeeps(aging, s, stmt, pc); }
    }
  }

  lemma {:induction false} RunKeeps(aging: int, clients: nat, stmts: seq<Stmt>)
    ensures SystemOk(Run(aging, Fresh(clients), stmts))
  {
    if stmts != [] {
      RunKeeps(aging, clients, stmts[..|stmts| - 1]);
      var s := Run(aging, Fresh(clients), stmts[..|stmts| - 1]);
      if Can(s, stmts[|stmts| - 1]) { StepKeeps(aging, s, stmts[|stmts| - 1]); }
    }
  }

  lemma ReachableOk(aging: int, s: System)
    requires Reachable(aging, s)
    ensures SystemOk(s)
  {
    var clients: nat, stmts: seq<Stmt> :| s == Run(aging, Fresh(clients), stmts);
    RunKeeps(aging, clients, stmts);
  }
}
