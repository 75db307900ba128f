/**
  The two levels agree: a queue method at the coarse level is what its
  statements do at the fine level when no other client runs in between.
 */
module Serial {
  import opened Records
  import opened Dispatch
  import opened Tables
  import opened Ledger
  import opened Retention
  import opened Fine
  import opened Fencing
  import C = Coarse
  import Q = QueueOps

  /** Statements of one client alone lead from s to s'. */
  ghost predicate Alone(aging: int, s: System, client: nat, s': System) {
    exists stmts: seq<Stmt> :: (forall stmt | stmt in stmts :: stmt.client == client) && Run(aging, s, stmts) == s'
  }

  lemma AloneStep(aging: int, s: System, client: nat, mid: System, stmt: Stmt)
    requires Alone(aging, s, client, mid) && stmt.client == client
    ensures Alone(aging, s, client, Exec(aging, mid, stmt))
  {
    var stmts: seq<Stmt> :| (forall x | x in stmts :: x.client == client) && Run(aging, s, stmts) == mid;
    assert (stmts + [stmt])[..|stmts|] == stmts;
    assert Run(aging, s, stmts + [stmt]) == Exec(aging, mid, stmt);
  }

  lemma AloneStart(aging: int, s: System, client: nat)
    ensures Alone(aging, s, client, s)
  {
    assert Run(aging, s, []) == s;
  }

  /** The append, if one is owed, that ends a call. */
  lemma LastAppend(aging: int, s: System, client: nat, mid: System, owed: seq<Owed>, logged: int) returns (s': System)
    requires Alone(aging, s, client, mid) && client < |mid.pcs| && mid.pcs[client] == Settle(owed) && |owed| <= 1
    requires owed != [] ==> StampOk(owed[0], logged)
    ensures Alone(aging, s, client, s') && client < |s'.pcs| && s'.pcs[client] == Idle
    ensures s'.db == if owed == [] then mid.db else AppendStmt(mid.db, owed[0].id, owed[0].kind, logged)
  {
    s' := mid;
    if owed != [] {
      AloneStep(aging, s, client, mid, Append(client, logged));
      s' := Exec(aging, mid, Append(client, logged));
    }
  }

  /** Calls of one statement and at most one append. */
  lemma OneStatement(aging: int, s: System, client: nat, stmt: Stmt, logged: int) returns (s': System)
    requires Can(s, stmt) && stmt.client == client
    requires stmt.InsertJob? || stmt.LeaseJob? || stmt.RenewJob? || stmt.CompleteJob?
    requires stmt.now <= logged && (stmt.InsertJob? ==> logged == stmt.now)
    ensures Alone(aging, s, client, s') && client < |s'.pcs| && s'.pcs[client] == Idle
    ensures var owed := Debt(s, stmt, ActOf(aging, s, stmt));
            && |owed| <= 1
            && s'.db == if owed == [] then NextDb(aging, s, stmt)
                        else AppendStmt(NextDb(aging, s, stmt), owed[0].id, owed[0].kind, logged)
  {
    AloneStart(aging, s, client);
    AloneStep(aging, s, client, s, stmt);
    s' := LastAppend(aging, s, client, Exec(aging, s, stmt), Debt(s, stmt, ActOf(aging, s, stmt)), logged);
  }

  /** The read of a failure: on to the write when the token is the job's, back to idle otherwise. */
  lemma FailReads(aging: int, s: System, client: nat, id: JobId, token: Token)
    requires client < |s.pcs| && s.pcs[client] == Idle && token != ""
    ensures var read := Exec(aging, s, FailGet(client, id, token));
            && read.db == s.db && read.clock == s.clock && |read.pcs| == |s.pcs|
            && read.pcs[client] == (if id in s.db.jobs && s.db.jobs[id].token == Some(token)
                                    then FailRead(Row(id, s.db.jobs[id]), |s.grants|) else Idle)
  {
  }

  lemma FailWrites(aging: int, s: System, client: nat, id: JobId, token: Token, at: nat, now: int)
    requires client < |s.pcs| && id in s.db.jobs && s.pcs[client] == FailRead(Row(id, s.db.jobs[id]), at)
    requires HoldsToken(s.db.jobs, id, token) && s.clock <= now
    ensures var wrote, retry := Exec(aging, s, FailWrite(client, now)), Q.ShouldRetry(s.db.jobs[id]);
            && wrote.db == FailStmt(s.db, id, token, retry, now) && |wrote.pcs| == |s.pcs|
            && wrote.pcs[client] == Settle([Owed(id, Q.FailureEvent(retry), now)])
  {
  }

  lemma FailCall(aging: int, s: System, client: nat, id: JobId, token: Token, now: int, logged: int)
    returns (s': System)
    requires SystemOk(s) && client < |s.pcs| && s.pcs[client] == Idle && token != "" && s.clock <= now <= logged
    ensures Alone(aging, s, client, s') && client < |s'.pcs| && s'.pcs[client] == Idle
    ensures s'.db == Q.Fail(s.db, id, token, now, logged)
  {
    AloneStart(aging, s, client);
    AloneStep(aging, s, client, s, FailGet(client, id, token));
    FailReads(aging, s, client, id, token);
    s' := Exec(aging, s, FailGet(client, id, token));
    if s'.pcs[client] != Idle {
      assert LedgerOk(LedgerOf(s));
      FailWrites(aging, s', client, id, token, |s.grants|, now);
      AloneStep(aging, s, client, s', FailWrite(client, now));
      s' := LastAppend(aging, s, client, Exec(aging, s', FailWrite(client, now)),
                       [Owed(id, Q.FailureEvent(Q.ShouldRetry(s.db.jobs[id])), now)], logged);
    }
  }

  lemma RequeueReads(aging: int, s: System, client: nat, id: JobId, maxAttempts: int, payload: Option<string>)
    requires client < |s.pcs| && s.pcs[client] == Idle
    ensures var read := Exec(aging, s, RequeueGet(client, id, maxAttempts, payload));
            && read.db == s.db && read.clock == s.clock && |read.pcs| == |s.pcs|
            && read.pcs[client] == (if id in s.db.jobs && s.db.jobs[id].state == DeadLetter
                                    then RequeueRead(
                                      id, if maxAttempts >= 1 then maxAttempts else s.db.jobs[id].maxAttempts, payload)
                                    else Idle)
  {
  }

  lemma RequeueWrites(aging: int, s: System, client: nat, id: JobId, budget: int, payload: Option<string>, now: int)
    requires client < |s.pcs| && s.pcs[client] == RequeueRead(id, budget, payload) && s.clock <= now
    requires id in s.db.jobs && s.db.jobs[id].state == DeadLetter
    ensures var wrote := Exec(aging, s, RequeueWrite(client, now));
            && wrote.db == RequeueStmt(s.db, id, budget, payload, now) && |wrote.pcs| == |s.pcs|
            && wrote.pcs[client] == Settle([Owed(id, Requeued, now)])
  {
  }

  lemma RequeueCall(aging: int, s: System, client: nat, id: JobId, maxAttempts: int, payload: Option<string>,
      now: int, logged: int)
    returns (s': System)
    requires client < |s.pcs| && s.pcs[client] == Idle && s.clock <= now <= logged
    ensures Alone(aging, s, client, s') && client < |s'.pcs| && s'.pcs[client] == Idle
    ensures s'.db == Q.Requeue(s.db, id, maxAttempts, payload, now, logged)
  {
    AloneStart(aging, s, client);
    AloneStep(aging, s, client, s, RequeueGet(client, id, maxAttempts, payload));
    RequeueReads(aging, s, client, id, maxAttempts, payload);
    s' := Exec(aging, s, RequeueGet(client, id, maxAttempts, payload));
    if s'.pcs[client] != Idle {
      RequeueWrites(aging, s', client, id, s'.pcs[client].maxAttempts, payload, now);
      AloneStep(aging, s, client, s', RequeueWrite(client, now));
      s' := LastAppend(aging, s, client, Exec(aging, s', RequeueWrite(client, now)), [Owed(id, Requeued, now)], logged);
    }
  }

  // ---- Recovery ----

  function Debts(touched: seq<Row>, when: int): seq<Owed> {
    seq(|touched|, i requires 0 <= i < |touched| => Owed(touched[i].id, Q.RecoveryEvent(touched[i].job.state), when))
  }

  lemma {:induction false} WriteAll(aging: int, s: System, client: nat, mid: System, todo: seq<Row>, owed: seq<Owed>,
      at: nat, now: int, when: int)
    returns (s': System)
    requires Alone(aging, s, client, mid) && client < |mid.pcs| && mid.pcs[client] == Recovering(todo, owed, at, now)
    requires mid.clock == when
    ensures Alone(aging, s, client, s') && client < |s'.pcs|
    ensures s'.pcs[client] == Recovering([], owed + Debts(Q.Touched(mid.db, todo, now), when), at, now)
    ensures s'.db == Q.RecoverRows(mid.db, todo, now)
    decreases |todo|
  {
    if todo == [] {
      s' := mid;
      assert owed + Debts([], when) == owed;
    } else {
      var write := RecoverWrite(client);
      var next := Exec(aging, mid, write);
      var debt := Debt(mid, write, ActOf(aging, mid, write));
      AloneStep(aging, s, client, mid, write);
      WriteOne(aging, mid, client, when);
      s' := WriteAll(aging, s, client, next, todo[1..], owed + debt, at, now, when);
      DebtsFirst(mid.db, todo, owed, now, when);
    }
  }

  lemma DebtsConcat(a: seq<Row>, b: seq<Row>, owed: seq<Owed>, when: int)
    ensures owed + Debts(a, when) + Debts(b, when) == owed + Debts(a + b, when)
  {
  }

  lemma DebtsFirst(db: Db, todo: seq<Row>, owed: seq<Owed>, now: int, when: int)
    requires todo != []
    ensures var debt := if HoldsLease(db.jobs, todo[0].id, "") then Debts([Q.TouchedRow(todo[0])], when) else [];
            owed + debt + Debts(Q.Touched(RecoverStmt(db, todo[0], now), todo[1..], now), when)
              == owed + Debts(Q.Touched(db, todo, now), when)
  {
    var rest := Q.Touched(RecoverStmt(db, todo[0], now), todo[1..], now);
    if HoldsLease(db.jobs, todo[0].id, "") {
      DebtsConcat([Q.TouchedRow(todo[0])], rest, owed, when);
    } else {
      assert owed + [] == owed;
    }
  }

  lemma WriteOne(aging: int, s: System, client: nat, when: int)
    requires s.clock == when && client < |s.pcs| && s.pcs[client].Recovering? && s.pcs[client].todo != []
    ensures var pc := s.pcs[client];
            var write := RecoverWrite(client);
            var debt := Debt(s, write, ActOf(aging, s, write));
            && Exec(aging, s, write).db == RecoverStmt(s.db, pc.todo[0], pc.now) && Exec(aging, s, write).clock == when
            && Exec(aging, s, write).pcs == s.pcs[client := pc.(todo := pc.todo[1..], owed := pc.owed + debt)]
            && debt == if HoldsLease(s.db.jobs, pc.todo[0].id, "") then Debts([Q.TouchedRow(pc.todo[0])], when) else []
  {
  }

  lemma {:induction false} AppendAll(aging: int, s: System, client: nat, mid: System, touched: seq<Row>,
      when: int, logged: int)
    returns (s': System)
    requires when <= logged && Alone(aging, s, client, mid) && client < |mid.pcs|
    requires mid.pcs[client].Owing? || (mid.pcs[client].Recovering? && mid.pcs[client].todo == [])
    requires PcOwed(mid.pcs[client]) == Debts(touched, when)
    ensures Alone(aging, s, client, s') && client < |s'.pcs| && s'.pcs[client] == Idle
    ensures s'.db == Q.LogRecovered(mid.db, touched, logged)
    decreases |touched|
  {
    AloneStep(aging, s, client, mid, Append(client, logged));
    s' := Exec(aging, mid, Append(client, logged));
    AppendOne(aging, mid, client, logged);
    if |touched| > 1 {
      assert Debts(touched, when)[1..] == Debts(touched[1..], when);
      s' := AppendAll(aging, s, client, s', touched[1..], when, logged);
    } else if |touched| == 1 {
      assert touched[1..] == [];
    }
  }

  lemma AppendOne(aging: int, s: System, client: nat, logged: int)
    requires client < |s.pcs| && (s.pcs[client].Owing? || (s.pcs[client].Recovering? && s.pcs[client].todo == []))
    requires PcOwed(s.pcs[client]) != [] ==> StampOk(PcOwed(s.pcs[client])[0], logged)
    ensures var owed := PcOwed(s.pcs[client]);
            var s' := Exec(aging, s, Append(client, logged));
            && |s'.pcs| == |s.pcs| && s'.pcs[client] == (if owed == [] then Idle else Settle(owed[1..]))
            && s'.db == if owed == [] then s.db else AppendStmt(s.db, owed[0].id, owed[0].kind, logged)
  {
  }

  lemma RecoverCall(aging: int, s: System, client: nat, scan: seq<Row>, now: int, logged: int) returns (s': System)
    requires client < |s.pcs| && s.pcs[client] == Idle && IsOrphanScan(s.db.jobs, scan, now)
    requires s.clock <= now <= logged
    ensures Alone(aging, s, client, s') && client < |s'.pcs| && s'.pcs[client] == Idle
    ensures s'.db == Q.Recover(s.db, scan, now, logged)
  {
    AloneStart(aging, s, client);
    AloneStep(aging, s, client, s, OrphanScan(client, scan, now));
    var read := Exec(aging, s, OrphanScan(client, scan, now));
    var wrote := WriteAll(aging, s, client, read, scan, [], |s.grants|, now, now);
    var touched := Q.Touched(s.db, scan, now);
    assert [] + Debts(touched, now) == Debts(touched, now);
    s' := AppendAll(aging, s, client, wrote, touched, now, logged);
  }

  lemma PruneCall(aging: int, s: System, client: nat, p: Policy, source: Source, now: int) returns (s': System)
    requires client < |s.pcs| && s.pcs[client] == Idle && s.clock <= now
    ensures Alone(aging, s, client, s') && client < |s'.pcs| && s'.pcs[client] == Idle &&
            s'.db == Prune(s.db, p, source, now)
  {
    AloneStart(aging, s, client);
    AloneStep(aging, s, client, s, PruneTx(client, p, source, now));
    s' := Exec(aging, s, PruneTx(client, p, source, now));
  }

  /** Operations of one statement and at most one append. */
  lemma ShortCall(aging: int, s: System, client: nat, op: C.Op) returns (s': System)
    requires client < |s.pcs| && s.pcs[client] == Idle && C.Enabled(C.World(s.db, s.clock), op)
    requires op.Enqueue? || op.Lease? || op.Renew? || op.Acknowledge?
    ensures Alone(aging, s, client, s') && client < |s'.pcs| && s'.pcs[client] == Idle
    ensures s'.db == C.Apply(aging, s.db, op)
  {
    match op
    case Enqueue(id, spec, now) => s' := OneStatement(aging, s, client, InsertJob(client, id, spec, now), now);
    case Lease(kind, duration, token, now, logged) =>
      s' := OneStatement(aging, s, client, LeaseJob(client, kind, duration, token, now), logged);
    case Renew(id, token, duration, now, logged) =>
      s' := OneStatement(aging, s, client, RenewJob(client, id, token, duration, now), logged);
    case Acknowledge(id, token, now, logged) =>
      s' := OneStatement(aging, s, client, CompleteJob(client, id, token, now), logged);
  }

  /** Operations of several statements, and prunes. */
  lemma LongCall(aging: int, s: System, client: nat, op: C.Op) returns (s': System)
    requires SystemOk(s) && client < |s.pcs| && s.pcs[client] == Idle && C.Enabled(C.World(s.db, s.clock), op)
    requires (op.Fail? && op.token != "") || op.Recover? || op.Requeue? || op.PruneRun?
    ensures Alone(aging, s, client, s') && client < |s'.pcs| && s'.pcs[client] == Idle
    ensures s'.db == C.Apply(aging, s.db, op)
  {
    match op
    case Fail(id, token, now, logged) => s' := FailCall(aging, s, client, id, token, now, logged);
    case Recover(scan, now, logged) => s' := RecoverCall(aging, s, client, scan, now, logged);
    case Requeue(id, maxAttempts, payload, now, logged) =>
      s' := RequeueCall(aging, s, client, id, maxAttempts, payload, now, logged);
    case PruneRun(policy, source, now) => s' := PruneCall(aging, s, client, policy, source, now);
  }

  /**
    Every enabled queue method or prune, with failures fenced, is a run of an idle
    client's own statements that leaves it idle.
   */
  lemma OperationIsSerialRun(aging: int, s: System, client: nat, op: C.Op)
    requires SystemOk(s) && client < |s.pcs| && s.pcs[client] == Idle
    requires C.Enabled(C.World(s.db, s.clock), op) && (op.Fail? ==> op.token != "") && !op.RecoverRow?
    ensures exists s' :: Alone(aging, s, client, s') && s'.db == C.Apply(aging, s.db, op)
                         && client < |s'.pcs| && s'.pcs[client] == Idle
  {
    var s';
    if op.Enqueue? || op.Lease? || op.Renew? || op.Acknowledge? {
      s' := ShortCall(aging, s, client, op);
    } else {
      s' := LongCall(aging, s, client, op);
    }
  }
}
