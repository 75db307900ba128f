/** When the late write of a split recovery is a recovery of the job at all. */
module Recoveries {
  import opened Records
  import opened Dispatch
  import opened Tables
  import opened Ledger
  import opened Fine
  import opened Fencing
  import opened Timeline
  import C = Coarse
  import Q = QueueOps

  /** The job's deadline, as it is now, lies before the time of the client's scan. */
  predicate StillDue(s: System, client: nat)
    requires WriteMatches(s, client)
  {
    IsOrphan(s.db.jobs[s.pcs[client].todo[0].id], s.pcs[client].now)
  }

  /**
    The coarse operation takes effect here: it is enabled, changes the jobs as the
    write does, and ends the scanned lease.
   */
  ghost predicate RecoversAs(aging: int, s: System, client: nat, op: C.Op)
    requires WriteMatches(s, client)
  {
    var pc, s' := s.pcs[client], Exec(aging, s, RecoverWrite(client));
    var scanned := pc.todo[0];
    && op.RecoverRow? && op.id == scanned.id && op.due == pc.now
    && C.Enabled(C.World(s.db, s.clock), op)
    && s'.db.jobs == C.Apply(aging, s.db, op).jobs
    && scanned.job.token.Some? && s'.ended == s.ended + [scanned.job.token.value]
  }

  function RowOp(s: System, client: nat): C.Op
    requires WriteMatches(s, client)
  {
    C.RecoverRow(s.pcs[client].todo[0].id, s.pcs[client].now, s.clock, s.clock)
  }

  lemma WriteEffect(aging: int, s: System, client: nat)
    requires WriteMatches(s, client)
    ensures var pc, s' := s.pcs[client], Exec(aging, s, RecoverWrite(client));
            var cur := s.db.jobs[pc.todo[0].id];
            && s'.db.jobs == s.db.jobs[pc.todo[0].id := RecoveredRow(cur, pc.todo[0].job, pc.now)]
            && s'.ended == if cur.token.Some? then s.ended + [cur.token.value] else s.ended
  {
  }

  /** An operation that takes effect at the write proves the row due, and the ended lease the scanned one. */
  lemma OnlyDueRecovers(aging: int, s: System, client: nat, op: C.Op)
    requires Reachable(aging, s) && WriteMatches(s, client) && RecoversAs(aging, s, client, op)
    ensures !LeasedSinceScan(s, client) && StillDue(s, client)
  {
    var cur, scanned := s.db.jobs[s.pcs[client].todo[0].id], s.pcs[client].todo[0].job;
    WriteEndsScannedLease(aging, s, client);
    WriteEffect(aging, s, client);
    var ended := Exec(aging, s, RecoverWrite(client)).ended;
    assert cur.token.Some? ==> ended[|s.ended|] == cur.token.value;
    assert ended[|s.ended|] == scanned.token.value;
  }

  lemma CreatedBeforeScan(aging: int, s: System, client: nat)
    requires Reachable(aging, s) && WriteMatches(s, client)
    ensures s.db.jobs[s.pcs[client].todo[0].id].createdAt <= s.pcs[client].now <= s.clock
  {
    ReachableTimes(aging, s);
    assert s.pcs[client] in s.pcs && s.pcs[client].todo[0] in Todo(s.pcs[client]);
  }

  lemma DueWriteRecovers(aging: int, s: System, client: nat)
    requires Reachable(aging, s) && WriteMatches(s, client) && !LeasedSinceScan(s, client) && StillDue(s, client)
    ensures RecoversAs(aging, s, client, RowOp(s, client))
  {
    WriteEndsScannedLease(aging, s, client);
    WriteEffect(aging, s, client);
    CreatedBeforeScan(aging, s, client);
  }

  /**
    A matching recovery write is an atomic recovery of the scanned lease if and
    only if the job was not leased again since the scan and is still due: a write
    that also guarded on the token and the deadline would always be one.
   */
  lemma RecoveryWriteExact(aging: int, s: System, client: nat)
    requires Reachable(aging, s) && WriteMatches(s, client)
    ensures (exists op :: RecoversAs(aging, s, client, op)) <==> !LeasedSinceScan(s, client) && StillDue(s, client)
  {
    if op :| RecoversAs(aging, s, client, op) { OnlyDueRecovers(aging, s, client, op); }
    if !LeasedSinceScan(s, client) && StillDue(s, client) { DueWriteRecovers(aging, s, client); }
  }

  // ---- Without negative durations the deadline decides alone ----

  predicate NotNegative(stmt: Stmt) {
    (stmt.LeaseJob? || stmt.RenewJob?) ==> stmt.duration >= 0
  }

  /** A scanned job that was leased again runs at least until the time of the scan. */
  ghost predicate RunsPastScan(s: System, pc: Pc) {
    pc.Recovering? ==> forall r | r in pc.todo && r.id in s.db.jobs ::
      s.db.jobs[r.id].state == Leased && Relet(LedgerOf(s), pc.at, r.id) ==>
        s.db.jobs[r.id].leasedUntil.Some? && s.db.jobs[r.id].leasedUntil.value >= pc.now
  }

  ghost predicate LeasesAhead(s: System) {
    TimesOk(s) && forall pc | pc in s.pcs :: RunsPastScan(s, pc)
  }

  lemma ActDeadline(aging: int, s: System, stmt: Stmt)
    requires Can(s, stmt) && NotNegative(stmt)
    ensures var act := ActOf(aging, s, stmt);
            (act.Give? || act.Keep?) ==> act.row.leasedUntil.Some? && act.row.leasedUntil.value >= stmt.At(s.clock)
  {
  }

  /** What a statement does to a job that runs afterwards: nothing, or a deadline no earlier than now. */
  lemma DeadlineAhead(aging: int, s: System, stmt: Stmt, id: JobId)
    requires SystemOk(s) && Can(s, stmt) && NotNegative(stmt)
    ensures var s' := Exec(aging, s, stmt);
            id in s'.db.jobs && s'.db.jobs[id].state == Leased ==>
              || (s'.db.jobs[id].leasedUntil.Some? && s'.db.jobs[id].leasedUntil.value >= s'.clock)
              || (id in s.db.jobs && s'.db.jobs[id] == s.db.jobs[id] &&
                  !(ActOf(aging, s, stmt).Give? && ActOf(aging, s, stmt).id == id))
  {
    if stmt.PruneTx? {
      var _ := JobsPruned(aging, s, stmt);
    } else {
      JobsAfter(aging, s, stmt);
      ActDeadline(aging, s, stmt);
    }
  }

  lemma ReletByStep(aging: int, s: System, stmt: Stmt, n: nat, id: JobId)
    requires SystemOk(s) && Can(s, stmt) && n <= |s.grants|
    ensures var act := ActOf(aging, s, stmt);
            Relet(LedgerOf(Exec(aging, s, stmt)), n, id) <==> Relet(LedgerOf(s), n, id) || (act.Give? && act.id == id)
  {
    var act := ActOf(aging, s, stmt);
    ActOfOk(aging, s, stmt);
    ReletStep(LedgerOf(s), act, n, id);
    assert LedgerOf(Exec(aging, s, stmt)).grants == Recorded(LedgerOf(s), act).grants;
  }

  lemma PastScanStays(aging: int, s: System, stmt: Stmt, pc: Pc)
    requires SystemOk(s) && PcOk(s, pc) && Can(s, stmt) && NotNegative(stmt) && RunsPastScan(s, pc) &&
              ScanTime(pc) <= s.clock
    ensures RunsPastScan(Exec(aging, s, stmt), pc)
  {
    if pc.Recovering? {
      var s' := Exec(aging, s, stmt);
      forall r | r in pc.todo && r.id in s'.db.jobs && s'.db.jobs[r.id].state == Leased &&
          Relet(LedgerOf(s'), pc.at, r.id)
        ensures s'.db.jobs[r.id].leasedUntil.Some? && s'.db.jobs[r.id].leasedUntil.value >= pc.now
      {
        DeadlineAhead(aging, s, stmt, r.id);
        ReletByStep(aging, s, stmt, pc.at, r.id);
      }
    }
  }

  /** A client recovers after the statement only by its scan or by writing one of its rows back. */
  lemma NextRecovering(aging: int, s: System, stmt: Stmt)
    requires Can(s, stmt) && NextPc(aging, s, stmt).Recovering?
    ensures var pc, next := s.pcs[stmt.client], NextPc(aging, s, stmt);
            && (stmt.OrphanScan? ==> next.at == |s.grants| && Exec(aging, s, stmt).grants == s.grants)
            && (!stmt.OrphanScan? ==>
                  && stmt.RecoverWrite? && pc.Recovering? && pc.todo != []
                  && next.todo == pc.todo[1..] && next.at == pc.at && next.now == pc.now)
  {
  }

  lemma NextPastScan(aging: int, s: System, stmt: Stmt)
    requires LeasesAhead(s) && Can(s, stmt) && NotNegative(stmt)
    ensures RunsPastScan(Exec(aging, s, stmt), NextPc(aging, s, stmt))
  {
    var pc, next := s.pcs[stmt.client], NextPc(aging, s, stmt);
    assert pc in s.pcs;
    if next.Recovering? {
      NextRecovering(aging, s, stmt);
      if stmt.RecoverWrite? {
        PastScanStays(aging, s, stmt, pc);
        assert forall r | r in next.todo :: r in pc.todo;
      }
    }
  }

  lemma AheadStep(aging: int, s: System, stmt: Stmt)
    requires LeasesAhead(s) && Can(s, stmt) && NotNegative(stmt)
    ensures LeasesAhead(Exec(aging, s, stmt))
  {
    var s' := Exec(aging, s, stmt);
    TimesStep(aging, s, stmt);
    NextPastScan(aging, s, stmt);
    forall pc | pc in s'.pcs ensures RunsPastScan(s', pc) {
      if pc in s.pcs { PastScanStays(aging, s, stmt, pc); }
    }
  }

  lemma {:induction false} RunLeasesAhead(aging: int, clients: nat, stmts: seq<Stmt>)
    requires forall stmt | stmt in stmts :: NotNegative(stmt)
    ensures LeasesAhead(Run(aging, Fresh(clients), stmts))
  {
    if stmts != [] {
      var front, stmt := stmts[..|stmts| - 1], stmts[|stmts| - 1];
      assert forall x | x in front :: x in stmts;
      RunLeasesAhead(aging, clients, front);
      if Can(Run(aging, Fresh(clients), front), stmt) { AheadStep(aging, Run(aging, Fresh(clients), front), stmt); }
    }
  }

  /**
    When no lease was taken or renewed for a negative time, a recovery write is a
    recovery if and only if the row is still due.
   */
  lemma DeadlineDecides(aging: int, clients: nat, stmts: seq<Stmt>, client: nat)
    requires forall stmt | stmt in stmts :: NotNegative(stmt)
    requires WriteMatches(Run(aging, Fresh(clients), stmts), client)
    ensures var s := Run(aging, Fresh(clients), stmts);
            (exists op :: RecoversAs(aging, s, client, op)) <==> StillDue(s, client)
  {
    var s := Run(aging, Fresh(clients), stmts);
    RunLeasesAhead(aging, clients, stmts);
    assert Reachable(aging, s);
    RecoveryWriteExact(aging, s, client);
    assert s.pcs[client] in s.pcs && s.pcs[client].todo[0] in s.pcs[client].todo;
  }
}
