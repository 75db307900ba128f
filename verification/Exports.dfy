/**
  The export at the level of statements: exactly when the verifier accepts what an
  interleaving leaves behind.
 */
module Exports {
  import opened Records
  import opened Dispatch
  import opened Tables
  import opened EventLog
  import opened Ledger
  import opened Fine
  import opened Fencing
  import opened Timeline
  import opened EventCounts
  import opened LogOrder
  import Archive
  import Histories
  import Linearization
  import Q = QueueOps

  // ---- What every interleaving keeps in the rows ----

  predicate RowSane(j: Job) {
    j.maxAttempts >= 1 && j.retryCount >= 0 && ZERO_TIME < j.createdAt <= j.updatedAt
  }

  /** What clients remember and will write back. */
  predicate MemorySane(pc: Pc) {
    && (pc.RequeueRead? ==> pc.maxAttempts >= 1)
    && (forall r | r in Todo(pc) :: r.job.retryCount >= 0)
  }

  ghost predicate RowsSane(s: System) {
    && TimesOk(s)
    && (forall id | id in s.db.jobs :: id != "" && RowSane(s.db.jobs[id]))
    && (forall pc | pc in s.pcs :: MemorySane(pc))
  }

  lemma OwnWriteSane(aging: int, s: System, stmt: Stmt)
    requires RowsSane(s) && Can(s, stmt)
    requires stmt.RenewJob? || stmt.CompleteJob? || stmt.FailWrite? || stmt.RequeueWrite?
    ensures var act := ActOf(aging, s, stmt); !act.Stay? ==> act.id != "" && RowSane(act.row)
  {
    var pc := s.pcs[stmt.client];
    assert pc in s.pcs && MemorySane(pc);
  }

  lemma RecoverWriteSane(aging: int, s: System, stmt: Stmt)
    requires RowsSane(s) && Can(s, stmt) && stmt.RecoverWrite?
    ensures var act := ActOf(aging, s, stmt); !act.Stay? ==> act.id != "" && RowSane(act.row)
  {
    var pc := s.pcs[stmt.client];
    assert pc in s.pcs && pc.todo[0] in Todo(pc);
    assert ScannedAfterCreation(s.db, pc) && MemorySane(pc);
  }

  lemma NewWriteSane(aging: int, s: System, stmt: Stmt)
    requires RowsSane(s) && Can(s, stmt) && (stmt.InsertJob? || stmt.LeaseJob?)
    ensures var act := ActOf(aging, s, stmt); !act.Stay? ==> act.id != "" && RowSane(act.row)
  {
    if stmt.LeaseJob? {
      var best := Choose(s.db.jobs, stmt.kind, stmt.now, aging);
      assert best.Some? ==> best.value in s.db.jobs;
    }
  }

  lemma ActSane(aging: int, s: System, stmt: Stmt)
    requires RowsSane(s) && Can(s, stmt) && !stmt.PruneTx?
    ensures var act := ActOf(aging, s, stmt); !act.Stay? ==> act.id != "" && RowSane(act.row)
  {
    if stmt.RecoverWrite? {
      RecoverWriteSane(aging, s, stmt);
    } else if stmt.InsertJob? || stmt.LeaseJob? {
      NewWriteSane(aging, s, stmt);
    } else if stmt.RenewJob? || stmt.CompleteJob? || stmt.FailWrite? || stmt.RequeueWrite? {
      OwnWriteSane(aging, s, stmt);
    }
  }

  lemma NextMemorySane(aging: int, s: System, stmt: Stmt)
    requires RowsSane(s) && Can(s, stmt)
    ensures MemorySane(NextPc(aging, s, stmt))
  {
    var pc := s.pcs[stmt.client];
    assert pc in s.pcs && MemorySane(pc);
    if stmt.RecoverWrite? { assert forall r | r in pc.todo[1..] :: r in pc.todo; }
  }

  lemma SaneStep(aging: int, s: System, stmt: Stmt)
    requires RowsSane(s) && Can(s, stmt)
    ensures RowsSane(Exec(aging, s, stmt))
  {
    TimesStep(aging, s, stmt);
    NextMemorySane(aging, s, stmt);
    if stmt.PruneTx? {
      var _ := JobsPruned(aging, s, stmt);
    } else {
      JobsAfter(aging, s, stmt);
      ActSane(aging, s, stmt);
    }
    forall pc | pc in Exec(aging, s, stmt).pcs ensures MemorySane(pc) {
      assert pc in s.pcs || pc == NextPc(aging, s, stmt);
    }
  }

  lemma {:induction false} RunSane(aging: int, clients: nat, stmts: seq<Stmt>)
    ensures RowsSane(Run(aging, Fresh(clients), stmts))
  {
    if stmts != [] {
      var front, stmt := stmts[..|stmts| - 1], stmts[|stmts| - 1];
      RunSane(aging, clients, front);
      if Can(Run(aging, Fresh(clients), front), stmt) { SaneStep(aging, Run(aging, Fresh(clients), front), stmt); }
    }
  }

  // ---- What every interleaving without a prune keeps in the event table ----

  /** Event ids rise below the next one, and stamps lie between the start of time and the clock. */
  ghost predicate TableSane(events: seq<Event>, next: int, clock: int) {
    && next >= 1
    && (forall i, k | 0 <= i < k < |events| :: events[i].id < events[k].id)
    && (forall e | e in events :: 0 < e.id < next && ZERO_TIME < e.at <= clock)
  }

  ghost predicate EventsSane(s: System) {
    && s.clock >= 1 && TableSane(s.db.events, s.db.nextEventId, s.clock)
    && (forall pc, o | pc in s.pcs && o in PcOwed(pc) :: ZERO_TIME < o.at <= s.clock)
  }

  lemma TableGrows(events: seq<Event>, next: int, clock: int, later: int, e: Event)
    requires TableSane(events, next, clock) && clock <= later && e.id == next && ZERO_TIME < e.at <= later
    ensures TableSane(events + [e], next + 1, later)
  {
    var all := events + [e];
    forall i, k | 0 <= i < k < |all| ensures all[i].id < all[k].id {
      assert all[i] == events[i] && events[i] in events;
    }
  }

  lemma NextOwedAt(aging: int, s: System, stmt: Stmt, o: Owed)
    requires EventsSane(s) && Can(s, stmt) && o in PcOwed(NextPc(aging, s, stmt))
    ensures ZERO_TIME < o.at <= stmt.At(s.clock)
  {
    assert s.pcs[stmt.client] in s.pcs;
  }

  lemma OwedSane(aging: int, s: System, stmt: Stmt)
    requires EventsSane(s) && Can(s, stmt)
    ensures forall pc, o | pc in Exec(aging, s, stmt).pcs && o in PcOwed(pc) ::
              ZERO_TIME < o.at <= Exec(aging, s, stmt).clock
  {
    forall pc, o | pc in Exec(aging, s, stmt).pcs && o in PcOwed(pc)
      ensures ZERO_TIME < o.at <= Exec(aging, s, stmt).clock
    {
      if pc !in s.pcs { NextOwedAt(aging, s, stmt, o); }
    }
  }

  lemma AppendTableSane(aging: int, s: System, stmt: Stmt)
    requires EventsSane(s) && Can(s, stmt) && stmt.Append?
    ensures var s' := Exec(aging, s, stmt); TableSane(s'.db.events, s'.db.nextEventId, s'.clock)
  {
    var owed := PcOwed(s.pcs[stmt.client]);
    assert s.pcs[stmt.client] in s.pcs;
    AppendEffect(aging, s, stmt);
    if owed != [] {
      assert owed[0] in owed;
      var e := Event(s.db.nextEventId, owed[0].id, owed[0].kind, stmt.time);
      TableGrows(s.db.events, s.db.nextEventId, s.clock, stmt.At(s.clock), e);
    }
  }

  lemma AppendSane(aging: int, s: System, stmt: Stmt)
    requires EventsSane(s) && Can(s, stmt) && stmt.Append?
    ensures EventsSane(Exec(aging, s, stmt))
  {
    AppendTableSane(aging, s, stmt);
    OwedSane(aging, s, stmt);
  }

  lemma ChangeSane(aging: int, s: System, stmt: Stmt)
    requires EventsSane(s) && Can(s, stmt) && !stmt.Append? && !stmt.PruneTx?
    ensures EventsSane(Exec(aging, s, stmt))
  {
    OwedAdds(aging, s, stmt, "", Enqueued);
    OwedSane(aging, s, stmt);
    assert NextDb(aging, s, stmt).nextEventId == s.db.nextEventId;
  }

  lemma {:induction false} RunEventsSane(aging: int, clients: nat, stmts: seq<Stmt>)
    requires NoPrune(stmts)
    ensures EventsSane(Run(aging, Fresh(clients), stmts))
  {
    if stmts != [] {
      var front, stmt := stmts[..|stmts| - 1], stmts[|stmts| - 1];
      assert stmt in stmts && forall x | x in front :: x in stmts;
      RunEventsSane(aging, clients, front);
      var s := Run(aging, Fresh(clients), front);
      if Can(s, stmt) {
        if stmt.Append? { AppendSane(aging, s, stmt); } else { ChangeSane(aging, s, stmt); }
      }
    }
  }

  // ---- Acceptance ----

  /** The row's own part of what the verifier asks beyond what is always so. */
  predicate WithinBudget(j: Job) {
    j.retryCount <= j.maxAttempts
  }

  function RecordOf(db: Db, id: JobId): Archive.Record
    requires id in db.jobs
  {
    Archive.Record(Archive.SCHEMA_VERSION, id, db.jobs[id], Log(db.events, id))
  }

  ghost predicate Settling(s: System) {
    RowsSane(s) && EventsSane(s) && EventCounts.CountsOk(s)
  }

  lemma LogRises(s: System, id: JobId)
    requires EventsSane(s)
    ensures Rising(Log(s.db.events, id)) <==> TimesRise(Log(s.db.events, id))
  {
    LogIdsRise(s.db.events, id);
  }

  lemma {:induction false} LogIdsRise(events: seq<Event>, id: JobId)
    requires forall i, k | 0 <= i < k < |events| :: events[i].id < events[k].id
    ensures forall i, k | 0 <= i < k < |Log(events, id)| :: Log(events, id)[i].id < Log(events, id)[k].id
  {
    if events != [] {
      var rest := events[1..];
      LogIdsRise(rest, id);
      LogMembers(rest, id);
      if events[0].jobId == id {
        var log := Log(rest, id);
        assert Log(events, id) == [events[0]] + log;
        forall k | 0 <= k < |log| ensures events[0].id < log[k].id {
          assert log[k] in log;
          var m :| 0 <= m < |rest| && rest[m] == log[k];
          assert events[m + 1] == rest[m];
        }
      }
    }
  }

  /** For a settled job the verifier's verdict on its record comes down to budget, replay and stamps. */
  lemma RecordExact(s: System, id: JobId)
    requires Settling(s) && id in s.db.jobs && Settled(s.pcs, id)
    ensures var log := Log(s.db.events, id);
            Archive.RecordOk(RecordOf(s.db, id)) <==>
            WithinBudget(s.db.jobs[id]) && Replays(log, s.db.jobs[id].state) && TimesRise(log)
  {
    SettledBooks(s, id);
    LogMembers(s.db.events, id);
    LogRises(s, id);
    forall e | e in Log(s.db.events, id) ensures e.id > 0 && e.jobId == id && e.at != ZERO_TIME {
      assert e in s.db.events;
    }
  }

  lemma RecordsDisjoint(s: System, a: JobId, b: JobId)
    requires EventsSane(s) && a in s.db.jobs && b in s.db.jobs && a != b
    ensures Archive.Disjoint(RecordOf(s.db, a), RecordOf(s.db, b))
  {
    LogMembers(s.db.events, a);
    LogMembers(s.db.events, b);
    forall e, f | e in Log(s.db.events, a) && f in Log(s.db.events, b) ensures e.id != f.id {
      var i :| 0 <= i < |s.db.events| && s.db.events[i] == e;
      var k :| 0 <= k < |s.db.events| && s.db.events[k] == f;
    }
  }

  lemma ExportDisjoint(s: System, order: seq<JobId>)
    requires EventsSane(s) && Histories.Selection(s.db, order)
    ensures var lines := Histories.Export(s.db, order);
            forall m, k | 0 <= m < k < |lines| :: Archive.Disjoint(lines[m].record, lines[k].record)
  {
    var lines := Histories.Export(s.db, order);
    forall m, k | 0 <= m < k < |lines| ensures Archive.Disjoint(lines[m].record, lines[k].record) {
      RecordsDisjoint(s, order[m], order[k]);
    }
  }

  lemma ExportByRecords(s: System, order: seq<JobId>)
    requires EventsSane(s) && Histories.Selection(s.db, order)
    ensures Archive.ArchiveOk(Histories.Export(s.db, order)) <==>
            forall id | id in order :: Archive.RecordOk(RecordOf(s.db, id))
  {
    var lines := Histories.Export(s.db, order);
    forall k | 0 <= k < |lines| ensures lines[k].Decoded? && lines[k].record == RecordOf(s.db, order[k]) {}
    ExportDisjoint(s, order);
    if Archive.ArchiveOk(lines) {
      forall id | id in order ensures Archive.RecordOk(RecordOf(s.db, id)) {
        var k :| 0 <= k < |order| && order[k] == id;
        assert Archive.RecordOk(lines[k].record);
      }
    }
    if forall id | id in order :: Archive.RecordOk(RecordOf(s.db, id)) {
      forall k | 0 <= k < |lines| ensures Archive.RecordOk(lines[k].record) { assert order[k] in order; }
    }
  }

  /** What decides about one job: its row, and each of its appends when it was made. */
  ghost predicate WellLogged(aging: int, clients: nat, stmts: seq<Stmt>, id: JobId) {
    AllInOrder(aging, Fresh(clients), stmts, id) && AllStamped(aging, Fresh(clients), stmts, id)
  }

  ghost predicate AllSettled(s: System, order: seq<JobId>) {
    forall id | id in order :: Settled(s.pcs, id)
  }

  lemma JobExact(aging: int, clients: nat, stmts: seq<Stmt>, id: JobId)
    requires NoPrune(stmts) && Settling(Run(aging, Fresh(clients), stmts))
    requires id in Run(aging, Fresh(clients), stmts).db.jobs && Settled(Run(aging, Fresh(clients), stmts).pcs, id)
    ensures var db := Run(aging, Fresh(clients), stmts).db;
            Archive.RecordOk(RecordOf(db, id)) <==> WithinBudget(db.jobs[id]) && WellLogged(aging, clients, stmts, id)
  {
    RecordExact(Run(aging, Fresh(clients), stmts), id);
    SettledLogExact(aging, clients, stmts, id);
    StampedExact(aging, Fresh(clients), stmts, id);
  }

  lemma RunSettling(aging: int, clients: nat, stmts: seq<Stmt>)
    requires NoPrune(stmts)
    ensures Settling(Run(aging, Fresh(clients), stmts))
  {
    RunSane(aging, clients, stmts);
    RunEventsSane(aging, clients, stmts);
    EventCountConservation(aging, clients, stmts);
  }

  /**
    In every interleaving without a prune, the verifier accepts the export of settled
    jobs if and only if each of them is within its budget and each append to it
    followed an edge of the automaton and was stamped no earlier than the one before.
   */
  lemma ExportExact(aging: int, clients: nat, stmts: seq<Stmt>, order: seq<JobId>)
    requires NoPrune(stmts) && Histories.Selection(Run(aging, Fresh(clients), stmts).db, order)
    requires AllSettled(Run(aging, Fresh(clients), stmts), order)
    ensures var db := Run(aging, Fresh(clients), stmts).db;
            Archive.ArchiveOk(Histories.Export(db, order)) <==>
            forall id | id in order :: WithinBudget(db.jobs[id]) && WellLogged(aging, clients, stmts, id)
  {
    var s := Run(aging, Fresh(clients), stmts);
    RunSettling(aging, clients, stmts);
    ExportByRecords(s, order);
    forall id | id in order
      ensures Archive.RecordOk(RecordOf(s.db, id)) <==>
              WithinBudget(s.db.jobs[id]) && WellLogged(aging, clients, stmts, id)
    {
      JobExact(aging, clients, stmts, id);
    }
  }

  // ---- Interleavings in which that is always so ----

  lemma {:induction false} TidyHasNoPrune(aging: int, from: System, stmts: seq<Stmt>)
    requires AllTidy(aging, from, stmts)
    ensures NoPrune(stmts)
  {
    if stmts != [] {
      TidyHasNoPrune(aging, from, stmts[..|stmts| - 1]);
      assert stmts == stmts[..|stmts| - 1] + [stmts[|stmts| - 1]];
    }
  }

  /** Owed events were owed no earlier than anything their job's log shows. */
  ghost predicate OwedLate(s: System) {
    forall pc, o, e | pc in s.pcs && o in PcOwed(pc) && e in Log(s.db.events, o.id) :: e.at <= o.at
  }

  lemma {:induction false} OwedListed(owed: seq<Owed>, o: Owed)
    requires o in owed
    ensures OwedCount(owed, o.id, o.kind) >= 1
  {
    if owed[0] != o { OwedListed(owed[1..], o); }
  }

  lemma {:induction false} OwedCounted(pcs: seq<Pc>, pc: Pc, o: Owed)
    requires pc in pcs && o in PcOwed(pc)
    ensures AllOwed(pcs, o.id, o.kind) >= 1
  {
    if pcs[|pcs| - 1] == pc {
      OwedListed(PcOwed(pc), o);
    } else {
      OwedCounted(pcs[..|pcs| - 1], pc, o);
    }
  }

  lemma OwedNew(aging: int, s: System, stmt: Stmt, o: Owed)
    requires Can(s, stmt) && !stmt.PruneTx? && o in PcOwed(NextPc(aging, s, stmt))
    ensures o in PcOwed(s.pcs[stmt.client]) || (!stmt.Append? && o.at == stmt.At(s.clock))
  {
  }

  lemma NewlyOwedLate(aging: int, s: System, stmt: Stmt, o: Owed, e: Event)
    requires EventsSane(s) && OwedLate(s) && Can(s, stmt) && !stmt.PruneTx? && !stmt.Append?
    requires o in PcOwed(NextPc(aging, s, stmt)) && e in Log(s.db.events, o.id)
    ensures e.at <= o.at
  {
    LogMembers(s.db.events, o.id);
    OwedNew(aging, s, stmt, o);
    assert s.pcs[stmt.client] in s.pcs;
  }

  lemma ChangeLate(aging: int, s: System, stmt: Stmt)
    requires EventsSane(s) && OwedLate(s) && Can(s, stmt) && !stmt.PruneTx? && !stmt.Append?
    ensures OwedLate(Exec(aging, s, stmt))
  {
    var s' := Exec(aging, s, stmt);
    OwedAdds(aging, s, stmt, "", Enqueued);
    forall pc, o, e | pc in s'.pcs && o in PcOwed(pc) && e in Log(s'.db.events, o.id) ensures e.at <= o.at {
      if pc !in s.pcs { NewlyOwedLate(aging, s, stmt, o, e); }
    }
  }

  /** Without a prune, an owed event is one of a job that is there. */
  lemma OwedHasJob(s: System, pc: Pc, o: Owed)
    requires EventCounts.CountsOk(s) && pc in s.pcs && o in PcOwed(pc)
    ensures o.id in s.db.jobs && AllOwed(s.pcs, o.id, o.kind) >= 1
  {
    OwedCounted(s.pcs, pc, o);
    assert Balanced(s, o.id);
    assert o.id !in s.db.jobs ==> Count(s, o.id, o.kind) == 0;
  }

  /** After its one owed event was appended, nothing is owed for the job. */
  lemma AppendSettles(aging: int, s: System, stmt: Stmt)
    requires LogsFit(s) && Can(s, stmt) && stmt.Append? && PcOwed(s.pcs[stmt.client]) != []
    ensures Settled(Exec(aging, s, stmt).pcs, PcOwed(s.pcs[stmt.client])[0].id)
  {
    var o, s' := PcOwed(s.pcs[stmt.client])[0], Exec(aging, s, stmt);
    AppendEffect(aging, s, stmt);
    OwedHasJob(s, s.pcs[stmt.client], o);
    assert LogFits(s, o.id) && !NoneOwed(s.pcs, o.id, o.kind);
    forall kind ensures NoneOwed(s'.pcs, o.id, kind) {
      FirstPaid(s.pcs, stmt.client, o.id, kind);
      assert kind != o.kind ==> NoneOwed(s.pcs, o.id, kind);
    }
  }

  lemma AppendLate(aging: int, s: System, stmt: Stmt)
    requires LogsFit(s) && OwedLate(s) && Can(s, stmt) && stmt.Append?
    ensures OwedLate(Exec(aging, s, stmt))
    ensures var owed := PcOwed(s.pcs[stmt.client]);
            owed != [] ==> Stamped(Log(s.db.events, owed[0].id), stmt.time)
  {
    var owed, s' := PcOwed(s.pcs[stmt.client]), Exec(aging, s, stmt);
    assert s.pcs[stmt.client] in s.pcs;
    AppendEffect(aging, s, stmt);
    if owed != [] {
      assert owed[0] in owed;
      AppendSettles(aging, s, stmt);
    }
    forall pc, o, e | pc in s'.pcs && o in PcOwed(pc) && e in Log(s'.db.events, o.id) ensures e.at <= o.at {
      if pc !in s.pcs { OwedNew(aging, s, stmt, o); }
      OwedCounted(s'.pcs, pc, o);
      LogAfter(aging, s, stmt, o.id);
      assert owed != [] && o.id == owed[0].id ==> NoneOwed(s'.pcs, o.id, o.kind);
    }
  }

  lemma {:induction false} TidyStamped(aging: int, clients: nat, stmts: seq<Stmt>, id: JobId)
    requires AllTidy(aging, Fresh(clients), stmts)
    ensures OwedLate(Run(aging, Fresh(clients), stmts)) && AllStamped(aging, Fresh(clients), stmts, id)
  {
    if stmts != [] {
      var front, stmt := stmts[..|stmts| - 1], stmts[|stmts| - 1];
      var s := Run(aging, Fresh(clients), front);
      TidyStamped(aging, clients, front, id);
      TidyHasNoPrune(aging, Fresh(clients), front);
      RunEventsSane(aging, clients, front);
      RunFits(aging, clients, front);
      if Can(s, stmt) {
        if stmt.Append? { AppendLate(aging, s, stmt); } else { ChangeLate(aging, s, stmt); }
      }
    }
  }

  lemma TidyWellLogged(aging: int, clients: nat, stmts: seq<Stmt>, id: JobId)
    requires AllTidy(aging, Fresh(clients), stmts)
    requires id in Run(aging, Fresh(clients), stmts).db.jobs && Settled(Run(aging, Fresh(clients), stmts).pcs, id)
    ensures WellLogged(aging, clients, stmts, id)
  {
    TidyHasNoPrune(aging, Fresh(clients), stmts);
    TidyLogsReplay(aging, clients, stmts, id);
    SettledLogExact(aging, clients, stmts, id);
    TidyStamped(aging, clients, stmts, id);
  }

  /**
    The export of settled jobs is accepted after every interleaving in which nobody
    changes a job for which an event is owed, and no recovery write hits a job that
    was leased again since its scan.
   */
  lemma TidyExportAccepted(aging: int, clients: nat, stmts: seq<Stmt>, order: seq<JobId>)
    requires AllTidy(aging, Fresh(clients), stmts) && Punctual(aging, Fresh(clients), stmts)
    requires Histories.Selection(Run(aging, Fresh(clients), stmts).db, order)
    requires AllSettled(Run(aging, Fresh(clients), stmts), order)
    ensures Archive.ArchiveOk(Histories.Export(Run(aging, Fresh(clients), stmts).db, order))
  {
    var s := Run(aging, Fresh(clients), stmts);
    TidyHasNoPrune(aging, Fresh(clients), stmts);
    Linearization.PunctualBudgets(aging, clients, stmts);
    ExportExact(aging, clients, stmts, order);
    forall id | id in order ensures WithinBudget(s.db.jobs[id]) && WellLogged(aging, clients, stmts, id) {
      assert Linearization.BudgetOk(s.db.jobs[id]);
      TidyWellLogged(aging, clients, stmts, id);
    }
  }
}
