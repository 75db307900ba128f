/** Events that outlive their job: when an owed append comes after the prune that removed the job. */
module OwedEvents {
  import opened Records
  import opened Dispatch
  import opened Tables
  import opened Retention
  import opened EventLog
  import opened Ledger
  import opened Fine
  import opened Fencing
  import opened Scenarios
  import Q = QueueOps

  /** The foreign key that the schema declares and the connection does not switch on. */
  predicate EventsHaveJobs(db: Db) {
    forall e | e in db.events :: e.jobId in db.jobs
  }

  predicate OwedHaveJobs(s: System) {
    forall pc, o | pc in s.pcs && o in PcOwed(pc) :: o.id in s.db.jobs
  }

  /** A prune removes no job for which some client still owes an event. */
  predicate Considerate(s: System, stmt: Stmt) {
    stmt.PruneTx? && !stmt.source.OtherSource? ==>
      forall pc, o | pc in s.pcs && o in PcOwed(pc) :: o.id !in Doomed(s.db.jobs, stmt.policy, stmt.now)
  }

  ghost predicate AllConsiderate(aging: int, from: System, stmts: seq<Stmt>) {
    stmts == [] || (AllConsiderate(aging, from, stmts[..|stmts| - 1]) &&
                    Considerate(Run(aging, from, stmts[..|stmts| - 1]), stmts[|stmts| - 1]))
  }

  ghost predicate Accompanied(s: System) {
    SystemOk(s) && EventsHaveJobs(s.db) && OwedHaveJobs(s)
  }

  /** Apart from prunes no statement removes a job. */
  lemma JobsStay(aging: int, s: System, stmt: Stmt, id: JobId)
    requires SystemOk(s) && Can(s, stmt) && !stmt.PruneTx? && id in s.db.jobs
    ensures id in Exec(aging, s, stmt).db.jobs
  {
    JobsAfter(aging, s, stmt);
  }

  /** What a client owes after its statement it owed before, or the statement changed that job. */
  lemma OwedAfter(aging: int, s: System, stmt: Stmt, o: Owed)
    requires SystemOk(s) && Can(s, stmt) && !stmt.PruneTx? && o in PcOwed(NextPc(aging, s, stmt))
    ensures o in PcOwed(s.pcs[stmt.client]) || o.id in Exec(aging, s, stmt).db.jobs
  {
    var debt := Debt(s, stmt, ActOf(aging, s, stmt));
    if o in debt {
      JobsAfter(aging, s, stmt);
    } else {
      OwedBefore(aging, s, stmt, o);
    }
  }

  lemma OwedBefore(aging: int, s: System, stmt: Stmt, o: Owed)
    requires Can(s, stmt) && !stmt.PruneTx? && o in PcOwed(NextPc(aging, s, stmt))
    requires o !in Debt(s, stmt, ActOf(aging, s, stmt))
    ensures o in PcOwed(s.pcs[stmt.client])
  {
  }

  lemma EventsAfter(aging: int, s: System, stmt: Stmt, e: Event)
    requires Can(s, stmt) && !stmt.PruneTx? && e in Exec(aging, s, stmt).db.events
    ensures e in s.db.events || exists o :: o in PcOwed(s.pcs[stmt.client]) && o.id == e.jobId
  {
    if stmt.Append? && PcOwed(s.pcs[stmt.client]) != [] {
      assert PcOwed(s.pcs[stmt.client])[0] in PcOwed(s.pcs[stmt.client]);
    }
  }

  lemma PruneStep(aging: int, s: System, stmt: Stmt)
    requires Accompanied(s) && Can(s, stmt) && Considerate(s, stmt) && stmt.PruneTx?
    ensures EventsHaveJobs(Exec(aging, s, stmt).db) && OwedHaveJobs(Exec(aging, s, stmt))
  {
    var s' := Exec(aging, s, stmt);
    if !stmt.source.OtherSource? {
      PruneTables(s.db, stmt.policy, stmt.source, stmt.now);
      PrunedEvents(s.db, stmt.policy, stmt.now);
    }
    forall pc, o | pc in s'.pcs && o in PcOwed(pc) ensures o.id in s'.db.jobs {
      assert pc in s.pcs;
    }
  }

  /** A prune deletes the events of the jobs it removes. */
  lemma PrunedEvents(db: Db, p: Policy, now: int)
    requires EventsHaveJobs(db)
    ensures forall e | e in SurvivingEvents(db.jobs, db.events, p, now) :: e.jobId in SurvivingJobs(db.jobs, p, now)
  {
    var gone := Doomed(db.jobs, p, now);
    var kept := DropJobs(db.events, gone);
    DropJobsSubsequence(db.events, gone);
    SubsequenceMembers(kept, db.events);
    if p.maxEventsPerJob > 0 {
      KeepNewestSubsequence(kept, p.maxEventsPerJob);
      SubsequenceMembers(CapEvents(kept, p.maxEventsPerJob), kept);
    }
  }

  lemma OtherStep(aging: int, s: System, stmt: Stmt)
    requires Accompanied(s) && Can(s, stmt) && !stmt.PruneTx?
    ensures EventsHaveJobs(Exec(aging, s, stmt).db) && OwedHaveJobs(Exec(aging, s, stmt))
  {
    var s' := Exec(aging, s, stmt);
    assert s.pcs[stmt.client] in s.pcs;
    forall e | e in s'.db.events ensures e.jobId in s'.db.jobs {
      EventsAfter(aging, s, stmt, e);
      JobsStay(aging, s, stmt, e.jobId);
    }
    forall pc, o | pc in s'.pcs && o in PcOwed(pc) ensures o.id in s'.db.jobs {
      if pc in s.pcs {
        JobsStay(aging, s, stmt, o.id);
      } else {
        OwedAfter(aging, s, stmt, o);
        if o in PcOwed(s.pcs[stmt.client]) { JobsStay(aging, s, stmt, o.id); }
      }
    }
  }

  /**
    In every interleaving no event outlives its job, provided that no prune removes
    a job for which some client still owes an event.
   */
  lemma {:induction false} NoEventOutlivesJob(aging: int, clients: nat, stmts: seq<Stmt>)
    requires AllConsiderate(aging, Fresh(clients), stmts)
    ensures Accompanied(Run(aging, Fresh(clients), stmts))
  {
    if stmts != [] {
      var front, stmt := stmts[..|stmts| - 1], stmts[|stmts| - 1];
      var s := Run(aging, Fresh(clients), front);
      NoEventOutlivesJob(aging, clients, front);
      if Can(s, stmt) {
        StepKeeps(aging, s, stmt);
        if stmt.PruneTx? { PruneStep(aging, s, stmt); } else { OtherStep(aging, s, stmt); }
      }
    }
  }

  /** Among the statements, only an append can leave an event without its job, and exactly when the job is gone. */
  lemma AppendOrphansExact(aging: int, s: System, stmt: Stmt)
    requires SystemOk(s) && EventsHaveJobs(s.db) && Can(s, stmt)
    ensures EventsHaveJobs(Exec(aging, s, stmt).db) <==>
            !(stmt.Append? && PcOwed(s.pcs[stmt.client]) != [] && PcOwed(s.pcs[stmt.client])[0].id !in s.db.jobs)
  {
    var s' := Exec(aging, s, stmt);
    if stmt.Append? {
      AppendedEvent(aging, s, stmt);
    } else if stmt.PruneTx? {
      if !stmt.source.OtherSource? {
        PruneTables(s.db, stmt.policy, stmt.source, stmt.now);
        PrunedEvents(s.db, stmt.policy, stmt.now);
      }
    } else {
      UnchangedEvents(aging, s, stmt);
      forall e | e in s'.db.events ensures e.jobId in s'.db.jobs { JobsStay(aging, s, stmt, e.jobId); }
    }
  }

  lemma AppendedEvent(aging: int, s: System, stmt: Stmt)
    requires EventsHaveJobs(s.db) && Can(s, stmt) && stmt.Append?
    ensures EventsHaveJobs(Exec(aging, s, stmt).db) <==>
            PcOwed(s.pcs[stmt.client]) == [] || PcOwed(s.pcs[stmt.client])[0].id in s.db.jobs
  {
    var owed := PcOwed(s.pcs[stmt.client]);
    if owed != [] {
      var e := Event(s.db.nextEventId, owed[0].id, owed[0].kind, stmt.time);
      assert Exec(aging, s, stmt).db.events == s.db.events + [e] && e in s.db.events + [e];
    }
  }

  lemma UnchangedEvents(aging: int, s: System, stmt: Stmt)
    requires Can(s, stmt) && !stmt.Append? && !stmt.PruneTx?
    ensures Exec(aging, s, stmt).db.events == s.db.events
  {
  }

  /**
    A reachable state with an event of a job that is gone: completed, pruned, and
    only then acknowledged in the log.
   */
  lemma EventOutlivesJob()
    ensures exists s :: Reachable(0, s) && !EventsHaveJobs(s.db)
  {
    var row := Q.NewRow(SPEC, 1);
    var leased := LeasedRow(row, 2, 1, "token");
    var s := Begins(1);
    s := Logs(s, 0, 1);
    s := Leases(s, 0, row, 1, "token", 2);
    s := Logs(s, 0, 2);
    s := Completes(s, 0, leased, "token", 3);
    s := Prunes(s, 1, Released(leased, Completed, 0, 3), 5, 20);
    var gone := s;
    s := Logs(s, 0, 20);
    assert s.db.events == [Event(gone.db.nextEventId, "job", Acknowledged, 20)];
    assert s.db.events[0] in s.db.events;
  }
}
