/** Conservation of rows and events in every interleaving of statements: nothing leaves without a recorded run. */
module Conservation {
  import opened Records
  import opened Dispatch
  import opened Tables
  import opened Retention
  import opened Fine
  import opened Fencing
  import Coarse
  import EventCounts

  /** The statement stores a new job. */
  ghost predicate InsertsJob(aging: int, s: System, stmt: Stmt) {
    Can(s, stmt) && ActOf(aging, s, stmt).Insert?
  }

  predicate AppendsEvent(s: System, stmt: Stmt)
    requires stmt.client < |s.pcs|
  {
    stmt.Append? && PcOwed(s.pcs[stmt.client]) != []
  }

  ghost function Inserted(aging: int, from: System, stmts: seq<Stmt>): nat {
    if stmts == [] then 0
    else Inserted(aging, from, stmts[..|stmts| - 1]) +
         if InsertsJob(aging, Run(aging, from, stmts[..|stmts| - 1]), stmts[|stmts| - 1]) then 1 else 0
  }

  ghost function Appended(aging: int, from: System, stmts: seq<Stmt>): nat {
    if stmts == [] then 0
    else
      var s, stmt := Run(aging, from, stmts[..|stmts| - 1]), stmts[|stmts| - 1];
      Appended(aging, from, stmts[..|stmts| - 1]) + if Can(s, stmt) && AppendsEvent(s, stmt) then 1 else 0
  }

  lemma PruneConserves(aging: int, s: System, stmt: Stmt)
    requires Coarse.CountsOk(s.db) && Can(s, stmt) && stmt.PruneTx?
    ensures Coarse.CountsOk(Exec(aging, s, stmt).db)
    ensures Exec(aging, s, stmt).db.ids == s.db.ids && Exec(aging, s, stmt).db.nextEventId == s.db.nextEventId
  {
    var db, p, now := s.db, stmt.policy, stmt.now;
    if (p.maxJobAge > 0 || p.maxEventsPerJob > 0) && !stmt.source.OtherSource? {
      Coarse.PruneCounts(db, p, stmt.source, now, SurvivingJobs(db.jobs, p, now),
                         SurvivingEvents(db.jobs, db.events, p, now));
    }
  }

  /** The ids and the recorded runs after any other statement. */
  lemma OtherTables(aging: int, s: System, stmt: Stmt)
    requires Can(s, stmt) && !stmt.PruneTx?
    ensures Exec(aging, s, stmt).db.runs == s.db.runs
    ensures Exec(aging, s, stmt).db.ids ==
            if InsertsJob(aging, s, stmt) then s.db.ids + {ActOf(aging, s, stmt).id} else s.db.ids
  {
  }

  lemma EventTable(aging: int, s: System, stmt: Stmt)
    requires Can(s, stmt) && !stmt.PruneTx?
    ensures var db, more := Exec(aging, s, stmt).db, if AppendsEvent(s, stmt) then 1 else 0;
            |db.events| == |s.db.events| + more && db.nextEventId == s.db.nextEventId + more
  {
    if stmt.Append? { EventCounts.AppendEffect(aging, s, stmt); }
  }

  lemma JobCount(aging: int, s: System, stmt: Stmt)
    requires SystemOk(s) && Can(s, stmt) && !stmt.PruneTx?
    ensures var more := if InsertsJob(aging, s, stmt) then 1 else 0;
            && |Exec(aging, s, stmt).db.jobs| == |s.db.jobs| + more
            && |Exec(aging, s, stmt).db.ids| == |s.db.ids| + more
  {
    var act, after := ActOf(aging, s, stmt), Exec(aging, s, stmt).db.jobs;
    JobsAfter(aging, s, stmt);
    ActOnJob(aging, s, stmt);
    OtherTables(aging, s, stmt);
    if act.Insert? {
      assert after.Keys == s.db.jobs.Keys + {act.id} && act.id !in s.db.jobs.Keys;
    } else {
      assert after.Keys == s.db.jobs.Keys;
    }
    assert |after| == |after.Keys| && |s.db.jobs| == |s.db.jobs.Keys|;
  }

  lemma StatementConserves(aging: int, s: System, stmt: Stmt)
    requires SystemOk(s) && Coarse.CountsOk(s.db) && Can(s, stmt)
    ensures var db := Exec(aging, s, stmt).db;
            && Coarse.CountsOk(db)
            && |db.ids| == |s.db.ids| + (if InsertsJob(aging, s, stmt) then 1 else 0)
            && db.nextEventId == s.db.nextEventId + (if AppendsEvent(s, stmt) then 1 else 0)
  {
    if stmt.PruneTx? {
      PruneConserves(aging, s, stmt);
    } else {
      OtherTables(aging, s, stmt);
      EventTable(aging, s, stmt);
      JobCount(aging, s, stmt);
    }
  }

  lemma {:induction false} RunConserves(aging: int, clients: nat, stmts: seq<Stmt>)
    ensures var db := Run(aging, Fresh(clients), stmts).db;
            && Coarse.CountsOk(db)
            && |db.ids| == Inserted(aging, Fresh(clients), stmts)
            && db.nextEventId - 1 == Appended(aging, Fresh(clients), stmts)
  {
    if stmts != [] {
      var front, stmt := stmts[..|stmts| - 1], stmts[|stmts| - 1];
      RunConserves(aging, clients, front);
      RunKeeps(aging, clients, front);
      if Can(Run(aging, Fresh(clients), front), stmt) {
        StatementConserves(aging, Run(aging, Fresh(clients), front), stmt);
      }
    }
  }

  /**
    In every interleaving, prunes included: jobs inserted are present or were removed
    by a recorded run, so are events appended, and both totals split by source.
   */
  lemma InterleavedConservation(aging: int, clients: nat, stmts: seq<Stmt>)
    ensures var db := Run(aging, Fresh(clients), stmts).db;
            var manual, auto := OfSource(db.runs, Manual), OfSource(db.runs, Auto);
            && Inserted(aging, Fresh(clients), stmts) == |db.jobs| + JobsRemoved(manual) + JobsRemoved(auto)
            && Appended(aging, Fresh(clients), stmts) == |db.events| + EventsRemoved(manual) + EventsRemoved(auto)
  {
    RunConserves(aging, clients, stmts);
    SourcesAddUp(Run(aging, Fresh(clients), stmts).db.runs);
  }
}
