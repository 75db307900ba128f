/**
  Event counts at the fine level: although events may be appended late and out of
  order, appended and still-owed events together account for every job change.
 */
module EventCounts {
  import opened Records
  import opened Dispatch
  import opened Tables
  import opened EventLog
  import opened Ledger
  import opened Fine
  import Q = QueueOps

  /** Appended events of one kind for one job. */
  function Logged(events: seq<Event>, id: JobId, kind: EventType): nat {
    if events == [] then 0
    else
      var last := events[|events| - 1];
      Logged(events[..|events| - 1], id, kind) + if last.jobId == id && last.kind == kind then 1 else 0
  }

  function OwedCount(owed: seq<Owed>, id: JobId, kind: EventType): nat {
    if owed == [] then 0
    else (if owed[0].id == id && owed[0].kind == kind then 1 else 0) + OwedCount(owed[1..], id, kind)
  }

  function AllOwed(pcs: seq<Pc>, id: JobId, kind: EventType): nat {
    if pcs == [] then 0
    else AllOwed(pcs[..|pcs| - 1], id, kind) + OwedCount(PcOwed(pcs[|pcs| - 1]), id, kind)
  }

  /** Events of the kind that the job's changes call for, appended already or still owed by some client. */
  function Count(s: System, id: JobId, kind: EventType): nat {
    Logged(s.db.events, id, kind) + AllOwed(s.pcs, id, kind)
  }

  lemma {:induction false} OwedConcat(a: seq<Owed>, b: seq<Owed>, id: JobId, kind: EventType)
    ensures OwedCount(a + b, id, kind) == OwedCount(a, id, kind) + OwedCount(b, id, kind)
  {
    if a == [] {
      assert a + b == b;
    } else {
      assert (a + b)[1..] == a[1..] + b;
      OwedConcat(a[1..], b, id, kind);
    }
  }

  lemma {:induction false} OwedUpdate(pcs: seq<Pc>, i: nat, pc: Pc, id: JobId, kind: EventType)
    requires i < |pcs|
    ensures AllOwed(pcs[i := pc], id, kind)
         == AllOwed(pcs, id, kind) - OwedCount(PcOwed(pcs[i]), id, kind) + OwedCount(PcOwed(pc), id, kind)
  {
    var front := pcs[..|pcs| - 1];
    if i < |front| {
      assert pcs[i := pc][..|pcs| - 1] == front[i := pc];
      OwedUpdate(front, i, pc, id, kind);
    } else {
      assert pcs[i := pc][..|pcs| - 1] == front;
    }
  }

  /** What the client owes after a statement that is neither an append nor a prune: the new debt is added. */
  lemma PcDebt(aging: int, s: System, stmt: Stmt, id: JobId, kind: EventType)
    requires Can(s, stmt) && !stmt.Append? && !stmt.PruneTx?
    ensures OwedCount(PcOwed(NextPc(aging, s, stmt)), id, kind)
         == OwedCount(PcOwed(s.pcs[stmt.client]), id, kind) + OwedCount(Debt(s, stmt, ActOf(aging, s, stmt)), id, kind)
  {
    if stmt.RecoverWrite? {
      OwedConcat(s.pcs[stmt.client].owed, Debt(s, stmt, ActOf(aging, s, stmt)), id, kind);
    }
  }

  lemma NewDebt(aging: int, s: System, stmt: Stmt, id: JobId, kind: EventType)
    requires Can(s, stmt) && !stmt.Append? && !stmt.PruneTx?
    ensures Count(Exec(aging, s, stmt), id, kind)
         == Count(s, id, kind) + OwedCount(Debt(s, stmt, ActOf(aging, s, stmt)), id, kind)
  {
    OwedUpdate(s.pcs, stmt.client, NextPc(aging, s, stmt), id, kind);
    PcDebt(aging, s, stmt, id, kind);
    assert NextDb(aging, s, stmt).events == s.db.events;
  }

  lemma {:induction false} LoggedAppend(events: seq<Event>, e: Event, id: JobId, kind: EventType)
    ensures Logged(events + [e], id, kind) ==
            Logged(events, id, kind) + if e.jobId == id && e.kind == kind then 1 else 0
  {
    assert (events + [e])[..|events|] == events;
  }

  /** A client that appends its first owed event owes that one less. */
  lemma FirstPaid(pcs: seq<Pc>, i: nat, id: JobId, kind: EventType)
    requires i < |pcs|
    ensures var owed := PcOwed(pcs[i]);
            AllOwed(pcs[i := if owed == [] then Idle else Settle(owed[1..])], id, kind)
              == AllOwed(pcs, id, kind) - if owed != [] && owed[0].id == id && owed[0].kind == kind then 1 else 0
  {
    var owed := PcOwed(pcs[i]);
    OwedUpdate(pcs, i, if owed == [] then Idle else Settle(owed[1..]), id, kind);
  }

  lemma AppendEffect(aging: int, s: System, stmt: Stmt)
    requires Can(s, stmt) && stmt.Append?
    ensures var owed, s' := PcOwed(s.pcs[stmt.client]), Exec(aging, s, stmt);
            && s'.pcs == s.pcs[stmt.client := if owed == [] then Idle else Settle(owed[1..])]
            && s'.db.events == if owed == [] then s.db.events
                               else s.db.events + [Event(s.db.nextEventId, owed[0].id, owed[0].kind, stmt.time)]
  {
  }

  lemma PaidIn(events: seq<Event>, pcs: seq<Pc>, client: nat, e: Event, id: JobId, kind: EventType)
    requires client < |pcs|
    requires var owed := PcOwed(pcs[client]); owed != [] && e.jobId == owed[0].id && e.kind == owed[0].kind
    ensures Logged(events + [e], id, kind) + AllOwed(pcs[client := Settle(PcOwed(pcs[client])[1..])], id, kind)
         == Logged(events, id, kind) + AllOwed(pcs, id, kind)
  {
    FirstPaid(pcs, client, id, kind);
    LoggedAppend(events, e, id, kind);
  }

  /** An append pays one owed event: the count stays. */
  lemma PaidDebt(aging: int, s: System, stmt: Stmt, id: JobId, kind: EventType)
    requires Can(s, stmt) && stmt.Append?
    ensures Count(Exec(aging, s, stmt), id, kind) == Count(s, id, kind)
  {
    var owed := PcOwed(s.pcs[stmt.client]);
    AppendEffect(aging, s, stmt);
    if owed == [] {
      FirstPaid(s.pcs, stmt.client, id, kind);
    } else {
      PaidIn(s.db.events, s.pcs, stmt.client, Event(s.db.nextEventId, owed[0].id, owed[0].kind, stmt.time), id, kind);
    }
  }

  // ---- Balance ----

  /** The counts that go with a job's state. */
  predicate Books(s: System, id: JobId, state: JobState) {
    && (state == Pending || state == Leased || state == Completed || state == DeadLetter)
    && Count(s, id, Enqueued) + Count(s, id, Scheduled) == 1
    && Count(s, id, LeaseTaken) == Count(s, id, Acknowledged) + Count(s, id, Retried) + Count(s, id, Recovered)
                                 + Count(s, id, DeadLettered) + (if state == Leased then 1 else 0)
    && Count(s, id, DeadLettered) == Count(s, id, Requeued) + (if state == DeadLetter then 1 else 0)
    && Count(s, id, Acknowledged) == (if state == Completed then 1 else 0)
    && Count(s, id, FailedEvent) == 0
  }

  ghost predicate NoEvents(s: System, id: JobId) {
    forall kind :: Count(s, id, kind) == 0
  }

  ghost predicate Balanced(s: System, id: JobId) {
    if id in s.db.jobs then Books(s, id, s.db.jobs[id].state) else NoEvents(s, id)
  }

  ghost predicate CountsOk(s: System) {
    SystemOk(s) && (forall id :: Balanced(s, id)) && s.db.jobs.Keys == s.db.ids
  }

  /** The act inserts a pending job or follows an edge of the automaton, and its debt is the event for that. */
  predicate Follows(jobs: Jobs, act: Act, debt: seq<Owed>) {
    if act.Stay? then debt == []
    else
      && |debt| == 1 && debt[0].id == act.id
      && if act.Insert? then act.row.state == Pending && (debt[0].kind.Enqueued? || debt[0].kind.Scheduled?)
         else act.id in jobs && Edge(jobs[act.id].state, debt[0].kind, act.row.state) && !debt[0].kind.FailedEvent?
  }

  lemma ActFollowsEdge(aging: int, s: System, stmt: Stmt)
    requires CountsOk(s) && Can(s, stmt) && !stmt.PruneTx?
    ensures Follows(s.db.jobs, ActOf(aging, s, stmt), Debt(s, stmt, ActOf(aging, s, stmt)))
  {
    ActOfOk(aging, s, stmt);
    if stmt.LeaseJob? {
      var best := Choose(s.db.jobs, stmt.kind, stmt.now, aging);
      if best.Some? { assert s.db.jobs[best.value].state == Pending; }
    }
  }

  /** One debt for one job moves that job's counts along the edge, and no other job's. */
  lemma BooksMove(s: System, s': System, id: JobId, debt: Owed, from: JobState, to: JobState)
    requires Books(s, id, from) && debt.id == id && Edge(from, debt.kind, to) && !debt.kind.FailedEvent?
    requires forall kind :: Count(s', id, kind) == Count(s, id, kind) + if kind == debt.kind then 1 else 0
    ensures Books(s', id, to)
  {
  }

  lemma OneDebt(debt: seq<Owed>, id: JobId, kind: EventType)
    requires |debt| == 1
    ensures OwedCount(debt, id, kind) == if debt[0].id == id && debt[0].kind == kind then 1 else 0
  {
    assert debt[1..] == [];
  }

  lemma BalanceByAct(s: System, s': System, act: Act, debt: seq<Owed>, id: JobId)
    requires Balanced(s, id) && Follows(s.db.jobs, act, debt)
    requires s'.db.jobs == if act.Stay? then s.db.jobs else s.db.jobs[act.id := act.row]
    requires act.Insert? ==> act.id !in s.db.jobs
    requires forall kind :: Count(s', id, kind) ==
               Count(s, id, kind) + if debt != [] && debt[0].id == id && debt[0].kind == kind then 1 else 0
    ensures Balanced(s', id)
  {
    if debt != [] && debt[0].id == id && !act.Insert? {
      BooksMove(s, s', id, debt[0], s.db.jobs[id].state, act.row.state);
    }
  }

  lemma BalanceStep(aging: int, s: System, stmt: Stmt, id: JobId)
    requires CountsOk(s) && Can(s, stmt) && !stmt.PruneTx? && !stmt.Append?
    ensures Balanced(Exec(aging, s, stmt), id)
  {
    var s', act := Exec(aging, s, stmt), ActOf(aging, s, stmt);
    var debt := Debt(s, stmt, act);
    ActFollowsEdge(aging, s, stmt);
    JobsAfter(aging, s, stmt);
    forall kind
      ensures Count(s', id, kind) ==
              Count(s, id, kind) + if debt != [] && debt[0].id == id && debt[0].kind == kind then 1 else 0
    {
      NewDebt(aging, s, stmt, id, kind);
      if debt != [] { OneDebt(debt, id, kind); }
    }
    assert Balanced(s, id);
    BalanceByAct(s, s', act, debt, id);
  }

  lemma AppendBalance(aging: int, s: System, stmt: Stmt, id: JobId)
    requires CountsOk(s) && Can(s, stmt) && stmt.Append?
    ensures Balanced(Exec(aging, s, stmt), id)
  {
    var s' := Exec(aging, s, stmt);
    assert Balanced(s, id);
    assert s'.db.jobs == s.db.jobs;
    forall kind ensures Count(s', id, kind) == Count(s, id, kind) {
      PaidDebt(aging, s, stmt, id, kind);
    }
  }

  lemma CountsStep(aging: int, s: System, stmt: Stmt)
    requires CountsOk(s) && Can(s, stmt) && !stmt.PruneTx?
    ensures CountsOk(Exec(aging, s, stmt))
  {
    StepKeeps(aging, s, stmt);
    forall id ensures Balanced(Exec(aging, s, stmt), id) {
      if stmt.Append? { AppendBalance(aging, s, stmt, id); } else { BalanceStep(aging, s, stmt, id); }
    }
  }

  lemma {:induction false} NothingOwed(pcs: seq<Pc>, id: JobId, kind: EventType)
    requires forall pc | pc in pcs :: pc == Idle
    ensures AllOwed(pcs, id, kind) == 0
  {
    if pcs != [] {
      assert pcs[|pcs| - 1] in pcs;
      var front := pcs[..|pcs| - 1];
      assert forall pc | pc in front :: pc in pcs;
      NothingOwed(front, id, kind);
    }
  }

  /**
    Event-count conservation, in every interleaving without a prune: one creation
    event a job; every lease taken is acknowledged, retried, recovered,
    dead-lettered or running; every dead letter is requeued or still dead; and a
    job is acknowledged at most once, exactly when it is completed.
   */
  lemma {:induction false} EventCountConservation(aging: int, clients: nat, stmts: seq<Stmt>)
    requires forall stmt | stmt in stmts :: !stmt.PruneTx?
    ensures CountsOk(Run(aging, Fresh(clients), stmts))
  {
    if stmts == [] {
      forall id ensures Balanced(Fresh(clients), id) {
        forall kind ensures Count(Fresh(clients), id, kind) == 0 {
          NothingOwed(Fresh(clients).pcs, id, kind);
        }
      }
    } else {
      var front, stmt := stmts[..|stmts| - 1], stmts[|stmts| - 1];
      EventCountConservation(aging, clients, front);
      if Can(Run(aging, Fresh(clients), front), stmt) {
        CountsStep(aging, Run(aging, Fresh(clients), front), stmt);
      }
    }
  }
}
