/**
  The order of a log at the level of statements. It is not guaranteed: a change
  may be logged before an earlier one. It is when nobody changes a job for which
  an event is still owed.
 */
module LogOrder {
  import opened Records
  import opened Dispatch
  import opened Tables
  import opened EventLog
  import opened Ledger
  import opened Fine
  import opened EventCounts
  import Archive
  import Histories
  import Q = QueueOps
  import S = Scenarios

  predicate NoneOwed(pcs: seq<Pc>, id: JobId, kind: EventType) {
    AllOwed(pcs, id, kind) == 0
  }

  /** No client owes an event for the job. */
  ghost predicate Settled(pcs: seq<Pc>, id: JobId) {
    forall kind :: NoneOwed(pcs, id, kind)
  }

  /** Exactly one event is owed for the job. */
  ghost predicate OnlyOwes(pcs: seq<Pc>, id: JobId, kind: EventType) {
    !NoneOwed(pcs, id, kind) && AllOwed(pcs, id, kind) == 1 &&
        forall other | other != kind :: NoneOwed(pcs, id, other)
  }

  /** With the event at its end the log replays to the state. */
  ghost predicate Completes(log: seq<Event>, kind: EventType, state: JobState) {
    || (log == [] && (kind.Enqueued? || kind.Scheduled?) && state == Pending)
    || exists before :: Replays(log, before) && Edge(before, kind, state)
  }

  /** The log, with the one event that may still be owed, replays to the stored state. */
  ghost predicate LogFits(s: System, id: JobId)
    requires id in s.db.jobs
  {
    || (Settled(s.pcs, id) && Replays(Log(s.db.events, id), s.db.jobs[id].state))
    || (exists kind :: OnlyOwes(s.pcs, id, kind) && Completes(Log(s.db.events, id), kind, s.db.jobs[id].state))
  }

  ghost predicate LogsFit(s: System) {
    EventCounts.CountsOk(s) && forall id | id in s.db.jobs :: LogFits(s, id)
  }

  /** The statement changes no job for which some client owes an event. */
  ghost predicate Tidy(aging: int, s: System, stmt: Stmt)
    requires Can(s, stmt)
  {
    var act := ActOf(aging, s, stmt);
    !act.Stay? ==> Settled(s.pcs, act.id)
  }

  ghost predicate AllTidy(aging: int, from: System, stmts: seq<Stmt>) {
    stmts == [] || (
      var s, stmt := Run(aging, from, stmts[..|stmts| - 1]), stmts[|stmts| - 1];
      AllTidy(aging, from, stmts[..|stmts| - 1]) && !stmt.PruneTx? && (Can(s, stmt) ==> Tidy(aging, s, stmt)))
  }

  lemma CompletesReplays(log: seq<Event>, e: Event, state: JobState)
    requires Completes(log, e.kind, state)
    ensures Replays(log + [e], state)
  {
    if log == [] && (e.kind.Enqueued? || e.kind.Scheduled?) && state == Pending {
      ReplayOne(e, state);
      assert log + [e] == [e];
    } else {
      var before :| Replays(log, before) && Edge(before, e.kind, state);
      ReplayExtend(log, before, e, state);
    }
  }

  lemma {:induction false} UnloggedIsEmpty(events: seq<Event>, id: JobId)
    requires forall kind :: Logged(events, id, kind) == 0
    ensures Log(events, id) == []
  {
    if events != [] {
      var front, last := events[..|events| - 1], events[|events| - 1];
      assert Logged(events, id, last.kind) == 0;
      forall kind ensures Logged(front, id, kind) == 0 {
        assert Logged(events, id, kind) == 0;
      }
      UnloggedIsEmpty(front, id);
      LogAppend(front, last, id);
      assert events == front + [last];
    }
  }

  /** What the statement adds to what is owed: at most the one event of its act. */
  lemma OwedAdds(aging: int, s: System, stmt: Stmt, id: JobId, kind: EventType)
    requires Can(s, stmt) && !stmt.Append? && !stmt.PruneTx?
    ensures var s' := Exec(aging, s, stmt);
            && s'.db.events == s.db.events
            && AllOwed(s'.pcs, id, kind) ==
                 AllOwed(s.pcs, id, kind) + OwedCount(Debt(s, stmt, ActOf(aging, s, stmt)), id, kind)
  {
    OwedUpdate(s.pcs, stmt.client, NextPc(aging, s, stmt), id, kind);
    PcDebt(aging, s, stmt, id, kind);
  }

  /** A job that the statement leaves alone. */
  lemma OtherFits(s: System, s': System, id: JobId)
    requires id in s.db.jobs && LogFits(s, id) && id in s'.db.jobs && s'.db.jobs[id].state == s.db.jobs[id].state
    requires Log(s'.db.events, id) == Log(s.db.events, id)
    requires forall kind :: AllOwed(s'.pcs, id, kind) == AllOwed(s.pcs, id, kind)
    ensures LogFits(s', id)
  {
    if Settled(s.pcs, id) {
      forall kind ensures NoneOwed(s'.pcs, id, kind) { assert NoneOwed(s.pcs, id, kind); }
    }
    if kind :| OnlyOwes(s.pcs, id, kind) && Completes(Log(s.db.events, id), kind, s.db.jobs[id].state) {
      forall other | other != kind ensures NoneOwed(s'.pcs, id, other) { assert NoneOwed(s.pcs, id, other); }
      assert OnlyOwes(s'.pcs, id, kind);
    }
  }

  /** The job that a tidy statement changes: one event is owed now, and it completes the log. */
  lemma ChangedFits(s: System, s': System, act: Act, o: Owed)
    requires !act.Stay? && o.id == act.id && act.id in s'.db.jobs && s'.db.jobs[act.id].state == act.row.state
    requires Settled(s.pcs, act.id) && Log(s'.db.events, act.id) == Log(s.db.events, act.id)
    requires if act.Insert? then
               Log(s.db.events, act.id) == [] && act.row.state == Pending && (o.kind.Enqueued? || o.kind.Scheduled?)
             else act.id in s.db.jobs && LogFits(s, act.id) && Edge(s.db.jobs[act.id].state, o.kind, act.row.state)
    requires forall kind ::
               AllOwed(s'.pcs, act.id, kind) == AllOwed(s.pcs, act.id, kind) + if kind == o.kind then 1 else 0
    ensures LogFits(s', act.id)
  {
    forall kind ensures AllOwed(s.pcs, act.id, kind) == 0 { assert NoneOwed(s.pcs, act.id, kind); }
    assert OnlyOwes(s'.pcs, act.id, o.kind);
    if !act.Insert? {
      assert Replays(Log(s.db.events, act.id), s.db.jobs[act.id].state);
    }
  }

  lemma NewJobUnlogged(s: System, id: JobId)
    requires EventCounts.CountsOk(s) && id !in s.db.jobs
    ensures Log(s.db.events, id) == []
  {
    assert Balanced(s, id);
    forall kind ensures Logged(s.db.events, id, kind) == 0 { assert Count(s, id, kind) == 0; }
    UnloggedIsEmpty(s.db.events, id);
  }

  /** After a statement that is no append and no prune, its one event, if any, is owed in addition. */
  lemma OwedAfterChange(aging: int, s: System, stmt: Stmt, id: JobId)
    requires EventCounts.CountsOk(s) && Can(s, stmt) && !stmt.PruneTx? && !stmt.Append?
    ensures var s', debt := Exec(aging, s, stmt), Debt(s, stmt, ActOf(aging, s, stmt));
            && s'.db.events == s.db.events
            && forall kind :: AllOwed(s'.pcs, id, kind) ==
                 AllOwed(s.pcs, id, kind) + if debt != [] && debt[0].id == id && debt[0].kind == kind then 1 else 0
  {
    var debt := Debt(s, stmt, ActOf(aging, s, stmt));
    ActFollowsEdge(aging, s, stmt);
    OwedAdds(aging, s, stmt, id, Enqueued);
    forall kind
      ensures AllOwed(Exec(aging, s, stmt).pcs, id, kind) ==
              AllOwed(s.pcs, id, kind) + if debt != [] && debt[0].id == id && debt[0].kind == kind then 1 else 0
    {
      OwedAdds(aging, s, stmt, id, kind);
      if debt != [] { OneDebt(debt, id, kind); }
    }
  }

  lemma ChangeFits(aging: int, s: System, stmt: Stmt, id: JobId)
    requires LogsFit(s) && Can(s, stmt) && !stmt.PruneTx? && !stmt.Append? && Tidy(aging, s, stmt)
    requires id in Exec(aging, s, stmt).db.jobs
    ensures LogFits(Exec(aging, s, stmt), id)
  {
    var s', act := Exec(aging, s, stmt), ActOf(aging, s, stmt);
    ActFollowsEdge(aging, s, stmt);
    JobsAfter(aging, s, stmt);
    OwedAfterChange(aging, s, stmt, id);
    if act.Stay? || act.id != id {
      OtherFits(s, s', id);
    } else {
      if act.Insert? { NewJobUnlogged(s, id); }
      ChangedFits(s, s', act, Debt(s, stmt, act)[0]);
    }
  }

  lemma AppendFits(aging: int, s: System, stmt: Stmt, id: JobId)
    requires LogsFit(s) && Can(s, stmt) && stmt.Append? && id in s.db.jobs
    ensures LogFits(Exec(aging, s, stmt), id)
  {
    var s', owed := Exec(aging, s, stmt), PcOwed(s.pcs[stmt.client]);
    AppendEffect(aging, s, stmt);
    forall kind
      ensures AllOwed(s'.pcs, id, kind) ==
              AllOwed(s.pcs, id, kind) - if owed != [] && owed[0].id == id && owed[0].kind == kind then 1 else 0
    {
      FirstPaid(s.pcs, stmt.client, id, kind);
    }
    assert s'.db.jobs == s.db.jobs;
    if owed != [] {
      var e := Event(s.db.nextEventId, owed[0].id, owed[0].kind, stmt.time);
      LogAppend(s.db.events, e, id);
      if owed[0].id == id { PaidFits(s, s', id, e); } else {
        assert Log(s.db.events, id) + [] == Log(s.db.events, id);
        OtherFits(s, s', id);
      }
    } else {
      OtherFits(s, s', id);
    }
  }

  /** The one owed event is appended. */
  lemma PaidFits(s: System, s': System, id: JobId, e: Event)
    requires id in s.db.jobs && s'.db.jobs == s.db.jobs && LogFits(s, id)
    requires Log(s'.db.events, id) == Log(s.db.events, id) + [e]
    requires forall kind :: AllOwed(s'.pcs, id, kind) == AllOwed(s.pcs, id, kind) - if kind == e.kind then 1 else 0
    ensures LogFits(s', id)
  {
    assert AllOwed(s'.pcs, id, e.kind) == AllOwed(s.pcs, id, e.kind) - 1;
    assert !NoneOwed(s.pcs, id, e.kind);
    var kind :| OnlyOwes(s.pcs, id, kind) && Completes(Log(s.db.events, id), kind, s.db.jobs[id].state);
    assert kind == e.kind;
    CompletesReplays(Log(s.db.events, id), e, s.db.jobs[id].state);
    forall other ensures NoneOwed(s'.pcs, id, other) {
      if other != kind { assert NoneOwed(s.pcs, id, other); }
    }
  }

  lemma FitStep(aging: int, s: System, stmt: Stmt)
    requires LogsFit(s) && Can(s, stmt) && !stmt.PruneTx? && Tidy(aging, s, stmt)
    ensures LogsFit(Exec(aging, s, stmt))
  {
    CountsStep(aging, s, stmt);
    forall id | id in Exec(aging, s, stmt).db.jobs ensures LogFits(Exec(aging, s, stmt), id) {
      if stmt.Append? { AppendFits(aging, s, stmt, id); } else { ChangeFits(aging, s, stmt, id); }
    }
  }

  lemma {:induction false} RunFits(aging: int, clients: nat, stmts: seq<Stmt>)
    requires AllTidy(aging, Fresh(clients), stmts)
    ensures LogsFit(Run(aging, Fresh(clients), stmts))
  {
    if stmts == [] {
      EventCountConservation(aging, clients, []);
    } else {
      var front, stmt := stmts[..|stmts| - 1], stmts[|stmts| - 1];
      RunFits(aging, clients, front);
      if Can(Run(aging, Fresh(clients), front), stmt) { FitStep(aging, Run(aging, Fresh(clients), front), stmt); }
    }
  }

  /**
    In every interleaving in which nobody changes a job for which an event is still
    owed, the log of a job for which nothing is owed replays to its stored state.
   */
  lemma TidyLogsReplay(aging: int, clients: nat, stmts: seq<Stmt>, id: JobId)
    requires AllTidy(aging, Fresh(clients), stmts)
    requires id in Run(aging, Fresh(clients), stmts).db.jobs && Settled(Run(aging, Fresh(clients), stmts).pcs, id)
    ensures var db := Run(aging, Fresh(clients), stmts).db; Replays(Log(db.events, id), db.jobs[id].state)
  {
    var s := Run(aging, Fresh(clients), stmts);
    RunFits(aging, clients, stmts);
    assert LogFits(s, id);
  }

  // ---- In every interleaving without a prune ----

  lemma LoggedNext(front: seq<Event>, last: Event, id: JobId, kind: EventType)
    requires Logged(Log(front, id), id, kind) == Logged(front, id, kind)
    ensures Logged(Log(front + [last], id), id, kind) == Logged(front + [last], id, kind)
  {
    var log := Log(front, id);
    LogAppend(front, last, id);
    LoggedAppend(front, last, id, kind);
    if last.jobId == id {
      assert Log(front + [last], id) == log + [last];
      LoggedAppend(log, last, id, kind);
    } else {
      assert Log(front + [last], id) == log;
    }
  }

  lemma {:induction false} LoggedInLog(events: seq<Event>, id: JobId, kind: EventType)
    ensures Logged(Log(events, id), id, kind) == Logged(events, id, kind)
  {
    if events != [] {
      var front, last := events[..|events| - 1], events[|events| - 1];
      LoggedInLog(front, id, kind);
      LoggedNext(front, last, id, kind);
      assert events == front + [last];
    }
  }

  predicate Creates(kind: EventType) {
    kind.Enqueued? || kind.Scheduled?
  }

  lemma {:induction false} NoCreation(log: seq<Event>, id: JobId)
    requires forall e | e in log :: !Creates(e.kind)
    ensures Logged(log, id, Enqueued) + Logged(log, id, Scheduled) == 0
  {
    if log != [] {
      assert log[|log| - 1] in log;
      NoCreation(log[..|log| - 1], id);
    }
  }

  /** A path has creation events at its start only, so one that has any starts with it. */
  lemma CreationFirst(log: seq<Event>, states: seq<JobState>, id: JobId)
    requires IsPath(log, states) && Logged(log, id, Enqueued) + Logged(log, id, Scheduled) == 1
    ensures Creates(log[0].kind)
  {
    if !Creates(log[0].kind) {
      forall i | 0 <= i < |log| ensures !Creates(log[i].kind) {
        if i > 0 { assert Edge(states[i - 1], log[i].kind, states[i]); }
      }
      NoCreation(log, id);
    }
  }

  /** The counts that a path from creation to a state shows. */
  predicate PathBooks(log: seq<Event>, id: JobId, state: JobState) {
    && (state == Pending || state == Leased || state == Completed || state == DeadLetter)
    && Logged(log, id, LeaseTaken) ==
         Logged(log, id, Acknowledged) + Logged(log, id, Retried) + Logged(log, id, Recovered)
         + Logged(log, id, DeadLettered) + (if state == Leased then 1 else 0)
    && Logged(log, id, DeadLettered) == Logged(log, id, Requeued) + (if state == DeadLetter then 1 else 0)
    && Logged(log, id, Acknowledged) == (if state == Completed then 1 else 0)
  }

  lemma PathBooksStep(log: seq<Event>, e: Event, id: JobId, from: JobState, to: JobState)
    requires PathBooks(log, id, from) && e.jobId == id && Edge(from, e.kind, to) && !e.kind.FailedEvent?
    ensures PathBooks(log + [e], id, to)
  {
    forall kind: EventType
      ensures Logged(log + [e], id, kind) == Logged(log, id, kind) + if e.kind == kind then 1 else 0
    {
      LoggedAppend(log, e, id, kind);
    }
  }

  lemma CreationBooks(e: Event, id: JobId)
    requires e.jobId == id && Creates(e.kind)
    ensures PathBooks([e], id, Pending)
  {
    forall kind: EventType ensures Logged([e], id, kind) == if e.kind == kind then 1 else 0 {
      LoggedAppend([], e, id, kind);
      assert [] + [e] == [e];
    }
  }

  lemma {:induction false} PathCounts(log: seq<Event>, states: seq<JobState>, id: JobId)
    requires IsPath(log, states) && Creates(log[0].kind)
    requires forall e | e in log :: e.jobId == id && !e.kind.FailedEvent?
    ensures PathBooks(log, id, states[|states| - 1])
  {
    var n := |log| - 1;
    var front, last := log[..n], log[n];
    assert last in log && log == front + [last];
    if n > 0 {
      PathFront(front, last, states);
      PathCounts(front, states[..n], id);
      PathBooksStep(front, last, id, states[n - 1], states[n]);
    } else {
      CreationBooks(last, id);
      assert log == [last];
    }
  }

  lemma {:induction false} UnloggedKind(log: seq<Event>, id: JobId, kind: EventType)
    requires (forall e | e in log :: e.jobId == id) && Logged(log, id, kind) == 0
    ensures forall e | e in log :: e.kind != kind
  {
    if log != [] {
      assert log[|log| - 1] in log && forall e | e in log[..|log| - 1] :: e in log;
      UnloggedKind(log[..|log| - 1], id, kind);
      assert log == log[..|log| - 1] + [log[|log| - 1]];
    }
  }

  /** For a settled job the counts of its log are those that go with its state. */
  lemma SettledBooks(s: System, id: JobId)
    requires EventCounts.CountsOk(s) && id in s.db.jobs && Settled(s.pcs, id)
    ensures var log := Log(s.db.events, id);
            && PathBooks(log, id, s.db.jobs[id].state)
            && Logged(log, id, Enqueued) + Logged(log, id, Scheduled) == 1 && Logged(log, id, FailedEvent) == 0
  {
    assert Balanced(s, id);
    forall kind ensures Logged(Log(s.db.events, id), id, kind) == Count(s, id, kind) {
      LoggedInLog(s.db.events, id, kind);
      assert NoneOwed(s.pcs, id, kind);
    }
  }

  /** The number of each kind tells leased, completed and dead-lettered apart. */
  lemma BooksDecide(log: seq<Event>, id: JobId, a: JobState, b: JobState)
    requires PathBooks(log, id, a) && PathBooks(log, id, b)
    ensures a == b
  {
  }

  /** Whatever the order of appends: a settled job's log replays to its stored state as soon as it replays to any. */
  lemma SettledLogDecides(s: System, id: JobId, state: JobState)
    requires EventCounts.CountsOk(s) && id in s.db.jobs && Settled(s.pcs, id) && Replays(Log(s.db.events, id), state)
    ensures state == s.db.jobs[id].state
  {
    var log := Log(s.db.events, id);
    var states :| IsPath(log, states) && states[|states| - 1] == state;
    SettledBooks(s, id);
    LogMembers(s.db.events, id);
    CreationFirst(log, states, id);
    UnloggedKind(log, id, FailedEvent);
    PathCounts(log, states, id);
    BooksDecide(log, id, state, s.db.jobs[id].state);
  }

  // ---- Which appends keep a log in order ----

  /** The automaton takes the event from the state that the log replays to. */
  ghost predicate InOrder(log: seq<Event>, kind: EventType) {
    if log == [] then exists to :: Start(kind, to)
    else exists from, to :: Replays(log, from) && Edge(from, kind, to)
  }

  predicate TimesRise(log: seq<Event>) {
    forall i, k | 0 <= i < k < |log| :: log[i].at <= log[k].at
  }

  /** The stamp is no earlier than the last one of the log. */
  predicate Stamped(log: seq<Event>, time: int) {
    log != [] ==> log[|log| - 1].at <= time
  }

  lemma AcceptedFront(log: seq<Event>, e: Event)
    requires Archive.Accepted(log + [e])
    ensures InOrder(log, e.kind)
  {
    var all, n := log + [e], |log|;
    var final :| Replays(all, final);
    var states :| IsPath(all, states) && states[|states| - 1] == final;
    if log == [] {
      assert Start(e.kind, states[0]);
    } else {
      PathFront(log, e, states);
      assert Replays(log, states[n - 1]);
    }
  }

  lemma AcceptedExtends(log: seq<Event>, e: Event)
    ensures Archive.Accepted(log + [e]) <==> InOrder(log, e.kind)
  {
    if Archive.Accepted(log + [e]) { AcceptedFront(log, e); }
    if InOrder(log, e.kind) {
      if log == [] {
        var to :| Start(e.kind, to);
        ReplayOne(e, to);
        assert log + [e] == [e];
      } else {
        var from, to :| Replays(log, from) && Edge(from, e.kind, to);
        ReplayExtend(log, from, e, to);
      }
    }
  }

  lemma InOrderAccepted(log: seq<Event>, kind: EventType)
    requires InOrder(log, kind)
    ensures log == [] || Archive.Accepted(log)
  {
  }

  lemma TimesExtend(log: seq<Event>, e: Event)
    ensures TimesRise(log + [e]) <==> TimesRise(log) && Stamped(log, e.at)
  {
    var all := log + [e];
    assert forall i | 0 <= i < |log| :: all[i] == log[i];
    if TimesRise(all) && log != [] { assert all[|log| - 1].at <= all[|log|].at; }
  }

  /** The statement appends an event of the job. */
  predicate AppendsTo(s: System, stmt: Stmt, id: JobId)
    requires stmt.client < |s.pcs|
  {
    stmt.Append? && PcOwed(s.pcs[stmt.client]) != [] && PcOwed(s.pcs[stmt.client])[0].id == id
  }

  /** Every append to the job of the run was in order when it was made. */
  ghost predicate AllInOrder(aging: int, from: System, stmts: seq<Stmt>, id: JobId) {
    stmts == [] || (
      var s, stmt := Run(aging, from, stmts[..|stmts| - 1]), stmts[|stmts| - 1];
      && AllInOrder(aging, from, stmts[..|stmts| - 1], id)
      && (Can(s, stmt) && AppendsTo(s, stmt, id) ==>
            InOrder(Log(s.db.events, id), PcOwed(s.pcs[stmt.client])[0].kind)))
  }

  /** And was stamped no earlier than the one before it. */
  ghost predicate AllStamped(aging: int, from: System, stmts: seq<Stmt>, id: JobId) {
    stmts == [] || (
      var s, stmt := Run(aging, from, stmts[..|stmts| - 1]), stmts[|stmts| - 1];
      && AllStamped(aging, from, stmts[..|stmts| - 1], id)
      && (Can(s, stmt) && AppendsTo(s, stmt, id) ==> Stamped(Log(s.db.events, id), stmt.time)))
  }

  predicate NoPrune(stmts: seq<Stmt>) {
    forall stmt | stmt in stmts :: !stmt.PruneTx?
  }

  /** What a statement does to one job's log. */
  lemma LogAfter(aging: int, s: System, stmt: Stmt, id: JobId)
    requires Can(s, stmt) && !stmt.PruneTx?
    ensures Log(Exec(aging, s, stmt).db.events, id) ==
            if AppendsTo(s, stmt, id)
            then Log(s.db.events, id) + [Event(s.db.nextEventId, id, PcOwed(s.pcs[stmt.client])[0].kind, stmt.time)]
            else Log(s.db.events, id)
  {
    var owed := PcOwed(s.pcs[stmt.client]);
    if stmt.Append? {
      AppendEffect(aging, s, stmt);
      if owed != [] {
        LogAppend(s.db.events, Event(s.db.nextEventId, owed[0].id, owed[0].kind, stmt.time), id);
        assert Log(s.db.events, id) + [] == Log(s.db.events, id);
      }
    } else {
      OwedAdds(aging, s, stmt, id, Enqueued);
    }
  }

  lemma {:induction false} InOrderExact(aging: int, from: System, stmts: seq<Stmt>, id: JobId)
    requires NoPrune(stmts) && from.db.events == []
    ensures var log := Log(Run(aging, from, stmts).db.events, id);
            AllInOrder(aging, from, stmts, id) <==> log == [] || Archive.Accepted(log)
  {
    if stmts != [] {
      var front, stmt := stmts[..|stmts| - 1], stmts[|stmts| - 1];
      var s := Run(aging, from, front);
      assert stmt in stmts && forall x | x in front :: x in stmts;
      InOrderExact(aging, from, front, id);
      if Can(s, stmt) {
        LogAfter(aging, s, stmt, id);
        if AppendsTo(s, stmt, id) {
          var e := Event(s.db.nextEventId, id, PcOwed(s.pcs[stmt.client])[0].kind, stmt.time);
          AcceptedExtends(Log(s.db.events, id), e);
          if InOrder(Log(s.db.events, id), e.kind) { InOrderAccepted(Log(s.db.events, id), e.kind); }
        }
      }
    }
  }

  lemma {:induction false} StampedExact(aging: int, from: System, stmts: seq<Stmt>, id: JobId)
    requires NoPrune(stmts) && from.db.events == []
    ensures AllStamped(aging, from, stmts, id) <==> TimesRise(Log(Run(aging, from, stmts).db.events, id))
  {
    if stmts != [] {
      var front, stmt := stmts[..|stmts| - 1], stmts[|stmts| - 1];
      var s := Run(aging, from, front);
      assert stmt in stmts && forall x | x in front :: x in stmts;
      StampedExact(aging, from, front, id);
      if Can(s, stmt) {
        LogAfter(aging, s, stmt, id);
        if AppendsTo(s, stmt, id) {
          TimesExtend(Log(s.db.events, id), Event(s.db.nextEventId, id, PcOwed(s.pcs[stmt.client])[0].kind, stmt.time));
        }
      }
    }
  }

  lemma SettledLogged(s: System, id: JobId)
    requires EventCounts.CountsOk(s) && id in s.db.jobs && Settled(s.pcs, id)
    ensures Log(s.db.events, id) != []
  {
    SettledBooks(s, id);
  }

  /**
    In every interleaving without a prune the log of a settled job replays to its
    stored state if and only if every append to it followed an edge of the automaton
    from the state that the log then replayed to.
   */
  lemma SettledLogExact(aging: int, clients: nat, stmts: seq<Stmt>, id: JobId)
    requires NoPrune(stmts)
    requires id in Run(aging, Fresh(clients), stmts).db.jobs && Settled(Run(aging, Fresh(clients), stmts).pcs, id)
    ensures var db := Run(aging, Fresh(clients), stmts).db;
            Replays(Log(db.events, id), db.jobs[id].state) <==> AllInOrder(aging, Fresh(clients), stmts, id)
  {
    var s := Run(aging, Fresh(clients), stmts);
    EventCountConservation(aging, clients, stmts);
    InOrderExact(aging, Fresh(clients), stmts, id);
    SettledLogged(s, id);
    if state :| Replays(Log(s.db.events, id), state) { SettledLogDecides(s, id, state); }
  }

  // ---- Without that ----

  lemma LastEdge(log: seq<Event>, final: JobState) returns (before: JobState)
    requires |log| > 1 && Replays(log, final)
    ensures Edge(before, log[|log| - 1].kind, final)
  {
    var states :| IsPath(log, states) && states[|states| - 1] == final;
    before := states[|log| - 2];
  }

  /** A log that ends with its creation is refused. */
  lemma CreationNotLast(db: Db, id: JobId)
    requires id in db.jobs
    requires var log := Log(db.events, id); |log| > 1 && log[|log| - 1].kind.Enqueued?
    ensures !Archive.ArchiveOk(Histories.Export(db, [id]))
  {
    var log, lines := Log(db.events, id), Histories.Export(db, [id]);
    if Replays(log, db.jobs[id].state) { var _ := LastEdge(log, db.jobs[id].state); }
    assert lines[0].Decoded? && lines[0].record.events == log;
    assert !Archive.RecordOk(lines[0].record);
  }

  lemma TwoEvents(a: Event, b: Event)
    requires a.jobId == b.jobId
    ensures Log([a, b], a.jobId) == [a, b]
  {
    LogAppend([], a, a.jobId);
    LogAppend([a], b, a.jobId);
    assert [] + [a] == [a] && [a] + [b] == [a, b];
  }

  /**
    A reachable state in which nobody owes anything and the verifier refuses the
    export: the job was leased and that logged before its creation was logged.
   */
  lemma LeaseLoggedFirst()
    ensures exists s :: Reachable(0, s) && s.pcs == [Idle, Idle] && "job" in s.db.jobs
                        && !Archive.ArchiveOk(Histories.Export(s.db, ["job"]))
  {
    var s := S.Begins(1);
    s := S.Leases(s, 1, Q.NewRow(S.SPEC, 1), 10, "token", 2);
    s := S.Logs(s, 1, 2);
    s := S.Logs(s, 0, 1);
    var a, b := Event(1, "job", LeaseTaken, 2), Event(2, "job", Enqueued, 1);
    assert s.db.events == [a, b];
    TwoEvents(a, b);
    CreationNotLast(s.db, "job");
  }
}
