/** Building blocks for concrete interleavings: what single statements do in a store with one job. */
module Scenarios {
  import opened Records
  import opened Dispatch
  import opened Tables
  import opened Retention
  import opened Ledger
  import opened Fine
  import opened Fencing
  import Q = QueueOps

  const SPEC := Q.NewJob("kind", "", 3, 0, "", None)

  /** What a scenario follows of the system. */
  datatype View = View(
    clock: int, pcs: seq<Pc>, jobs: Jobs, events: seq<Event>, nextEventId: int,
    tokens: set<Token>, grants: seq<Grant>)

  function ViewOf(s: System): View {
    View(s.clock, s.pcs, s.db.jobs, s.db.events, s.db.nextEventId, s.db.tokens, s.grants)
  }

  lemma Takes(s: System, stmt: Stmt) returns (s': System)
    requires Reachable(0, s)
    ensures s' == Exec(0, s, stmt) && Reachable(0, s')
  {
    s' := Exec(0, s, stmt);
    ReachableRun(0, s, [stmt]);
    assert [stmt][..0] == [];
    assert Run(0, s, [stmt]) == Exec(0, Run(0, s, []), stmt);
  }

  /** With one job, the choice is that job when it is ready. */
  lemma ChooseOnly(j: Job, kind: string, now: int)
    requires j.ReadyFor(kind, now)
    ensures Choose(map["job" := j], kind, now, 0) == Some("job")
  {
    var jobs := map["job" := j];
    assert "job" in jobs;
  }

  /** Two clients, and the job that the first of them inserts. */
  lemma Begins(now: int) returns (s: System)
    requires now >= 1
    ensures Reachable(0, s)
    ensures ViewOf(s) == View(
              now, [Owing([Owed("job", Enqueued, now)]), Idle], map["job" := Q.NewRow(SPEC, now)], [], 1, {}, [])
  {
    var start := Fresh(2);
    assert start == Run(0, Fresh(2), []);
    assert start.pcs == [Idle, Idle];
    s := Takes(start, InsertJob(0, "job", SPEC, now));
  }

  /** A client that owes one event appends it and is idle. */
  lemma Logs(s: System, client: nat, time: int) returns (s': System)
    requires Reachable(0, s) && client < |s.pcs| && |PcOwed(s.pcs[client])| == 1
    requires s.pcs[client].Owing? || (s.pcs[client].Recovering? && s.pcs[client].todo == [])
    requires StampOk(PcOwed(s.pcs[client])[0], time)
    ensures Reachable(0, s')
    ensures var o := PcOwed(s.pcs[client])[0];
            ViewOf(s') == ViewOf(s).(
              clock := if time > s.clock then time else s.clock, pcs := s.pcs[client := Idle],
              nextEventId := s.db.nextEventId + 1,
              events := s.db.events + [Event(s.db.nextEventId, o.id, o.kind, time)])
  {
    s' := Takes(s, Append(client, time));
  }

  lemma Leases(s: System, client: nat, j: Job, duration: int, token: Token, now: int) returns (s': System)
    requires Reachable(0, s) && client < |s.pcs| && s.pcs[client] == Idle && s.clock <= now
    requires s.db.jobs == map["job" := j] && j.ReadyFor("kind", now) && token != "" && token !in s.db.tokens
    ensures Reachable(0, s')
    ensures ViewOf(s') == ViewOf(s).(
              clock := now, pcs := s.pcs[client := Owing([Owed("job", LeaseTaken, now)])],
              jobs := map["job" := LeasedRow(j, now, duration, token)],
              tokens := s.db.tokens + {token}, grants := s.grants + [Grant("job", token)])
  {
    ChooseOnly(j, "kind", now);
    s' := Takes(s, LeaseJob(client, "kind", duration, token, now));
  }

  lemma Renews(s: System, client: nat, j: Job, duration: int, token: Token, now: int) returns (s': System)
    requires Reachable(0, s) && client < |s.pcs| && s.pcs[client] == Idle && s.clock <= now
    requires s.db.jobs == map["job" := j] && j.state == Leased && j.token == Some(token)
    ensures Reachable(0, s')
    ensures ViewOf(s') == ViewOf(s).(
              clock := now, pcs := s.pcs[client := Owing([Owed("job", LeaseRenewed, now)])],
              jobs := map["job" := RenewedRow(j, now, duration)])
  {
    s' := Takes(s, RenewJob(client, "job", token, duration, now));
  }

  lemma Completes(s: System, client: nat, j: Job, token: Token, now: int) returns (s': System)
    requires Reachable(0, s) && client < |s.pcs| && s.pcs[client] == Idle && s.clock <= now
    requires s.db.jobs == map["job" := j] && j.state == Leased && j.token == Some(token)
    ensures Reachable(0, s')
    ensures ViewOf(s') == ViewOf(s).(
              clock := now, pcs := s.pcs[client := Owing([Owed("job", Acknowledged, now)])],
              jobs := map["job" := Released(j, Completed, j.retryCount, now)])
  {
    s' := Takes(s, CompleteJob(client, "job", token, now));
  }

  /** A client finds the orphan. */
  lemma Scans(s: System, client: nat, j: Job, now: int) returns (s': System)
    requires Reachable(0, s) && client < |s.pcs| && s.pcs[client] == Idle && s.clock <= now
    requires s.db.jobs == map["job" := j] && IsOrphan(j, now)
    ensures Reachable(0, s')
    ensures ViewOf(s') == ViewOf(s).(
              clock := now, pcs := s.pcs[client := Recovering([Row("job", j)], [], |s.grants|, now)])
  {
    var scan := [Row("job", j)];
    assert IsOrphanScan(s.db.jobs, scan, now) by { assert scan[0].id == "job"; }
    s' := Takes(s, OrphanScan(client, scan, now));
  }

  lemma WritesBack(s: System, client: nat, j: Job, at: nat, due: int) returns (s': System)
    requires Reachable(0, s) && client < |s.pcs| && s.pcs[client] == Recovering([Row("job", j)], [], at, due)
    requires s.db.jobs == map["job" := j] && j.state == Leased && RecoveryState(j) == Pending
    ensures Reachable(0, s')
    ensures ViewOf(s') == ViewOf(s).(
              pcs := s.pcs[client := Recovering([], [Owed("job", Recovered, s.clock)], at, due)],
              jobs := map["job" := RecoveredRow(j, j, due)])
  {
    s' := Takes(s, RecoverWrite(client));
    var debt := Debt(s, RecoverWrite(client), ActOf(0, s, RecoverWrite(client)));
    assert [Row("job", j)][1..] == [] && debt == [Owed("job", Recovered, s.clock)] && [] + debt == debt;
  }

  /** An idle client prunes jobs, and this one is old enough. */
  lemma Prunes(s: System, client: nat, j: Job, age: int, now: int) returns (s': System)
    requires Reachable(0, s) && client < |s.pcs| && s.pcs[client] == Idle && s.clock <= now
    requires s.db.jobs == map["job" := j] && Terminal(j.state) && age > 0 && j.updatedAt < now - age
    requires forall e | e in s.db.events :: e.jobId == "job"
    ensures Reachable(0, s')
    ensures ViewOf(s') == ViewOf(s).(clock := now, jobs := map[], events := [])
  {
    s' := Takes(s, PruneTx(client, Policy(age, 0), Manual, now));
    var gone := Doomed(s.db.jobs, Policy(age, 0), now);
    assert "job" in gone;
    DropAll(s.db.events, gone);
  }
}
