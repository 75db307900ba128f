/** The store and the queue as objects: each method updates the tables in place. */
module Store {
  import opened Records
  import opened Dispatch
  import opened Tables
  import opened Retention
  import opened QueueOps
  import opened EventLog
  import opened HistoryOrder

  /** What a call reports to its caller. */
  datatype Result = Done | LeaseLost | NotFound | NotLeased | NotDeadLettered

  datatype JobHistory = JobHistory(id: JobId, job: Job, events: seq<Event>)

  function IdsOf(histories: seq<JobHistory>): seq<JobId> {
    seq(|histories|, i requires 0 <= i < |histories| => histories[i].id)
  }

  datatype SourceCount = SourceCount(source: Source, runs: int, jobsRemoved: int, eventsRemoved: int)

  class SQLiteStore {
    const agingInterval: int
    var jobs: Jobs
    var events: seq<Event>
    var nextEventId: int
    var runs: seq<RetentionRun>
    ghost var ids: set<JobId>
    ghost var tokens: set<Token>

    ghost function Table(): Db
      reads this
    {
      Db(jobs, events, nextEventId, runs, ids, tokens)
    }

    constructor (aging: int)
      ensures Table() == EMPTY && agingInterval == aging
    {
      agingInterval := aging;
      jobs, events, nextEventId, runs := map[], [], 1, [];
      ids, tokens := {}, {};
    }

    /** Freshness of the random id is the caller's assumption. */
    method InsertJob(id: JobId, j: Job) returns (inserted: bool)
      requires id !in jobs
      modifies this
      ensures Table() == InsertStmt(old(Table()), id, j)
      ensures inserted <==> j.key == None || forall other | other in old(jobs) :: old(jobs)[other].key != j.key
      ensures inserted ==> jobs == old(jobs)[id := j]
      ensures !inserted ==> unchanged(this)
    {
      if j.key.Some? && exists other | other in jobs :: jobs[other].key == j.key {
        return false;
      }
      jobs := jobs[id := j];
      ids := ids + {id};
      return true;
    }

    method FindJobByIdempotencyKey(key: string) returns (found: Option<JobId>)
      ensures found == None <==> forall id | id in jobs :: jobs[id].key != Some(key)
      ensures found.Some? ==> found.value in jobs && jobs[found.value].key == Some(key)
    {
      if exists id | id in jobs :: jobs[id].key == Some(key) {
        var id :| id in jobs && jobs[id].key == Some(key);
        return Some(id);
      }
      return None;
    }

    method LeaseJob(kind: string, duration: int, token: Token, now: int) returns (leased: Option<Row>)
      modifies this
      ensures Table() == LeaseStmt(old(Table()), agingInterval, kind, duration, token, now)
      ensures leased == match old(Choose(jobs, kind, now, agingInterval))
                        case None => None
                        case Some(id) => Some(Row(id, LeasedRow(old(jobs[id]), now, duration, token)))
      ensures leased == None ==> jobs == old(jobs) && forall id | id in jobs :: !MayRun(jobs[id], kind, now)
      ensures leased.Some? ==>
                && Foremost(old(jobs), kind, now, agingInterval, leased.value.id)
                && leased.value.job == old(jobs)[leased.value.id].(
                     state := Leased, leasedUntil := Some(now + duration), token := Some(token), updatedAt := now)
                && jobs == old(jobs)[leased.value.id := leased.value.job]
    {
      tokens := tokens + {token};
      var ready := set id | id in jobs && jobs[id].ReadyFor(kind, now);
      if ready == {} {
        assert forall id | id in jobs && jobs[id].ReadyFor(kind, now) :: id in ready;
        return None;
      }
      BestExists(jobs, ready, now, agingInterval);
      var id :| id in ready && forall other | other in ready && other != id ::
        Before(Row(id, jobs[id]), Row(other, jobs[other]), now, agingInterval);
      assert ready == ReadySet(jobs, kind, now);
      assert id in jobs && jobs[id].ReadyFor(kind, now);
      BestUnique(jobs, ready, id, Choose(jobs, kind, now, agingInterval).value, now, agingInterval);
      ChosenExact(jobs, kind, now, agingInterval, id);
      jobs := jobs[id := LeasedRow(jobs[id], now, duration, token)];
      return Some(Row(id, jobs[id]));
    }

    method RenewJob(id: JobId, token: Token, duration: int, now: int) returns (r: Result)
      modifies this
      ensures Table() == RenewStmt(old(Table()), id, token, duration, now)
      ensures r == if old(HoldsToken(jobs, id, token)) then Done else LeaseLost
      ensures r == Done ==>
                jobs == old(jobs)[id := old(jobs[id]).(leasedUntil := Some(now + duration), updatedAt := now)]
      ensures r != Done ==> unchanged(this)
    {
      if id !in jobs || jobs[id].state != Leased || jobs[id].token != Some(token) {
        return LeaseLost;
      }
      jobs := jobs[id := jobs[id].(leasedUntil := Some(now + duration), updatedAt := now)];
      return Done;
    }

    method CompleteJob(id: JobId, token: Token, now: int) returns (r: Result)
      modifies this
      ensures Table() == CompleteStmt(old(Table()), id, token, now)
      ensures r == if old(HoldsLease(jobs, id, token)) then Done else if token != "" then LeaseLost else NotLeased
      ensures r == Done ==> jobs == old(jobs)[id := old(jobs[id]).(
                state := Completed, leasedUntil := None, token := None, updatedAt := now)]
      ensures r != Done ==> unchanged(this)
    {
      if id !in jobs || jobs[id].state != Leased || (token != "" && jobs[id].token != Some(token)) {
        return if token != "" then LeaseLost else NotLeased;
      }
      jobs := jobs[id := jobs[id].(state := Completed, leasedUntil := None, token := None, updatedAt := now)];
      return Done;
    }

    /** Without a token a failure that matches no row is silent. */
    method FailJob(id: JobId, token: Token, retry: bool, now: int) returns (r: Result)
      modifies this
      ensures Table() == FailStmt(old(Table()), id, token, retry, now)
      ensures r == if token != "" && !old(HoldsLease(jobs, id, token)) then LeaseLost else Done
      ensures old(HoldsLease(jobs, id, token)) ==> jobs == old(jobs)[id := old(jobs[id]).(
                state := if retry then Pending else DeadLetter, retryCount := old(jobs[id]).retryCount + 1,
                leasedUntil := None, token := None, updatedAt := now)]
      ensures !old(HoldsLease(jobs, id, token)) ==> unchanged(this)
    {
      if id !in jobs || jobs[id].state != Leased || (token != "" && jobs[id].token != Some(token)) {
        return if token != "" then LeaseLost else Done;
      }
      var j := jobs[id];
      if retry {
        jobs := jobs[id := j.(
          state := Pending, retryCount := j.retryCount + 1, leasedUntil := None, token := None, updatedAt := now)];
      } else {
        jobs := jobs[id := j.(
          state := DeadLetter, retryCount := j.retryCount + 1, leasedUntil := None, token := None, updatedAt := now)];
      }
      return Done;
    }

    method RequeueJob(id: JobId, maxAttempts: int, payload: Option<string>, now: int) returns (r: Result)
      modifies this
      ensures Table() == RequeueStmt(old(Table()), id, maxAttempts, payload, now)
      ensures r == if id in old(jobs) && old(jobs[id].state) == DeadLetter then Done else NotDeadLettered
      ensures r == Done ==> jobs == old(jobs)[id := old(jobs[id]).(
                state := Pending, retryCount := 0, maxAttempts := maxAttempts, leasedUntil := None, token := None,
                payload := if payload.Some? then payload.value else old(jobs[id]).payload, updatedAt := now)]
      ensures r != Done ==> unchanged(this)
    {
      if id !in jobs || jobs[id].state != DeadLetter {
        return NotDeadLettered;
      }
      var j := jobs[id].(state := Pending, retryCount := 0, maxAttempts := maxAttempts,
                         leasedUntil := None, token := None, updatedAt := now);
      if payload.Some? {
        j := j.(payload := payload.value);
      }
      jobs := jobs[id := j];
      return Done;
    }

    /** The rows of the scan in some order: SELECT without ORDER BY. */
    method ScanOrphans(now: int) returns (scan: seq<Row>)
      ensures IsOrphanScan(jobs, scan, now)
    {
      scan := [];
      var left := set id | id in jobs && IsOrphan(jobs[id], now);
      while left != {}
        invariant forall id | id in left :: id in jobs && IsOrphan(jobs[id], now)
        invariant forall i | 0 <= i < |scan| ::
          scan[i].id in jobs && scan[i].job == jobs[scan[i].id] && IsOrphan(scan[i].job, now) && scan[i].id !in left
        invariant forall i, k | 0 <= i < k < |scan| :: scan[i].id != scan[k].id
        invariant forall id | id in jobs && IsOrphan(jobs[id], now) ::
          id in left || exists i :: 0 <= i < |scan| && scan[i].id == id
        decreases left
      {
        var id :| id in left;
        ghost var before := scan;
        scan := scan + [Row(id, jobs[id])];
        left := left - {id};
        assert scan[|before|].id == id;
        assert forall i | 0 <= i < |before| :: scan[i] == before[i];
      }
    }

    /** The guarded write for one scanned row: dead letter when the budget is spent, pending otherwise. */
    method RecoverRow(r: Row, now: int) returns (changed: bool, row: Row)
      modifies this
      ensures Table() == RecoverStmt(old(Table()), r, now)
      ensures changed == old(HoldsLease(jobs, r.id, "")) && row == TouchedRow(r)
    {
      var nextAttempt := r.job.retryCount + 1;
      var state := if nextAttempt >= r.job.maxAttempts then DeadLetter else Pending;
      changed := r.id in jobs && jobs[r.id].state == Leased;
      if changed {
        jobs := jobs[r.id := jobs[r.id].(
          state := state, retryCount := nextAttempt, leasedUntil := None, token := None, updatedAt := now)];
      }
      row := Row(r.id, r.job.(state := state, retryCount := nextAttempt));
    }

    method RecoverOrphanedLeases(now: int) returns (touched: seq<Row>, ghost scan: seq<Row>)
      modifies this
      ensures IsOrphanScan(old(jobs), scan, now)
      ensures Table() == RecoverRows(old(Table()), scan, now)
      ensures touched == Touched(old(Table()), scan, now)
      ensures RowsRecovered(old(jobs), jobs, scan, now) && events == old(events)
    {
      var orphans := ScanOrphans(now);
      ghost var start := Table();
      scan := orphans;
      touched := [];
      var i := 0;
      while i < |orphans|
        invariant 0 <= i <= |orphans|
        invariant Recovering(start, orphans, Table(), orphans[i..], touched, now)
      {
        assert orphans[i..][0] == orphans[i] && orphans[i..][1..] == orphans[i + 1..];
        RecoverNext(start, orphans, Table(), orphans[i..], touched, now);
        var changed, row := RecoverRow(orphans[i], now);
        if changed {
          touched := touched + [row];
        }
        i := i + 1;
      }
      RecoveredRows(start, scan, now);
    }

    method AppendEvent(id: JobId, kind: EventType, at: int)
      modifies this
      ensures Table() == AppendStmt(old(Table()), id, kind, at)
      ensures events == old(events) + [Event(old(nextEventId), id, kind, at)]
    {
      events := events + [Event(nextEventId, id, kind, at)];
      nextEventId := nextEventId + 1;
    }

    // The three deletes of one retention transaction; each reports the rows it removed.

    method DeleteEventsOf(doomed: set<JobId>) returns (n: int)
      modifies this`events
      ensures events == DropJobs(old(events), doomed) && n == |old(events)| - |events|
    {
      var kept := DropJobs(events, doomed);
      n := |events| - |kept|;
      events := kept;
    }

    method DeleteJobs(doomed: set<JobId>) returns (n: int)
      modifies this`jobs
      ensures jobs == old(jobs) - doomed && n == |old(jobs)| - |jobs|
    {
      n := |jobs| - |jobs - doomed|;
      jobs := jobs - doomed;
    }

    method TrimEvents(cap: int) returns (n: int)
      requires cap > 0
      modifies this`events
      ensures events == KeepNewest(old(events), cap) && n == |old(events)| - |events|
    {
      var kept := KeepNewest(events, cap);
      n := |events| - |kept|;
      events := kept;
    }

    method DeleteByPolicy(p: Policy, now: int) returns (jobsRemoved: int, eventsRemoved: int)
      modifies this`jobs, this`events
      ensures jobs == SurvivingJobs(old(jobs), p, now)
      ensures events == SurvivingEvents(old(jobs), old(events), p, now)
      ensures PolicyApplied(old(jobs), old(events), p, now, jobs, events)
      ensures jobsRemoved == |old(jobs)| - |jobs| && eventsRemoved == |old(events)| - |events|
    {
      jobsRemoved, eventsRemoved := 0, 0;
      ghost var doomed := Doomed(jobs, p, now);
      if p.maxJobAge > 0 {
        var expired := Expired(jobs, now - p.maxJobAge);
        eventsRemoved := DeleteEventsOf(expired);
        jobsRemoved := DeleteJobs(expired);
      } else {
        DropNone(events);
      }
      assert jobs == old(jobs) - doomed && events == DropJobs(old(events), doomed);
      if p.maxEventsPerJob > 0 {
        var n := TrimEvents(p.maxEventsPerJob);
        eventsRemoved := eventsRemoved + n;
      }
      SurvivorsExact(old(jobs), old(events), p, now, jobs, events);
    }

    /** The transaction: the deletes, and the record of the run with what they removed. */
    method PruneAndRecord(p: Policy, source: Source, now: int) returns (jobsRemoved: int, eventsRemoved: int)
      modifies this`jobs, this`events, this`runs
      ensures jobs == SurvivingJobs(old(jobs), p, now)
      ensures events == SurvivingEvents(old(jobs), old(events), p, now)
      ensures PolicyApplied(old(jobs), old(events), p, now, jobs, events)
      ensures runs == old(runs) + [
        RetentionRun(now, source, p.maxJobAge, p.maxEventsPerJob, jobsRemoved, eventsRemoved)]
      ensures jobsRemoved == |old(jobs)| - |jobs| && eventsRemoved == |old(events)| - |events|
    {
      jobsRemoved, eventsRemoved := DeleteByPolicy(p, now);
      runs := runs + [RetentionRun(now, source, p.maxJobAge, p.maxEventsPerJob, jobsRemoved, eventsRemoved)];
    }

    /** A zero policy does nothing; false is the refusal of an unknown source. */
    method PruneWithSource(p: Policy, source: Source, now: int) returns (ok: bool, jobsRemoved: int, eventsRemoved: int)
      modifies this
      ensures Table() == Prune(old(Table()), p, source, now)
      ensures ok <==> (p.maxJobAge <= 0 && p.maxEventsPerJob <= 0) || source == Manual || source == Auto
      ensures !ok || (p.maxJobAge <= 0 && p.maxEventsPerJob <= 0) ==> unchanged(this)
      ensures ok && (p.maxJobAge > 0 || p.maxEventsPerJob > 0) ==>
                && PolicyApplied(old(jobs), old(events), p, now, jobs, events)
                && runs == old(runs) + [
                  RetentionRun(now, source, p.maxJobAge, p.maxEventsPerJob, jobsRemoved, eventsRemoved)]
      ensures jobsRemoved == |old(jobs)| - |jobs| && eventsRemoved == |old(events)| - |events|
    {
      if p.maxJobAge <= 0 && p.maxEventsPerJob <= 0 {
        return true, 0, 0;
      }
      if source.OtherSource? {
        return false, 0, 0;
      }
      jobsRemoved, eventsRemoved := PruneAndRecord(p, source, now);
      PruneRan(old(Table()), p, source, now, Table());
      return true, jobsRemoved, eventsRemoved;
    }

    /** The job query: the matching rows, the first of those left each time. */
    method ListJobs(f: HistoryFilter) returns (order: seq<JobId>)
      ensures IsListing(jobs, events, f, order)
    {
      order := [];
      var left := set id | id in jobs && Matches(jobs[id], f);
      while left != {}
        invariant forall id | id in left :: id in jobs && Matches(jobs[id], f)
        invariant forall id | id in jobs && Matches(jobs[id], f) :: id in left || id in order
        invariant forall id | id in order :: id in jobs && Matches(jobs[id], f)
        invariant Sorted(jobs, events, order)
        invariant AllBefore(jobs, events, order, left)
        decreases left
      {
        ghost var first := FirstExists(jobs, events, left);
        var id :| id in left && IsFirst(jobs, events, left, id);
        ListingGrows(jobs, events, order, left, id);
        order := order + [id];
        left := left - {id};
      }
    }

    /** The events of the listed jobs, grouped by job in a map as the event query's rows come in. */
    method GroupEvents(listed: seq<JobId>) returns (byJob: map<JobId, seq<Event>>)
      ensures forall id | id in listed :: (if id in byJob then byJob[id] else []) == Log(events, id)
    {
      byJob := map[];
      var n := 0;
      while n < |events|
        invariant 0 <= n <= |events|
        invariant forall id | id in listed :: (if id in byJob then byJob[id] else []) == Log(events[..n], id)
      {
        var e := events[n];
        assert events[..n + 1] == events[..n] + [e];
        forall id | id in listed
          ensures Log(events[..n + 1], id) == Log(events[..n], id) + if e.jobId == id then [e] else []
        {
          LogAppend(events[..n], e, id);
        }
        if e.jobId in listed {
          byJob := byJob[e.jobId := (if e.jobId in byJob then byJob[e.jobId] else []) + [e]];
        }
        n := n + 1;
      }
      assert events[..|events|] == events;
    }

    /** Exactly the matching jobs, in listing order, each with its own events in append order. */
    method GetJobHistories(f: HistoryFilter) returns (histories: seq<JobHistory>)
      ensures IsListing(jobs, events, f, IdsOf(histories))
      ensures forall h | h in histories :: h.id in jobs && h == JobHistory(h.id, jobs[h.id], Log(events, h.id))
      ensures forall id | id in jobs :: id in IdsOf(histories) <==>
                (f.state == None || f.state == Some(jobs[id].state)) && (f.kind == "" || f.kind == jobs[id].kind)
      ensures forall i, k | 0 <= i < k < |histories| ::
                var a, b := histories[i], histories[k];
                GoesBefore(a.id, a.job, a.events, b.id, b.job, b.events)
    {
      var listed := ListJobs(f);
      var byJob := GroupEvents(listed);
      histories := [];
      var i := 0;
      while i < |listed|
        invariant 0 <= i <= |listed| && IdsOf(histories) == listed[..i]
        invariant forall h | h in histories :: h.id in jobs && h == JobHistory(h.id, jobs[h.id], Log(events, h.id))
      {
        var id := listed[i];
        assert id in listed && listed[..i + 1] == listed[..i] + [id];
        histories := histories + [JobHistory(id, jobs[id], if id in byJob then byJob[id] else [])];
        i := i + 1;
      }
      assert listed[..i] == listed;
      ListingDistinct(jobs, events, listed);
      forall i, k | 0 <= i < k < |histories|
        ensures GoesBefore(histories[i].id, histories[i].job, histories[i].events,
                           histories[k].id, histories[k].job, histories[k].events)
      {
        assert IdsOf(histories)[i] == listed[i] && IdsOf(histories)[k] == listed[k];
        assert histories[i] in histories && histories[k] in histories;
        ListedExact(jobs, events, listed[i], listed[k]);
      }
    }

    /** Manual runs first, then automatic ones; sources without a run report zeros. */
    method GetRetentionStats() returns (stats: seq<SourceCount>)
      ensures |stats| == 2 && stats[0].source == Manual && stats[1].source == Auto
      ensures forall i | 0 <= i < 2 ::
        && stats[i].runs == |OfSource(runs, stats[i].source)|
        && stats[i].jobsRemoved == JobsRemoved(OfSource(runs, stats[i].source))
        && stats[i].eventsRemoved == EventsRemoved(OfSource(runs, stats[i].source))
      ensures forall i | 0 <= i < 2 && (forall r | r in runs :: r.source == stats[i].source) ::
        stats[i] == SourceCount(stats[i].source, |runs|, JobsRemoved(runs), EventsRemoved(runs))
      ensures forall i | 0 <= i < 2 && (forall r | r in runs :: r.source != stats[i].source) ::
        stats[i] == SourceCount(stats[i].source, 0, 0, 0)
      ensures (forall r | r in runs :: !r.source.OtherSource?) ==>
        && stats[0].runs + stats[1].runs == |runs|
        && stats[0].jobsRemoved + stats[1].jobsRemoved == JobsRemoved(runs)
        && stats[0].eventsRemoved + stats[1].eventsRemoved == EventsRemoved(runs)
    {
      var manual, auto := SourceCount(Manual, 0, 0, 0), SourceCount(Auto, 0, 0, 0);
      var n := 0;
      while n < |runs|
        invariant 0 <= n <= |runs|
        invariant manual == CountRuns(runs[..n], Manual)
        invariant auto == CountRuns(runs[..n], Auto)
      {
        CountOneMore(runs, n, Manual);
        CountOneMore(runs, n, Auto);
        manual, auto := AddRun(manual, runs[n]), AddRun(auto, runs[n]);
        n := n + 1;
      }
      assert runs[..|runs|] == runs;
      OfOneSource(runs, Manual);
      OfOneSource(runs, Auto);
      if forall r | r in runs :: !r.source.OtherSource? { SourcesAddUp(runs); }
      return [manual, auto];
    }
  }

  function CountRuns(runs: seq<RetentionRun>, source: Source): SourceCount {
    var own := OfSource(runs, source);
    SourceCount(source, |own|, JobsRemoved(own), EventsRemoved(own))
  }

  function AddRun(c: SourceCount, r: RetentionRun): SourceCount {
    if r.source == c.source then
      SourceCount(c.source, c.runs + 1, c.jobsRemoved + r.jobsRemoved, c.eventsRemoved + r.eventsRemoved)
    else c
  }

  lemma CountOneMore(runs: seq<RetentionRun>, n: nat, source: Source)
    requires n < |runs|
    ensures CountRuns(runs[..n + 1], source) == AddRun(CountRuns(runs[..n], source), runs[n])
  {
    var own := OfSource(runs[..n], source);
    assert runs[..n + 1][..n] == runs[..n];
    assert (own + [runs[n]])[..|own|] == own;
  }

  /** A recovery that has come from start to db, with these rows to go and those touched. */
  ghost predicate Recovering(start: Db, all: seq<Row>, db: Db, rest: seq<Row>, touched: seq<Row>, now: int) {
    && RecoverRows(start, all, now) == RecoverRows(db, rest, now)
    && Touched(start, all, now) == touched + Touched(db, rest, now)
  }

  lemma RecoverNext(start: Db, all: seq<Row>, db: Db, rest: seq<Row>, touched: seq<Row>, now: int)
    requires Recovering(start, all, db, rest, touched, now) && rest != []
    ensures Recovering(start, all, RecoverStmt(db, rest[0], now), rest[1..],
                       if HoldsLease(db.jobs, rest[0].id, "") then touched + [TouchedRow(rest[0])] else touched, now)
  {
    var later := Touched(RecoverStmt(db, rest[0], now), rest[1..], now);
    assert touched + ([TouchedRow(rest[0])] + later) == (touched + [TouchedRow(rest[0])]) + later;
  }

  class Queue {
    const store: SQLiteStore

    constructor (s: SQLiteStore)
      ensures store == s
    {
      store := s;
    }

    method Enqueue(id: JobId, spec: NewJob, now: int) returns (job: JobId)
      requires id !in store.jobs
      modifies store
      ensures store.Table() == QueueOps.Enqueue(old(store.Table()), id, spec, now)
      ensures job != id <==>
              spec.key != "" && exists other | other in old(store.jobs) :: old(store.jobs)[other].key == Some(spec.key)
      ensures job != id ==> job in store.jobs && store.jobs[job].key == Some(spec.key) && unchanged(store)
      ensures job == id ==>
                && store.jobs == old(store.jobs)[id := Job(
                     spec.kind, spec.payload, Pending, 0, if spec.maxAttempts < 1 then 1 else spec.maxAttempts,
                     spec.priority, if spec.key == "" then None else Some(spec.key), now, now, None, None, spec.runAt)]
                && store.events == old(store.events) + [
                     Event(old(store.nextEventId), id, if spec.runAt.Some? then Scheduled else Enqueued, now)]
    {
      var row := NewRow(spec, now);
      var inserted := store.InsertJob(id, row);
      if !inserted {
        var found := store.FindJobByIdempotencyKey(spec.key);
        return found.value;
      }
      store.AppendEvent(id, CreationEvent(spec), now);
      return id;
    }

    method Lease(kind: string, duration: int, token: Token, now: int, logged: int) returns (job: Option<Row>)
      modifies store
      ensures store.Table() ==
              QueueOps.Lease(old(store.Table()), store.agingInterval, kind, duration, token, now, logged)
      ensures job == match old(Choose(store.jobs, kind, now, store.agingInterval))
                     case None => None
                     case Some(id) => Some(Row(id, LeasedRow(old(store.jobs[id]), now, duration, token)))
      ensures job == None ==> store.jobs == old(store.jobs) && store.events == old(store.events)
      ensures job == None <==> forall id | id in old(store.jobs) :: !MayRun(old(store.jobs)[id], kind, now)
      ensures job.Some? ==>
                && Foremost(old(store.jobs), kind, now, store.agingInterval, job.value.id)
                && job.value.job == old(store.jobs)[job.value.id].(
                     state := Leased, leasedUntil := Some(now + duration), token := Some(token), updatedAt := now)
                && store.jobs == old(store.jobs)[job.value.id := job.value.job]
                && store.events == old(store.events) + [
                     Event(old(store.nextEventId), job.value.id, LeaseTaken, logged)]
    {
      job := store.LeaseJob(kind, duration, token, now);
      if job.Some? {
        store.AppendEvent(job.value.id, LeaseTaken, logged);
      }
    }

    method Renew(id: JobId, token: Token, duration: int, now: int, logged: int) returns (r: Result)
      modifies store
      ensures store.Table() == QueueOps.Renew(old(store.Table()), id, token, duration, now, logged)
      ensures r == if old(HoldsToken(store.jobs, id, token)) then Done else LeaseLost
      ensures r == Done ==>
                && store.jobs == old(store.jobs)[id := old(store.jobs[id]).(
                     leasedUntil := Some(now + duration), updatedAt := now)]
                && store.events == old(store.events) + [Event(old(store.nextEventId), id, LeaseRenewed, logged)]
      ensures r != Done ==> unchanged(store)
    {
      r := store.RenewJob(id, token, duration, now);
      if r == Done {
        store.AppendEvent(id, LeaseRenewed, logged);
      }
    }

    method Acknowledge(id: JobId, token: Token, now: int, logged: int) returns (r: Result)
      modifies store
      ensures store.Table() == QueueOps.Acknowledge(old(store.Table()), id, token, now, logged)
      ensures r == Done <==> old(HoldsLease(store.jobs, id, token))
      ensures r == Done ==>
                && store.jobs == old(store.jobs)[id := old(store.jobs[id]).(
                     state := Completed, leasedUntil := None, token := None, updatedAt := now)]
                && store.events == old(store.events) + [Event(old(store.nextEventId), id, Acknowledged, logged)]
      ensures r != Done ==> unchanged(store)
    {
      r := store.CompleteJob(id, token, now);
      if r == Done {
        store.AppendEvent(id, Acknowledged, logged);
      }
    }

    method Fail(id: JobId, token: Token, now: int, logged: int) returns (r: Result)
      modifies store
      ensures store.Table() == QueueOps.Fail(old(store.Table()), id, token, now, logged)
      ensures r == NotFound <==> id !in old(store.jobs)
      ensures r == Done <==> id in old(store.jobs) && (token == "" || old(HoldsToken(store.jobs, id, token)))
      ensures r == Done ==>
                var j := old(store.jobs)[id];
                var retry := j.retryCount + 1 < j.maxAttempts;
                && store.jobs == (if j.state != Leased then old(store.jobs)
                                  else old(store.jobs)[id := j.(
                                    state := if retry then Pending else DeadLetter, retryCount := j.retryCount + 1,
                                    leasedUntil := None, token := None, updatedAt := now)])
                && store.events == old(store.events) + [
                     Event(old(store.nextEventId), id, if retry then Retried else DeadLettered, logged)]
      ensures r != Done ==> unchanged(store)
    {
      if id !in store.jobs {
        return NotFound;
      }
      var job := store.jobs[id];
      if token != "" && job.token != Some(token) {
        return LeaseLost;
      }
      var shouldRetry := job.retryCount + 1 < job.maxAttempts;
      r := store.FailJob(id, token, shouldRetry, now);
      if r == Done {
        store.AppendEvent(id, if shouldRetry then Retried else DeadLettered, logged);
      }
    }

    method Recover(now: int, logged: int) returns (count: nat, ghost scan: seq<Row>)
      modifies store
      ensures IsOrphanScan(old(store.jobs), scan, now)
      ensures store.Table() == QueueOps.Recover(old(store.Table()), scan, now, logged)
      ensures RowsRecovered(old(store.jobs), store.jobs, scan, now) && count == |scan|
      ensures store.events == old(store.events) + RecoveryLog(scan, old(store.nextEventId), logged)
    {
      var touched;
      touched, scan := store.RecoverOrphanedLeases(now);
      ghost var rows := store.Table();
      var i := 0;
      while i < |touched|
        invariant 0 <= i <= |touched|
        invariant LogRecovered(rows, touched, logged) == LogRecovered(store.Table(), touched[i..], logged)
      {
        assert touched[i..][0] == touched[i] && touched[i..][1..] == touched[i + 1..];
        store.AppendEvent(touched[i].id, RecoveryEvent(touched[i].job.state), logged);
        i := i + 1;
      }
      RecoverExact(old(store.Table()), scan, now, logged);
      return |touched|, scan;
    }

    method Requeue(id: JobId, maxAttempts: int, payload: Option<string>, now: int, logged: int) returns (r: Result)
      modifies store
      ensures store.Table() == QueueOps.Requeue(old(store.Table()), id, maxAttempts, payload, now, logged)
      ensures r == Done <==> id in old(store.jobs) && old(store.jobs[id].state) == DeadLetter
      ensures r == Done ==>
                var j := old(store.jobs)[id];
                && store.jobs == old(store.jobs)[id := j.(
                     state := Pending, retryCount := 0, leasedUntil := None, token := None, updatedAt := now,
                     maxAttempts := if maxAttempts >= 1 then maxAttempts else j.maxAttempts,
                     payload := if payload.Some? then payload.value else j.payload)]
                && store.events == old(store.events) + [Event(old(store.nextEventId), id, Requeued, logged)]
      ensures r != Done ==> unchanged(store)
    {
      if id !in store.jobs {
        return NotFound;
      }
      var job := store.jobs[id];
      if job.state != DeadLetter {
        return NotDeadLettered;
      }
      var budget := job.maxAttempts;
      if maxAttempts >= 1 {
        budget := maxAttempts;
      }
      r := store.RequeueJob(id, budget, payload, now);
      store.AppendEvent(id, Requeued, logged);
    }
  }
}
