/** Retention: which rows one prune removes, and how prunes compose. */
module Retention {
  import opened Records
  import opened Dispatch
  import opened Tables
  import opened EventLog

  /** Non-positive limits are disabled. */
  datatype Policy = Policy(maxJobAge: int, maxEventsPerJob: int)

  predicate Terminal(state: JobState) {
    state == Completed || state == DeadLetter || state == Failed
  }

  /** state IN (...) AND updated_at < cutoff */
  function Expired(jobs: Jobs, cutoff: int): set<JobId> {
    set id | id in jobs && Terminal(jobs[id].state) && jobs[id].updatedAt < cutoff
  }

  function DropJobs(events: seq<Event>, gone: set<JobId>): seq<Event> {
    if events == [] then []
    else if events[0].jobId in gone then DropJobs(events[1..], gone)
    else [events[0]] + DropJobs(events[1..], gone)
  }

  /** Keeps an event when fewer than cap events of the same job follow it: ROW_NUMBER() by descending id <= cap. */
  function KeepNewest(events: seq<Event>, cap: int): seq<Event> {
    if events == [] then []
    else if |Log(events[1..], events[0].jobId)| < cap then [events[0]] + KeepNewest(events[1..], cap)
    else KeepNewest(events[1..], cap)
  }

  /** The jobs the age limit removes; a non-positive limit removes none. */
  function Doomed(jobs: Jobs, p: Policy, now: int): set<JobId> {
    if p.maxJobAge <= 0 then {} else Expired(jobs, now - p.maxJobAge)
  }

  function CapEvents(events: seq<Event>, cap: int): seq<Event> {
    if cap <= 0 then events else KeepNewest(events, cap)
  }

  function SurvivingJobs(jobs: Jobs, p: Policy, now: int): Jobs {
    jobs - Doomed(jobs, p, now)
  }

  function SurvivingEvents(jobs: Jobs, events: seq<Event>, p: Policy, now: int): seq<Event> {
    CapEvents(DropJobs(events, Doomed(jobs, p, now)), p.maxEventsPerJob)
  }

  /** The outcome of a run that leaves the given jobs and events: they stay, and the run is recorded. */
  function Pruned(db: Db, p: Policy, source: Source, now: int, jobs: Jobs, events: seq<Event>): Db {
    db.(jobs := jobs, events := events, runs := db.runs + [RetentionRun(
      now, source, p.maxJobAge, p.maxEventsPerJob, |db.jobs| - |jobs|, |db.events| - |events|)])
  }

  /** A zero policy does nothing and an unknown source is refused. */
  function Prune(db: Db, p: Policy, source: Source, now: int): Db {
    if (p.maxJobAge <= 0 && p.maxEventsPerJob <= 0) || source.OtherSource? then db
    else Pruned(db, p, source, now, SurvivingJobs(db.jobs, p, now), SurvivingEvents(db.jobs, db.events, p, now))
  }

  lemma PruneIs(db: Db, p: Policy, source: Source, now: int, jobs: Jobs, events: seq<Event>)
    requires (p.maxJobAge > 0 || p.maxEventsPerJob > 0) && !source.OtherSource?
    requires jobs == SurvivingJobs(db.jobs, p, now) && events == SurvivingEvents(db.jobs, db.events, p, now)
    ensures Prune(db, p, source, now) == Pruned(db, p, source, now, jobs, events)
  {
  }

  /** A run that left these rows and recorded itself, and nothing else. */
  lemma PrunedIs(db: Db, p: Policy, source: Source, now: int, after: Db)
    requires after.runs == db.runs + [RetentionRun(now, source, p.maxJobAge, p.maxEventsPerJob,
                                                   |db.jobs| - |after.jobs|, |db.events| - |after.events|)]
    requires after.nextEventId == db.nextEventId && after.ids == db.ids && after.tokens == db.tokens
    ensures after == Pruned(db, p, source, now, after.jobs, after.events)
  {
  }

  lemma PruneRan(db: Db, p: Policy, source: Source, now: int, after: Db)
    requires (p.maxJobAge > 0 || p.maxEventsPerJob > 0) && !source.OtherSource?
    requires after.jobs == SurvivingJobs(db.jobs, p, now) && after.events == SurvivingEvents(db.jobs, db.events, p, now)
    requires after.runs == db.runs + [RetentionRun(now, source, p.maxJobAge, p.maxEventsPerJob,
                                                   |db.jobs| - |after.jobs|, |db.events| - |after.events|)]
    requires after.nextEventId == db.nextEventId && after.ids == db.ids && after.tokens == db.tokens
    ensures after == Prune(db, p, source, now)
  {
    PrunedIs(db, p, source, now, after);
    PruneIs(db, p, source, now, after.jobs, after.events);
  }

  function Newest(log: seq<Event>, cap: int): seq<Event> {
    if |log| <= cap then log else if cap <= 0 then [] else log[|log| - cap..]
  }

  // ---- What survives ----

  /** Each surviving log is exactly the newest events of the old one, in order. */
  lemma {:induction false} KeepNewestLog(events: seq<Event>, cap: int, id: JobId)
    requires cap >= 0
    ensures Log(KeepNewest(events, cap), id) == Newest(Log(events, id), cap)
  {
    if events != [] {
      var e, rest := events[0], events[1..];
      KeepNewestLog(rest, cap, id);
      assert ([e] + KeepNewest(rest, cap))[1..] == KeepNewest(rest, cap);
    }
  }

  /** Deleting jobs' events leaves every other log alone. */
  lemma {:induction false} DropJobsLog(events: seq<Event>, gone: set<JobId>, id: JobId)
    ensures Log(DropJobs(events, gone), id) == if id in gone then [] else Log(events, id)
  {
    if events != [] {
      var e, rest := events[0], events[1..];
      DropJobsLog(rest, gone, id);
      assert ([e] + DropJobs(rest, gone))[1..] == DropJobs(rest, gone);
    }
  }

  lemma {:induction false} DropJobsSubsequence(events: seq<Event>, gone: set<JobId>)
    ensures Subsequence(DropJobs(events, gone), events)
    ensures forall e | e in DropJobs(events, gone) :: e.jobId !in gone
  {
    if events != [] {
      DropJobsSubsequence(events[1..], gone);
      if events[0].jobId !in gone { assert DropJobs(events, gone)[1..] == DropJobs(events[1..], gone); }
    }
  }

  lemma {:induction false} KeepNewestSubsequence(events: seq<Event>, cap: int)
    ensures Subsequence(KeepNewest(events, cap), events)
  {
    if events != [] {
      KeepNewestSubsequence(events[1..], cap);
      if |Log(events[1..], events[0].jobId)| < cap {
        assert KeepNewest(events, cap)[1..] == KeepNewest(events[1..], cap);
      }
    }
  }

  lemma {:induction false} DropAll(events: seq<Event>, gone: set<JobId>)
    requires forall e | e in events :: e.jobId in gone
    ensures DropJobs(events, gone) == []
  {
    if events != [] {
      assert events[0] in events;
      DropAll(events[1..], gone);
    }
  }

  /** The age limit is on, the job has ended one way or another, and its last update is older. */
  predicate Outdated(j: Job, p: Policy, now: int) {
    && p.maxJobAge > 0 && j.updatedAt < now - p.maxJobAge
    && (j.state == Completed || j.state == DeadLetter || j.state == Failed)
  }

  /** after is the newest part of before: as much of it as a positive cap allows, all of it without a cap. */
  predicate NewestPart(before: seq<Event>, after: seq<Event>, cap: int) {
    && |after| == (if 0 < cap < |before| then cap else |before|)
    && after == before[|before| - |after|..]
  }

  /** The outdated jobs left with all their events; nothing else about any job changed, and its newest events stay. */
  ghost predicate PolicyApplied(jobs: Jobs, events: seq<Event>, p: Policy, now: int, jobs': Jobs, events': seq<Event>) {
    && (forall id :: id in jobs' <==> id in jobs && !Outdated(jobs[id], p, now))
    && (forall id | id in jobs' :: jobs'[id] == jobs[id])
    && Subsequence(events', events)
    && (forall id :: if id in jobs && Outdated(jobs[id], p, now) then Log(events', id) == []
                     else NewestPart(Log(events, id), Log(events', id), p.maxEventsPerJob))
  }

  lemma {:induction false} SubsequenceAll(a: seq<Event>)
    ensures Subsequence(a, a)
  {
    if a != [] { SubsequenceAll(a[1..]); }
  }

  lemma {:induction false} SubsequenceTransitive(a: seq<Event>, b: seq<Event>, c: seq<Event>)
    requires Subsequence(a, b) && Subsequence(b, c)
    ensures Subsequence(a, c)
    decreases |b| + |c|
  {
    if a != [] {
      if b[0] == c[0] && Subsequence(b[1..], c[1..]) {
        if a[0] == b[0] && Subsequence(a[1..], b[1..]) {
          SubsequenceTransitive(a[1..], b[1..], c[1..]);
        } else {
          SubsequenceTransitive(a, b[1..], c[1..]);
        }
      } else {
        SubsequenceTransitive(a, b, c[1..]);
      }
    }
  }

  lemma SurvivingSubsequence(jobs: Jobs, events: seq<Event>, p: Policy, now: int)
    ensures Subsequence(SurvivingEvents(jobs, events, p, now), events)
  {
    var kept := DropJobs(events, Doomed(jobs, p, now));
    DropJobsSubsequence(events, Doomed(jobs, p, now));
    if p.maxEventsPerJob > 0 {
      KeepNewestSubsequence(kept, p.maxEventsPerJob);
      SubsequenceTransitive(KeepNewest(kept, p.maxEventsPerJob), kept, events);
    }
  }

  lemma SurvivingLog(jobs: Jobs, events: seq<Event>, p: Policy, now: int, id: JobId)
    ensures var log := Log(SurvivingEvents(jobs, events, p, now), id);
            if id in Doomed(jobs, p, now) then log == [] else NewestPart(Log(events, id), log, p.maxEventsPerJob)
  {
    var gone := Doomed(jobs, p, now);
    DropJobsLog(events, gone, id);
    if p.maxEventsPerJob > 0 { KeepNewestLog(DropJobs(events, gone), p.maxEventsPerJob, id); }
  }

  /** The staged deletes do what the policy says. */
  lemma SurvivorsExact(jobs: Jobs, events: seq<Event>, p: Policy, now: int, jobs': Jobs, events': seq<Event>)
    requires jobs' == SurvivingJobs(jobs, p, now) && events' == SurvivingEvents(jobs, events, p, now)
    ensures PolicyApplied(jobs, events, p, now, jobs', events')
  {
    SurvivingSubsequence(jobs, events, p, now);
    forall id
      ensures if id in jobs && Outdated(jobs[id], p, now) then Log(events', id) == []
              else NewestPart(Log(events, id), Log(events', id), p.maxEventsPerJob)
    {
      SurvivingLog(jobs, events, p, now, id);
      assert id in Doomed(jobs, p, now) <==> id in jobs && Outdated(jobs[id], p, now);
    }
  }

  // ---- Composition ----

  lemma {:induction false} CapTwice(events: seq<Event>, k1: int, k2: int)
    requires k1 > 0 && k2 > 0
    ensures KeepNewest(KeepNewest(events, k1), k2) == KeepNewest(events, if k1 <= k2 then k1 else k2)
  {
    if events != [] {
      var e, rest := events[0], events[1..];
      CapTwice(rest, k1, k2);
      KeepNewestLog(rest, k1, e.jobId);
      if |Log(rest, e.jobId)| < k1 {
        assert ([e] + KeepNewest(rest, k1))[1..] == KeepNewest(rest, k1);
      }
    }
  }

  lemma {:induction false} DropThenCap(events: seq<Event>, gone: set<JobId>, cap: int)
    ensures KeepNewest(DropJobs(events, gone), cap) == DropJobs(KeepNewest(events, cap), gone)
  {
    if events != [] {
      var e, rest := events[0], events[1..];
      DropThenCap(rest, gone, cap);
      DropJobsLog(rest, gone, e.jobId);
      assert ([e] + DropJobs(rest, gone))[1..] == DropJobs(rest, gone);
      assert ([e] + KeepNewest(rest, cap))[1..] == KeepNewest(rest, cap);
    }
  }

  lemma {:induction false} DropTwice(events: seq<Event>, a: set<JobId>, b: set<JobId>)
    ensures DropJobs(DropJobs(events, a), b) == DropJobs(events, a + b)
  {
    if events != [] {
      var e, rest := events[0], events[1..];
      DropTwice(rest, a, b);
      assert ([e] + DropJobs(rest, a))[1..] == DropJobs(rest, a);
    }
  }

  function TighterCap(k1: int, k2: int): int {
    if k1 <= 0 then k2 else if k2 <= 0 || k1 <= k2 then k1 else k2
  }

  lemma {:induction false} DropNone(events: seq<Event>)
    ensures DropJobs(events, {}) == events
  {
    if events != [] { DropNone(events[1..]); }
  }

  lemma PruneTables(db: Db, p: Policy, source: Source, now: int)
    requires !source.OtherSource?
    ensures Prune(db, p, source, now).jobs == SurvivingJobs(db.jobs, p, now)
    ensures Prune(db, p, source, now).events == SurvivingEvents(db.jobs, db.events, p, now)
  {
    DropNone(db.events);
  }

  /** Jobs due at the earlier time are due at the later one too. */
  lemma DoomedGrows(jobs: Jobs, p1: Policy, p2: Policy, t1: int, t2: int)
    requires p1.maxJobAge == p2.maxJobAge && t1 <= t2
    ensures Doomed(jobs, p1, t1) + Doomed(SurvivingJobs(jobs, p1, t1), p2, t2) == Doomed(jobs, p2, t2)
  {
  }

  /** Capping the events left by one expiry, then expiring again and capping, in terms of one deletion and one cap. */
  lemma EventsAbsorb(events: seq<Event>, g1: set<JobId>, g2: set<JobId>, k1: int, k2: int)
    ensures CapEvents(DropJobs(CapEvents(DropJobs(events, g1), k1), g2), k2)
         == CapEvents(DropJobs(events, g1 + g2), TighterCap(k1, k2))
  {
    DropTwice(events, g1, g2);
    DropThenCap(DropJobs(events, g1), g2, k1);
    if k1 > 0 && k2 > 0 { CapTwice(DropJobs(events, g1 + g2), k1, k2); }
  }

  lemma SurvivorsAbsorb(jobs: Jobs, events: seq<Event>, p1: Policy, p2: Policy, t1: int, t2: int)
    requires p1.maxJobAge == p2.maxJobAge && t1 <= t2
    ensures var p := Policy(p2.maxJobAge, TighterCap(p1.maxEventsPerJob, p2.maxEventsPerJob));
            var jobs', events' := SurvivingJobs(jobs, p1, t1), SurvivingEvents(jobs, events, p1, t1);
            && SurvivingJobs(jobs', p2, t2) == SurvivingJobs(jobs, p, t2)
            && SurvivingEvents(jobs', events', p2, t2) == SurvivingEvents(jobs, events, p, t2)
  {
    DoomedGrows(jobs, p1, p2, t1, t2);
    var g1, g2 := Doomed(jobs, p1, t1), Doomed(SurvivingJobs(jobs, p1, t1), p2, t2);
    assert jobs - g1 - g2 == jobs - (g1 + g2);
    EventsAbsorb(events, g1, g2, p1.maxEventsPerJob, p2.maxEventsPerJob);
  }

  /**
    Absorption: with no writes in between, two prunes with the same age limit
    leave the jobs and events of one prune at the later time under the tighter cap.
   */
  lemma PruneAbsorbs(db: Db, p1: Policy, p2: Policy, s1: Source, s2: Source, t1: int, t2: int)
    requires p1.maxJobAge == p2.maxJobAge && t1 <= t2
    requires !s1.OtherSource? && !s2.OtherSource?
    ensures var p := Policy(p2.maxJobAge, TighterCap(p1.maxEventsPerJob, p2.maxEventsPerJob));
            var twice, once := Prune(Prune(db, p1, s1, t1), p2, s2, t2), Prune(db, p, s2, t2);
            twice.jobs == once.jobs && twice.events == once.events
  {
    var p := Policy(p2.maxJobAge, TighterCap(p1.maxEventsPerJob, p2.maxEventsPerJob));
    var mid := Prune(db, p1, s1, t1);
    PruneTables(db, p1, s1, t1);
    SurvivorsAbsorb(db.jobs, db.events, p1, p2, t1, t2);
    PruneTables(mid, p2, s2, t2);
    PruneTables(db, p, s2, t2);
  }

  // ---- Accounting ----

  function JobsRemoved(runs: seq<RetentionRun>): int {
    if runs == [] then 0 else JobsRemoved(runs[..|runs| - 1]) + runs[|runs| - 1].jobsRemoved
  }

  function EventsRemoved(runs: seq<RetentionRun>): int {
    if runs == [] then 0 else EventsRemoved(runs[..|runs| - 1]) + runs[|runs| - 1].eventsRemoved
  }

  function OfSource(runs: seq<RetentionRun>, source: Source): seq<RetentionRun> {
    if runs == [] then []
    else
      var front, last := OfSource(runs[..|runs| - 1], source), runs[|runs| - 1];
      if last.source == source then front + [last] else front
  }

  /** Exactly the runs of that source. */
  lemma {:induction false} OfSourceExact(runs: seq<RetentionRun>, source: Source)
    ensures forall r :: multiset(OfSource(runs, source))[r] == if r.source == source then multiset(runs)[r] else 0
  {
    if runs != [] {
      OfSourceExact(runs[..|runs| - 1], source);
      assert runs == runs[..|runs| - 1] + [runs[|runs| - 1]];
    }
  }

  lemma {:induction false} OfOneSource(runs: seq<RetentionRun>, source: Source)
    ensures (forall r | r in runs :: r.source == source) ==> OfSource(runs, source) == runs
    ensures (forall r | r in runs :: r.source != source) ==> OfSource(runs, source) == []
  {
    if runs != [] {
      OfOneSource(runs[..|runs| - 1], source);
      assert runs == runs[..|runs| - 1] + [runs[|runs| - 1]];
    }
  }

  /** The per-source totals that GetRetentionStats reports add up to the totals over all runs. */
  lemma {:induction false} SourcesAddUp(runs: seq<RetentionRun>)
    requires forall r | r in runs :: !r.source.OtherSource?
    ensures |OfSource(runs, Manual)| + |OfSource(runs, Auto)| == |runs|
    ensures JobsRemoved(OfSource(runs, Manual)) + JobsRemoved(OfSource(runs, Auto)) == JobsRemoved(runs)
    ensures EventsRemoved(OfSource(runs, Manual)) + EventsRemoved(OfSource(runs, Auto)) == EventsRemoved(runs)
  {
    if runs != [] {
      var front, last := runs[..|runs| - 1], runs[|runs| - 1];
      SourcesAddUp(front);
      var m, a := OfSource(front, Manual), OfSource(front, Auto);
      assert (m + [last])[..|m|] == m && (a + [last])[..|a|] == a;
      assert last in runs;
      assert last.source == Manual || last.source == Auto;
    }
  }
}
