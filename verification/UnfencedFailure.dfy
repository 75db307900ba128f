/** Where the unfenced Fail leaves an archive the verifier refuses. */
module UnfencedFailure {
  import opened Records
  import opened Dispatch
  import opened Tables
  import opened EventLog
  import opened Coarse
  import Archive
  import Histories
  import Q = QueueOps

  lemma NoEdgeFrom(log: seq<Event>, e: Event, state: JobState, kind: EventType, final: JobState)
    requires Replays(log, state) && state != Leased && e.kind == kind && (kind.Retried? || kind.DeadLettered?)
    ensures !Replays(log + [e], final)
  {
    var all := log + [e];
    if Replays(all, final) {
      var states :| IsPath(all, states) && states[|states| - 1] == final;
      var n := |log|;
      PathFront(log, e, states);
      assert Replays(log, states[n - 1]);
      ReplayUnique(log, states[n - 1], state);
    }
  }

  /**
    Fail without a token on a job of a store in good order: its event is appended
    whether or not the row changed, so the job's exported history is still
    accepted exactly when the job was leased.
   */
  lemma UnfencedFailExact(w: World, id: JobId, now: int, logged: int)
    requires Inv(w) && id in w.db.jobs && w.clock <= now <= logged
    ensures Archive.ArchiveOk(Histories.Export(Q.Fail(w.db, id, "", now, logged), [id])) <==>
            w.db.jobs[id].state == Leased
  {
    var after := Q.Fail(w.db, id, "", now, logged);
    var lines := Histories.Export(after, [id]);
    if w.db.jobs[id].state == Leased {
      FailKeeps(w, id, "", now, logged);
      Histories.ExportOk(World(after, logged), [id]);
    } else {
      var kind := Q.FailureEvent(Q.ShouldRetry(w.db.jobs[id]));
      var e := Event(w.db.nextEventId, id, kind, logged);
      LogAppend(w.db.events, e, id);
      NoEdgeFrom(Log(w.db.events, id), e, w.db.jobs[id].state, kind, after.jobs[id].state);
      assert lines[0].Decoded? && lines[0].record.events == Log(w.db.events, id) + [e];
      assert !Archive.RecordOk(lines[0].record);
    }
  }

  /** A job that was only enqueued, failed without a token: the verifier reports the export. */
  lemma PendingJobFailed(spec: Q.NewJob)
    ensures var w := World(Q.Enqueue(EMPTY, "job", spec, 1), 1);
            "job" in w.db.jobs && !Archive.ArchiveOk(Histories.Export(Q.Fail(w.db, "job", "", 2, 2), ["job"]))
  {
    assert Inv(START) by { assert |EMPTY.ids| == 0; }
    EnqueueKeeps(START, "job", spec, 1);
    UnfencedFailExact(World(Q.Enqueue(EMPTY, "job", spec, 1), 1), "job", 2, 2);
  }
}
