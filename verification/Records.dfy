/** The rows of the queue's three tables. */
module Records {

  datatype Option<+T> = None | Some(value: T)

  type JobId = string
  type Token = string

  /** OtherState and OtherEvent are texts a decoded archive may carry but the queue never writes. */
  datatype JobState = Pending | Leased | Completed | Failed | DeadLetter | OtherState(text: string)

  datatype EventType =
    | Enqueued | Scheduled | LeaseTaken | Acknowledged | FailedEvent | Retried
    | Recovered | DeadLettered | Requeued | LeaseRenewed | OtherEvent(text: string)

  /** Times are nanoseconds; ZERO_TIME is Go's zero time.Time. */
  const ZERO_TIME := 0

  /** A jobs row; its primary key is the key it is stored under. */
  datatype Job = Job(
    kind: string, payload: string, state: JobState, retryCount: int, maxAttempts: int, priority: int,
    key: Option<string>, createdAt: int, updatedAt: int,
    leasedUntil: Option<int>, token: Option<Token>, runAt: Option<int>)
  {
    /** COALESCE(run_at, created_at) */
    function ReadyAt(): int {
      if runAt.Some? then runAt.value else createdAt
    }

    predicate ReadyFor(wanted: string, now: int) {
      kind == wanted && state == Pending && (runAt.Some? ==> runAt.value <= now)
    }
  }

  datatype Row = Row(id: JobId, job: Job)

  datatype Event = Event(id: int, jobId: JobId, kind: EventType, at: int)

  datatype Source = Manual | Auto | OtherSource(text: string)

  datatype RetentionRun = RetentionRun(
    at: int, source: Source, maxJobAge: int, maxEventsPerJob: int, jobsRemoved: int, eventsRemoved: int)
}
