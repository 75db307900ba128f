/**
  One worker slot as two goroutines: the handler's and the heartbeat's. Steps of
  the two interleave freely; the trace lists the calls the slot makes on the queue.
 */
module Slot {
  import opened Worker

  /** Renewed and RenewalFailed are calls of Renew; Finished is AcknowledgeLease or FailLease. */
  datatype Call = Renewed | RenewalFailed | Finished(outcome: Outcome)

  /** The slot handles, then waits for the heartbeat to stop, then is done. */
  datatype Main = Handling | Waiting(outcome: Outcome) | Done

  datatype Beat = Armed | Stopped

  /** lost is the heartbeat's error channel: it holds at most one error. */
  datatype State = State(main: Main, beat: Beat, cancelled: bool, lost: bool, trace: seq<Call>)

  datatype Action =
    | HandlerReturns(outcome: Outcome)
    | WorkerStops
    | TimerFires(renewed: bool)
    | BeatSeesCancel
    | MainProceeds

  /** A slot without a positive interval or a token has no heartbeat. */
  function Begin(heartbeat: bool): State {
    State(Handling, if heartbeat then Armed else Stopped, false, false, [])
  }

  /** The timer may still fire after cancellation: the select picks either ready case. */
  predicate Enabled(s: State, a: Action) {
    match a
    case HandlerReturns(_) => s.main == Handling
    case WorkerStops => true
    case TimerFires(_) => s.beat == Armed
    case BeatSeesCancel => s.beat == Armed && s.cancelled
    case MainProceeds => s.main.Waiting? && s.beat == Stopped
  }

  function Next(s: State, a: Action): State {
    match a
    case HandlerReturns(outcome) => s.(main := Waiting(outcome), cancelled := true)
    case WorkerStops => s.(cancelled := true)
    case TimerFires(renewed) =>
      if renewed then s.(trace := s.trace + [Renewed])
      else s.(beat := Stopped, cancelled := true, lost := true, trace := s.trace + [RenewalFailed])
    case BeatSeesCancel => s.(beat := Stopped)
    case MainProceeds =>
      if s.lost || !s.main.Waiting? then s.(main := Done)
      else s.(main := Done, trace := s.trace + [Finished(s.main.outcome)])
  }

  function After(s: State, actions: seq<Action>): State {
    if actions == [] then s else Next(After(s, actions[..|actions| - 1]), actions[|actions| - 1])
  }

  predicate Possible(s: State, actions: seq<Action>) {
    actions == [] || (Possible(s, actions[..|actions| - 1]) &&
                      Enabled(After(s, actions[..|actions| - 1]), actions[|actions| - 1]))
  }

  /** Nothing follows a finish or a failed renewal. */
  predicate Ends(trace: seq<Call>) {
    forall i | 0 <= i < |trace| - 1 :: trace[i] == Renewed
  }

  predicate StateOk(s: State) {
    && Ends(s.trace)
    && (s.main == Done ==> s.beat == Stopped)
    && (s.lost <==> exists i :: 0 <= i < |s.trace| && s.trace[i] == RenewalFailed)
    && (s.lost ==> s.beat == Stopped && s.cancelled)
    && (s.main != Handling ==> s.cancelled)
    && (s.main != Done ==> forall i | 0 <= i < |s.trace| :: !s.trace[i].Finished?)
    && (s.main == Done && !s.lost ==> s.trace != [] && s.trace[|s.trace| - 1].Finished?)
  }

  /** What is waiting to be reported, or was, is what the handler returned. */
  predicate Reports(s: State, actions: seq<Action>) {
    && (s.main.Waiting? ==> HandlerReturns(s.main.outcome) in actions)
    && forall call | call in s.trace && call.Finished? :: HandlerReturns(call.outcome) in actions
  }

  lemma NextOk(s: State, a: Action)
    requires StateOk(s) && Enabled(s, a)
    ensures StateOk(Next(s, a))
  {
    var s' := Next(s, a);
    assert forall i | 0 <= i < |s.trace| :: s'.trace[i] == s.trace[i];
    if a.TimerFires? && !a.renewed { assert s'.trace[|s.trace|] == RenewalFailed; }
  }

  /**
    In every interleaving the slot's calls are renewals followed by at most one
    last call, a finish or a failed renewal: no renewal after the finish was
    issued, and neither finish nor renewal after a failed renewal. A slot that is
    done without a failed renewal has finished its job, with the handler's outcome; a
    failed renewal cancels the handler.
   */
  lemma {:induction false} CallsEndOnce(heartbeat: bool, actions: seq<Action>)
    requires Possible(Begin(heartbeat), actions)
    ensures StateOk(After(Begin(heartbeat), actions))
    ensures Ends(After(Begin(heartbeat), actions).trace) && Reports(After(Begin(heartbeat), actions), actions)
  {
    if actions != [] {
      assert forall a | a in actions[..|actions| - 1] :: a in actions;
      assert actions[|actions| - 1] in actions;
      CallsEndOnce(heartbeat, actions[..|actions| - 1]);
      NextOk(After(Begin(heartbeat), actions[..|actions| - 1]), actions[|actions| - 1]);
    }
  }
}
