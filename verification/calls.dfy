/**
 * The simulated call (contexts/CallContext.tsx): one record, IDLE -> RINGING ->
 * CONNECTED -> ENDED, and back to the idle record when the reset timer set by
 * `endCall` fires. The signed-in user and the clock reading are parameters; the
 * delayed reset is its own event.
 */
module Calls {
  import opened Common
  import opened Domain

  datatype CallStatus = Idle | Ringing | Connected | Ended

  datatype CallState = CallState(
    isActive: bool,
    status: CallStatus,
    caller: Option<User>,
    recipientRole: Option<Role>,
    startTime: Option<int>)

  /** The record the provider starts with and the reset restores. */
  const IdleCall := CallState(false, Idle, None, None, None)

  /** `initiateCall`: without a signed-in user nothing happens; otherwise a fresh ringing call. */
  function Initiate(s: CallState, user: Option<User>, recipient: Role): (r: CallState)
    ensures user.None? ==> r == s
    ensures user.Some? ==> r.isActive && r.status == Ringing && r.caller == user
                           && r.recipientRole == Some(recipient) && r.startTime.None?
  {
    if user.None? then s else CallState(true, Ringing, user, Some(recipient), None)
  }

  /** `answerCall`: CONNECTED from now on; who is in the call and whether it is active stay. */
  function Answer(s: CallState, now: int): (r: CallState)
    ensures r.status == Connected && r.startTime == Some(now)
    ensures r.isActive == s.isActive && r.caller == s.caller && r.recipientRole == s.recipientRole
  {
    s.(status := Connected, startTime := Some(now))
  }

  /** `endCall`, immediate part: ENDED, every other field as it was. */
  function End(s: CallState): (r: CallState)
    ensures r.status == Ended
    ensures r.(status := s.status) == s
  {
    s.(status := Ended)
  }

  datatype CallEvent = InitiateCall(user: Option<User>, recipient: Role) | AnswerCall(now: int) | EndCall | ResetTimer

  function Step(s: CallState, e: CallEvent): CallState {
    match e
    case InitiateCall(user, recipient) => Initiate(s, user, recipient)
    case AnswerCall(now) => Answer(s, now)
    case EndCall => End(s)
    case ResetTimer => IdleCall
  }

  /** The call record after the events of `trace`, oldest first. */
  function RunCall(s: CallState, trace: seq<CallEvent>): CallState
    decreases |trace|
  {
    if trace == [] then s else Step(RunCall(s, trace[..|trace| - 1]), trace[|trace| - 1])
  }

  /**
   * Read backwards from the end of `trace`: has a call been answered since the last
   * event that clears the start time (an initiate by a signed-in user, or the reset)?
   * With no such event in the trace, the answer is whether `s` already had one.
   */
  predicate AnsweredSinceStart(s: CallState, trace: seq<CallEvent>)
    decreases |trace|
  {
    if trace == [] then s.startTime.Some?
    else
      match trace[|trace| - 1]
      case AnswerCall(_) => true
      case ResetTimer => false
      case InitiateCall(user, _) => if user.Some? then false else AnsweredSinceStart(s, trace[..|trace| - 1])
      case EndCall => AnsweredSinceStart(s, trace[..|trace| - 1])
  }

  /** A start time is recorded exactly when `answerCall` ran after the last initiate or reset. */
  lemma {:induction false} StartTimeOnlyAfterAnswer(s: CallState, trace: seq<CallEvent>)
    ensures RunCall(s, trace).startTime.Some? <==> AnsweredSinceStart(s, trace)
    decreases |trace|
  {
    if trace != [] {
      StartTimeOnlyAfterAnswer(s, trace[..|trace| - 1]);
    }
  }

  /** From the provider's initial record: no start time unless a call has been answered. */
  lemma StartTimeFromIdle(trace: seq<CallEvent>)
    ensures RunCall(IdleCall, trace).startTime.Some? <==> AnsweredSinceStart(IdleCall, trace)
  {
    StartTimeOnlyAfterAnswer(IdleCall, trace);
  }

  /**
   * What holds of every record the provider can reach: a call is active exactly when
   * it has a caller and a recipient role, the IDLE status only ever shows the idle
   * record, a ringing call is active and unanswered, and a connected one has a start.
   */
  predicate Reachable(s: CallState) {
    && (s.isActive <==> s.caller.Some?)
    && (s.isActive <==> s.recipientRole.Some?)
    && (s.status == Idle ==> s == IdleCall)
    && (s.status == Ringing ==> s.isActive && s.startTime.None?)
    && (s.status == Connected ==> s.startTime.Some?)
  }

  lemma StepKeepsReachable(s: CallState, e: CallEvent)
    requires Reachable(s)
    ensures Reachable(Step(s, e))
  {
  }

  lemma {:induction false} RunKeepsReachable(trace: seq<CallEvent>)
    ensures Reachable(RunCall(IdleCall, trace))
    decreases |trace|
  {
    if trace != [] {
      RunKeepsReachable(trace[..|trace| - 1]);
      StepKeepsReachable(RunCall(IdleCall, trace[..|trace| - 1]), trace[|trace| - 1]);
    }
  }

  /** End followed by the delayed reset always lands on the initial idle record. */
  lemma EndThenResetIsIdle(s: CallState)
    ensures RunCall(s, [EndCall, ResetTimer]) == IdleCall
  {
    assert [EndCall, ResetTimer][..1] == [EndCall];
  }

  /** A signed-in user's initiate forgets whatever call was there before. */
  lemma InitiateForgetsPrevious(s1: CallState, s2: CallState, user: User, recipient: Role)
    ensures Initiate(s1, Some(user), recipient) == Initiate(s2, Some(user), recipient)
  {
  }

  class CallSession {
    var callState: CallState

    constructor ()
      ensures callState == IdleCall
    {
      callState := IdleCall;
    }

    method InitiateCall(user: Option<User>, recipient: Role)
      modifies this
      ensures callState == Initiate(old(callState), user, recipient)
    {
      if user.None? {
        return;
      }
      callState := CallState(true, Ringing, user, Some(recipient), None);
    }

    method AnswerCall(now: int)
      modifies this
      ensures callState == Answer(old(callState), now)
    {
      callState := callState.(status := Connected, startTime := Some(now));
    }

    /** `endCall`; the reset it schedules arrives later as `ResetAfterEnd`. */
    method EndCall()
      modifies this
      ensures callState == End(old(callState))
    {
      callState := callState.(status := Ended);
    }

    /** The timer callback scheduled by `endCall`. */
    method ResetAfterEnd()
      modifies this
      ensures callState == IdleCall
    {
      callState := CallState(false, Idle, None, None, None);
    }
  }
}
