/**
 The listener the popup registers on its port to the background script.

 A message is a record whose `type` string selects what the listener does
 with the remaining fields; the fields a type does not use are ignored.
 Delivery, ordering and the `GET_STATE` request the popup sends are not part
 of this module: only the effect of one received message on the state is.
 */
module PortMessages {
  import opened State
  import FocusTimer

  const StateUpdateType: string := "STATE_UPDATE"
  const TimerUpdateType: string := "TIMER_UPDATE"
  const SessionCompleteType: string := "SESSION_COMPLETE"

  /** A message as received: its `type` tag and the fields a state or timer update carries. */
  datatype Message = Message(
    kind: string,
    currentState: Mode,
    focusLength: int,
    breakLength: int,
    focusType: string,
    remainingFocusTime: int,
    remainingBreakTime: int
  )

  /** The tag is one the listener reacts to. */
  predicate Recognised(m: Message) {
    m.kind == StateUpdateType || m.kind == TimerUpdateType || m.kind == SessionCompleteType
  }

  /** The setter calls the listener makes for a state update. */
  function StateUpdateSetters(m: Message): seq<Update> {
    [SetCurrentState(m.currentState), SetFocusLength(m.focusLength), SetBreakLength(m.breakLength),
     SetFocusType(m.focusType), SetRemainingFocusTime(m.remainingFocusTime),
     SetRemainingBreakTime(m.remainingBreakTime)]
  }

  /** Each of the six setter calls of a state update is the last write of its field. */
  lemma StateUpdateWrites(s: TimerState, m: Message)
    ensures Commit(s, StateUpdateSetters(m)).currentState == m.currentState
    ensures Commit(s, StateUpdateSetters(m)).focusLength == m.focusLength
    ensures Commit(s, StateUpdateSetters(m)).breakLength == m.breakLength
    ensures Commit(s, StateUpdateSetters(m)).focusType == m.focusType
    ensures Commit(s, StateUpdateSetters(m)).remainingFocusTime == m.remainingFocusTime
    ensures Commit(s, StateUpdateSetters(m)).remainingBreakTime == m.remainingBreakTime
  {
    var us := StateUpdateSetters(m);
    assert IsLastWrite(us, 0) && IsLastWrite(us, 1) && IsLastWrite(us, 2);
    assert IsLastWrite(us, 3) && IsLastWrite(us, 4) && IsLastWrite(us, 5);
  }

  /** A state update does not call the setter of the clicked mark. */
  lemma StateUpdateKeepsClick(s: TimerState, m: Message)
    ensures Commit(s, StateUpdateSetters(m)).startClicked == s.startClicked
  {
    assert Untouched(StateUpdateSetters(m), StartClickedField);
  }

  /** A state update: all six timer fields are overwritten from the message. */
  function OnStateUpdate(s: TimerState, m: Message): (r: TimerState)
    ensures r == TimerState(m.currentState, m.focusLength, m.breakLength, m.focusType,
                            m.remainingFocusTime, m.remainingBreakTime, s.startClicked)
  {
    StateUpdateWrites(s, m);
    StateUpdateKeepsClick(s, m);
    Commit(s, StateUpdateSetters(m))
  }

  /** A timer update: only the two countdowns are overwritten. */
  function OnTimerUpdate(s: TimerState, m: Message): (r: TimerState)
    ensures r == s.(remainingFocusTime := m.remainingFocusTime, remainingBreakTime := m.remainingBreakTime)
  {
    var first := SetRemainingFocusTime(m.remainingFocusTime);
    var second := SetRemainingBreakTime(m.remainingBreakTime);
    CommitAppend(s, [first], [second]);
    CommitOne(s, first);
    CommitOne(Apply(s, first), second);
    Commit(s, [first] + [second])
  }

  /** A completion notice: only the phase changes, back to idle. */
  function OnSessionComplete(s: TimerState): (r: TimerState)
    ensures r == s.(currentState := Idle)
  {
    CommitOne(s, SetCurrentState(Idle));
    Commit(s, [SetCurrentState(Idle)])
  }

  /**
   The state after the listener handled `m`: a state update overwrites all
   six timer fields, a timer update only the two countdowns, a completion
   only the phase (back to idle), and a message of any other type is
   ignored.  The clicked mark of the "Start Focus" button is never touched.
   */
  function OnMessage(s: TimerState, m: Message): (r: TimerState)
    ensures m.kind == StateUpdateType ==>
      r == TimerState(m.currentState, m.focusLength, m.breakLength, m.focusType,
                      m.remainingFocusTime, m.remainingBreakTime, s.startClicked)
    ensures m.kind == TimerUpdateType ==>
      r == s.(remainingFocusTime := m.remainingFocusTime, remainingBreakTime := m.remainingBreakTime)
    ensures m.kind == SessionCompleteType ==> r == s.(currentState := Idle)
    ensures !Recognised(m) ==> r == s
  {
    if m.kind == "STATE_UPDATE" then OnStateUpdate(s, m)
    else if m.kind == "TIMER_UPDATE" then OnTimerUpdate(s, m)
    else if m.kind == "SESSION_COMPLETE" then OnSessionComplete(s)
    else s
  }

  /** The state update a background holding `t` sends. */
  function Snapshot(t: TimerState): Message {
    Message(StateUpdateType, t.currentState, t.focusLength, t.breakLength, t.focusType,
            t.remainingFocusTime, t.remainingBreakTime)
  }

  /** The countdown update a background holding `t` sends. */
  function Countdowns(t: TimerState): Message {
    Message(TimerUpdateType, t.currentState, t.focusLength, t.breakLength, t.focusType,
            t.remainingFocusTime, t.remainingBreakTime)
  }

  /**
   After a state update the popup holds exactly the sender's state, whatever
   it showed before; only its own clicked mark survives.
   */
  lemma StateUpdateSynchronises(s: TimerState, t: TimerState)
    ensures OnMessage(s, Snapshot(t)) == t.(startClicked := s.startClicked)
  {
  }

  /** A countdown update from a sender whose settings the popup already shows synchronises it too. */
  lemma TimerUpdateSynchronises(s: TimerState, t: TimerState)
    requires s.currentState == t.currentState && s.focusType == t.focusType
    requires s.focusLength == t.focusLength && s.breakLength == t.breakLength
    ensures OnMessage(s, Countdowns(t)) == t.(startClicked := s.startClicked)
  {
  }

  /** A timer update from the background sets both countdowns the way the countdown callbacks do. */
  lemma TimerUpdateIsTicks(s: TimerState, m: Message)
    requires m.kind == TimerUpdateType
    ensures OnMessage(s, m)
            == FocusTimer.UpdateRemainingBreakTime(FocusTimer.UpdateRemainingFocusTime(s, m.remainingFocusTime), m.remainingBreakTime)
  {
  }

  /** Receiving the same update twice has the effect of receiving it once. */
  lemma MessageIdempotent(s: TimerState, m: Message)
    ensures OnMessage(OnMessage(s, m), m) == OnMessage(s, m)
  {
  }
}
