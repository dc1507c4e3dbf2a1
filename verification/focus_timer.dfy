/**
 The event handlers of the popup focus-timer component.

 The four state helpers (`IdleState`, `StartFocusState`, `BackToFocusState`,
 `RestState`) are the setter calls the handlers share; every handler bound to
 a control is a function from the snapshot it reads to the state committed
 after it ran.
 */
module FocusTimer {
  import opened State

  /** A focus session may start only with a positive length and a chosen type. */
  predicate CanStart(s: TimerState) {
    s.focusLength > 0 && s.focusType != Unset
  }

  // The shared state helpers, as the setter calls they issue.

  function IdleState(): seq<Update> {
    [SetCurrentState(Idle), SetFocusType(Unset), SetFocusLength(DefaultFocusLength), SetBreakLength(DefaultBreakLength)]
  }

  function StartFocusState(s: TimerState): seq<Update> {
    [SetCurrentState(Focus),
     SetRemainingFocusTime(s.focusLength * SecondsPerMinute),
     SetRemainingBreakTime(s.breakLength * SecondsPerMinute)]
  }

  /** The back-to-focus helper writes only the phase, and its last call sets focus. */
  function BackToFocusState(): (us: seq<Update>)
    ensures forall f :: f != CurrentStateField ==> Untouched(us, f)
    ensures IsLastWrite(us, |us| - 1) && us[|us| - 1] == SetCurrentState(Focus)
  {
    [SetCurrentState(Focus)]
  }

  /** The rest helper writes only the phase, and its last call sets rest. */
  function RestState(): (us: seq<Update>)
    ensures forall f :: f != CurrentStateField ==> Untouched(us, f)
    ensures IsLastWrite(us, |us| - 1) && us[|us| - 1] == SetCurrentState(Rest)
  {
    [SetCurrentState(Rest)]
  }

  /** The idle-state helper writes the idle phase, no type and the default lengths. */
  lemma IdleStateWrites(s: TimerState)
    ensures Commit(s, IdleState()).currentState == Idle
    ensures Commit(s, IdleState()).focusType == Unset
    ensures Commit(s, IdleState()).focusLength == DefaultFocusLength
    ensures Commit(s, IdleState()).breakLength == DefaultBreakLength
  {
  }

  /** The idle-state helper leaves the countdowns and the clicked mark alone. */
  lemma IdleStateKeeps(s: TimerState)
    ensures Commit(s, IdleState()).remainingFocusTime == s.remainingFocusTime
    ensures Commit(s, IdleState()).remainingBreakTime == s.remainingBreakTime
    ensures Commit(s, IdleState()).startClicked == s.startClicked
  {
  }

  /**
   The focus-state helper, with the lengths read from snapshot `s`, writes the
   focus phase and loads both countdowns from the lengths ...
   */
  lemma StartFocusStateWrites(s: TimerState, t: TimerState)
    ensures Commit(t, StartFocusState(s)).currentState == Focus
    ensures Commit(t, StartFocusState(s)).remainingFocusTime == s.focusLength * SecondsPerMinute
    ensures Commit(t, StartFocusState(s)).remainingBreakTime == s.breakLength * SecondsPerMinute
  {
  }

  /** ... and leaves lengths, type and the clicked mark of state `t` alone. */
  lemma StartFocusStateKeeps(s: TimerState, t: TimerState)
    ensures Commit(t, StartFocusState(s)).focusLength == t.focusLength
    ensures Commit(t, StartFocusState(s)).breakLength == t.breakLength
    ensures Commit(t, StartFocusState(s)).focusType == t.focusType
    ensures Commit(t, StartFocusState(s)).startClicked == t.startClicked
  {
    var us := StartFocusState(s);
    assert Untouched(us, FocusLengthField) && Untouched(us, BreakLengthField);
    assert Untouched(us, FocusTypeField) && Untouched(us, StartClickedField);
  }

  // The handlers.

  /** The "+" button next to the focus length. */
  function IncrementFocusLength(s: TimerState): (r: TimerState)
    ensures r == s.(focusLength := s.focusLength + LengthStep)
  {
    CommitOne(s, SetFocusLength(s.focusLength + LengthStep));
    Commit(s, [SetFocusLength(s.focusLength + LengthStep)])
  }

  /** The "-" button next to the focus length: refuses to go to 5 or below. */
  function DecrementFocusLength(s: TimerState): (r: TimerState)
    ensures s.focusLength > LengthStep ==> r == s.(focusLength := s.focusLength - LengthStep)
    ensures s.focusLength <= LengthStep ==> r == s
    ensures s.focusLength > 0 ==> r.focusLength > 0
  {
    if s.focusLength > LengthStep then
      CommitOne(s, SetFocusLength(s.focusLength - LengthStep));
      Commit(s, [SetFocusLength(s.focusLength - LengthStep)])
    else
      Commit(s, [])
  }

  /** The "+" button next to the break length. */
  function IncrementBreakLength(s: TimerState): (r: TimerState)
    ensures r == s.(breakLength := s.breakLength + LengthStep)
  {
    CommitOne(s, SetBreakLength(s.breakLength + LengthStep));
    Commit(s, [SetBreakLength(s.breakLength + LengthStep)])
  }

  /** The "-" button next to the break length: refuses to go to 5 or below. */
  function DecrementBreakLength(s: TimerState): (r: TimerState)
    ensures s.breakLength > LengthStep ==> r == s.(breakLength := s.breakLength - LengthStep)
    ensures s.breakLength <= LengthStep ==> r == s
    ensures s.breakLength > 0 ==> r.breakLength > 0
  {
    if s.breakLength > LengthStep then
      CommitOne(s, SetBreakLength(s.breakLength - LengthStep));
      Commit(s, [SetBreakLength(s.breakLength - LengthStep)])
    else
      Commit(s, [])
  }

  /** Typing a number into the focus-length box; any integer is taken as is. */
  function EnterFocusLength(s: TimerState, minutes: int): (r: TimerState)
    ensures r == s.(focusLength := minutes)
  {
    CommitOne(s, SetFocusLength(minutes));
    Commit(s, [SetFocusLength(minutes)])
  }

  /** Typing a number into the break-length box; any integer is taken as is. */
  function EnterBreakLength(s: TimerState, minutes: int): (r: TimerState)
    ensures r == s.(breakLength := minutes)
  {
    CommitOne(s, SetBreakLength(minutes));
    Commit(s, [SetBreakLength(minutes)])
  }

  /** Picking an entry of the focus-type menu. */
  function HandleFocusTypeChange(s: TimerState, value: string): (r: TimerState)
    ensures r == s.(focusType := value)
  {
    CommitOne(s, SetFocusType(value));
    Commit(s, [SetFocusType(value)])
  }

  /**
   The "Start Focus" button.  It always marks the button as clicked; when the
   length is positive and a type is chosen it enters the focus phase with both
   countdowns loaded from the configured lengths and clears the mark again.
   Lengths and type are never changed.
   */
  function StartFocus(s: TimerState): (r: TimerState)
    ensures CanStart(s) ==>
      r == s.(currentState := Focus,
              remainingFocusTime := s.focusLength * SecondsPerMinute,
              remainingBreakTime := s.breakLength * SecondsPerMinute,
              startClicked := false)
    ensures !CanStart(s) ==> r == s.(startClicked := true)
  {
    if s.focusLength > 0 && s.focusType != Unset then
      var clicked := s.(startClicked := true);
      CommitAppend(s, [SetStartClicked(true)] + StartFocusState(s), [SetStartClicked(false)]);
      CommitAppend(s, [SetStartClicked(true)], StartFocusState(s));
      CommitOne(s, SetStartClicked(true));
      StartFocusStateWrites(s, clicked);
      StartFocusStateKeeps(s, clicked);
      CommitOne(Commit(clicked, StartFocusState(s)), SetStartClicked(false));
      Commit(s, [SetStartClicked(true)] + StartFocusState(s) + [SetStartClicked(false)])
    else
      CommitOne(s, SetStartClicked(true));
      Commit(s, [SetStartClicked(true)])
  }

  /** The "Start Break" button: only the phase changes, both countdowns are kept. */
  function StartBreak(s: TimerState): (r: TimerState)
    ensures r == s.(currentState := Rest)
  {
    CommitOne(s, SetCurrentState(Rest));
    Commit(s, RestState())
  }

  /** "Back to Focus Session", or the break countdown running out. */
  function EndBreak(s: TimerState): (r: TimerState)
    ensures r == s.(currentState := Focus)
  {
    CommitOne(s, SetCurrentState(Focus));
    Commit(s, BackToFocusState())
  }

  /**
   "End Current Session", or the focus countdown running out: back to idle
   with the default lengths and no type.  The countdowns and the clicked
   mark are left as they were.
   */
  function CompleteSession(s: TimerState): (r: TimerState)
    ensures r == s.(currentState := Idle, focusType := Unset,
                    focusLength := DefaultFocusLength, breakLength := DefaultBreakLength)
  {
    IdleStateWrites(s);
    IdleStateKeeps(s);
    Commit(s, IdleState())
  }

  /** A countdown tick while focusing: the focus countdown shows `seconds`. */
  function UpdateRemainingFocusTime(s: TimerState, seconds: int): (r: TimerState)
    ensures r == s.(remainingFocusTime := seconds)
  {
    CommitOne(s, SetRemainingFocusTime(seconds));
    Commit(s, [SetRemainingFocusTime(seconds)])
  }

  /** A countdown tick during a break: the break countdown shows `seconds`. */
  function UpdateRemainingBreakTime(s: TimerState, seconds: int): (r: TimerState)
    ensures r == s.(remainingBreakTime := seconds)
  {
    CommitOne(s, SetRemainingBreakTime(seconds));
    Commit(s, [SetRemainingBreakTime(seconds)])
  }

  // Laws relating the handlers to each other.

  /** Ending a session twice is the same as ending it once. */
  lemma CompleteSessionIdempotent(s: TimerState)
    ensures CompleteSession(CompleteSession(s)) == CompleteSession(s)
  {
  }

  /** Starting a break and ending it again restores the focus state exactly. */
  lemma BreakRoundTrip(s: TimerState)
    requires s.currentState == Focus
    ensures EndBreak(StartBreak(s)) == s
  {
  }

  /** Ending a break and starting it again restores the break state exactly. */
  lemma ResumeRoundTrip(s: TimerState)
    requires s.currentState == Rest
    ensures StartBreak(EndBreak(s)) == s
  {
  }

  /** "-" undoes "+" whenever the length was positive. */
  lemma DecrementUndoesIncrement(s: TimerState)
    requires s.focusLength > 0 && s.breakLength > 0
    ensures DecrementFocusLength(IncrementFocusLength(s)) == s
    ensures DecrementBreakLength(IncrementBreakLength(s)) == s
  {
  }

  /** "+" undoes "-" whenever "-" was not refused. */
  lemma IncrementUndoesDecrement(s: TimerState)
    requires s.focusLength > LengthStep && s.breakLength > LengthStep
    ensures IncrementFocusLength(DecrementFocusLength(s)) == s
    ensures IncrementBreakLength(DecrementBreakLength(s)) == s
  {
  }

  /** Of two countdown ticks the later one is what the countdown shows; ticks of the two countdowns commute. */
  lemma LatestTickWins(s: TimerState, a: int, b: int)
    ensures UpdateRemainingFocusTime(UpdateRemainingFocusTime(s, a), b) == UpdateRemainingFocusTime(s, b)
    ensures UpdateRemainingBreakTime(UpdateRemainingBreakTime(s, a), b) == UpdateRemainingBreakTime(s, b)
    ensures UpdateRemainingBreakTime(UpdateRemainingFocusTime(s, a), b)
            == UpdateRemainingFocusTime(UpdateRemainingBreakTime(s, b), a)
  {
  }

  /** Of two typed lengths the later one is kept, and typing the shown length back changes nothing. */
  lemma LatestEntryWins(s: TimerState, a: int, b: int)
    ensures EnterFocusLength(EnterFocusLength(s, a), b) == EnterFocusLength(s, b)
    ensures EnterBreakLength(EnterBreakLength(s, a), b) == EnterBreakLength(s, b)
    ensures EnterFocusLength(s, s.focusLength) == s && EnterBreakLength(s, s.breakLength) == s
  {
  }

  /** After a refused start, pressing "Start Focus" again changes nothing more. */
  lemma RejectedStartIdempotent(s: TimerState)
    requires !CanStart(s)
    ensures StartFocus(StartFocus(s)) == StartFocus(s)
  {
  }
}
