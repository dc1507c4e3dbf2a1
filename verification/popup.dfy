/**
 The popup as a state machine: which controls the rendered view offers in
 each phase, one transition per event, and what runs of events starting
 from a freshly mounted popup can reach.
 */
module Popup {
  import opened State
  import FocusTimer
  import PortMessages

  /** The entries of the focus-type menu. */
  const FocusTypes: seq<string> := ["Work", "Study", "Personal", "Other"]

  /** Everything that can run one of the component's handlers. */
  datatype Event =
    | IncrementFocusLength
    | DecrementFocusLength
    | IncrementBreakLength
    | DecrementBreakLength
    | EnterFocusLength(minutes: int)
    | EnterBreakLength(minutes: int)
    | ChooseFocusType(value: string)
    | StartFocus
    | StartBreak
    | EndBreak
    | CompleteSession
    | FocusCountdown(seconds: int)
    | BreakCountdown(seconds: int)
    | Receive(message: PortMessages.Message)

  /**
   The event can happen in state `s`: its control is rendered in the current
   phase (and, for "Start Break", not disabled), or it is a countdown
   callback of the countdown shown in that phase.  Messages arrive in any
   phase.  Running out of focus time ends the session and running out of
   break time ends the break, so those callbacks are `CompleteSession` and
   `EndBreak`.
   */
  predicate Enabled(s: TimerState, ev: Event)
    ensures Enabled(s, ev) && !ev.Receive? ==>
      (s.currentState == Idle <==>
         !(ev.StartBreak? || ev.EndBreak? || ev.CompleteSession? || ev.FocusCountdown? || ev.BreakCountdown?))
    ensures Enabled(s, ev) && ev.StartBreak? ==> s.remainingBreakTime > 0
  {
    match ev
    case IncrementFocusLength => s.currentState == Idle
    case DecrementFocusLength => s.currentState == Idle
    case IncrementBreakLength => s.currentState == Idle
    case DecrementBreakLength => s.currentState == Idle
    case EnterFocusLength(_) => s.currentState == Idle
    case EnterBreakLength(_) => s.currentState == Idle
    case ChooseFocusType(t) => s.currentState == Idle && t in FocusTypes
    case StartFocus => s.currentState == Idle
    case StartBreak => s.currentState == Focus && s.remainingBreakTime > 0
    case EndBreak => s.currentState == Rest
    case CompleteSession => s.currentState == Focus || s.currentState == Rest
    case FocusCountdown(_) => s.currentState == Focus
    case BreakCountdown(_) => s.currentState == Rest
    case Receive(_) => true
  }

  /**
   The handler each event runs.  Apart from messages, only "Start Focus",
   "Start Break", "Back to Focus Session" and "End Current Session" (with the
   countdown completions that call them) move the phase, and only "Start
   Focus" touches the clicked mark.
   */
  function Step(s: TimerState, ev: Event): (r: TimerState)
    ensures !ev.Receive? && r.currentState != s.currentState ==>
      || (ev.StartFocus? && r.currentState == Focus)
      || (ev.StartBreak? && r.currentState == Rest)
      || (ev.EndBreak? && r.currentState == Focus)
      || (ev.CompleteSession? && r.currentState == Idle)
    ensures !ev.Receive? && !ev.StartFocus? ==> r.startClicked == s.startClicked
  {
    match ev
    case IncrementFocusLength => FocusTimer.IncrementFocusLength(s)
    case DecrementFocusLength => FocusTimer.DecrementFocusLength(s)
    case IncrementBreakLength => FocusTimer.IncrementBreakLength(s)
    case DecrementBreakLength => FocusTimer.DecrementBreakLength(s)
    case EnterFocusLength(n) => FocusTimer.EnterFocusLength(s, n)
    case EnterBreakLength(n) => FocusTimer.EnterBreakLength(s, n)
    case ChooseFocusType(t) => FocusTimer.HandleFocusTypeChange(s, t)
    case StartFocus => FocusTimer.StartFocus(s)
    case StartBreak => FocusTimer.StartBreak(s)
    case EndBreak => FocusTimer.EndBreak(s)
    case CompleteSession => FocusTimer.CompleteSession(s)
    case FocusCountdown(n) => FocusTimer.UpdateRemainingFocusTime(s, n)
    case BreakCountdown(n) => FocusTimer.UpdateRemainingBreakTime(s, n)
    case Receive(m) => PortMessages.OnMessage(s, m)
  }

  /**
   The idle view offers "Start Focus" and no session control; the focus and
   rest views both offer "End Current Session"; "Start Break" is offered only
   while focusing with break time left, and "Back to Focus Session" only
   during a break.
   */
  lemma ViewControls(s: TimerState)
    ensures Enabled(s, StartFocus) <==> s.currentState == Idle
    ensures Enabled(s, CompleteSession) <==> s.currentState != Idle
    ensures Enabled(s, StartBreak) <==> s.currentState == Focus && s.remainingBreakTime > 0
    ensures Enabled(s, EndBreak) <==> s.currentState == Rest
  {
  }

  /** Buttons, menu entries and countdown callbacks: no typed numbers, no messages. */
  predicate Guided(ev: Event) {
    !ev.EnterFocusLength? && !ev.EnterBreakLength? && !ev.Receive?
  }

  /** The state after the events `evs`, one after the other. */
  function Run(s: TimerState, evs: seq<Event>): TimerState
    decreases |evs|
  {
    if evs == [] then s else Run(Step(s, evs[0]), evs[1..])
  }

  /** Every event of `evs` is guided and enabled in the state it happens in. */
  predicate GuidedRun(s: TimerState, evs: seq<Event>)
    decreases |evs|
  {
    evs == [] || (Guided(evs[0]) && Enabled(s, evs[0]) && GuidedRun(Step(s, evs[0]), evs[1..]))
  }

  /** Both lengths are positive multiples of the button step. */
  predicate LengthsOnGrid(s: TimerState) {
    && s.focusLength > 0 && s.focusLength % LengthStep == 0
    && s.breakLength > 0 && s.breakLength % LengthStep == 0
  }

  /** The type is unset or a menu entry, and outside the idle phase it is set. */
  predicate TypeChosenWhenActive(s: TimerState) {
    && (s.focusType == Unset || s.focusType in FocusTypes)
    && (s.currentState != Idle ==> s.focusType != Unset)
  }

  /** What guided use keeps true. */
  predicate Consistent(s: TimerState) {
    LengthsOnGrid(s) && TypeChosenWhenActive(s)
  }

  lemma InitialConsistent()
    ensures Consistent(Initial()) && Initial().focusType == Unset
  {
  }

  /** One guided, enabled event keeps both lengths on the grid of the +/- buttons. */
  lemma StepKeepsLengthsOnGrid(s: TimerState, ev: Event)
    requires LengthsOnGrid(s) && Guided(ev) && Enabled(s, ev)
    ensures LengthsOnGrid(Step(s, ev))
  {
  }

  /** One guided, enabled event keeps a chosen type whenever a session or break is running. */
  lemma StepKeepsTypeChosen(s: TimerState, ev: Event)
    requires TypeChosenWhenActive(s) && Guided(ev) && Enabled(s, ev)
    ensures TypeChosenWhenActive(Step(s, ev))
  {
  }

  /** Guided runs keep the state consistent. */
  lemma {:induction false} RunConsistent(s: TimerState, evs: seq<Event>)
    requires Consistent(s) && GuidedRun(s, evs)
    ensures Consistent(Run(s, evs))
    decreases |evs|
  {
    if evs != [] {
      StepKeepsLengthsOnGrid(s, evs[0]);
      StepKeepsTypeChosen(s, evs[0]);
      RunConsistent(Step(s, evs[0]), evs[1..]);
    }
  }

  /**
   From a freshly mounted popup, guided use keeps both lengths positive
   multiples of five, and a focus session or break is only ever entered with
   a focus type chosen from the menu.
   */
  lemma ReachableStates(evs: seq<Event>)
    requires GuidedRun(Initial(), evs)
    ensures Run(Initial(), evs).focusLength > 0 && Run(Initial(), evs).focusLength % LengthStep == 0
    ensures Run(Initial(), evs).breakLength > 0 && Run(Initial(), evs).breakLength % LengthStep == 0
    ensures Run(Initial(), evs).currentState != Idle ==> Run(Initial(), evs).focusType in FocusTypes
  {
    InitialConsistent();
    RunConsistent(Initial(), evs);
  }

  /**
   Without picking a menu entry, guided use never leaves the idle phase:
   every press of "Start Focus" is refused.
   */
  lemma {:induction false} NoChoiceNoSession(s: TimerState, evs: seq<Event>)
    requires s.currentState == Idle && s.focusType == Unset
    requires GuidedRun(s, evs)
    requires forall i :: 0 <= i < |evs| ==> !evs[i].ChooseFocusType?
    ensures Run(s, evs).currentState == Idle && Run(s, evs).focusType == Unset
    decreases |evs|
  {
    if evs != [] {
      var t := Step(s, evs[0]);
      assert forall i :: 0 <= i < |evs[1..]| ==> !evs[1..][i].ChooseFocusType? by {
        forall i | 0 <= i < |evs[1..]| ensures !evs[1..][i].ChooseFocusType? {
          assert evs[1..][i] == evs[i + 1];
        }
      }
      NoChoiceNoSession(t, evs[1..]);
    }
  }

  /** Guided use never goes from the idle phase straight into a break. */
  lemma NoBreakFromIdle(s: TimerState, ev: Event)
    requires s.currentState == Idle && Guided(ev) && Enabled(s, ev)
    ensures Step(s, ev).currentState != Rest
  {
  }

  /**
   Shortening both lengths once, choosing "Work" and pressing "Start Focus"
   starts a 25-minute session with a 5-minute break loaded.
   */
  lemma WorkSessionScenario()
    ensures GuidedRun(Initial(), [DecrementFocusLength, DecrementBreakLength, ChooseFocusType("Work"), StartFocus])
    ensures Run(Initial(), [DecrementFocusLength, DecrementBreakLength, ChooseFocusType("Work"), StartFocus])
            == TimerState(Focus, 25, 5, "Work", 1500, 300, false)
  {
  }

  /** A typed length of zero or less makes the next "Start Focus" a refusal whatever the type. */
  lemma TypedNonPositiveLengthRefused(s: TimerState, n: int)
    requires n <= 0
    ensures Step(Step(s, EnterFocusLength(n)), StartFocus) == s.(focusLength := n, startClicked := true)
  {
  }

  /**
   A completion notice from the background only returns to the idle phase;
   unlike "End Current Session" it keeps the chosen type and lengths.
   */
  lemma NoticeKeepsSettings(s: TimerState, m: PortMessages.Message)
    requires m.kind == PortMessages.SessionCompleteType
    ensures Step(s, Receive(m)).currentState == Step(s, CompleteSession).currentState == Idle
    ensures Step(s, Receive(m)).focusType == s.focusType
    ensures Step(s, Receive(m)).focusLength == s.focusLength && Step(s, Receive(m)).breakLength == s.breakLength
    ensures s.focusType != Unset ==> Step(s, Receive(m)) != Step(s, CompleteSession)
  {
  }
}
