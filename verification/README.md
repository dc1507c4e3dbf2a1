# Focus timer popup — a Dafny model

This project models the focus-timer component of the browser extension's
popup (`FocusTimer` in `entrypoints/popup/routes/focusTimer/focusTimer.tsx`).
The component keeps eight pieces of state. Seven of them are modelled:

- the phase (`idle`, `focus` or `rest`);
- the focus and break lengths, in minutes;
- the focus type, where `"Choose a focus type"` means "not chosen";
- the remaining focus and break times, in seconds;
- the `startClicked` mark that drives the validation messages.

The eighth, the `port` to the background script (line 41), is left out with
the rest of the port plumbing.

It changes that state from button handlers, number inputs, the focus-type
menu, the countdown callbacks and the messages that arrive on its port from
the background script.

The model is functional:

- `State` (`state.dfy`) holds the `TimerState` record, its initial value and
  the seven `useState` setters. A handler is a list of setter calls computed
  from the snapshot its closure read. `Commit` applies that list in call
  order. Its contract is React's batching rule: each field takes the value of
  the last call that wrote it, and fields nobody wrote keep their values.
- `FocusTimer` (`focus_timer.dfy`) holds every handler of the component. Each
  one is written as the setter calls the source makes. Its contract states
  the resulting state as a record update of the pre-event state, so "nothing
  else changes" is part of every contract.
- `PortMessages` (`port_messages.dfy`) holds the port listener:
  `STATE_UPDATE`, `TIMER_UPDATE`, `SESSION_COMPLETE`, and every other
  message type, which is ignored.
- `Popup` (`popup.dfy`) turns the component into a state machine:
  - `Event` lists everything that can run a handler.
  - `Enabled` says which controls the rendered view offers in each phase.
    "Start Break" is disabled while no break time is left (line 232), so it
    is enabled only when `remainingBreakTime > 0`.
  - `Step` and `Run` apply one event and a sequence of events.
  - Lemmas state what guided use can reach from the initial state. Guided use
    means buttons, menu entries and countdown callbacks only: no typed
    numbers and no messages.

Lengths and counters are unbounded integers. JavaScript's floating-point
rounding of very large values is not modelled (see "Left out").

Three behaviours of the code are easy to miss:

- "End Current Session" (`completeSession`) does not reload the remaining
  counters. It only resets the phase, type and lengths.
- The rest view offers "End Current Session", so a break can go straight to
  idle.
- A `SESSION_COMPLETE` message returns to idle but keeps the chosen type and
  lengths. An idle popup can therefore hold a chosen type.

## Model

| member | source | states |
|---|---|---|
| State.Initial | entrypoints/popup/routes/focusTimer/focusTimer.tsx:34-40 | A new popup is idle with 30/10 minutes, no type, nothing clicked, and both countdowns hold their full lengths in seconds |
| State.Apply | entrypoints/popup/routes/focusTimer/focusTimer.tsx:34-40 | One setter call puts its argument into its own field and changes no other field |
| State.Commit | entrypoints/popup/routes/focusTimer/focusTimer.tsx:126-134 | The setter calls of one handler take effect in call order: each field ends with the argument of the last call that wrote it; unwritten fields keep their values |
| State.CommitOne | entrypoints/popup/routes/focusTimer/focusTimer.tsx:102-104 | A handler that calls one setter has exactly that setter's effect |
| State.CommitAppend | entrypoints/popup/routes/focusTimer/focusTimer.tsx:126-134 | Calls made inside a helper (`startFocusState`) and around it compose: committing two lists in turn equals committing their concatenation |
| State.LastWriteWins | entrypoints/popup/routes/focusTimer/focusTimer.tsx:127-132 | A later call of a setter overrides an earlier one in the same handler (`setStartClicked(true)` then `false`) |
| FocusTimer.IdleStateWrites | entrypoints/popup/routes/focusTimer/focusTimer.tsx:77-82 | `idleState` sets phase idle, type unset, lengths 30 and 10 |
| FocusTimer.IdleStateKeeps | entrypoints/popup/routes/focusTimer/focusTimer.tsx:77-82 | `idleState` leaves both countdowns and the clicked mark alone |
| FocusTimer.StartFocusStateWrites | entrypoints/popup/routes/focusTimer/focusTimer.tsx:84-88 | `startFocusState` sets phase focus and loads the countdowns with length×60 from the snapshot's lengths |
| FocusTimer.StartFocusStateKeeps | entrypoints/popup/routes/focusTimer/focusTimer.tsx:84-88 | `startFocusState` leaves lengths, type and clicked mark alone |
| FocusTimer.BackToFocusState | entrypoints/popup/routes/focusTimer/focusTimer.tsx:90-92 | `backToFocusState` writes only the phase, and its last call sets focus |
| FocusTimer.RestState | entrypoints/popup/routes/focusTimer/focusTimer.tsx:94-96 | `restState` writes only the phase, and its last call sets rest |
| FocusTimer.IncrementFocusLength | entrypoints/popup/routes/focusTimer/focusTimer.tsx:102-104 | Adds exactly 5 to the focus length and changes nothing else |
| FocusTimer.DecrementFocusLength | entrypoints/popup/routes/focusTimer/focusTimer.tsx:106-110 | Subtracts exactly 5 when the length is above 5, otherwise changes nothing; a positive length stays positive |
| FocusTimer.IncrementBreakLength | entrypoints/popup/routes/focusTimer/focusTimer.tsx:112-114 | Adds exactly 5 to the break length and changes nothing else |
| FocusTimer.DecrementBreakLength | entrypoints/popup/routes/focusTimer/focusTimer.tsx:116-120 | Subtracts exactly 5 when the length is above 5, otherwise changes nothing; a positive length stays positive |
| FocusTimer.EnterFocusLength | entrypoints/popup/routes/focusTimer/focusTimer.tsx:164-168 | Typing a number sets the focus length to it, unchecked, and changes nothing else |
| FocusTimer.EnterBreakLength | entrypoints/popup/routes/focusTimer/focusTimer.tsx:187-191 | Typing a number sets the break length to it, unchecked, and changes nothing else |
| FocusTimer.HandleFocusTypeChange | entrypoints/popup/routes/focusTimer/focusTimer.tsx:122-124 | Choosing a type sets only the type |
| FocusTimer.StartFocus | entrypoints/popup/routes/focusTimer/focusTimer.tsx:126-134 | With a positive length and a chosen type: phase focus, countdowns loaded from the lengths, clicked mark cleared, lengths and type kept; otherwise only the clicked mark is set |
| FocusTimer.StartBreak | entrypoints/popup/routes/focusTimer/focusTimer.tsx:136-139 | Only the phase changes, to rest; both countdowns are kept |
| FocusTimer.EndBreak | entrypoints/popup/routes/focusTimer/focusTimer.tsx:141-144 | Only the phase changes, to focus; both countdowns are kept |
| FocusTimer.CompleteSession | entrypoints/popup/routes/focusTimer/focusTimer.tsx:146-149 | From any phase: idle, type unset, lengths 30 and 10; countdowns and clicked mark untouched |
| FocusTimer.UpdateRemainingFocusTime | entrypoints/popup/routes/focusTimer/focusTimer.tsx:226-230 | A focus countdown tick sets only the remaining focus time |
| FocusTimer.UpdateRemainingBreakTime | entrypoints/popup/routes/focusTimer/focusTimer.tsx:242-246 | A break countdown tick sets only the remaining break time |
| FocusTimer.CompleteSessionIdempotent | entrypoints/popup/routes/focusTimer/focusTimer.tsx:146-149 | Ending a session twice equals ending it once |
| FocusTimer.BreakRoundTrip | entrypoints/popup/routes/focusTimer/focusTimer.tsx:136-144 | From focus, starting and ending a break restores the exact state, countdowns included |
| FocusTimer.ResumeRoundTrip | entrypoints/popup/routes/focusTimer/focusTimer.tsx:136-144 | From rest, ending and restarting the break restores the exact state |
| FocusTimer.DecrementUndoesIncrement | entrypoints/popup/routes/focusTimer/focusTimer.tsx:102-120 | For positive lengths, "-" after "+" returns to the same state |
| FocusTimer.IncrementUndoesDecrement | entrypoints/popup/routes/focusTimer/focusTimer.tsx:102-120 | For lengths above 5, "+" after "-" returns to the same state |
| FocusTimer.LatestTickWins | entrypoints/popup/routes/focusTimer/focusTimer.tsx:226-246 | Of two countdown ticks the later decides what is shown, and ticks of the two countdowns commute |
| FocusTimer.LatestEntryWins | entrypoints/popup/routes/focusTimer/focusTimer.tsx:164-191 | Of two typed lengths the later is kept, and typing back the shown length changes nothing |
| FocusTimer.RejectedStartIdempotent | entrypoints/popup/routes/focusTimer/focusTimer.tsx:126-134 | Pressing "Start Focus" again after a refusal changes nothing more |
| PortMessages.StateUpdateWrites | entrypoints/popup/routes/focusTimer/focusTimer.tsx:51-57 | Each of the six setter calls for a state update is the one that decides its field |
| PortMessages.StateUpdateKeepsClick | entrypoints/popup/routes/focusTimer/focusTimer.tsx:51-57 | A state update does not touch the clicked mark |
| PortMessages.OnStateUpdate | entrypoints/popup/routes/focusTimer/focusTimer.tsx:51-57 | A state update overwrites all six timer fields from the message and keeps the clicked mark |
| PortMessages.OnTimerUpdate | entrypoints/popup/routes/focusTimer/focusTimer.tsx:58-60 | A timer update overwrites only the two countdowns |
| PortMessages.OnSessionComplete | entrypoints/popup/routes/focusTimer/focusTimer.tsx:61-62 | A completion notice sets only the phase, to idle |
| PortMessages.OnMessage | entrypoints/popup/routes/focusTimer/focusTimer.tsx:50-64 | Dispatch on the message type: the three effects above, and no change for any other type |
| PortMessages.StateUpdateSynchronises | entrypoints/popup/routes/focusTimer/focusTimer.tsx:51-57 | After a state update carrying a sender's state, the popup holds exactly that state, except for its own clicked mark |
| PortMessages.TimerUpdateSynchronises | entrypoints/popup/routes/focusTimer/focusTimer.tsx:58-60 | A timer update from a sender with the same phase, type and lengths makes the popup equal to the sender |
| PortMessages.TimerUpdateIsTicks | entrypoints/popup/routes/focusTimer/focusTimer.tsx:58-60 | A timer update from the background equals setting both countdowns the way the countdown callbacks do, focus first |
| PortMessages.MessageIdempotent | entrypoints/popup/routes/focusTimer/focusTimer.tsx:50-64 | Receiving the same message twice has the effect of receiving it once |
| Popup.Enabled | entrypoints/popup/routes/focusTimer/focusTimer.tsx:153-252 | Apart from messages, an enabled event is an idle-view control exactly when the popup is idle; "Start Break" is enabled only with break time left |
| Popup.ViewControls | entrypoints/popup/routes/focusTimer/focusTimer.tsx:215-249 | "Start Focus" is offered exactly when idle, "End Current Session" exactly in focus and rest, "Start Break" exactly in focus with break time left, "Back to Focus Session" exactly in rest |
| Popup.Step | entrypoints/popup/routes/focusTimer/focusTimer.tsx:153-252 | Apart from messages, only "Start Focus", "Start Break", "Back to Focus Session" and "End Current Session" move the phase, each to its own target, and only "Start Focus" touches the clicked mark |
| Popup.InitialConsistent | entrypoints/popup/routes/focusTimer/focusTimer.tsx:34-39 | The initial state has lengths on the 5-minute grid and no type |
| Popup.StepKeepsLengthsOnGrid | entrypoints/popup/routes/focusTimer/focusTimer.tsx:102-120 | A button or countdown event enabled in the current view keeps both lengths positive multiples of 5 |
| Popup.StepKeepsTypeChosen | entrypoints/popup/routes/focusTimer/focusTimer.tsx:206-209 | A button or countdown event enabled in the current view keeps the type unset or a menu entry, and keeps it set outside the idle phase |
| Popup.RunConsistent | entrypoints/popup/routes/focusTimer/focusTimer.tsx:102-149 | Every guided run preserves both invariants |
| Popup.ReachableStates | entrypoints/popup/routes/focusTimer/focusTimer.tsx:34-39 | From the initial state, guided use keeps lengths positive multiples of 5, and focus or rest is only reached with a menu type chosen |
| Popup.NoChoiceNoSession | entrypoints/popup/routes/focusTimer/focusTimer.tsx:126-134 | Without a menu choice, guided use stays idle with no type |
| Popup.NoBreakFromIdle | entrypoints/popup/routes/focusTimer/focusTimer.tsx:215-233 | No enabled guided event leads from idle straight to rest |
| Popup.WorkSessionScenario | entrypoints/popup/routes/focusTimer/focusTimer.tsx:102-134 | "-" on both lengths, "Work", then "Start Focus" gives focus with 25/5 minutes and 1500/300 seconds |
| Popup.TypedNonPositiveLengthRefused | entrypoints/popup/routes/focusTimer/focusTimer.tsx:163-177 | After typing a length of 0 or less, "Start Focus" is refused, whatever the type |
| Popup.NoticeKeepsSettings | entrypoints/popup/routes/focusTimer/focusTimer.tsx:61-62 | A completion notice returns to idle like "End Current Session" does, but keeps type and lengths; the two differ whenever a type was chosen |

## Left out

- Port plumbing (lines 43-75) is left out. This covers `chrome.runtime.connect`, the `GET_STATE` request and `disconnect`. It is browser message passing, so only the effect of one received message is modelled, not delivery or ordering.
- A received message's `currentState` is typed as the three phases. A malformed message carrying another string is not modelled.
- The background script that owns the authoritative timer and ticks it is not part of this model. Its messages are inputs.
- `focusSettings` and `SETTINGS_URL` (lines 12 and 98-100) open a browser tab. That is I/O with no effect on the state.
- JSX rendering, CSS classes and the validation messages (lines 151-254) are left out. The only parts kept are which controls each phase renders and the disabled "Start Break" button, both in `Popup.Enabled`.
- The ticking inside `CountdownTimer` is not part of this model. Its callbacks are events: `onComplete` is `CompleteSession` in focus and `EndBreak` in rest, and `onTimeUpdate` sets a countdown to any integer.
- FocusTimer.IncrementFocusLength / FocusTimer.IncrementBreakLength: the exact +5 holds only for lengths below 2^53. A typed or received length of 1e17 stays 1e17 after "+" in JavaScript, because the model's integers do not round the way JavaScript floating-point numbers do.
- `Number(e.target.value)` and `Math.floor` (lines 167, 190, 227, 243) are left out. Fractional and `NaN` values are floating-point details, so typed lengths are arbitrary integers.
- The server requests marked TODO (lines 129, 131, 138, 143, 148) are left out because they do not exist. So are the commented-out type guards (lines 257-268).
- Handlers are atomic transitions on the state left by the previous event. A second event running on a stale render's snapshot, before React re-renders, is not modelled.
- The dashboard route table and layout (`entrypoints/dashboard/AppRoutes.tsx`, `entrypoints/dashboard/routes/AppLayout.tsx`) are view glue gated on an auth context and are not part of this model.
