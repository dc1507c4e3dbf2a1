/**
 The state record of the popup focus timer and the `useState` setters that
 change it.

 Every handler of the component reads one snapshot of the state (the values
 its closure captured when the view rendered) and calls some setters.  React
 queues those calls and applies them in call order when it re-renders, so a
 handler is modelled as a list of `Update`s computed from the snapshot and
 `Commit`ted in order: a field written twice keeps the last value, a field
 never written keeps its old value.
 */
module State {

  /** The three phases of the timer (`"idle" | "focus" | "rest"`). */
  datatype Mode = Idle | Focus | Rest

  /** The seven pieces of component state; lengths are minutes, remaining times seconds. */
  datatype TimerState = TimerState(
    currentState: Mode,
    focusLength: int,
    breakLength: int,
    focusType: string,
    remainingFocusTime: int,
    remainingBreakTime: int,
    startClicked: bool
  )

  /** Label shown while no focus type has been chosen; doubles as the "unset" value. */
  const Unset: string := "Choose a focus type"
  const DefaultFocusLength: int := 30
  const DefaultBreakLength: int := 10
  const SecondsPerMinute: int := 60
  /** Amount the +/- buttons add to or take from a length. */
  const LengthStep: int := 5

  /** The state a freshly mounted popup starts from. */
  function Initial(): (s: TimerState)
    ensures s.currentState == Idle && s.focusType == Unset && !s.startClicked
    ensures s.focusLength == DefaultFocusLength && s.breakLength == DefaultBreakLength
    ensures s.remainingFocusTime == s.focusLength * SecondsPerMinute
    ensures s.remainingBreakTime == s.breakLength * SecondsPerMinute
  {
    TimerState(Idle, DefaultFocusLength, DefaultBreakLength, Unset,
               DefaultFocusLength * SecondsPerMinute, DefaultBreakLength * SecondsPerMinute, false)
  }

  /** One call of one of the seven state setters. */
  datatype Update =
    | SetCurrentState(mode: Mode)
    | SetFocusLength(minutes: int)
    | SetBreakLength(minutes: int)
    | SetFocusType(value: string)
    | SetRemainingFocusTime(seconds: int)
    | SetRemainingBreakTime(seconds: int)
    | SetStartClicked(clicked: bool)

  /** Names of the fields, so that "only this field changes" can be said once. */
  datatype Field =
    | CurrentStateField
    | FocusLengthField
    | BreakLengthField
    | FocusTypeField
    | RemainingFocusTimeField
    | RemainingBreakTimeField
    | StartClickedField

  /** The field a setter writes. */
  function FieldOf(u: Update): Field {
    match u
    case SetCurrentState(_) => CurrentStateField
    case SetFocusLength(_) => FocusLengthField
    case SetBreakLength(_) => BreakLengthField
    case SetFocusType(_) => FocusTypeField
    case SetRemainingFocusTime(_) => RemainingFocusTimeField
    case SetRemainingBreakTime(_) => RemainingBreakTimeField
    case SetStartClicked(_) => StartClickedField
  }

  /** `s` and `t` hold the same value in field `f`. */
  predicate Agree(s: TimerState, t: TimerState, f: Field) {
    match f
    case CurrentStateField => s.currentState == t.currentState
    case FocusLengthField => s.focusLength == t.focusLength
    case BreakLengthField => s.breakLength == t.breakLength
    case FocusTypeField => s.focusType == t.focusType
    case RemainingFocusTimeField => s.remainingFocusTime == t.remainingFocusTime
    case RemainingBreakTimeField => s.remainingBreakTime == t.remainingBreakTime
    case StartClickedField => s.startClicked == t.startClicked
  }

  /** `s` and `t` agree everywhere except possibly in the fields of `changed`. */
  predicate SameOutside(s: TimerState, t: TimerState, changed: set<Field>) {
    forall f: Field :: f !in changed ==> Agree(s, t, f)
  }

  /** `r` holds, in the field `u` writes, the value `u` carries. */
  predicate Wrote(r: TimerState, u: Update) {
    match u
    case SetCurrentState(m) => r.currentState == m
    case SetFocusLength(n) => r.focusLength == n
    case SetBreakLength(n) => r.breakLength == n
    case SetFocusType(t) => r.focusType == t
    case SetRemainingFocusTime(n) => r.remainingFocusTime == n
    case SetRemainingBreakTime(n) => r.remainingBreakTime == n
    case SetStartClicked(b) => r.startClicked == b
  }

  /** Applying one setter: its field takes the call's argument, every other field is kept. */
  function Apply(s: TimerState, u: Update): (r: TimerState)
    ensures Wrote(r, u)
    ensures SameOutside(r, s, {FieldOf(u)})
  {
    match u
    case SetCurrentState(m) => s.(currentState := m)
    case SetFocusLength(n) => s.(focusLength := n)
    case SetBreakLength(n) => s.(breakLength := n)
    case SetFocusType(t) => s.(focusType := t)
    case SetRemainingFocusTime(n) => s.(remainingFocusTime := n)
    case SetRemainingBreakTime(n) => s.(remainingBreakTime := n)
    case SetStartClicked(b) => s.(startClicked := b)
  }

  /** No call in `us` writes field `f`. */
  predicate Untouched(us: seq<Update>, f: Field) {
    forall i :: 0 <= i < |us| ==> FieldOf(us[i]) != f
  }

  /** `us[i]` is the last call in `us` of the setter it calls. */
  predicate IsLastWrite(us: seq<Update>, i: int) {
    && 0 <= i < |us|
    && forall j :: i < j < |us| ==> FieldOf(us[j]) != FieldOf(us[i])
  }

  /** A last write stays a last write when calls before it are dropped. */
  lemma LastWriteCons(us: seq<Update>, i: int)
    requires IsLastWrite(us, i)
    ensures i == 0 ==> Untouched(us[1..], FieldOf(us[0]))
    ensures i > 0 ==> IsLastWrite(us[1..], i - 1)
  {
  }

  /** A setter writes the same value into its field whatever state it is applied to. */
  lemma ApplyOwnField(s: TimerState, t: TimerState, u: Update)
    ensures Agree(Apply(s, u), Apply(t, u), FieldOf(u))
  {
  }

  /** Agreement on one field is transitive. */
  lemma AgreeTrans(a: TimerState, b: TimerState, c: TimerState, f: Field)
    requires Agree(a, b, f) && Agree(b, c, f)
    ensures Agree(a, c, f)
  {
  }

  /** The facts `Commit` promises carry over from the tail of a batch to the whole batch. */
  lemma CommitConsFacts(s: TimerState, us: seq<Update>, r: TimerState)
    requires us != []
    requires forall f :: Untouched(us[1..], f) ==> Agree(r, Apply(s, us[0]), f)
    requires forall i :: IsLastWrite(us[1..], i) ==> Agree(r, Apply(Apply(s, us[0]), us[1..][i]), FieldOf(us[1..][i]))
    ensures forall f :: Untouched(us, f) ==> Agree(r, s, f)
    ensures forall i :: IsLastWrite(us, i) ==> Agree(r, Apply(s, us[i]), FieldOf(us[i]))
  {
    forall f: Field | Untouched(us, f) ensures Agree(r, s, f) {
      assert Untouched(us[1..], f) && FieldOf(us[0]) != f;
      assert Agree(r, Apply(s, us[0]), f);
      assert Agree(Apply(s, us[0]), s, f);
      AgreeTrans(r, Apply(s, us[0]), s, f);
    }
    forall i | IsLastWrite(us, i) ensures Agree(r, Apply(s, us[i]), FieldOf(us[i])) {
      LastWriteCons(us, i);
      var f := FieldOf(us[i]);
      if i == 0 {
        assert Agree(r, Apply(s, us[0]), f);
      } else {
        assert us[1..][i - 1] == us[i];
        assert Agree(r, Apply(Apply(s, us[0]), us[i]), f);
        ApplyOwnField(Apply(s, us[0]), s, us[i]);
        AgreeTrans(r, Apply(Apply(s, us[0]), us[i]), Apply(s, us[i]), f);
      }
    }
  }

  /** A state that agrees with `Apply(s, u)` in the field `u` writes holds the value `u` carries. */
  lemma AgreeWrote(r: TimerState, s: TimerState, u: Update)
    requires Agree(r, Apply(s, u), FieldOf(u))
    ensures Wrote(r, u)
  {
    assert Wrote(Apply(s, u), u);
  }

  /** Lifts `AgreeWrote` to every last write of a batch. */
  lemma LastWritesWrote(s: TimerState, us: seq<Update>, r: TimerState)
    requires forall i :: IsLastWrite(us, i) ==> Agree(r, Apply(s, us[i]), FieldOf(us[i]))
    ensures forall i :: IsLastWrite(us, i) ==> Wrote(r, us[i])
  {
    forall i | IsLastWrite(us, i) ensures Wrote(r, us[i]) {
      AgreeWrote(r, s, us[i]);
    }
  }

  /**
   Applies the queued setter calls of one handler in call order: each field
   ends up with the value of the last setter call that wrote it, and fields no
   call wrote keep their old values.
   */
  function Commit(s: TimerState, us: seq<Update>): (r: TimerState)
    ensures forall f :: Untouched(us, f) ==> Agree(r, s, f)
    ensures forall i :: IsLastWrite(us, i) ==> Agree(r, Apply(s, us[i]), FieldOf(us[i]))
    ensures forall i :: IsLastWrite(us, i) ==> Wrote(r, us[i])
    decreases |us|
  {
    if us == [] then s
    else
      var r := Commit(Apply(s, us[0]), us[1..]);
      CommitConsFacts(s, us, r);
      LastWritesWrote(s, us, r);
      r
  }

  /** A batch of one setter call is that call. */
  lemma CommitOne(s: TimerState, u: Update)
    ensures Commit(s, [u]) == Apply(s, u)
  {
  }

  /** Committing two batches one after the other is committing their concatenation. */
  lemma {:induction false} CommitAppend(s: TimerState, us: seq<Update>, vs: seq<Update>)
    ensures Commit(s, us + vs) == Commit(Commit(s, us), vs)
    decreases |us|
  {
    if us == [] {
      assert us + vs == vs;
    } else {
      assert (us + vs)[1..] == us[1..] + vs;
      CommitAppend(Apply(s, us[0]), us[1..], vs);
    }
  }

  /** The last setter call of a batch wins over everything queued before it. */
  lemma LastWriteWins(s: TimerState, us: seq<Update>, u: Update)
    ensures Agree(Commit(s, us + [u]), Apply(s, u), FieldOf(u))
  {
    CommitAppend(s, us, [u]);
    assert Commit(Commit(s, us), [u]) == Apply(Commit(s, us), u);
  }
}
