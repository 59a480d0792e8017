/**
 * What the idle states promise: only a first finger going down wakes them, the
 * gesture's begin is reported on leaving, and the number of fingers and the
 * multi-touch switch choose the pressing state that follows.
 */
module IdleProperties {
  import opened Wrappers
  import opened Events
  import opened Snapshots
  import opened Callbacks
  import opened Policy
  import opened PointerMaps
  import opened Recognizer
  import opened Steps

  /** The begin callback the idle state's exit sends. */
  function Begin(m: M, e: MotionEvent, t: Ref, c: Ref): (r: Callback)
    requires WellFormed(e)
    ensures r.gesture == ActionBegin
    ensures r.event.Some? <==> m.variant != Legacy
  {
    if m.variant == Legacy then Callback(ActionBegin, None, Null, Null) else Callback(ActionBegin, Some(Snapshot(e)), t, c)
  }

  /** Both idle states ignore every action but ACTION_DOWN. */
  lemma IdleIgnoresOtherActions(m: M, e: MotionEvent, t: Ref, c: Ref)
    requires WellFormed(e) && Held(m) && (m.cur == Idle || m.cur == IdleForDragOnly) && e.action != Down
    ensures Doing(m, e, t, c) == m
  {
  }

  /** Leaving an idle state reports the gesture's begin and changes nothing else. */
  lemma ExitBegins(m: M, e: MotionEvent, t: Ref, c: Ref)
    requires WellFormed(e) && Held(m) && (m.cur == Idle || m.cur == IdleForDragOnly) && m.listener
    ensures Exit(m, e, t, c) == m.(log := m.log + [Begin(m, e, t, c)])
  {
  }

  /**
   * One finger going down from idle starts the pressing state: the begin is
   * reported, the counters are reset, the touched object is remembered and the
   * press is held as the current down event.
   */
  lemma OneFingerDownPresses(m: M, e: MotionEvent, t: Ref, c: Ref)
    requires WellFormed(e) && Held(m) && m.fault.None? && m.cur == Idle && m.listener && m.variant != DragOnlyOwner
    requires e.action == Down && |e.pointers| == 1
    ensures var r := Doing(m, e, t, c);
      && r.cur == SingleFingerPressing && r.fault.None?
      && r.log == m.log + [Begin(m, e, t, c)]
      && r.single.currentDown == Some(e) && r.single.previousDown == m.single.currentDown
      && r.single.tapCount == 0 && !r.single.hadLongPress
      && r.single.touchingObject == t && r.single.touchingContext == c
      && r.single.start == Focus(e)
  {
    assert Doing(m, e, t, c) == IdleDoing(m, e, t, c);
    IdlePressStep(m, e, t, c);
    ExitIdle(m, e, t, c);
    ExitBegins(m, e, t, c);
    var x := IdleExit(m, e, t, c);
    var y := x.(cur := SingleFingerPressing, single := x.single.(tapCount := 0, hadLongPress := false, touchingObject := t, touchingContext := c));
    PressArms(y, e, t, c);
    ArmTimersSchedules(HoldPress(y, e), e, Focus(e), t, c);
  }

  /**
   * Several fingers going down at once, with multi-touch on (always in the
   * Java library), start the multiple-fingers state holding every finger.
   */
  lemma FingersDownHold(m: M, e: MotionEvent, t: Ref, c: Ref)
    requires WellFormed(e) && Held(m) && m.fault.None? && m.cur == Idle && m.listener && m.variant != DragOnlyOwner
    requires e.action == Down && |e.pointers| >= 2 && (m.variant == Legacy || m.idleMultitouch)
    ensures var r := Doing(m, e, t, c);
      && r.cur == MultipleFingersPressing && r.fault.None?
      && r.log == m.log + [Begin(m, e, t, c)]
      && r.multi.start == HoldMap(e.pointers) && r.multi.stop == HoldMap(e.pointers)
  {
    assert Doing(m, e, t, c) == IdleDoing(m, e, t, c);
    IdleFingersStep(m, e, t, c);
    ExitIdle(m, e, t, c);
    ExitBegins(m, e, t, c);
    var x := IdleExit(m, e, t, c);
    EnterMulti(x.(cur := MultipleFingersPressing), e, t, c);
    MultiEnterHoldsAll(x.(cur := MultipleFingersPressing), e, t, c);
  }

  /**
   * Under the drag-only policy the pool has no multiple-fingers state: several
   * fingers going down on a fresh detector (whose idle state is the full
   * policy's) report the begin and then find no state to enter.
   */
  lemma DragOnlyFingersDownThrow(config: Config, e: MotionEvent, t: Ref, c: Ref)
    requires WellFormed(e) && e.action == Down && |e.pointers| >= 2
    ensures var m := Initial(DragOnlyOwner, config, true);
      var r := OnTouchEvent(m, e, t, c);
      r.fault == Some(NoPoolEntry) && r.log == [Callback(ActionBegin, Some(Snapshot(e)), t, c)]
  {
    var m := Initial(DragOnlyOwner, config, true);
    assert OnTouchEvent(m, e, t, c) == Transition(m, StateMultipleFingersPressing, e, t, c);
    TransitionResolved(m, StateMultipleFingersPressing, e, t, c);
  }

  /** The Java library without a listener throws on the very first event, the begin callback. */
  lemma LegacyWithoutListenerThrows(config: Config, e: MotionEvent, t: Ref, c: Ref)
    requires WellFormed(e) && e.action == Down
    ensures var r := OnTouchEvent(Initial(Legacy, config, false), e, t, c);
      r.fault == Some(NullPointer) && r.log == []
  {
    var m := Initial(Legacy, config, false);
    if |e.pointers| == 1 {
      assert OnTouchEvent(m, e, t, c) == Transition(m, StateSingleFingerPressing, e, t, c);
      TransitionThen(m, StateSingleFingerPressing, e, t, c);
    } else {
      assert OnTouchEvent(m, e, t, c) == Transition(m, StateMultipleFingersPressing, e, t, c);
      TransitionThen(m, StateMultipleFingersPressing, e, t, c);
    }
  }
}
