/**
 * What the single-finger-pressing state promises: which tap callback a release
 * produces, which Handler messages a press and a release leave pending, when a
 * move turns into a drag, and what the two messages do when they fire.
 */
module SingleFingerProperties {
  import opened Wrappers
  import opened Events
  import opened Snapshots
  import opened Callbacks
  import opened Policy
  import opened Recognizer
  import opened Steps

  /** The number of taps a tap callback reports (0 for any other callback). */
  function TapCountOf(g: Gesture): int
  {
    match g
    case SingleTap => 1
    case DoubleTap => 2
    case MoreTap(n) => n
    case _ => 0
  }

  /**
   * Leaving the state on ACTION_UP after taps without a long press reports
   * exactly one tap callback whose count is the number of close taps, for the
   * touched object and context, and leaves neither a tap nor a held event behind.
   */
  lemma ExitReportsTapCount(m: M, e: MotionEvent)
    requires WellFormed(e) && Held(m) && m.fault.None? && e.action == Up && m.single.currentUp.Some? && m.listener
    requires !(m.single.longPressEnabled && m.single.hadLongPress) && m.single.tapEnabled && m.single.tapCount > 0
    ensures var r := SingleExit(m, e);
      && r.fault.None? && |r.log| == |m.log| + 1 && r.log[..|m.log|] == m.log
      && TapCountOf(r.log[|m.log|].gesture) == m.single.tapCount
      && (r.log[|m.log|].gesture.MoreTap? <==> m.single.tapCount >= 3)
      && r.log[|m.log|].target == m.single.touchingObject && r.log[|m.log|].context == m.single.touchingContext
      && (m.variant != Legacy ==> r.log[|m.log|].event == Some(Snapshot(m.single.currentUp.value)))
      && !HasMessages(r.pending, MSG_TAP)
      && r.single.previousDown.None? && r.single.currentDown.None? && r.single.currentUp.None?
  {
    TapGestureCounts(m.single.tapCount);
    ExitPending(m);
  }

  /** The tap callback for a positive count reports that count, as a "more" tap from three on. */
  lemma TapGestureCounts(n: int)
    requires n > 0
    ensures TapCountOf(TapGesture(n)) == n
    ensures TapGesture(n).MoreTap? <==> n >= 3
    ensures TapGesture(n) != LongTap
  {
  }

  /** After a long press, the release reports a long tap and no tap, whatever the tap count. */
  lemma ExitReportsLongTap(m: M, e: MotionEvent)
    requires WellFormed(e) && Held(m) && m.fault.None? && e.action == Up && m.single.currentUp.Some? && m.listener
    requires m.single.longPressEnabled && m.single.hadLongPress
    ensures var r := SingleExit(m, e);
      && r.fault.None?
      && r.log == m.log + [Callback(LongTap, Clone(m, m.single.currentUp.value), m.single.touchingObject, m.single.touchingContext)]
      && !HasMessages(r.pending, MSG_TAP) && !HasMessages(r.pending, MSG_LONG_PRESS)
  {
    var q := RemoveMessages(m.pending, MSG_TAP);
    var m1 := m.(pending := RemoveMessages(q, MSG_LONG_PRESS));
    ExitPending(m);
    assert TapCallback(m1, Clone(m, m.single.currentUp.value))
        == m1.(log := m.log + [Callback(LongTap, Clone(m, m.single.currentUp.value), m.single.touchingObject, m.single.touchingContext)]);
  }

  /** Leaving for any reason other than a release, or with nothing to report, sends no callback. */
  lemma ExitWithoutTapIsSilent(m: M, e: MotionEvent)
    requires WellFormed(e) && Held(m) && m.fault.None?
    requires e.action != Up || (m.single.currentUp.Some? && !(m.single.longPressEnabled && m.single.hadLongPress) && !(m.single.tapEnabled && m.single.tapCount > 0))
    ensures var r := SingleExit(m, e);
      r.fault.None? && r.log == m.log && !HasMessages(r.pending, MSG_TAP)
  {
    ExitPending(m);
  }

  /**
   * A release without a long press counts the tap when it is close to the
   * previous one, cancels the long press and defers the end of the gesture by a
   * tap message, due after the tap timeout and last in the queue. A tap message
   * sent before is not removed, so the new one is the only one exactly when none
   * was pending.
   */
  lemma ReleaseDefersTap(m: M, e: MotionEvent, t: Ref, c: Ref)
    requires WellFormed(e) && Held(m) && m.fault.None? && m.cur == SingleFingerPressing && e.action == Up && !m.single.hadLongPress
    ensures var r := SingleDoing(m, e, t, c);
      && r.cur == SingleFingerPressing && r.fault.None? && r.log == m.log
      && r.single.currentUp == Some(e)
      && r.single.tapCount == (if IsConsideredCloseTap(m.single.previousDown, m.single.currentDown, m.config.tapSlopSquare) then m.single.tapCount + 1 else m.single.tapCount)
      && !HasMessages(r.pending, MSG_LONG_PRESS)
      && |r.pending| > 0
      && r.pending[|r.pending| - 1] == Message(MSG_TAP, Payload(Clone(m, e), t, c), Delayed(m.config.tapTimeout))
      && (forall w :: w != MSG_LONG_PRESS && w != MSG_TAP ==> (HasMessages(r.pending, w) <==> HasMessages(m.pending, w)))
      && (OnlyLast(r.pending, MSG_TAP) <==> !HasMessages(m.pending, MSG_TAP))
  {
    var m1 := HoldRelease(m, e);
    ReleaseStep(m, e, t, c);
    DeferTapSchedules(m1, e, t, c);
  }

  /** A release after a long press ends the gesture at once: a long tap, then the action end. */
  lemma ReleaseAfterLongPress(m: M, e: MotionEvent, t: Ref, c: Ref)
    requires WellFormed(e) && Held(m) && m.fault.None? && m.cur == SingleFingerPressing && e.action == Up && m.single.hadLongPress
    requires m.variant != DragOnlyOwner && m.listener && m.single.longPressEnabled
    ensures var r := SingleDoing(m, e, t, c);
      && r.cur == Idle && r.fault.None?
      && r.log == m.log
                  + [Callback(LongTap, Clone(m, e), m.single.touchingObject, m.single.touchingContext)]
                  + [if m.variant == Legacy then Callback(ActionEnd, None, Null, Null) else Callback(ActionEnd, Some(Snapshot(e)), t, c)]
      && r.single.previousDown.None? && r.single.currentDown.None? && r.single.currentUp.None?
  {
    var m1 := HoldRelease(m, e);
    ReleaseStep(m, e, t, c);
    TransitionThen(m1, StateIdle, e, t, c);
    SingleExitOnRelease(m1, e);
    var x := SingleExit(m1, e);
    assert x.log == m.log + [Callback(LongTap, Clone(m, e), m.single.touchingObject, m.single.touchingContext)];
    EnterIdle(x.(cur := Idle), e, t, c);
  }

  /**
   * A single-finger press replaces any pending tap and long press: the only
   * long-press message is the new one, due at the press's down time plus the tap
   * and long-press timeouts, and the focus becomes the move reference.
   */
  lemma PressSchedulesLongPress(m: M, e: MotionEvent, t: Ref, c: Ref)
    requires WellFormed(e) && Held(m) && m.fault.None? && m.cur == SingleFingerPressing && e.action == Down && DownCount(e) == 1
    requires m.single.longPressEnabled
    ensures var r := SingleDoing(m, e, t, c);
      && r.cur == SingleFingerPressing && r.fault.None? && r.log == m.log
      && !HasMessages(r.pending, MSG_TAP)
      && OnlyLast(r.pending, MSG_LONG_PRESS)
      && r.pending[|r.pending| - 1].due == AtTime(e.downTime + m.config.tapTimeout + m.config.longPressTimeout)
      && r.pending[|r.pending| - 1].payload == Payload(Clone(m, e), t, c)
      && r.single.start == Focus(e)
      && r.single.previousDown == m.single.currentDown && r.single.currentDown == Some(e)
  {
    var m1 := HoldPress(m, e);
    PressArms(m, e, t, c);
    ArmTimersSchedules(m1, e, Focus(e), t, c);
  }

  /** With long press disabled, a press only cancels the pending tap. */
  lemma PressWithoutLongPress(m: M, e: MotionEvent, t: Ref, c: Ref)
    requires WellFormed(e) && Held(m) && m.fault.None? && m.cur == SingleFingerPressing && e.action == Down && DownCount(e) == 1
    requires !m.single.longPressEnabled
    ensures var r := SingleDoing(m, e, t, c);
      && r.pending == RemoveMessages(m.pending, MSG_TAP)
      && r.cur == SingleFingerPressing && r.single.start == Focus(e)
  {
    var m1 := HoldPress(m, e);
    PressArms(m, e, t, c);
    ArmTimersSchedules(m1, e, Focus(e), t, c);
  }

  /**
   * A move turns the press into a drag exactly when the truncated focus
   * displacement exceeds the touch slop; otherwise nothing changes. The drag
   * starts at the move's first pointer.
   */
  lemma MoveStartsDragIff(m: M, e: MotionEvent, t: Ref, c: Ref)
    requires WellFormed(e) && Held(m) && m.fault.None? && m.cur == SingleFingerPressing && e.action == Move
    requires m.variant != DragOnlyOwner
    ensures var r := SingleDoing(m, e, t, c);
      && (r.cur == Inst.Drag <==> SlopExceeded(Focus(e), m.single.start, m.config.touchSlopSquare))
      && (!SlopExceeded(Focus(e), m.single.start, m.config.touchSlopSquare) ==> r == m)
      && (SlopExceeded(Focus(e), m.single.start, m.config.touchSlopSquare) ==>
            r.drag.start == First(e) && !HasMessages(r.pending, MSG_TAP))
  {
    if SlopExceeded(Focus(e), m.single.start, m.config.touchSlopSquare) {
      assert SingleDoing(m, e, t, c) == Transition(m, StateDrag, e, t, c);
      TransitionThen(m, StateDrag, e, t, c);
      SingleExitElse(m, e);
      EnterDrag(SingleExit(m, e).(cur := Inst.Drag), e, t, c);
    }
  }

  /** Which messages a state consumes: idle states all of them, the pressing state its two, no other state any. */
  lemma HandledIff(m: M, msg: Message)
    requires Held(m)
    ensures HandleMessage(m, msg).1 <==>
      (m.cur == Idle || m.cur == IdleForDragOnly
       || (m.cur == SingleFingerPressing && (msg.what == MSG_TAP || msg.what == MSG_LONG_PRESS)))
  {
  }

  /**
   * The long-press message cancels the pending tap, marks the press as long and
   * reports the long press with the payload it carried, if long press is enabled.
   */
  lemma LongPressFires(m: M, msg: Message)
    requires Held(m) && m.cur == SingleFingerPressing && msg.what == MSG_LONG_PRESS
    ensures var r := HandleMessage(m, msg).0;
      && r.single.hadLongPress && !HasMessages(r.pending, MSG_TAP) && r.cur == SingleFingerPressing
      && r.log == m.log + (if m.single.longPressEnabled && m.listener
                           then [Callback(LongPress, msg.payload.event, msg.payload.target, msg.payload.context)]
                           else [])
  {
    RemoveMessagesFacts(m.pending, MSG_TAP);
  }

  /**
   * The tap message ends the gesture with the held release: the tap callback for
   * the counted taps, then the action end; the Kotlin state ignores the message
   * when no release is held, the Java one throws.
   */
  lemma TapMessageEndsGesture(m: M, msg: Message)
    requires Held(m) && m.fault.None? && m.cur == SingleFingerPressing && msg.what == MSG_TAP && m.variant == Kotlin && m.listener
    requires !(m.single.longPressEnabled && m.single.hadLongPress) && m.single.tapEnabled && m.single.tapCount > 0
    ensures var r := HandleMessage(m, msg).0;
      && (m.single.currentUp.None? ==> r == m)
      && (m.single.currentUp.Some? ==>
            var up := m.single.currentUp.value;
            && r.cur == Idle && r.fault.None?
            && |r.log| == |m.log| + 2 && r.log[..|m.log|] == m.log
            && TapCountOf(r.log[|m.log|].gesture) == m.single.tapCount
            && r.log[|m.log|].event == Some(Snapshot(up))
            && r.log[|m.log| + 1] == Callback(ActionEnd, Some(Snapshot(up)), m.single.touchingObject, m.single.touchingContext))
  {
    if m.single.currentUp.Some? {
      var up := m.single.currentUp.value;
      var s := m.single;
      assert HandleMessage(m, msg).0 == Transition(m, StateIdle, up, s.touchingObject, s.touchingContext);
      TransitionThen(m, StateIdle, up, s.touchingObject, s.touchingContext);
      SingleExitOnRelease(m, up);
      var x := SingleExit(m, up);
      var g := TapGesture(s.tapCount);
      TapGestureCounts(s.tapCount);
      assert x.log == m.log + [Callback(g, Some(Snapshot(up)), s.touchingObject, s.touchingContext)];
      EnterIdle(x.(cur := Idle), up, s.touchingObject, s.touchingContext);
    }
  }

  lemma LegacyTapMessageWithoutReleaseThrows(m: M, msg: Message)
    requires Held(m) && m.cur == SingleFingerPressing && msg.what == MSG_TAP && m.variant == Legacy && m.single.currentUp.None?
    ensures HandleMessage(m, msg) == (m.(fault := Some(NullPointer)), true)
  {
  }
}
