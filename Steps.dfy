/**
 * One step of the owner at a time: each lemma here unfolds a single hook, so
 * that the properties built on them never unfold the whole mutually recursive
 * family at once.
 */
module Steps {
  import opened Wrappers
  import opened Events
  import opened Snapshots
  import opened PointerMaps
  import opened Callbacks
  import opened Policy
  import opened Recognizer

  /** issueStateTransition of an owner that resolves every tag: exit, then enter the tag's instance. */
  lemma TransitionThen(m: M, tag: Tag, e: MotionEvent, t: Ref, c: Ref)
    requires WellFormed(e) && Held(m) && m.variant != DragOnlyOwner
    ensures var x := Exit(m, e, t, c);
      Transition(m, tag, e, t, c)
        == if x.fault.Some? then x else Enter(x.(cur := DetectorInstance(tag)), DetectorInstance(tag), e, t, c)
  {
  }

  /** Entering the idle state reports the end of the gesture. */
  lemma EnterIdle(m: M, e: MotionEvent, t: Ref, c: Ref)
    requires WellFormed(e) && Held(m)
    ensures Enter(m, Idle, e, t, c)
      == if m.variant == Legacy then Emit(m, ActionEnd, None, Null, Null) else Emit(m, ActionEnd, Some(Snapshot(e)), t, c)
  {
  }

  /** Entering the drag state records the start point and reports the drag's begin. */
  lemma EnterDrag(m: M, e: MotionEvent, t: Ref, c: Ref)
    requires WellFormed(e) && Held(m)
    ensures Enter(m, Inst.Drag, e, t, c) == Emit(m.(drag := m.drag.(start := First(e))), DragBegin, Clone(m, e), t, c)
  {
  }

  /**
   * The pressing state's exit on a held release: no pending tap, the tap
   * callback (if any) appended, the held events cleared.
   */
  lemma SingleExitOnRelease(m: M, e: MotionEvent)
    requires Held(m) && m.fault.None? && m.cur == SingleFingerPressing && e.action == Up && m.single.currentUp.Some?
    ensures var x := SingleExit(m, e);
      var tc := TapCallback(m, Clone(m, m.single.currentUp.value));
      && x.fault == tc.fault && x.log == tc.log && x.cur == m.cur
      && !HasMessages(x.pending, MSG_TAP)
      && (m.single.longPressEnabled ==> !HasMessages(x.pending, MSG_LONG_PRESS))
      && (x.fault.None? ==> x.single.previousDown.None? && x.single.currentDown.None? && x.single.currentUp.None?)
  {
    ExitPending(m);
  }

  /** The pressing state's exit on anything but a release: no callback, no pending tap, the held events cleared. */
  lemma SingleExitElse(m: M, e: MotionEvent)
    requires Held(m) && m.fault.None? && e.action != Up
    ensures var x := SingleExit(m, e);
      && x.fault.None? && x.log == m.log && x.cur == m.cur
      && !HasMessages(x.pending, MSG_TAP)
      && x.single.previousDown.None? && x.single.currentDown.None? && x.single.currentUp.None?
  {
    ExitPending(m);
  }

  /** The queue the pressing state's exit leaves: no tap message, and no long press when long press is on. */
  lemma ExitPending(m: M)
    ensures var q := RemoveMessages(m.pending, MSG_TAP);
      var p := if m.single.longPressEnabled then RemoveMessages(q, MSG_LONG_PRESS) else q;
      && !HasMessages(p, MSG_TAP)
      && (m.single.longPressEnabled ==> !HasMessages(p, MSG_LONG_PRESS))
  {
    var q := RemoveMessages(m.pending, MSG_TAP);
    RemoveMessagesFacts(m.pending, MSG_TAP);
    RemoveMessagesFacts(q, MSG_LONG_PRESS);
  }

  /**
   * Arming the timers on a press: no tap message is left; with long press on,
   * the only long-press message is the new one, last in the queue, due at the
   * press's down time plus the tap and long-press timeouts; with it off, only the
   * tap is cancelled. Nothing but the queue and the start point changes.
   */
  lemma ArmTimersSchedules(m: M, e: MotionEvent, focus: Point, t: Ref, c: Ref)
    requires WellFormed(e) && Held(m)
    ensures var r := ArmTimers(m, e, focus, t, c);
      && r == m.(single := m.single.(start := focus), pending := r.pending)
      && !HasMessages(r.pending, MSG_TAP)
      && (m.single.longPressEnabled ==>
            && OnlyLast(r.pending, MSG_LONG_PRESS)
            && r.pending[|r.pending| - 1].due == AtTime(e.downTime + m.config.tapTimeout + m.config.longPressTimeout)
            && r.pending[|r.pending| - 1].payload == Payload(Clone(m, e), t, c))
      && (!m.single.longPressEnabled ==> r.pending == RemoveMessages(m.pending, MSG_TAP))
  {
    var q := RemoveMessages(m.pending, MSG_TAP);
    RemoveMessagesFacts(m.pending, MSG_TAP);
    if m.single.longPressEnabled {
      var q' := RemoveMessages(q, MSG_LONG_PRESS);
      var msg := Message(MSG_LONG_PRESS, Payload(Clone(m, e), t, c), AtTime(e.downTime + m.config.tapTimeout + m.config.longPressTimeout));
      RemoveMessagesFacts(q, MSG_LONG_PRESS);
      assert (q' + [msg])[..|q' + [msg]| - 1] == q';
      HasMessagesAppend(q', msg, MSG_TAP);
    }
  }

  /**
   * Deferring the tap: the tap message is last in the queue, no long press is
   * left, and the other codes are as before.
   */
  lemma DeferTapSchedules(m: M, e: MotionEvent, t: Ref, c: Ref)
    requires WellFormed(e) && Held(m)
    ensures var r := DeferTap(m, e, t, c);
      && r.cur == m.cur && r.fault == m.fault && r.log == m.log
      && r.single == m.single.(tapCount := r.single.tapCount, hadLongPress := false)
      && r.single.tapCount == (if IsConsideredCloseTap(m.single.previousDown, m.single.currentDown, m.config.tapSlopSquare) then m.single.tapCount + 1 else m.single.tapCount)
      && |r.pending| > 0
      && r.pending[|r.pending| - 1] == Message(MSG_TAP, Payload(Clone(m, e), t, c), Delayed(m.config.tapTimeout))
      && !HasMessages(r.pending, MSG_LONG_PRESS)
      && (forall w :: w != MSG_LONG_PRESS && w != MSG_TAP ==> (HasMessages(r.pending, w) <==> HasMessages(m.pending, w)))
      && (OnlyLast(r.pending, MSG_TAP) <==> !HasMessages(m.pending, MSG_TAP))
  {
    var msg := Message(MSG_TAP, Payload(Clone(m, e), t, c), Delayed(m.config.tapTimeout));
    var q := RemoveMessages(m.pending, MSG_LONG_PRESS);
    RemoveMessagesFacts(m.pending, MSG_LONG_PRESS);
    assert DeferTap(m, e, t, c).pending == q + [msg];
    assert (q + [msg])[..|q|] == q;
    HasMessagesAppend(q, msg, MSG_LONG_PRESS);
    forall w | w != MSG_LONG_PRESS && w != MSG_TAP
      ensures HasMessages(q + [msg], w) <==> HasMessages(m.pending, w)
    {
      HasMessagesAppend(q, msg, w);
    }
  }

  /** With long press off, arming the timers only cancels the tap: no long press appears. */
  lemma ArmTimersQuiet(m: M, e: MotionEvent, focus: Point, t: Ref, c: Ref)
    requires WellFormed(e) && Held(m) && !m.single.longPressEnabled && !HasMessages(m.pending, MSG_LONG_PRESS)
    ensures var r := ArmTimers(m, e, focus, t, c);
      r.cur == m.cur && !HasMessages(r.pending, MSG_LONG_PRESS) && !HasMessages(r.pending, MSG_TAP)
  {
    ArmTimersSchedules(m, e, focus, t, c);
    RemoveMessagesFacts(m.pending, MSG_TAP);
  }

  /** ACTION_DOWN with one finger, or with multi-touch off, arms the timers. */
  lemma PressArms(m: M, e: MotionEvent, t: Ref, c: Ref)
    requires WellFormed(e) && Held(m) && e.action == Down
    requires DownCount(e) == 1 || !(m.variant == Legacy || m.single.multitouch)
    ensures SingleDoing(m, e, t, c) == ArmTimers(HoldPress(m, e), e, Focus(e), t, c)
  {
    assert SingleDoing(m, e, t, c) == SinglePress(m, e, t, c);
  }

  /** ACTION_UP holds the release, then ends the gesture after a long press or defers the tap. */
  lemma ReleaseStep(m: M, e: MotionEvent, t: Ref, c: Ref)
    requires WellFormed(e) && Held(m) && e.action == Up
    ensures SingleDoing(m, e, t, c) ==
      if m.single.hadLongPress then Transition(HoldRelease(m, e), StateIdle, e, t, c) else DeferTap(HoldRelease(m, e), e, t, c)
  {
    assert SingleDoing(m, e, t, c) == SingleRelease(m, e, t, c);
  }

  /** Entering the pinch state is the pinch state's own onEnter. */
  lemma EnterPinch(m: M, e: MotionEvent, t: Ref, c: Ref)
    requires WellFormed(e) && Held(m)
    ensures Enter(m, Inst.Pinch, e, t, c) == PinchEnter(m, e, t, c)
  {
  }

  /** Entering the pressing state resets its counters and remembers the touched object, then handles the event. */
  lemma EnterSingle(m: M, e: MotionEvent, t: Ref, c: Ref)
    requires WellFormed(e) && Held(m)
    ensures Enter(m, SingleFingerPressing, e, t, c)
      == SingleDoing(m.(single := m.single.(tapCount := 0, hadLongPress := false, touchingObject := t, touchingContext := c)), e, t, c)
  {
  }

  /** Leaving the multiple-fingers state clears both pointer arrays. */
  lemma ExitMulti(m: M, e: MotionEvent, t: Ref, c: Ref)
    requires WellFormed(e) && Held(m) && m.cur == MultipleFingersPressing
    ensures Exit(m, e, t, c) == m.(multi := Pointers(map[], map[]))
  {
  }

  /** A Kotlin move with two or more fingers down in the multiple-fingers state. */
  lemma MultiMoveStep(m: M, e: MotionEvent, t: Ref, c: Ref)
    requires WellFormed(e) && Held(m) && e.action == Move && m.variant != Legacy && DownCount(e) >= 2
    ensures var m1 := m.(multi := m.multi.(stop := MoveHeld(m.multi.stop, e.pointers)));
      MultiDoing(m, e, t, c)
        == if ConsideredPinch(m1.multi.start, m1.multi.stop, m.config.touchSlopSquare) then Transition(m1, StatePinch, e, t, c) else m1
  {
    NoneLifted(e);
    assert DownCount(e) > 1;
  }

  /** A transition of an owner whose policy may lack the entry: the pool decides what is entered. */
  lemma TransitionResolved(m: M, tag: Tag, e: MotionEvent, t: Ref, c: Ref)
    requires WellFormed(e) && Held(m)
    ensures var x := Exit(m, e, t, c);
      Transition(m, tag, e, t, c)
        == if x.fault.Some? then x
           else match Resolve(m.variant, tag)
             case None => x.(fault := Some(NoPoolEntry))
             case Some(next) => Enter(x.(cur := next), next, e, t, c)
  {
  }

  /** Entering the drag-only idle state reports the end of the gesture. */
  lemma EnterIdleForDragOnly(m: M, e: MotionEvent, t: Ref, c: Ref)
    requires WellFormed(e) && Held(m)
    ensures Enter(m, IdleForDragOnly, e, t, c) == Emit(m, ActionEnd, Some(Snapshot(e)), t, c)
  {
  }

  /** Entering the drag-only pressing state resets its counters, then handles the event. */
  lemma EnterOnlySingle(m: M, e: MotionEvent, t: Ref, c: Ref)
    requires WellFormed(e) && Held(m)
    ensures Enter(m, SingleFingerPressingForDragOnly, e, t, c)
      == OnlySingleDoing(m.(onlySingle := m.onlySingle.(tapCount := 0, hadLongPress := false, touchingObject := t, touchingContext := c)), e, t, c)
  {
  }

  /** Entering the drag-only drag state is its own onEnter. */
  lemma EnterOnlyDrag(m: M, e: MotionEvent, t: Ref, c: Ref)
    requires WellFormed(e) && Held(m)
    ensures Enter(m, DragForDragOnly, e, t, c) == OnlyDragEnter(m, e, t, c)
  {
  }

  /** Entering the multiple-fingers state is its own onEnter. */
  lemma EnterMulti(m: M, e: MotionEvent, t: Ref, c: Ref)
    requires WellFormed(e) && Held(m)
    ensures Enter(m, MultipleFingersPressing, e, t, c) == MultiEnter(m, e, t, c)
  {
  }

  /** Leaving an idle state is its onExit, which reports the gesture's begin; the Kotlin detector never throws there. */
  lemma ExitIdle(m: M, e: MotionEvent, t: Ref, c: Ref)
    requires WellFormed(e) && Held(m) && (m.cur == Idle || m.cur == IdleForDragOnly)
    ensures Exit(m, e, t, c) == IdleExit(m, e, t, c)
    ensures m.variant != Legacy ==> IdleExit(m, e, t, c).fault == m.fault
  {
  }

  /** Entering the multiple-fingers state on a press of several fingers holds every one of them in both arrays. */
  lemma MultiEnterHoldsAll(m: M, e: MotionEvent, t: Ref, c: Ref)
    requires WellFormed(e) && Held(m) && e.action == Down && |e.pointers| >= 2
    ensures MultiEnter(m, e, t, c) == m.(multi := Pointers(HoldMap(e.pointers), HoldMap(e.pointers)))
  {
    NoneLifted(e);
    assert DownCount(e) > 1;
  }

  /** Several fingers down in the idle state with multi-touch on: the begin is reported, then the multiple-fingers state is entered. */
  lemma IdleFingersStep(m: M, e: MotionEvent, t: Ref, c: Ref)
    requires WellFormed(e) && Held(m) && m.cur == Idle && e.action == Down && m.variant != DragOnlyOwner
    requires |e.pointers| >= 2 && (m.variant == Legacy || m.idleMultitouch)
    ensures var x := IdleExit(m, e, t, c);
      IdleDoing(m, e, t, c)
        == if x.fault.Some? then x else Enter(x.(cur := MultipleFingersPressing), MultipleFingersPressing, e, t, c)
  {
    assert IdleDoing(m, e, t, c) == Transition(m, StateMultipleFingersPressing, e, t, c);
    TransitionThen(m, StateMultipleFingersPressing, e, t, c);
    ExitIdle(m, e, t, c);
  }

  /** A first finger down in the idle state: the begin is reported, then the pressing state is entered. */
  lemma IdlePressStep(m: M, e: MotionEvent, t: Ref, c: Ref)
    requires WellFormed(e) && Held(m) && m.cur == Idle && e.action == Down && m.variant != DragOnlyOwner
    requires |e.pointers| == 1 || (m.variant != Legacy && !m.idleMultitouch)
    ensures var x := IdleExit(m, e, t, c);
      IdleDoing(m, e, t, c)
        == if x.fault.Some? then x
           else SingleDoing(x.(cur := SingleFingerPressing, single := x.single.(tapCount := 0, hadLongPress := false, touchingObject := t, touchingContext := c)), e, t, c)
  {
    assert IdleDoing(m, e, t, c) == Transition(m, StateSingleFingerPressing, e, t, c);
    TransitionThen(m, StateSingleFingerPressing, e, t, c);
    ExitIdle(m, e, t, c);
    var x := IdleExit(m, e, t, c);
    EnterSingle(x.(cur := SingleFingerPressing), e, t, c);
  }
}
