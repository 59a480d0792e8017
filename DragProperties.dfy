/**
 * What the drag state promises: a drag begins at the first pointer, every move
 * reports the drag from that start, and leaving reports an optional fling and
 * then always the end, in that order; the fling test only passes on a release
 * fast enough along either axis.
 */
module DragProperties {
  import opened Wrappers
  import opened Events
  import opened Snapshots
  import opened Callbacks
  import opened Policy
  import opened PointerMaps
  import opened Recognizer
  import opened Steps

  /** A clamped velocity component is never faster than the bound, nor than the velocity itself. */
  lemma ClampBounds(v: real, max: int)
    requires max >= 0
    ensures Abs(Clamp(v, max)) <= max as real && Abs(Clamp(v, max)) <= Abs(v)
    ensures Abs(v) <= max as real ==> Clamp(v, max) == v
  {
  }

  /** A release no faster than the minimum along both axes is no fling. */
  lemma SlowReleaseIsNoFling(e: MotionEvent, minFlingVelocity: int, maxFlingVelocity: int)
    requires maxFlingVelocity >= 0
    requires Abs(e.velocityX) <= minFlingVelocity as real && Abs(e.velocityY) <= minFlingVelocity as real
    ensures !IsConsideredFling(e, minFlingVelocity, maxFlingVelocity)
  {
    ClampBounds(e.velocityX, maxFlingVelocity);
    ClampBounds(e.velocityY, maxFlingVelocity);
  }

  /** With a maximum no larger than the minimum, nothing is ever a fling. */
  lemma NoFlingUnlessMaxAboveMin(e: MotionEvent, minFlingVelocity: int, maxFlingVelocity: int)
    requires 0 <= maxFlingVelocity <= minFlingVelocity
    ensures !IsConsideredFling(e, minFlingVelocity, maxFlingVelocity)
  {
    ClampBounds(e.velocityX, maxFlingVelocity);
    ClampBounds(e.velocityY, maxFlingVelocity);
  }

  /** A release faster than the minimum along either axis, within the maximum, is a fling; no other action is. */
  lemma FastReleaseIsFling(e: MotionEvent, minFlingVelocity: int, maxFlingVelocity: int)
    requires 0 <= minFlingVelocity < maxFlingVelocity
    ensures e.action != Up ==> !IsConsideredFling(e, minFlingVelocity, maxFlingVelocity)
    ensures e.action == Up && minFlingVelocity as real < Abs(e.velocityX) <= maxFlingVelocity as real
            ==> IsConsideredFling(e, minFlingVelocity, maxFlingVelocity)
    ensures e.action == Up && minFlingVelocity as real < Abs(e.velocityY) <= maxFlingVelocity as real
            ==> IsConsideredFling(e, minFlingVelocity, maxFlingVelocity)
  {
    ClampBounds(e.velocityX, maxFlingVelocity);
    ClampBounds(e.velocityY, maxFlingVelocity);
  }

  /** Entering the drag state takes the first pointer as the start and reports the drag's begin. */
  lemma EnterBeginsDrag(m: M, e: MotionEvent, t: Ref, c: Ref)
    requires WellFormed(e) && Held(m) && m.fault.None?
    ensures var r := Enter(m, Inst.Drag, e, t, c);
      && r.drag.start == First(e) && r.cur == m.cur
      && r.log == m.log + (if m.listener then [Callback(DragBegin, Clone(m, e), t, c)] else [])
      && (r.fault.None? <==> m.listener || m.variant != Legacy)
  {
  }

  /** A move reports the drag from the start to the first pointer and changes nothing else. */
  lemma MoveReportsDrag(m: M, e: MotionEvent, t: Ref, c: Ref)
    requires WellFormed(e) && Held(m) && m.fault.None? && m.cur == Inst.Drag && e.action == Move && m.listener
    ensures DragDoing(m, e, t, c) == m.(log := m.log + [Callback(Gesture.Drag(m.drag.start, First(e)), Clone(m, e), t, c)])
  {
  }

  /** Leaving reports a fling first when the release is one, then the end from the start to the first pointer. */
  lemma ExitReportsFlingThenEnd(m: M, e: MotionEvent, t: Ref, c: Ref)
    requires WellFormed(e) && m.fault.None? && m.listener
    ensures var r := DragExit(m, e, t, c);
      var ev := Clone(m, e);
      && r.fault.None? && r == m.(log := r.log)
      && r.log == m.log
           + (if IsConsideredFling(e, m.config.minFlingVelocity, m.config.maxFlingVelocity)
              then [Callback(DragFling(Origin, Origin, 0.0, 0.0), ev, t, c)] else [])
           + [Callback(DragEnd(m.drag.start, First(e)), ev, t, c)]
  {
  }

  /** With multi-touch off, the Kotlin drag ignores a second finger. */
  lemma SecondFingerIgnoredWithoutMultitouch(m: M, e: MotionEvent, t: Ref, c: Ref)
    requires WellFormed(e) && Held(m) && m.cur == Inst.Drag && e.action == PointerDown
    requires m.variant != Legacy && !m.drag.multitouch
    ensures DragDoing(m, e, t, c) == m
  {
  }

  /**
   * Otherwise a second finger ends the drag (no fling: it is no release) and
   * the multiple-fingers state holds every finger down.
   */
  lemma SecondFingerEndsDrag(m: M, e: MotionEvent, t: Ref, c: Ref)
    requires WellFormed(e) && Held(m) && m.fault.None? && m.cur == Inst.Drag && e.action == PointerDown && m.listener
    requires m.variant == Legacy || (m.variant == Kotlin && m.drag.multitouch)
    ensures var r := DragDoing(m, e, t, c);
      && r.cur == MultipleFingersPressing && r.fault.None?
      && r.log == m.log + [Callback(DragEnd(m.drag.start, First(e)), Clone(m, e), t, c)]
      && r.multi.start == r.multi.stop == HoldMap(Remaining(e))
  {
    assert DragDoing(m, e, t, c) == Transition(m, StateMultipleFingersPressing, e, t, c);
    TransitionThen(m, StateMultipleFingersPressing, e, t, c);
    ExitReportsFlingThenEnd(m, e, t, c);
  }

  /** The Kotlin drag ignores a release that leaves fingers down. */
  lemma KotlinReleaseWithFingersLeftIsIgnored(m: M, e: MotionEvent, t: Ref, c: Ref)
    requires WellFormed(e) && Held(m) && m.cur == Inst.Drag && e.action == Up
    requires m.variant != Legacy && |e.pointers| > 1
    ensures DragDoing(m, e, t, c) == m
  {
  }

  /**
   * The last finger going up (or a cancel) ends the drag: the fling if it is
   * one, the end, then the end of the gesture.
   */
  lemma ReleaseEndsDrag(m: M, e: MotionEvent, t: Ref, c: Ref)
    requires WellFormed(e) && Held(m) && m.fault.None? && m.cur == Inst.Drag && m.listener && m.variant != DragOnlyOwner
    requires e.action == Cancel || (e.action == Up && (m.variant == Legacy || |e.pointers| == 1))
    ensures var r := DragDoing(m, e, t, c);
      var ev := Clone(m, e);
      && r.cur == Idle && r.fault.None?
      && r.log == m.log
           + (if IsConsideredFling(e, m.config.minFlingVelocity, m.config.maxFlingVelocity)
              then [Callback(DragFling(Origin, Origin, 0.0, 0.0), ev, t, c)] else [])
           + [Callback(DragEnd(m.drag.start, First(e)), ev, t, c)]
           + [if m.variant == Legacy then Callback(ActionEnd, None, Null, Null) else Callback(ActionEnd, Some(Snapshot(e)), t, c)]
  {
    assert DragDoing(m, e, t, c) == Transition(m, StateIdle, e, t, c);
    TransitionThen(m, StateIdle, e, t, c);
    ExitReportsFlingThenEnd(m, e, t, c);
    EnterIdle(DragExit(m, e, t, c).(cur := Idle), e, t, c);
  }
}
