/**
 * What the drag-only states promise: a press becomes a drag once the focus has
 * moved past the touch slop, the drag follows one focus finger, lifting that
 * finger hands the drag to the first finger left, and every gesture ends with
 * the optional fling, the drag's end and the gesture's end.
 */
module DragOnlyProperties {
  import opened Wrappers
  import opened Events
  import opened Snapshots
  import opened Callbacks
  import opened Policy
  import opened Recognizer
  import opened Steps

  /** A detector under the drag-only policy, in one of its own states. */
  predicate Owned(m: M)
  {
    m.variant == DragOnlyOwner && m.fault.None? && m.listener
  }

  /** A first finger down wakes the drag-only idle state into the drag-only pressing state. */
  lemma DownPresses(m: M, e: MotionEvent, t: Ref, c: Ref)
    requires WellFormed(e) && Held(m) && Owned(m) && m.cur == IdleForDragOnly && e.action == Down
    ensures var r := Doing(m, e, t, c);
      && r.cur == SingleFingerPressingForDragOnly && r.fault.None?
      && r.log == m.log + [Callback(ActionBegin, Some(Snapshot(e)), t, c)]
      && r.onlySingle.start == Focus(e) && r.onlySingle.tapCount == 0
      && r.onlySingle.touchingObject == t && r.onlySingle.touchingContext == c
  {
    assert Doing(m, e, t, c) == Transition(m, StateSingleFingerPressing, e, t, c);
    TransitionResolved(m, StateSingleFingerPressing, e, t, c);
    var x := m.(log := m.log + [Callback(ActionBegin, Some(Snapshot(e)), t, c)], cur := SingleFingerPressingForDragOnly);
    EnterOnlySingle(x, e, t, c);
  }

  /** A press or a lift restarts the slop from the focus of the fingers left; another finger down changes nothing. */
  lemma PressRestartsSlop(m: M, e: MotionEvent, t: Ref, c: Ref)
    requires WellFormed(e) && Held(m) && m.cur == SingleFingerPressingForDragOnly
    requires e.action == Down || e.action == PointerUp || e.action == PointerDown
    ensures var r := OnlySingleDoing(m, e, t, c);
      r == if e.action == PointerDown then m else m.(onlySingle := m.onlySingle.(start := Focus(e)))
  {
  }

  /**
   * A move becomes a drag exactly when the focus has left the touch slop; the
   * drag then follows the finger the event is about, from where it is.
   */
  lemma MoveStartsDragIff(m: M, e: MotionEvent, t: Ref, c: Ref)
    requires WellFormed(e) && Held(m) && Owned(m) && m.cur == SingleFingerPressingForDragOnly && e.action == Move
    ensures var r := OnlySingleDoing(m, e, t, c);
      var p := e.pointers[e.actionIndex];
      && (r.cur == DragForDragOnly <==> SlopExceeded(Focus(e), m.onlySingle.start, m.config.touchSlopSquare))
      && (!SlopExceeded(Focus(e), m.onlySingle.start, m.config.touchSlopSquare) ==> r == m)
      && (SlopExceeded(Focus(e), m.onlySingle.start, m.config.touchSlopSquare) ==>
            && r.fault.None? && r.onlyDrag == DraggingForDragOnly(p.id, PointOf(p))
            && r.log == m.log + [Callback(DragBegin, Some(Snapshot(e)), t, c)])
  {
    if SlopExceeded(Focus(e), m.onlySingle.start, m.config.touchSlopSquare) {
      TransitionResolved(m, StateDrag, e, t, c);
      var x := m.(cur := DragForDragOnly);
      EnterOnlyDrag(x, e, t, c);
      OnlyDragEnterAt(x, e, t, c, e.actionIndex);
    }
  }

  /** A release or a cancel while pressing ends the gesture. */
  lemma ReleaseEndsPress(m: M, e: MotionEvent, t: Ref, c: Ref)
    requires WellFormed(e) && Held(m) && Owned(m) && m.cur == SingleFingerPressingForDragOnly
    requires e.action == Up || e.action == Cancel
    ensures var r := OnlySingleDoing(m, e, t, c);
      r == m.(cur := IdleForDragOnly, log := m.log + [Callback(ActionEnd, Some(Snapshot(e)), t, c)])
  {
    TransitionResolved(m, StateIdle, e, t, c);
    EnterIdleForDragOnly(m.(cur := IdleForDragOnly), e, t, c);
  }

  /** The index of the focus finger, when it is still in the event. */
  lemma FocusIndex(e: MotionEvent, i: int)
    requires WellFormed(e) && 0 <= i < |e.pointers|
    ensures IndexOfId(e.pointers, e.pointers[i].id) == Some(i)
  {
    var r := IndexOfId(e.pointers, e.pointers[i].id);
    assert r.Some?;
    assert e.pointers[r.value].id == e.pointers[i].id;
  }

  /** Entering the drag state at the pointer whose id is the entry focus. */
  lemma OnlyDragEnterAt(m: M, e: MotionEvent, t: Ref, c: Ref, j: int)
    requires WellFormed(e) && m.listener && 0 <= j < |e.pointers| && e.pointers[j].id == FocusIdOnEnter(e)
    ensures OnlyDragEnter(m, e, t, c)
      == m.(onlyDrag := DraggingForDragOnly(e.pointers[j].id, PointOf(e.pointers[j])),
            log := m.log + [Callback(DragBegin, Some(Snapshot(e)), t, c)])
  {
    FocusIndex(e, j);
  }

  /** A move reports the drag from its start to where the focus finger is now. */
  lemma MoveReportsDrag(m: M, e: MotionEvent, t: Ref, c: Ref, i: int)
    requires WellFormed(e) && Held(m) && Owned(m) && m.cur == DragForDragOnly && e.action == Move
    requires 0 <= i < |e.pointers| && e.pointers[i].id == m.onlyDrag.focusId
    ensures var r := OnlyDragDoing(m, e, t, c);
      r == m.(log := m.log + [Callback(Gesture.Drag(m.onlyDrag.start, PointOf(e.pointers[i])), Some(Snapshot(e)), t, c)])
  {
    FocusIndex(e, i);
  }

  /** The focus finger missing from an event is an index out of range. */
  lemma LostFocusThrows(m: M, e: MotionEvent, t: Ref, c: Ref)
    requires WellFormed(e) && Held(m) && m.cur == DragForDragOnly
    requires forall j :: 0 <= j < |e.pointers| ==> e.pointers[j].id != m.onlyDrag.focusId
    ensures OnlyDragDoing(m, e, t, c) == m.(fault := Some(IndexOutOfRange))
  {
  }

  /** Other fingers going down or up do not disturb the drag. */
  lemma OtherFingersIgnored(m: M, e: MotionEvent, t: Ref, c: Ref, i: int)
    requires WellFormed(e) && Held(m) && m.cur == DragForDragOnly
    requires 0 <= i < |e.pointers| && e.pointers[i].id == m.onlyDrag.focusId
    requires e.action == PointerDown || (e.action == PointerUp && e.actionIndex != i)
    ensures OnlyDragDoing(m, e, t, c) == m
  {
    FocusIndex(e, i);
  }

  /** The callbacks the drag-only drag's exit sends: the fling if the release was fast, then the end. */
  function EndCallbacks(m: M, e: MotionEvent, t: Ref, c: Ref, i: int): (r: seq<Callback>)
    requires WellFormed(e) && 0 <= i < |e.pointers|
    ensures |r| == (if IsConsideredFling(e, m.config.minFlingVelocity, m.config.maxFlingVelocity) then 2 else 1)
    ensures r[|r| - 1].gesture == DragEnd(m.onlyDrag.start, PointOf(e.pointers[i]))
  {
    var start, stop := m.onlyDrag.start, PointOf(e.pointers[i]);
    (if IsConsideredFling(e, m.config.minFlingVelocity, m.config.maxFlingVelocity)
     then [Callback(DragFling(start, stop, 0.0, 0.0), Some(Snapshot(e)), t, c)] else [])
    + [Callback(DragEnd(start, stop), Some(Snapshot(e)), t, c)]
  }

  /** Leaving the drag reports the optional fling and the end, both at the focus finger. */
  lemma ExitReportsEnd(m: M, e: MotionEvent, t: Ref, c: Ref, i: int)
    requires WellFormed(e) && Owned(m) && 0 <= i < |e.pointers| && e.pointers[i].id == m.onlyDrag.focusId
    ensures OnlyDragExit(m, e, t, c) == m.(log := m.log + EndCallbacks(m, e, t, c, i))
  {
    FocusIndex(e, i);
  }

  /** The drag state handing over to a fresh drag state: the end callbacks, then the entry. */
  lemma DragRestarts(m: M, e: MotionEvent, t: Ref, c: Ref)
    requires WellFormed(e) && Held(m) && Owned(m) && m.cur == DragForDragOnly
    requires 0 <= e.actionIndex < |e.pointers| && e.pointers[e.actionIndex].id == m.onlyDrag.focusId
    ensures Transition(m, StateDrag, e, t, c)
      == OnlyDragEnter(m.(log := m.log + EndCallbacks(m, e, t, c, e.actionIndex), cur := DragForDragOnly), e, t, c)
  {
    TransitionResolved(m, StateDrag, e, t, c);
    ExitReportsEnd(m, e, t, c, e.actionIndex);
    EnterOnlyDrag(m.(log := m.log + EndCallbacks(m, e, t, c, e.actionIndex), cur := DragForDragOnly), e, t, c);
  }

  /**
   * Lifting the focus finger ends this drag and begins a new one that follows
   * the first finger left, from where that finger is.
   */
  lemma FocusLiftReissuesDrag(m: M, e: MotionEvent, t: Ref, c: Ref)
    requires WellFormed(e) && Held(m) && Owned(m) && m.cur == DragForDragOnly && e.action == PointerUp
    requires e.pointers[e.actionIndex].id == m.onlyDrag.focusId
    ensures var r := OnlyDragDoing(m, e, t, c);
      var next := Remaining(e)[0];
      && r.cur == DragForDragOnly && r.fault.None?
      && r.onlyDrag == DraggingForDragOnly(next.id, PointOf(next))
      && r.log == m.log + EndCallbacks(m, e, t, c, e.actionIndex) + [Callback(DragBegin, Some(Snapshot(e)), t, c)]
  {
    FocusIndex(e, e.actionIndex);
    assert OnlyDragDoing(m, e, t, c) == Transition(m, StateDrag, e, t, c);
    DragRestarts(m, e, t, c);
    var x := m.(log := m.log + EndCallbacks(m, e, t, c, e.actionIndex), cur := DragForDragOnly);
    RemainingCount(e);
    var j := if e.actionIndex <= 0 then 1 else 0;
    assert Remaining(e)[0] == e.pointers[j];
    OnlyDragEnterAt(x, e, t, c, j);
  }

  /** A release or a cancel ends the drag, then the gesture. */
  lemma ReleaseEndsDrag(m: M, e: MotionEvent, t: Ref, c: Ref, i: int)
    requires WellFormed(e) && Held(m) && Owned(m) && m.cur == DragForDragOnly && (e.action == Up || e.action == Cancel)
    requires 0 <= i < |e.pointers| && e.pointers[i].id == m.onlyDrag.focusId
    ensures var r := OnlyDragDoing(m, e, t, c);
      && r.cur == IdleForDragOnly && r.fault.None?
      && r.log == m.log + EndCallbacks(m, e, t, c, i) + [Callback(ActionEnd, Some(Snapshot(e)), t, c)]
  {
    FocusIndex(e, i);
    assert OnlyDragDoing(m, e, t, c) == Transition(m, StateIdle, e, t, c);
    TransitionResolved(m, StateIdle, e, t, c);
    ExitReportsEnd(m, e, t, c, i);
    var x := m.(log := m.log + EndCallbacks(m, e, t, c, i), cur := IdleForDragOnly);
    EnterIdleForDragOnly(x, e, t, c);
  }
}
