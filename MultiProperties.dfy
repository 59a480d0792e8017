/**
 * What the multiple-fingers state promises: it holds every finger down with
 * equal start and stop points, follows the held fingers on a move and turns
 * into a pinch as soon as one of them has moved past the touch slop, and hands
 * over to the single-finger state when one finger is left.
 */
module MultiProperties {
  import opened Wrappers
  import opened Events
  import opened Snapshots
  import opened Callbacks
  import opened Policy
  import opened PointerMaps
  import opened Recognizer
  import opened Steps
  import opened PinchProperties

  /** Both arrays hold the same pointer ids. */
  predicate MultiInv(p: Pointers)
  {
    p.start.Keys == p.stop.Keys
  }

  /** Entering with two or more fingers down holds each of them at its position, in both arrays. */
  lemma EnterHoldsFingers(m: M, e: MotionEvent, t: Ref, c: Ref)
    requires WellFormed(e) && Held(m) && e.action != Up && e.action != Cancel && DownCount(e) > 1
    ensures var r := MultiEnter(m, e, t, c);
      var kept := Remaining(e);
      && r == m.(multi := r.multi) && MultiInv(r.multi) && r.multi.start == r.multi.stop
      && (forall k :: k in r.multi.start <==> k in Ids(kept))
      && (forall i :: 0 <= i < |kept| ==> r.multi.start[kept[i].id] == PointOf(kept[i]))
  {
    RemainingCount(e);
    HoldMapFacts(Remaining(e));
  }

  /** Entering on a release or a cancel leaves for the idle state at once, which reports the end of the gesture. */
  lemma EnterOnReleaseGoesIdle(m: M, e: MotionEvent, t: Ref, c: Ref)
    requires WellFormed(e) && Held(m) && m.fault.None? && m.cur == MultipleFingersPressing
    requires (e.action == Up || e.action == Cancel) && m.variant != DragOnlyOwner && m.listener
    ensures var r := MultiEnter(m, e, t, c);
      && r.cur == Idle && r.fault.None? && r.multi == Pointers(map[], map[])
      && r.log == m.log + [if m.variant == Legacy then Callback(ActionEnd, None, Null, Null) else Callback(ActionEnd, Some(Snapshot(e)), t, c)]
  {
    TransitionThen(m, StateIdle, e, t, c);
    EnterIdle(m.(multi := Pointers(map[], map[]), cur := Idle), e, t, c);
  }

  /**
   * A Kotlin move with two or more fingers down moves the stop point of every
   * held finger; it turns into a pinch exactly when some held finger has moved
   * past the touch slop, and otherwise changes nothing else.
   */
  lemma KotlinMoveFollowsFingers(m: M, e: MotionEvent, t: Ref, c: Ref)
    requires WellFormed(e) && Held(m) && m.fault.None? && m.cur == MultipleFingersPressing && MultiInv(m.multi)
    requires e.action == Move && m.variant == Kotlin && DownCount(e) >= 2 && m.listener
    ensures var r := MultiDoing(m, e, t, c);
      var stop := MoveHeld(m.multi.stop, e.pointers);
      var moved := exists k :: k in m.multi.start && Moved(m.multi.start[k], stop[k], m.config.touchSlopSquare);
      && (!moved ==> r == m.(multi := m.multi.(stop := stop)))
      && (moved ==> r.cur == Inst.Pinch && r.fault.None? && r.multi == Pointers(map[], map[]))
  {
    var stop := MoveHeld(m.multi.stop, e.pointers);
    MultiMoveStep(m, e, t, c);
    ConsideredPinchSameKeys(m.multi.start, stop, m.config.touchSlopSquare);
    var m1 := m.(multi := m.multi.(stop := stop));
    if ConsideredPinch(m.multi.start, stop, m.config.touchSlopSquare) {
      MoveIntoPinch(m1, e, t, c);
    }
  }

  /** Moving into the pinch state from here clears both arrays and reports the pinch's begin. */
  lemma MoveIntoPinch(m: M, e: MotionEvent, t: Ref, c: Ref)
    requires WellFormed(e) && Held(m) && m.fault.None? && m.cur == MultipleFingersPressing
    requires m.variant == Kotlin && DownCount(e) >= 2 && m.listener
    ensures var r := Transition(m, StatePinch, e, t, c);
      r.cur == Inst.Pinch && r.fault.None? && r.multi == Pointers(map[], map[]) && PinchInv(r.pinch)
  {
    TransitionThen(m, StatePinch, e, t, c);
    ExitMulti(m, e, t, c);
    var x := m.(multi := Pointers(map[], map[]), cur := Inst.Pinch);
    EnterPinch(x, e, t, c);
    EnterBegins(x, e, t, c);
  }

  /** The Java move reads every finger's held stop point and throws on one that is not held. */
  lemma LegacyMoveThrowsOnUnheldFinger(m: M, e: MotionEvent, t: Ref, c: Ref)
    requires WellFormed(e) && Held(m) && m.cur == MultipleFingersPressing && e.action == Move && m.variant == Legacy
    requires exists i :: 0 <= i < DownCount(e) && e.pointers[i].id !in m.multi.stop
    ensures MultiDoing(m, e, t, c) == m.(fault := Some(NullPointer))
  {
    var i :| 0 <= i < DownCount(e) && e.pointers[i].id !in m.multi.stop;
    assert e.pointers[..DownCount(e)][i] == e.pointers[i];
  }

  /** When every finger is held, the Java move moves the same stop points as the Kotlin one. */
  lemma LegacyMoveAgreesWhenAllHeld(m: M, e: MotionEvent, t: Ref, c: Ref)
    requires WellFormed(e) && Held(m) && m.cur == MultipleFingersPressing && e.action == Move && m.variant == Legacy
    requires forall i :: 0 <= i < |e.pointers| ==> e.pointers[i].id in m.multi.stop
    ensures var r := MultiDoing(m, e, t, c);
      var stop := MoveHeld(m.multi.stop, e.pointers);
      !ConsideredPinch(m.multi.start, stop, m.config.touchSlopSquare) ==> r == m.(multi := m.multi.(stop := stop))
  {
    assert e.pointers[..DownCount(e)] == e.pointers;
    MoveAllMovesHeld(m.multi.stop, e.pointers);
  }

  /** A finger going down is held at its position in both arrays; nothing else changes. */
  lemma PointerDownHolds(m: M, e: MotionEvent, t: Ref, c: Ref)
    requires WellFormed(e) && Held(m) && m.cur == MultipleFingersPressing && MultiInv(m.multi) && e.action == PointerDown
    ensures var r := MultiDoing(m, e, t, c);
      var q := e.pointers[e.actionIndex];
      && r == m.(multi := r.multi) && MultiInv(r.multi)
      && r.multi.start == m.multi.start[q.id := PointOf(q)] && r.multi.stop == m.multi.stop[q.id := PointOf(q)]
  {
  }

  /** A finger going up is forgotten; the state is left for the single-finger one exactly when one finger is left. */
  lemma PointerUpForgets(m: M, e: MotionEvent, t: Ref, c: Ref)
    requires WellFormed(e) && Held(m) && m.fault.None? && m.cur == MultipleFingersPressing && MultiInv(m.multi)
    requires e.action == PointerUp && m.variant != DragOnlyOwner
    ensures var r := MultiDoing(m, e, t, c);
      var upId := e.pointers[e.actionIndex].id;
      && (DownCount(e) > 1 ==>
            r == m.(multi := Pointers(m.multi.start - {upId}, m.multi.stop - {upId})) && MultiInv(r.multi))
      && (DownCount(e) <= 1 ==> r.cur == SingleFingerPressing && r.multi == Pointers(map[], map[]) && r.single.start == Focus(e))
  {
    var upId := e.pointers[e.actionIndex].id;
    if DownCount(e) <= 1 {
      var m1 := m.(multi := Pointers(m.multi.start - {upId}, m.multi.stop - {upId}));
      assert MultiDoing(m, e, t, c) == Transition(m1, StateSingleFingerPressing, e, t, c);
      LiftIntoSingle(m1, e, t, c);
    }
  }

  /** Lifting into the pressing state restarts it from the focus of the fingers left. */
  lemma LiftIntoSingle(m: M, e: MotionEvent, t: Ref, c: Ref)
    requires WellFormed(e) && Held(m) && m.fault.None? && m.cur == MultipleFingersPressing
    requires e.action == PointerUp && m.variant != DragOnlyOwner
    ensures var r := Transition(m, StateSingleFingerPressing, e, t, c);
      r.cur == SingleFingerPressing && r.multi == Pointers(map[], map[]) && r.single.start == Focus(e)
  {
    TransitionThen(m, StateSingleFingerPressing, e, t, c);
    ExitMulti(m, e, t, c);
    var x := m.(multi := Pointers(map[], map[]), cur := SingleFingerPressing);
    EnterSingle(x, e, t, c);
  }

  /** A release or a cancel ends the gesture from here. */
  lemma ReleaseGoesIdle(m: M, e: MotionEvent, t: Ref, c: Ref)
    requires WellFormed(e) && Held(m) && m.fault.None? && m.cur == MultipleFingersPressing && m.listener
    requires (e.action == Up || e.action == Cancel) && m.variant != DragOnlyOwner
    ensures var r := MultiDoing(m, e, t, c);
      && r.cur == Idle && r.fault.None? && r.multi == Pointers(map[], map[])
      && r.log == m.log + [if m.variant == Legacy then Callback(ActionEnd, None, Null, Null) else Callback(ActionEnd, Some(Snapshot(e)), t, c)]
  {
    assert MultiDoing(m, e, t, c) == Transition(m, StateIdle, e, t, c);
    TransitionThen(m, StateIdle, e, t, c);
    EnterIdle(m.(multi := Pointers(map[], map[]), cur := Idle), e, t, c);
  }
}
