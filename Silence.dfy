/**
 * The Kotlin detector without a listener. Every callback is a `listener?.onX(...)`
 * there, so an owner with no listener attached goes through exactly the states,
 * timers and pointer arrays of one with a listener, and its log never grows. The
 * one difference is a pinch callback whose arguments would read past the down
 * order: without a listener they are not evaluated, so the listener's run may
 * fault where the silent one goes on.
 *
 * Two families of lemmas follow the hooks of Recognizer one at a time: the
 * `Quiet` ones run a silent owner alone and show that its log stays as it was;
 * the `Twins` ones run it side by side with the same owner with a listener.
 */
module Silence {
  import opened Wrappers
  import opened Events
  import opened Snapshots
  import opened Callbacks
  import opened Policy
  import opened PointerMaps
  import opened Recognizer
  import opened Steps

  /** A Kotlin owner without a listener. */
  predicate Silent(m: M)
  {
    m.variant != Legacy && !m.listener
  }

  /** A hook took silent owner `m` to `r`: still silent, and nothing was logged. */
  predicate Hushed(m: M, r: M)
  {
    Silent(r) && r.log == m.log
  }

  /** `q` is a silent owner, and `l` the same owner with a listener, whatever it has received. */
  predicate Twins(q: M, l: M)
  {
    Silent(q) && l == q.(listener := true, log := l.log)
  }

  /** Unless the listener's run faulted, the two runs are twins again. */
  predicate Mirrored(q: M, l: M)
  {
    l.fault.None? ==> Twins(q, l)
  }

  // ---------------------------------------------------------------------------
  // The silent owner alone.

  lemma ExitQuiet(m: M, e: MotionEvent, t: Ref, c: Ref)
    requires WellFormed(e) && Held(m) && Silent(m)
    ensures Hushed(m, Exit(m, e, t, c))
  {
    match m.cur
    case Idle | IdleForDragOnly =>
    case SingleFingerPressing =>
    case SingleFingerPressingForDragOnly =>
    case MultipleFingersPressing =>
    case Drag =>
    case Pinch =>
    case DragForDragOnly =>
  }

  lemma TransitionQuiet(m: M, tag: Tag, e: MotionEvent, t: Ref, c: Ref)
    requires WellFormed(e) && Held(m) && Silent(m)
    ensures Hushed(m, Transition(m, tag, e, t, c))
    decreases TagLevel(m.variant, tag, e), 2
  {
    ExitQuiet(m, e, t, c);
    TransitionResolved(m, tag, e, t, c);
    var x := Exit(m, e, t, c);
    if x.fault.None? {
      match Resolve(m.variant, tag)
      case None =>
      case Some(next) => EnterQuiet(x.(cur := next), next, e, t, c);
    }
  }

  lemma EnterQuiet(m: M, inst: Inst, e: MotionEvent, t: Ref, c: Ref)
    requires WellFormed(e) && Held(m) && Silent(m)
    ensures Hushed(m, Enter(m, inst, e, t, c))
    decreases Level(inst, e), 1
  {
    match inst
    case Idle =>
    case IdleForDragOnly =>
    case SingleFingerPressing =>
      SingleDoingQuiet(m.(single := m.single.(tapCount := 0, hadLongPress := false, touchingObject := t, touchingContext := c)), e, t, c);
    case SingleFingerPressingForDragOnly =>
      OnlySingleDoingQuiet(m.(onlySingle := m.onlySingle.(tapCount := 0, hadLongPress := false, touchingObject := t, touchingContext := c)), e, t, c);
    case MultipleFingersPressing => MultiEnterQuiet(m, e, t, c);
    case Drag =>
    case Pinch =>
    case DragForDragOnly =>
  }

  lemma DoingQuiet(m: M, e: MotionEvent, t: Ref, c: Ref)
    requires WellFormed(e) && Held(m) && Silent(m)
    ensures Hushed(m, Doing(m, e, t, c))
    decreases 4, 0
  {
    match m.cur
    case Idle => IdleDoingQuiet(m, e, t, c);
    case IdleForDragOnly =>
      if e.action == Down {
        TransitionQuiet(m, StateSingleFingerPressing, e, t, c);
      }
    case SingleFingerPressing => SingleDoingQuiet(m, e, t, c);
    case SingleFingerPressingForDragOnly => OnlySingleDoingQuiet(m, e, t, c);
    case MultipleFingersPressing => MultiDoingQuiet(m, e, t, c);
    case Drag => DragDoingQuiet(m, e, t, c);
    case Pinch => PinchDoingQuiet(m, e, t, c);
    case DragForDragOnly => OnlyDragDoingQuiet(m, e, t, c);
  }

  lemma IdleDoingQuiet(m: M, e: MotionEvent, t: Ref, c: Ref)
    requires WellFormed(e) && Held(m) && Silent(m)
    ensures Hushed(m, IdleDoing(m, e, t, c))
    decreases 3, 0
  {
    if e.action != Down {
    } else if |e.pointers| == 1 || !m.idleMultitouch {
      TransitionQuiet(m, StateSingleFingerPressing, e, t, c);
    } else {
      TransitionQuiet(m, StateMultipleFingersPressing, e, t, c);
    }
  }

  lemma SingleDoingQuiet(m: M, e: MotionEvent, t: Ref, c: Ref)
    requires WellFormed(e) && Held(m) && Silent(m)
    ensures Hushed(m, SingleDoing(m, e, t, c))
    decreases 2, 0
  {
    match e.action
    case PointerDown =>
      if m.single.multitouch {
        TransitionQuiet(m, StateMultipleFingersPressing, e, t, c);
      }
    case PointerUp =>
    case Down => SinglePressQuiet(m, e, t, c);
    case Move =>
      if SlopExceeded(Focus(e), m.single.start, m.config.touchSlopSquare) {
        TransitionQuiet(m, StateDrag, e, t, c);
      }
    case Up => SingleReleaseQuiet(m, e, t, c);
    case Cancel => TransitionQuiet(m, StateIdle, e, t, c);
    case Other(_) =>
  }

  lemma SinglePressQuiet(m: M, e: MotionEvent, t: Ref, c: Ref)
    requires WellFormed(e) && Held(m) && Silent(m)
    ensures Hushed(m, SinglePress(m, e, t, c))
    decreases 2, 0, 0
  {
    if !(DownCount(e) == 1 || !m.single.multitouch) {
      TransitionQuiet(HoldPress(m, e), StateMultipleFingersPressing, e, t, c);
    }
  }

  lemma SingleReleaseQuiet(m: M, e: MotionEvent, t: Ref, c: Ref)
    requires WellFormed(e) && e.action == Up && Held(m) && Silent(m)
    ensures Hushed(m, SingleRelease(m, e, t, c))
    decreases 2, 0, 0
  {
    if m.single.hadLongPress {
      TransitionQuiet(HoldRelease(m, e), StateIdle, e, t, c);
    }
  }

  lemma MultiEnterQuiet(m: M, e: MotionEvent, t: Ref, c: Ref)
    requires WellFormed(e) && Held(m) && Silent(m)
    ensures Hushed(m, MultiEnter(m, e, t, c))
    decreases Level(MultipleFingersPressing, e), 0
  {
    if e.action == Up || e.action == Cancel {
      TransitionQuiet(m, StateIdle, e, t, c);
    } else if DownCount(e) <= 1 {
      TransitionQuiet(m, StateSingleFingerPressing, e, t, c);
    }
  }

  lemma MultiDoingQuiet(m: M, e: MotionEvent, t: Ref, c: Ref)
    requires WellFormed(e) && Held(m) && Silent(m)
    ensures Hushed(m, MultiDoing(m, e, t, c))
    decreases 3, 1
  {
    match e.action
    case Move => MultiMoveQuiet(m, e, t, c);
    case PointerDown =>
    case PointerUp => MultiLiftQuiet(m, e, t, c);
    case Up => TransitionQuiet(m, StateIdle, e, t, c);
    case Cancel => TransitionQuiet(m, StateIdle, e, t, c);
    case Down =>
    case Other(_) =>
  }

  lemma MultiMoveQuiet(m: M, e: MotionEvent, t: Ref, c: Ref)
    requires WellFormed(e) && Held(m) && Silent(m)
    ensures Hushed(m, MultiMove(m, e, t, c))
    decreases 3, 0
  {
    if DownCount(e) < 2 {
      TransitionQuiet(m, StateSingleFingerPressing, e, t, c);
    } else {
      var m1 := m.(multi := m.multi.(stop := MoveHeld(m.multi.stop, Remaining(e))));
      if ConsideredPinch(m1.multi.start, m1.multi.stop, m.config.touchSlopSquare) {
        TransitionQuiet(m1, StatePinch, e, t, c);
      }
    }
  }

  lemma MultiLiftQuiet(m: M, e: MotionEvent, t: Ref, c: Ref)
    requires WellFormed(e) && Held(m) && Silent(m)
    ensures Hushed(m, MultiLift(m, e, t, c))
    decreases 3, 0
  {
    var upId := e.pointers[e.actionIndex].id;
    if DownCount(e) <= 1 {
      TransitionQuiet(m.(multi := Pointers(m.multi.start - {upId}, m.multi.stop - {upId})), StateSingleFingerPressing, e, t, c);
    }
  }

  lemma DragDoingQuiet(m: M, e: MotionEvent, t: Ref, c: Ref)
    requires WellFormed(e) && Held(m) && Silent(m)
    ensures Hushed(m, DragDoing(m, e, t, c))
    decreases 3, 0
  {
    match e.action
    case PointerDown =>
      if m.drag.multitouch {
        TransitionQuiet(m, StateMultipleFingersPressing, e, t, c);
      }
    case Up =>
      if |e.pointers| - 1 <= 0 {
        TransitionQuiet(m, StateIdle, e, t, c);
      }
    case Cancel => TransitionQuiet(m, StateIdle, e, t, c);
    case Move =>
    case Down =>
    case PointerUp =>
    case Other(_) =>
  }

  lemma PinchDoingQuiet(m: M, e: MotionEvent, t: Ref, c: Ref)
    requires WellFormed(e) && Held(m) && Silent(m)
    ensures Hushed(m, PinchDoing(m, e, t, c))
    decreases 3, 0
  {
    match e.action
    case Move =>
      if DownCount(e) < 2 {
        TransitionQuiet(m, StateSingleFingerPressing, e, t, c);
      }
    case PointerUp =>
      if DownCount(e) < 2 {
        TransitionQuiet(m, StateSingleFingerPressing, e, t, c);
      }
    case Up => TransitionQuiet(m, StateIdle, e, t, c);
    case Cancel => TransitionQuiet(m, StateIdle, e, t, c);
    case PointerDown =>
    case Down =>
    case Other(_) =>
  }

  lemma OnlySingleDoingQuiet(m: M, e: MotionEvent, t: Ref, c: Ref)
    requires WellFormed(e) && Held(m) && Silent(m)
    ensures Hushed(m, OnlySingleDoing(m, e, t, c))
    decreases 2, 0
  {
    match e.action
    case Move =>
      if SlopExceeded(Focus(e), m.onlySingle.start, m.config.touchSlopSquare) {
        TransitionQuiet(m, StateDrag, e, t, c);
      }
    case Up => TransitionQuiet(m, StateIdle, e, t, c);
    case Cancel => TransitionQuiet(m, StateIdle, e, t, c);
    case Down =>
    case PointerDown =>
    case PointerUp =>
    case Other(_) =>
  }

  lemma OnlyDragDoingQuiet(m: M, e: MotionEvent, t: Ref, c: Ref)
    requires WellFormed(e) && Held(m) && Silent(m)
    ensures Hushed(m, OnlyDragDoing(m, e, t, c))
    decreases 3, 0
  {
    match IndexOfId(e.pointers, m.onlyDrag.focusId)
    case None =>
    case Some(k) =>
      match e.action
      case PointerUp =>
        if e.actionIndex == k {
          TransitionQuiet(m, StateDrag, e, t, c);
        }
      case Up => TransitionQuiet(m, StateIdle, e, t, c);
      case Cancel => TransitionQuiet(m, StateIdle, e, t, c);
      case Move =>
      case Down =>
      case PointerDown =>
      case Other(_) =>
  }

  // ---------------------------------------------------------------------------
  // The silent owner and its twin with a listener.

  lemma EmitTwins(q: M, l: M, g: Gesture, ev: Option<MyMotionEvent>, t: Ref, c: Ref)
    requires Twins(q, l)
    ensures Twins(Emit(q, g, ev, t, c), Emit(l, g, ev, t, c))
  {
  }

  lemma EmitPinchTwins(q: M, l: M, call: PinchCall, ev: Option<MyMotionEvent>, t: Ref, c: Ref)
    requires Twins(q, l)
    ensures Mirrored(EmitPinch(q, call, ev, t, c), EmitPinch(l, call, ev, t, c))
  {
  }

  lemma SingleExitTwins(q: M, l: M, e: MotionEvent)
    requires Held(l) && Twins(q, l)
    ensures Mirrored(SingleExit(q, e), SingleExit(l, e))
  {
    var q1, l1 := CancelTimers(q), CancelTimers(l);
    assert Twins(q1, l1);
    var q2, l2 := ReportRelease(q1, e), ReportRelease(l1, e);
    if e.action == Up && q1.single.currentUp.Some? {
      var clone := Clone(q1, q1.single.currentUp.value);
      var s := q1.single;
      if s.longPressEnabled && s.hadLongPress {
        EmitTwins(q1, l1, LongTap, clone, s.touchingObject, s.touchingContext);
      } else if s.tapEnabled && s.tapCount > 0 {
        EmitTwins(q1, l1, TapGesture(s.tapCount), clone, s.touchingObject, s.touchingContext);
      }
    }
    assert Twins(q2, l2);
  }

  lemma DragExitTwins(q: M, l: M, e: MotionEvent, t: Ref, c: Ref)
    requires WellFormed(e) && Twins(q, l)
    ensures Mirrored(DragExit(q, e, t, c), DragExit(l, e, t, c))
  {
    var clone := Clone(q, e);
    var q1, l1 := q, l;
    if IsConsideredFling(e, q.config.minFlingVelocity, q.config.maxFlingVelocity) {
      EmitTwins(q, l, DragFling(Origin, Origin, 0.0, 0.0), clone, t, c);
      q1, l1 := Emit(q, DragFling(Origin, Origin, 0.0, 0.0), clone, t, c), Emit(l, DragFling(Origin, Origin, 0.0, 0.0), clone, t, c);
    }
    EmitTwins(q1, l1, DragEnd(q.drag.start, First(e)), clone, t, c);
  }

  lemma OnlyDragExitTwins(q: M, l: M, e: MotionEvent, t: Ref, c: Ref)
    requires WellFormed(e) && Twins(q, l)
    ensures Mirrored(OnlyDragExit(q, e, t, c), OnlyDragExit(l, e, t, c))
  {
    match IndexOfId(e.pointers, q.onlyDrag.focusId)
    case None =>
    case Some(k) =>
      var start, stop := q.onlyDrag.start, PointOf(e.pointers[k]);
      var clone := Some(Snapshot(e));
      var q1, l1 := q, l;
      if IsConsideredFling(e, q.config.minFlingVelocity, q.config.maxFlingVelocity) {
        EmitTwins(q, l, DragFling(start, stop, 0.0, 0.0), clone, t, c);
        q1, l1 := Emit(q, DragFling(start, stop, 0.0, 0.0), clone, t, c), Emit(l, DragFling(start, stop, 0.0, 0.0), clone, t, c);
      }
      EmitTwins(q1, l1, DragEnd(start, stop), clone, t, c);
  }

  lemma PinchExitTwins(q: M, l: M, e: MotionEvent, t: Ref, c: Ref)
    requires WellFormed(e) && Twins(q, l)
    ensures Mirrored(PinchExit(q, e, t, c), PinchExit(l, e, t, c))
  {
    EmitPinchTwins(q, l, Ends, Clone(q, e), t, c);
  }

  lemma ExitTwins(q: M, l: M, e: MotionEvent, t: Ref, c: Ref)
    requires WellFormed(e) && Held(l) && Twins(q, l)
    ensures Mirrored(Exit(q, e, t, c), Exit(l, e, t, c))
  {
    match q.cur
    case Idle | IdleForDragOnly =>
      EmitTwins(q, l, ActionBegin, Some(Snapshot(e)), t, c);
    case SingleFingerPressing => SingleExitTwins(q, l, e);
    case SingleFingerPressingForDragOnly =>
    case MultipleFingersPressing =>
    case Drag => DragExitTwins(q, l, e, t, c);
    case Pinch => PinchExitTwins(q, l, e, t, c);
    case DragForDragOnly => OnlyDragExitTwins(q, l, e, t, c);
  }

  /** A transition: unless the listener's exit faulted, the exits agree and the same instance is entered on both sides. */
  lemma TransitionTwins(q: M, l: M, tag: Tag, e: MotionEvent, t: Ref, c: Ref)
    requires WellFormed(e) && Held(l) && Twins(q, l)
    ensures Mirrored(Transition(q, tag, e, t, c), Transition(l, tag, e, t, c))
    decreases TagLevel(q.variant, tag, e), 2
  {
    ExitTwins(q, l, e, t, c);
    TransitionResolved(l, tag, e, t, c);
    var xl := Exit(l, e, t, c);
    if xl.fault.None? {
      TransitionResolved(q, tag, e, t, c);
      var xq := Exit(q, e, t, c);
      match Resolve(q.variant, tag)
      case None =>
      case Some(next) => EnterTwins(xq.(cur := next), xl.(cur := next), next, e, t, c);
    }
  }

  lemma EnterTwins(q: M, l: M, inst: Inst, e: MotionEvent, t: Ref, c: Ref)
    requires WellFormed(e) && Held(l) && Twins(q, l)
    ensures Mirrored(Enter(q, inst, e, t, c), Enter(l, inst, e, t, c))
    decreases Level(inst, e), 1
  {
    match inst
    case Idle => EmitTwins(q, l, ActionEnd, Some(Snapshot(e)), t, c);
    case IdleForDragOnly => EmitTwins(q, l, ActionEnd, Some(Snapshot(e)), t, c);
    case SingleFingerPressing =>
      var s := q.single.(tapCount := 0, hadLongPress := false, touchingObject := t, touchingContext := c);
      SingleDoingTwins(q.(single := s), l.(single := s), e, t, c);
    case SingleFingerPressingForDragOnly =>
      var s := q.onlySingle.(tapCount := 0, hadLongPress := false, touchingObject := t, touchingContext := c);
      OnlySingleDoingTwins(q.(onlySingle := s), l.(onlySingle := s), e, t, c);
    case MultipleFingersPressing => MultiEnterTwins(q, l, e, t, c);
    case Drag =>
      var d := q.drag.(start := First(e));
      EmitTwins(q.(drag := d), l.(drag := d), DragBegin, Clone(q, e), t, c);
    case Pinch =>
      EmitPinchTwins(Restart(q, e), Restart(l, e), Begins, Clone(q, e), t, c);
    case DragForDragOnly =>
      var id := FocusIdOnEnter(e);
      FocusIdPresent(e);
      var k := IndexOfId(e.pointers, id).value;
      var d := DraggingForDragOnly(id, PointOf(e.pointers[k]));
      EmitTwins(q.(onlyDrag := d), l.(onlyDrag := d), DragBegin, Some(Snapshot(e)), t, c);
  }

  lemma DoingTwins(q: M, l: M, e: MotionEvent, t: Ref, c: Ref)
    requires WellFormed(e) && Held(l) && Twins(q, l)
    ensures Mirrored(Doing(q, e, t, c), Doing(l, e, t, c))
    decreases 4, 0
  {
    match q.cur
    case Idle => IdleDoingTwins(q, l, e, t, c);
    case IdleForDragOnly =>
      if e.action == Down {
        TransitionTwins(q, l, StateSingleFingerPressing, e, t, c);
      }
    case SingleFingerPressing => SingleDoingTwins(q, l, e, t, c);
    case SingleFingerPressingForDragOnly => OnlySingleDoingTwins(q, l, e, t, c);
    case MultipleFingersPressing => MultiDoingTwins(q, l, e, t, c);
    case Drag => DragDoingTwins(q, l, e, t, c);
    case Pinch => PinchDoingTwins(q, l, e, t, c);
    case DragForDragOnly => OnlyDragDoingTwins(q, l, e, t, c);
  }

  lemma IdleDoingTwins(q: M, l: M, e: MotionEvent, t: Ref, c: Ref)
    requires WellFormed(e) && Held(l) && Twins(q, l)
    ensures Mirrored(IdleDoing(q, e, t, c), IdleDoing(l, e, t, c))
    decreases 3, 0
  {
    if e.action != Down {
    } else if |e.pointers| == 1 || !q.idleMultitouch {
      TransitionTwins(q, l, StateSingleFingerPressing, e, t, c);
    } else {
      TransitionTwins(q, l, StateMultipleFingersPressing, e, t, c);
    }
  }

  lemma SingleDoingTwins(q: M, l: M, e: MotionEvent, t: Ref, c: Ref)
    requires WellFormed(e) && Held(l) && Twins(q, l)
    ensures Mirrored(SingleDoing(q, e, t, c), SingleDoing(l, e, t, c))
    decreases 2, 0
  {
    match e.action
    case PointerDown =>
      if q.single.multitouch {
        TransitionTwins(q, l, StateMultipleFingersPressing, e, t, c);
      }
    case PointerUp =>
    case Down => SinglePressTwins(q, l, e, t, c);
    case Move =>
      if SlopExceeded(Focus(e), q.single.start, q.config.touchSlopSquare) {
        TransitionTwins(q, l, StateDrag, e, t, c);
      }
    case Up => SingleReleaseTwins(q, l, e, t, c);
    case Cancel => TransitionTwins(q, l, StateIdle, e, t, c);
    case Other(_) =>
  }

  lemma ArmTimersTwins(q: M, l: M, e: MotionEvent, focus: Point, t: Ref, c: Ref)
    requires WellFormed(e) && Held(q) && Held(l) && Twins(q, l)
    ensures Twins(ArmTimers(q, e, focus, t, c), ArmTimers(l, e, focus, t, c))
  {
  }

  lemma SinglePressTwins(q: M, l: M, e: MotionEvent, t: Ref, c: Ref)
    requires WellFormed(e) && Held(l) && Twins(q, l)
    ensures Mirrored(SinglePress(q, e, t, c), SinglePress(l, e, t, c))
    decreases 2, 0, 0
  {
    assert q.single == l.single;
    var q1, l1 := HoldPress(q, e), HoldPress(l, e);
    assert Twins(q1, l1);
    if DownCount(e) == 1 || !q.single.multitouch {
      ArmTimersTwins(q1, l1, e, Focus(e), t, c);
    } else {
      TransitionTwins(q1, l1, StateMultipleFingersPressing, e, t, c);
    }
  }

  lemma SingleReleaseTwins(q: M, l: M, e: MotionEvent, t: Ref, c: Ref)
    requires WellFormed(e) && e.action == Up && Held(l) && Twins(q, l)
    ensures Mirrored(SingleRelease(q, e, t, c), SingleRelease(l, e, t, c))
    decreases 2, 0, 0
  {
    var q1, l1 := HoldRelease(q, e), HoldRelease(l, e);
    assert Twins(q1, l1);
    if q.single.hadLongPress {
      TransitionTwins(q1, l1, StateIdle, e, t, c);
    } else {
      assert Twins(DeferTap(q1, e, t, c), DeferTap(l1, e, t, c));
    }
  }

  lemma MultiEnterTwins(q: M, l: M, e: MotionEvent, t: Ref, c: Ref)
    requires WellFormed(e) && Held(l) && Twins(q, l)
    ensures Mirrored(MultiEnter(q, e, t, c), MultiEnter(l, e, t, c))
    decreases Level(MultipleFingersPressing, e), 0
  {
    if e.action == Up || e.action == Cancel {
      TransitionTwins(q, l, StateIdle, e, t, c);
    } else if DownCount(e) > 1 {
    } else {
      TransitionTwins(q, l, StateSingleFingerPressing, e, t, c);
    }
  }

  lemma MultiDoingTwins(q: M, l: M, e: MotionEvent, t: Ref, c: Ref)
    requires WellFormed(e) && Held(l) && Twins(q, l)
    ensures Mirrored(MultiDoing(q, e, t, c), MultiDoing(l, e, t, c))
    decreases 3, 1
  {
    match e.action
    case Move => MultiMoveTwins(q, l, e, t, c);
    case PointerDown =>
    case PointerUp => MultiLiftTwins(q, l, e, t, c);
    case Up => TransitionTwins(q, l, StateIdle, e, t, c);
    case Cancel => TransitionTwins(q, l, StateIdle, e, t, c);
    case Down =>
    case Other(_) =>
  }

  lemma MultiMoveTwins(q: M, l: M, e: MotionEvent, t: Ref, c: Ref)
    requires WellFormed(e) && Held(l) && Twins(q, l)
    ensures Mirrored(MultiMove(q, e, t, c), MultiMove(l, e, t, c))
    decreases 3, 0
  {
    if DownCount(e) < 2 {
      TransitionTwins(q, l, StateSingleFingerPressing, e, t, c);
    } else {
      var stop := MoveHeld(q.multi.stop, Remaining(e));
      var q1, l1 := q.(multi := q.multi.(stop := stop)), l.(multi := l.multi.(stop := stop));
      if ConsideredPinch(q1.multi.start, q1.multi.stop, q.config.touchSlopSquare) {
        TransitionTwins(q1, l1, StatePinch, e, t, c);
      }
    }
  }

  lemma MultiLiftTwins(q: M, l: M, e: MotionEvent, t: Ref, c: Ref)
    requires WellFormed(e) && Held(l) && Twins(q, l)
    ensures Mirrored(MultiLift(q, e, t, c), MultiLift(l, e, t, c))
    decreases 3, 0
  {
    var upId := e.pointers[e.actionIndex].id;
    var held := Pointers(q.multi.start - {upId}, q.multi.stop - {upId});
    if DownCount(e) <= 1 {
      TransitionTwins(q.(multi := held), l.(multi := held), StateSingleFingerPressing, e, t, c);
    }
  }

  lemma DragDoingTwins(q: M, l: M, e: MotionEvent, t: Ref, c: Ref)
    requires WellFormed(e) && Held(l) && Twins(q, l)
    ensures Mirrored(DragDoing(q, e, t, c), DragDoing(l, e, t, c))
    decreases 3, 0
  {
    match e.action
    case PointerDown =>
      if q.drag.multitouch {
        TransitionTwins(q, l, StateMultipleFingersPressing, e, t, c);
      }
    case Move => EmitTwins(q, l, Gesture.Drag(q.drag.start, First(e)), Clone(q, e), t, c);
    case Up =>
      if |e.pointers| - 1 <= 0 {
        TransitionTwins(q, l, StateIdle, e, t, c);
      }
    case Cancel => TransitionTwins(q, l, StateIdle, e, t, c);
    case Down =>
    case PointerUp =>
    case Other(_) =>
  }

  lemma PinchMoveTwins(q: M, l: M, e: MotionEvent, t: Ref, c: Ref)
    requires WellFormed(e) && Twins(q, l)
    ensures Mirrored(PinchMove(q, e, t, c), PinchMove(l, e, t, c))
  {
    var pinch := q.pinch;
    if |pinch.order| >= 2 && |e.pointers| >= 2 && pinch.order[0] in pinch.stop && pinch.order[1] in pinch.stop {
      var a, b := pinch.order[0], pinch.order[1];
      var p := pinch.(stop := pinch.stop[a := PointOf(e.pointers[0])][b := PointOf(e.pointers[1])]);
      EmitPinchTwins(q.(pinch := p), l.(pinch := p), Moves, Clone(q, e), t, c);
    }
  }

  lemma RestartTwins(q: M, l: M, e: MotionEvent)
    requires WellFormed(e) && Twins(q, l)
    ensures Twins(Restart(q, e), Restart(l, e))
  {
  }

  /** An anchor going up: the end, then (unless the listener's run faulted there) a begin on the fingers left. */
  lemma AnchorLiftTwins(q: M, l: M, e: MotionEvent, t: Ref, c: Ref)
    requires WellFormed(e) && Twins(q, l)
    ensures var q1, l1 := EmitPinch(q, Ends, Clone(q, e), t, c), EmitPinch(l, Ends, Clone(q, e), t, c);
      Mirrored(if q1.fault.Some? then q1 else EmitPinch(Restart(q1, e), Begins, Clone(q, e), t, c),
               if l1.fault.Some? then l1 else EmitPinch(Restart(l1, e), Begins, Clone(q, e), t, c))
  {
    EmitPinchTwins(q, l, Ends, Clone(q, e), t, c);
    var q1, l1 := EmitPinch(q, Ends, Clone(q, e), t, c), EmitPinch(l, Ends, Clone(q, e), t, c);
    if l1.fault.None? {
      RestartTwins(q1, l1, e);
      EmitPinchTwins(Restart(q1, e), Restart(l1, e), Begins, Clone(q, e), t, c);
    }
  }

  lemma PinchLiftTwins(q: M, l: M, e: MotionEvent, t: Ref, c: Ref)
    requires WellFormed(e) && Twins(q, l)
    ensures Mirrored(PinchLift(q, e, t, c), PinchLift(l, e, t, c))
  {
    var upId := e.pointers[e.actionIndex].id;
    var index := IndexOf(q.pinch.order, upId);
    if index != -1 && index < 2 {
      AnchorLiftTwins(q, l, e, t, c);
    }
  }

  lemma PinchDoingTwins(q: M, l: M, e: MotionEvent, t: Ref, c: Ref)
    requires WellFormed(e) && Held(l) && Twins(q, l)
    ensures Mirrored(PinchDoing(q, e, t, c), PinchDoing(l, e, t, c))
    decreases 3, 0
  {
    match e.action
    case Move =>
      if DownCount(e) < 2 {
        TransitionTwins(q, l, StateSingleFingerPressing, e, t, c);
      } else {
        PinchMoveTwins(q, l, e, t, c);
      }
    case PointerDown =>
    case PointerUp =>
      if DownCount(e) >= 2 {
        PinchLiftTwins(q, l, e, t, c);
      } else {
        TransitionTwins(q, l, StateSingleFingerPressing, e, t, c);
      }
    case Up => TransitionTwins(q, l, StateIdle, e, t, c);
    case Cancel => TransitionTwins(q, l, StateIdle, e, t, c);
    case Down =>
    case Other(_) =>
  }

  lemma OnlySingleDoingTwins(q: M, l: M, e: MotionEvent, t: Ref, c: Ref)
    requires WellFormed(e) && Held(l) && Twins(q, l)
    ensures Mirrored(OnlySingleDoing(q, e, t, c), OnlySingleDoing(l, e, t, c))
    decreases 2, 0
  {
    match e.action
    case Move =>
      if SlopExceeded(Focus(e), q.onlySingle.start, q.config.touchSlopSquare) {
        TransitionTwins(q, l, StateDrag, e, t, c);
      }
    case Up => TransitionTwins(q, l, StateIdle, e, t, c);
    case Cancel => TransitionTwins(q, l, StateIdle, e, t, c);
    case Down =>
    case PointerDown =>
    case PointerUp =>
    case Other(_) =>
  }

  lemma OnlyDragDoingTwins(q: M, l: M, e: MotionEvent, t: Ref, c: Ref)
    requires WellFormed(e) && Held(l) && Twins(q, l)
    ensures Mirrored(OnlyDragDoing(q, e, t, c), OnlyDragDoing(l, e, t, c))
    decreases 3, 0
  {
    match IndexOfId(e.pointers, q.onlyDrag.focusId)
    case None =>
    case Some(k) =>
      match e.action
      case PointerUp =>
        if e.actionIndex == k {
          TransitionTwins(q, l, StateDrag, e, t, c);
        }
      case Move => EmitTwins(q, l, Gesture.Drag(q.onlyDrag.start, PointOf(e.pointers[k])), Some(Snapshot(e)), t, c);
      case Up => TransitionTwins(q, l, StateIdle, e, t, c);
      case Cancel => TransitionTwins(q, l, StateIdle, e, t, c);
      case Down =>
      case PointerDown =>
      case Other(_) =>
  }

  // ---------------------------------------------------------------------------
  // The owner's entry points.

  /**
   * onTouchEvent of a Kotlin owner without a listener logs nothing, and unless
   * the same owner with a listener would fault it ends in the state that one does.
   */
  lemma KotlinWithoutListenerIsSilent(m: M, e: MotionEvent, t: Ref, c: Ref)
    requires WellFormed(e) && Held(m) && m.variant != Legacy && !m.listener
    ensures var q, l := OnTouchEvent(m, e, t, c), OnTouchEvent(m.(listener := true), e, t, c);
      && q.log == m.log && !q.listener
      && (l.fault.None? ==> q == l.(listener := false, log := m.log))
  {
    if m.fault.None? {
      DoingQuiet(m, e, t, c);
      DoingTwins(m, m.(listener := true), e, t, c);
    }
  }

  /** The same for a Handler message: the long press is not reported, and the tap message ends the gesture alike. */
  lemma KotlinWithoutListenerIsSilentOnMessage(m: M, i: int)
    requires Held(m) && 0 <= i < |m.pending| && m.variant != Legacy && !m.listener
    ensures var q, l := Deliver(m, i), Deliver(m.(listener := true), i);
      && q.log == m.log && !q.listener
      && (l.fault.None? ==> q == l.(listener := false, log := m.log))
  {
    if m.fault.None? {
      var q, msg := m.(pending := m.pending[..i] + m.pending[i + 1..]), m.pending[i];
      if q.cur == SingleFingerPressing && msg.what == MSG_TAP && q.single.currentUp.Some? {
        var s := q.single;
        TransitionQuiet(q, StateIdle, s.currentUp.value, s.touchingObject, s.touchingContext);
        TransitionTwins(q, q.(listener := true), StateIdle, s.currentUp.value, s.touchingObject, s.touchingContext);
      }
    }
  }
}
