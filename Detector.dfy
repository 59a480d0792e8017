/**
 * The owner of the states as an object: GestureDetector (Kotlin or the legacy
 * Java one, or an owner that asks GesturePolicy for its DRAG_ONLY states). Its
 * fields are the owner's current state, its listener, its Handler queue and the
 * fields of each state instance; each method is one hook of one state, run on
 * those fields in the order the source runs it, and is proved to leave the
 * detector in the state the hook's specification function in Recognizer
 * describes. An exception the source would throw is recorded in `fault`.
 */
module Detector {
  import opened Wrappers
  import opened Events
  import opened Snapshots
  import opened Callbacks
  import opened Policy
  import opened PointerMaps
  import opened Recognizer
  import opened Settings

  /**
   * The focus pointer DragStateForDragOnly picks on entry: on POINTER_UP the
   * first pointer in index order that is not the lifted one, otherwise the
   * pointer the action is about.
   */
  method FindFocusId(e: MotionEvent) returns (id: int)
    requires WellFormed(e)
    ensures id == FocusIdOnEnter(e)
  {
    if e.action != PointerUp {
      return e.pointers[e.actionIndex].id;
    }
    var upIndex := e.actionIndex;
    var i := 0;
    while i < |e.pointers| && i == upIndex
      invariant 0 <= i <= 1
      invariant i == 1 ==> upIndex == 0
    {
      i := i + 1;
    }
    id := e.pointers[i].id;
  }

  class GestureDetector {
    const variant: Variant
    const config: Config
    var listener: bool
    var cur: Inst
    var idleMultitouch: bool
    var single: Pressing
    var multi: Pointers
    var drag: Dragging
    var pinch: Pinching
    var onlySingle: PressingForDragOnly
    var onlyDrag: DraggingForDragOnly
    var pending: seq<Message>
    var log: seq<Callback>
    var fault: Option<Fault>

    /** The detector's fields as one record. */
    function Model(): M
      reads this
    {
      M(variant, config, listener, cur, idleMultitouch, single, multi, drag, pinch, onlySingle, onlyDrag, pending, log, fault)
    }

    /**
     * `init`: thresholds from the arguments and the platform, every state
     * instance as its constructor leaves it, the idle state current.
     */
    constructor (variant: Variant, touchSlop: real, tapSlop: real, minFlingVec: real, maxFlingVec: real, p: Platform, listener: bool)
      ensures Model() == Initial(variant, InitConfig(touchSlop, tapSlop, minFlingVec, maxFlingVec, p), listener)
    {
      var init := Initial(variant, InitConfig(touchSlop, tapSlop, minFlingVec, maxFlingVec, p), listener);
      this.variant := variant;
      config := init.config;
      this.listener := listener;
      cur := Idle;
      idleMultitouch := true;
      single := init.single;
      multi := init.multi;
      drag := init.drag;
      pinch := init.pinch;
      onlySingle := init.onlySingle;
      onlyDrag := init.onlyDrag;
      pending := [];
      log := [];
      fault := None;
    }

    // --- The owner's setters ---------------------------------------------------

    /** The Kotlin owner's `listener` property; the Java detector's listener is final. */
    method SetListener(attached: bool)
      requires variant != Legacy
      modifies this
      ensures Model() == old(Model()).(listener := attached)
    {
      listener := attached;
    }

    method SetIsTapEnabled(enabled: bool)
      modifies this
      ensures Model() == SetTapEnabled(old(Model()), enabled)
    {
      single := single.(tapEnabled := enabled);
    }

    /** setIsLongPressEnabled, writing the long-press switch (see Findings for the Kotlin text). */
    method SetIsLongPressEnabled(enabled: bool)
      modifies this
      ensures Model() == SetLongPressEnabled(old(Model()), enabled)
    {
      single := single.(longPressEnabled := enabled);
    }

    /** Kotlin only: the Java detector has no multi-touch switch. */
    method SetIsMultitouchEnabled(enabled: bool)
      requires variant != Legacy
      modifies this
      ensures Model() == SetMultitouchEnabled(old(Model()), enabled)
    {
      single := single.(multitouch := enabled);
      idleMultitouch := enabled;
      drag := drag.(multitouch := enabled);
    }

    /** Kotlin only: the Java detector has no resetConfig. */
    method ResetConfig()
      requires variant != Legacy
      modifies this
      ensures Model() == Settings.ResetConfig(old(Model()))
    {
      single := single.(longPressEnabled := true, tapEnabled := true);
      single := single.(multitouch := true);
      idleMultitouch := true;
      drag := drag.(multitouch := true);
    }

    // --- Entry points ----------------------------------------------------------

    /** onTouchEvent: the current state handles the event; the result is whether taps or long presses are on. */
    method OnTouchEvent(e: MotionEvent, t: Ref, c: Ref) returns (consumed: bool)
      requires WellFormed(e) && Held(Model())
      modifies this
      ensures Model() == Recognizer.OnTouchEvent(old(Model()), e, t, c)
      ensures consumed == Consumed(Model())
      ensures Held(Model())
    {
      if fault.None? {
        Doing(e, t, c);
      }
      consumed := single.tapEnabled || single.longPressEnabled;
    }

    /**
     * handleMessage: the Handler takes the pending message at `i` off its queue
     * and the current state handles it; the result is whether that state
     * consumed it (nothing is consumed once the owner has faulted).
     */
    method HandleMessageAt(i: int) returns (handled: bool)
      requires Held(Model()) && 0 <= i < |pending|
      modifies this
      ensures Model() == Deliver(old(Model()), i)
      ensures Held(Model())
      ensures handled <==> (old(fault).None? &&
        (old(cur) == Idle || old(cur) == IdleForDragOnly
         || (old(cur) == SingleFingerPressing && (old(pending)[i].what == MSG_TAP || old(pending)[i].what == MSG_LONG_PRESS))))
    {
      handled := false;
      if fault.None? {
        var msg := pending[i];
        pending := pending[..i] + pending[i + 1..];
        handled := HandleMessage(msg);
      }
    }

    // --- Calls into the listener -----------------------------------------------

    method Emit(g: Gesture, ev: Option<MyMotionEvent>, t: Ref, c: Ref)
      modifies this
      ensures Model() == Recognizer.Emit(old(Model()), g, ev, t, c)
    {
      if !listener {
        if variant == Legacy {
          fault := Some(NullPointer);
        }
        return;
      }
      log := log + [Callback(g, ev, t, c)];
    }

    /** The snapshot a callback carries: obtainMyMotionEvent, none from the legacy states. */
    method Clone(e: MotionEvent) returns (r: Option<MyMotionEvent>)
      requires WellFormed(e)
      ensures r == Recognizer.Clone(Model(), e)
    {
      if variant == Legacy {
        r := None;
      } else {
        var s := ObtainMyMotionEvent(e);
        r := Some(s);
      }
    }

    method EmitPinch(call: PinchCall, ev: Option<MyMotionEvent>, t: Ref, c: Ref)
      modifies this
      ensures Model() == Recognizer.EmitPinch(old(Model()), call, ev, t, c)
    {
      if variant != Legacy && !listener {
        return;
      }
      if |pinch.order| < 2 {
        fault := Some(IndexOutOfRange);
        return;
      }
      Emit(PinchGesture(call, pinch), ev, t, c);
    }

    // --- issueStateTransition and the dispatch to the current state ------------

    method Transition(tag: Tag, e: MotionEvent, t: Ref, c: Ref)
      requires WellFormed(e) && Held(Model())
      modifies this
      decreases TagLevel(variant, tag, e), 2
      ensures Model() == Recognizer.Transition(old(Model()), tag, e, t, c)
    {
      Exit(e, t, c);
      if fault.Some? {
        return;
      }
      var next := Resolve(variant, tag);
      if next.None? {
        fault := Some(NoPoolEntry);
        return;
      }
      cur := next.value;
      Enter(next.value, e, t, c);
    }

    /** onEnter of the instance `inst`. */
    method Enter(inst: Inst, e: MotionEvent, t: Ref, c: Ref)
      requires WellFormed(e) && Held(Model())
      modifies this
      decreases Level(inst, e), 1
      ensures Model() == Recognizer.Enter(old(Model()), inst, e, t, c)
    {
      match inst
      case Idle =>
        IdleEnter(e, t, c);
      case IdleForDragOnly =>
        var s := ObtainMyMotionEvent(e);
        Emit(ActionEnd, Some(s), t, c);
      case SingleFingerPressing =>
        single := single.(tapCount := 0, hadLongPress := false, touchingObject := t, touchingContext := c);
        SingleDoing(e, t, c);
      case SingleFingerPressingForDragOnly =>
        onlySingle := onlySingle.(tapCount := 0, hadLongPress := false, touchingObject := t, touchingContext := c);
        OnlySingleDoing(e, t, c);
      case MultipleFingersPressing =>
        MultiEnter(e, t, c);
      case Drag =>
        DragEnter(e, t, c);
      case Pinch =>
        PinchEnter(e, t, c);
      case DragForDragOnly =>
        OnlyDragEnter(e, t, c);
    }

    method IdleEnter(e: MotionEvent, t: Ref, c: Ref)
      requires WellFormed(e)
      modifies this
      ensures Model() == Recognizer.IdleEnter(old(Model()), e, t, c)
    {
      if variant == Legacy {
        Emit(ActionEnd, None, Null, Null);
      } else {
        var s := ObtainMyMotionEvent(e);
        Emit(ActionEnd, Some(s), t, c);
      }
    }

    method DragEnter(e: MotionEvent, t: Ref, c: Ref)
      requires WellFormed(e)
      modifies this
      ensures Model() == Recognizer.DragEnter(old(Model()), e, t, c)
    {
      var ev := Clone(e);
      drag := drag.(start := First(e));
      Emit(DragBegin, ev, t, c);
    }

    /** onExit of the current state. */
    method Exit(e: MotionEvent, t: Ref, c: Ref)
      requires WellFormed(e) && Held(Model())
      modifies this
      ensures Model() == Recognizer.Exit(old(Model()), e, t, c)
    {
      match cur
      case Idle => IdleExit(e, t, c);
      case IdleForDragOnly => IdleExit(e, t, c);
      case SingleFingerPressing => SingleExit(e);
      case SingleFingerPressingForDragOnly =>
      case MultipleFingersPressing => multi := Pointers(map[], map[]);
      case Drag => DragExit(e, t, c);
      case Pinch => PinchExit(e, t, c);
      case DragForDragOnly => OnlyDragExit(e, t, c);
    }

    /** onDoing of the current state. */
    method Doing(e: MotionEvent, t: Ref, c: Ref)
      requires WellFormed(e) && Held(Model())
      modifies this
      decreases 4, 0
      ensures Model() == Recognizer.Doing(old(Model()), e, t, c)
    {
      match cur
      case Idle => IdleDoing(e, t, c);
      case IdleForDragOnly =>
        if e.action == Down {
          Transition(StateSingleFingerPressing, e, t, c);
        }
      case SingleFingerPressing => SingleDoing(e, t, c);
      case SingleFingerPressingForDragOnly => OnlySingleDoing(e, t, c);
      case MultipleFingersPressing => MultiDoing(e, t, c);
      case Drag => DragDoing(e, t, c);
      case Pinch => PinchDoing(e, t, c);
      case DragForDragOnly => OnlyDragDoing(e, t, c);
    }

    /** onHandleMessage of the current state; the result says whether the message was handled. */
    method HandleMessage(msg: Message) returns (handled: bool)
      requires Held(Model())
      modifies this
      ensures (Model(), handled) == Recognizer.HandleMessage(old(Model()), msg)
    {
      handled := true;
      match cur
      case Idle =>
      case IdleForDragOnly =>
      case SingleFingerPressing =>
        if msg.what == MSG_LONG_PRESS {
          pending := RemoveMessages(pending, MSG_TAP);
          single := single.(hadLongPress := true);
          if single.longPressEnabled && listener {
            Emit(LongPress, msg.payload.event, msg.payload.target, msg.payload.context);
          }
        } else if msg.what == MSG_TAP {
          if single.currentUp.Some? {
            Transition(StateIdle, single.currentUp.value, single.touchingObject, single.touchingContext);
          } else if variant == Legacy {
            fault := Some(NullPointer);
          }
        } else {
          handled := false;
        }
      case _ =>
        handled := false;
    }

    // --- IdleState -------------------------------------------------------------

    method IdleDoing(e: MotionEvent, t: Ref, c: Ref)
      requires WellFormed(e) && Held(Model())
      modifies this
      decreases 3, 0
      ensures Model() == Recognizer.IdleDoing(old(Model()), e, t, c)
    {
      if e.action != Down {
        return;
      }
      if |e.pointers| == 1 || (variant != Legacy && !idleMultitouch) {
        Transition(StateSingleFingerPressing, e, t, c);
      } else {
        Transition(StateMultipleFingersPressing, e, t, c);
      }
    }

    method IdleExit(e: MotionEvent, t: Ref, c: Ref)
      requires WellFormed(e)
      modifies this
      ensures Model() == Recognizer.IdleExit(old(Model()), e, t, c)
    {
      if variant == Legacy {
        Emit(ActionBegin, None, Null, Null);
      } else {
        var s := ObtainMyMotionEvent(e);
        Emit(ActionBegin, Some(s), t, c);
      }
    }

    // --- SingleFingerPressingState ---------------------------------------------

    method SingleDoing(e: MotionEvent, t: Ref, c: Ref)
      requires WellFormed(e) && Held(Model())
      modifies this
      decreases 2, 0
      ensures Model() == Recognizer.SingleDoing(old(Model()), e, t, c)
    {
      var focus := ComputeFocus(e);
      match e.action
      case PointerDown =>
        if variant == Legacy || single.multitouch {
          Transition(StateMultipleFingersPressing, e, t, c);
        }
      case PointerUp =>
        single := single.(start := focus);
      case Down =>
        SinglePress(e, focus, t, c);
      case Move =>
        if SlopExceeded(focus, single.start, config.touchSlopSquare) {
          Transition(StateDrag, e, t, c);
        }
      case Up =>
        SingleRelease(e, t, c);
      case Cancel =>
        Transition(StateIdle, e, t, c);
      case Other(_) =>
    }

    method SinglePress(e: MotionEvent, focus: Point, t: Ref, c: Ref)
      requires WellFormed(e) && Held(Model()) && focus == Focus(e)
      modifies this
      decreases 2, 0, 0
      ensures Model() == Recognizer.SinglePress(old(Model()), e, t, c)
    {
      var multitouch := variant == Legacy || single.multitouch;
      HoldPress(e);
      if DownCount(e) == 1 || !multitouch {
        ArmTimers(e, focus, t, c);
      } else {
        Transition(StateMultipleFingersPressing, e, t, c);
      }
    }

    method SingleRelease(e: MotionEvent, t: Ref, c: Ref)
      requires WellFormed(e) && e.action == Up && Held(Model())
      modifies this
      decreases 2, 0, 0
      ensures Model() == Recognizer.SingleRelease(old(Model()), e, t, c)
    {
      var hadLongPress := single.hadLongPress;
      HoldRelease(e);
      if hadLongPress {
        Transition(StateIdle, e, t, c);
      } else {
        DeferTap(e, t, c);
      }
    }

    method HoldPress(e: MotionEvent)
      requires WellFormed(e) && Held(Model())
      modifies this
      ensures Model() == Recognizer.HoldPress(old(Model()), e)
    {
      single := single.(previousDown := single.currentDown, currentDown := Some(e));
    }

    method ArmTimers(e: MotionEvent, focus: Point, t: Ref, c: Ref)
      requires WellFormed(e) && Held(Model())
      modifies this
      ensures Model() == Recognizer.ArmTimers(old(Model()), e, focus, t, c)
    {
      var q := RemoveMessages(pending, MSG_TAP);
      if single.longPressEnabled {
        var ev := Clone(e);
        var due := AtTime(e.downTime + config.tapTimeout + config.longPressTimeout);
        q := RemoveMessages(q, MSG_LONG_PRESS) + [Message(MSG_LONG_PRESS, Payload(ev, t, c), due)];
      }
      single, pending := single.(start := focus), q;
    }

    method HoldRelease(e: MotionEvent)
      requires WellFormed(e) && e.action == Up && Held(Model())
      modifies this
      ensures Model() == Recognizer.HoldRelease(old(Model()), e)
    {
      single := single.(currentUp := Some(e));
    }

    method DeferTap(e: MotionEvent, t: Ref, c: Ref)
      requires WellFormed(e) && Held(Model())
      modifies this
      ensures Model() == Recognizer.DeferTap(old(Model()), e, t, c)
    {
      var ev := Clone(e);
      var q := RemoveMessages(pending, MSG_LONG_PRESS) + [Message(MSG_TAP, Payload(ev, t, c), Delayed(config.tapTimeout))];
      if IsConsideredCloseTap(single.previousDown, single.currentDown, config.tapSlopSquare) {
        single := single.(tapCount := single.tapCount + 1, hadLongPress := false);
      } else {
        single := single.(hadLongPress := false);
      }
      pending := q;
    }

    /** The tap callback onExit sends on ACTION_UP. */
    method TapCallback(clone: Option<MyMotionEvent>)
      modifies this
      ensures Model() == Recognizer.TapCallback(old(Model()), clone)
    {
      if single.longPressEnabled && single.hadLongPress {
        Emit(LongTap, clone, single.touchingObject, single.touchingContext);
      } else if single.tapEnabled && single.tapCount > 0 {
        Emit(TapGesture(single.tapCount), clone, single.touchingObject, single.touchingContext);
      }
    }

    method SingleExit(e: MotionEvent)
      requires Held(Model())
      modifies this
      ensures Model() == Recognizer.SingleExit(old(Model()), e)
    {
      CancelTimers();
      ReportRelease(e);
      ForgetHeld();
    }

    method CancelTimers()
      modifies this
      ensures Model() == Recognizer.CancelTimers(old(Model()))
    {
      pending := RemoveMessages(pending, MSG_TAP);
      if single.longPressEnabled {
        pending := RemoveMessages(pending, MSG_LONG_PRESS);
      }
    }

    method ReportRelease(e: MotionEvent)
      requires Held(Model())
      modifies this
      ensures Model() == Recognizer.ReportRelease(old(Model()), e)
    {
      if e.action == Up {
        if single.currentUp.None? {
          fault := Some(NullPointer);
        } else {
          var ev := Clone(single.currentUp.value);
          TapCallback(ev);
        }
      }
    }

    method ForgetHeld()
      requires Held(Model())
      modifies this
      ensures Model() == Recognizer.ForgetHeld(old(Model()))
    {
      if fault.None? {
        single := single.(previousDown := None, currentDown := None, currentUp := None);
      }
    }

    // --- MultipleFingersPressingState ------------------------------------------

    method MultiEnter(e: MotionEvent, t: Ref, c: Ref)
      requires WellFormed(e) && Held(Model())
      modifies this
      decreases Level(MultipleFingersPressing, e), 0
      ensures Model() == Recognizer.MultiEnter(old(Model()), e, t, c)
    {
      if e.action == Up || e.action == Cancel {
        Transition(StateIdle, e, t, c);
      } else if DownCount(e) > 1 {
        var held, _ := HoldDown(e.pointers, UpIndex(e));
        assert held == HoldMap(Remaining(e));
        multi := Pointers(held, held);
      } else {
        Transition(StateSingleFingerPressing, e, t, c);
      }
    }

    method MultiDoing(e: MotionEvent, t: Ref, c: Ref)
      requires WellFormed(e) && Held(Model())
      modifies this
      decreases 3, 1
      ensures Model() == Recognizer.MultiDoing(old(Model()), e, t, c)
    {
      match e.action
      case Move =>
        MultiMove(e, t, c);
      case PointerDown =>
        var p := e.pointers[e.actionIndex];
        multi := Pointers(multi.start[p.id := PointOf(p)], multi.stop[p.id := PointOf(p)]);
      case PointerUp =>
        MultiLift(e, t, c);
      case Up =>
        Transition(StateIdle, e, t, c);
      case Cancel =>
        Transition(StateIdle, e, t, c);
      case Down =>
      case Other(_) =>
    }

    /** The stop points ACTION_MOVE leaves, by a loop over the event's pointers. */
    method MoveStop(e: MotionEvent) returns (stop: Option<map<int, Point>>)
      requires WellFormed(e)
      ensures stop == MovedStop(Model(), e)
    {
      if variant != Legacy {
        var moved := MoveHeldDown(multi.stop, Remaining(e));
        stop := Some(moved);
      } else {
        stop := MoveAllDown(multi.stop, e.pointers[..DownCount(e)]);
      }
    }

    method MultiMove(e: MotionEvent, t: Ref, c: Ref)
      requires WellFormed(e) && Held(Model())
      modifies this
      decreases 3, 0
      ensures Model() == Recognizer.MultiMove(old(Model()), e, t, c)
    {
      if variant != Legacy && DownCount(e) < 2 {
        Transition(StateSingleFingerPressing, e, t, c);
        return;
      }
      var moved := MoveStop(e);
      if moved.None? {
        fault := Some(NullPointer);
        return;
      }
      multi := multi.(stop := moved.value);
      var pinching := IsConsideredPinch(multi.start, multi.stop, config.touchSlopSquare);
      if pinching {
        Transition(StatePinch, e, t, c);
      }
    }

    method MultiLift(e: MotionEvent, t: Ref, c: Ref)
      requires WellFormed(e) && Held(Model())
      modifies this
      decreases 3, 0
      ensures Model() == Recognizer.MultiLift(old(Model()), e, t, c)
    {
      var upId := e.pointers[e.actionIndex].id;
      multi := Pointers(multi.start - {upId}, multi.stop - {upId});
      if DownCount(e) <= 1 {
        Transition(StateSingleFingerPressing, e, t, c);
      }
    }

    // --- DragState -------------------------------------------------------------

    method DragDoing(e: MotionEvent, t: Ref, c: Ref)
      requires WellFormed(e) && Held(Model())
      modifies this
      decreases 3, 0
      ensures Model() == Recognizer.DragDoing(old(Model()), e, t, c)
    {
      match e.action
      case PointerDown =>
        if variant == Legacy || drag.multitouch {
          Transition(StateMultipleFingersPressing, e, t, c);
        }
      case Move =>
        var ev := Clone(e);
        Emit(Gesture.Drag(drag.start, First(e)), ev, t, c);
      case Up =>
        if variant == Legacy || |e.pointers| - 1 <= 0 {
          Transition(StateIdle, e, t, c);
        }
      case Cancel =>
        Transition(StateIdle, e, t, c);
      case Down =>
      case PointerUp =>
      case Other(_) =>
    }

    method DragExit(e: MotionEvent, t: Ref, c: Ref)
      requires WellFormed(e)
      modifies this
      ensures Model() == Recognizer.DragExit(old(Model()), e, t, c)
    {
      var ev := Clone(e);
      if IsConsideredFling(e, config.minFlingVelocity, config.maxFlingVelocity) {
        Emit(DragFling(Origin, Origin, 0.0, 0.0), ev, t, c);
      }
      Emit(DragEnd(drag.start, First(e)), ev, t, c);
    }

    // --- PinchState ------------------------------------------------------------

    /** Hold the pointers still down as start and stop points, and their ids in index order. */
    method Restart(e: MotionEvent)
      requires WellFormed(e)
      modifies this
      ensures Model() == Recognizer.Restart(old(Model()), e)
    {
      var held, order := HoldDown(e.pointers, UpIndex(e));
      pinch := Pinching(held, held, order);
    }

    method PinchEnter(e: MotionEvent, t: Ref, c: Ref)
      requires WellFormed(e)
      modifies this
      ensures Model() == Recognizer.PinchEnter(old(Model()), e, t, c)
    {
      var ev := Clone(e);
      Restart(e);
      EmitPinch(Begins, ev, t, c);
    }

    method PinchDoing(e: MotionEvent, t: Ref, c: Ref)
      requires WellFormed(e) && Held(Model())
      modifies this
      decreases 3, 0
      ensures Model() == Recognizer.PinchDoing(old(Model()), e, t, c)
    {
      match e.action
      case Move =>
        if variant != Legacy && DownCount(e) < 2 {
          Transition(StateSingleFingerPressing, e, t, c);
        } else {
          PinchMove(e, t, c);
        }
      case PointerDown =>
        var p := e.pointers[e.actionIndex];
        pinch := Pinching(pinch.start[p.id := PointOf(p)], pinch.stop[p.id := PointOf(p)], pinch.order + [p.id]);
      case PointerUp =>
        if DownCount(e) >= 2 {
          PinchLift(e, t, c);
        } else {
          Transition(StateSingleFingerPressing, e, t, c);
        }
      case Up =>
        Transition(StateIdle, e, t, c);
      case Cancel =>
        Transition(StateIdle, e, t, c);
      case Down =>
      case Other(_) =>
    }

    method PinchMove(e: MotionEvent, t: Ref, c: Ref)
      requires WellFormed(e)
      modifies this
      ensures Model() == Recognizer.PinchMove(old(Model()), e, t, c)
    {
      if |pinch.order| < 1 {
        fault := Some(IndexOutOfRange);
      } else if pinch.order[0] !in pinch.stop {
        fault := Some(NullPointer);
      } else if |pinch.order| < 2 || |e.pointers| < 2 {
        fault := Some(IndexOutOfRange);
      } else if pinch.order[1] !in pinch.stop {
        fault := Some(NullPointer);
      } else {
        var a, b := pinch.order[0], pinch.order[1];
        var ev := Clone(e);
        pinch := pinch.(stop := pinch.stop[a := PointOf(e.pointers[0])][b := PointOf(e.pointers[1])]);
        EmitPinch(Moves, ev, t, c);
      }
    }

    method PinchLift(e: MotionEvent, t: Ref, c: Ref)
      requires WellFormed(e)
      modifies this
      ensures Model() == Recognizer.PinchLift(old(Model()), e, t, c)
    {
      var upId := e.pointers[e.actionIndex].id;
      var index := IndexOf(pinch.order, upId);
      if index != -1 && index < 2 {
        var ev := Clone(e);
        EmitPinch(Ends, ev, t, c);
        if fault.None? {
          Restart(e);
          EmitPinch(Begins, ev, t, c);
        }
      } else {
        pinch := Forget(pinch, upId);
      }
    }

    method PinchExit(e: MotionEvent, t: Ref, c: Ref)
      requires WellFormed(e)
      modifies this
      ensures Model() == Recognizer.PinchExit(old(Model()), e, t, c)
    {
      var ev := Clone(e);
      EmitPinch(Ends, ev, t, c);
      if fault.None? {
        pinch := Pinching(map[], map[], []);
      }
    }

    // --- SingleFingerPressingStateForDragOnly ----------------------------------

    method OnlySingleDoing(e: MotionEvent, t: Ref, c: Ref)
      requires WellFormed(e) && Held(Model())
      modifies this
      decreases 2, 0
      ensures Model() == Recognizer.OnlySingleDoing(old(Model()), e, t, c)
    {
      var focus := ComputeFocus(e);
      match e.action
      case PointerUp =>
        onlySingle := onlySingle.(start := focus);
      case Down =>
        onlySingle := onlySingle.(start := focus);
      case Move =>
        if SlopExceeded(focus, onlySingle.start, config.touchSlopSquare) {
          Transition(StateDrag, e, t, c);
        }
      case Up =>
        Transition(StateIdle, e, t, c);
      case Cancel =>
        Transition(StateIdle, e, t, c);
      case PointerDown =>
      case Other(_) =>
    }

    // --- DragStateForDragOnly --------------------------------------------------

    method OnlyDragEnter(e: MotionEvent, t: Ref, c: Ref)
      requires WellFormed(e)
      modifies this
      ensures Model() == Recognizer.OnlyDragEnter(old(Model()), e, t, c)
    {
      var id := FindFocusId(e);
      FocusIdPresent(e);
      var k := IndexOfId(e.pointers, id).value;
      onlyDrag := DraggingForDragOnly(id, PointOf(e.pointers[k]));
      var s := ObtainMyMotionEvent(e);
      Emit(DragBegin, Some(s), t, c);
    }

    method OnlyDragDoing(e: MotionEvent, t: Ref, c: Ref)
      requires WellFormed(e) && Held(Model())
      modifies this
      decreases 3, 0
      ensures Model() == Recognizer.OnlyDragDoing(old(Model()), e, t, c)
    {
      match IndexOfId(e.pointers, onlyDrag.focusId)
      case None =>
        fault := Some(IndexOutOfRange);
      case Some(k) =>
        match e.action
        case PointerUp =>
          if e.actionIndex == k {
            Transition(StateDrag, e, t, c);
          }
        case Move =>
          var s := ObtainMyMotionEvent(e);
          Emit(Gesture.Drag(onlyDrag.start, PointOf(e.pointers[k])), Some(s), t, c);
        case Up =>
          Transition(StateIdle, e, t, c);
        case Cancel =>
          Transition(StateIdle, e, t, c);
        case Down =>
        case PointerDown =>
        case Other(_) =>
    }

    method OnlyDragExit(e: MotionEvent, t: Ref, c: Ref)
      requires WellFormed(e)
      modifies this
      ensures Model() == Recognizer.OnlyDragExit(old(Model()), e, t, c)
    {
      match IndexOfId(e.pointers, onlyDrag.focusId)
      case None =>
        fault := Some(IndexOutOfRange);
      case Some(k) =>
        var start := onlyDrag.start;
        var stop := PointOf(e.pointers[k]);
        var s := ObtainMyMotionEvent(e);
        if IsConsideredFling(e, config.minFlingVelocity, config.maxFlingVelocity) {
          Emit(DragFling(start, stop, 0.0, 0.0), Some(s), t, c);
        }
        Emit(DragEnd(start, stop), Some(s), t, c);
    }
  }
}
