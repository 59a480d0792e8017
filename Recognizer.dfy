/**
 * The gesture state machine as specification functions: the owner (a
 * GestureDetector, or an owner driven by GesturePolicy in DRAG_ONLY mode), its
 * state instances with their fields, the owner's Handler queue and the callbacks
 * the listener has received, all as one record `M`. Each function is one hook of
 * one state (onEnter, onDoing, onExit, onHandleMessage) or the owner's
 * issueStateTransition. An exception the source would throw ends processing: it
 * is recorded in `fault` and nothing afterwards changes the record.
 */
module Recognizer {
  import opened Wrappers
  import opened Events
  import opened Snapshots
  import opened Callbacks
  import opened Policy
  import opened PointerMaps

  /**
   * Which owner drives the states: GestureDetector.kt, the legacy
   * GestureDetector.java, or an owner that asks GesturePolicy (in mode
   * DRAG_ONLY) for its states.
   */
  datatype Variant = Kotlin | Legacy | DragOnlyOwner

  /** The exception a hook throws. */
  datatype Fault = NullPointer | IndexOutOfRange | NoPoolEntry

  /** The thresholds the owner hands to its states. */
  datatype Config = Config(
    touchSlopSquare: int,
    tapSlopSquare: int,
    minFlingVelocity: int,
    maxFlingVelocity: int,
    tapTimeout: int,
    longPressTimeout: int)

  /** SingleFingerPressingState's fields. */
  datatype Pressing = Pressing(
    tapEnabled: bool,
    longPressEnabled: bool,
    multitouch: bool,
    hadLongPress: bool,
    tapCount: int,
    start: Point,
    previousDown: Option<MotionEvent>,
    currentDown: Option<MotionEvent>,
    currentUp: Option<MotionEvent>,
    touchingObject: Ref,
    touchingContext: Ref)

  /** MultipleFingersPressingState's two pointer arrays. */
  datatype Pointers = Pointers(start: map<int, Point>, stop: map<int, Point>)

  /** DragState's fields. */
  datatype Dragging = Dragging(multitouch: bool, start: Point)

  /** PinchState's two pointer arrays and the ids in the order they went down. */
  datatype Pinching = Pinching(start: map<int, Point>, stop: map<int, Point>, order: seq<int>)

  /** SingleFingerPressingStateForDragOnly's fields. */
  datatype PressingForDragOnly = PressingForDragOnly(hadLongPress: bool, tapCount: int, start: Point, touchingObject: Ref, touchingContext: Ref)

  /** DragStateForDragOnly's fields. */
  datatype DraggingForDragOnly = DraggingForDragOnly(focusId: int, start: Point)

  datatype M = M(
    variant: Variant,
    config: Config,
    listener: bool,                  // a listener is attached
    cur: Inst,                       // mState
    idleMultitouch: bool,            // IdleState's one field
    single: Pressing,
    multi: Pointers,
    drag: Dragging,
    pinch: Pinching,
    onlySingle: PressingForDragOnly,
    onlyDrag: DraggingForDragOnly,
    pending: seq<Message>,           // the owner's Handler queue
    log: seq<Callback>,              // what the listener received
    fault: Option<Fault>)            // the exception that ended processing

  const Origin := Point(0.0, 0.0)

  /** A freshly built owner: every state instance as its constructor leaves it, current state idle. */
  function Initial(variant: Variant, config: Config, listener: bool): M
  {
    M(variant, config, listener, Idle, true,
      Pressing(true, true, true, false, 0, Origin, None, None, None, Null, Null),
      Pointers(map[], map[]),
      Dragging(true, Origin),
      Pinching(map[], map[], []),
      PressingForDragOnly(false, 0, Origin, Null, Null),
      DraggingForDragOnly(-1, Origin),
      [], [], None)
  }

  /** The events the pressing state holds are ones the platform dispatched, the release an ACTION_UP. */
  predicate Held(m: M)
  {
    && (m.single.previousDown.Some? ==> WellFormed(m.single.previousDown.value))
    && (m.single.currentDown.Some? ==> WellFormed(m.single.currentDown.value))
    && (m.single.currentUp.Some? ==> WellFormed(m.single.currentUp.value) && m.single.currentUp.value.action == Up)
  }

  /**
   * `owner.listener?.onX(...)`: the callback reaches an attached listener. The
   * legacy library calls `getListener().onX(...)`, which throws without one.
   */
  function Emit(m: M, g: Gesture, ev: Option<MyMotionEvent>, t: Ref, c: Ref): (r: M)
    ensures r.single == m.single && r.cur == m.cur && r.pending == m.pending && r.pinch == m.pinch
    ensures r.multi == m.multi && r.drag == m.drag
  {
    if m.listener then m.(log := m.log + [Callback(g, ev, t, c)])
    else if m.variant == Legacy then m.(fault := Some(NullPointer))
    else m
  }

  /** The snapshot handed to a callback; none in the legacy library, whose obtainMyMotionEvent has no constructor to call. */
  function Clone(m: M, e: MotionEvent): Option<MyMotionEvent>
    requires WellFormed(e)
  {
    if m.variant == Legacy then None else Some(Snapshot(e))
  }

  /** The state instance the owner switches to for a tag. */
  function Resolve(v: Variant, tag: Tag): Option<Inst>
  {
    if v == DragOnlyOwner then PoolEntry(DRAG_ONLY, tag) else Some(DetectorInstance(tag))
  }

  // ---------------------------------------------------------------------------
  // Termination: how deep the transitions an entry into `inst` with `e` can nest.

  function Level(inst: Inst, e: MotionEvent): nat
  {
    match inst
    case SingleFingerPressing | SingleFingerPressingForDragOnly => 2
    case MultipleFingersPressing =>
      if e.action == Up || e.action == Cancel then 1 else if DownCount(e) > 1 then 0 else 3
    case _ => 0
  }

  function TagLevel(v: Variant, tag: Tag, e: MotionEvent): nat
  {
    match Resolve(v, tag)
    case None => 0
    case Some(inst) => Level(inst, e)
  }

  // ---------------------------------------------------------------------------
  // Shared computations of the states.

  /** `(focus - start).toInt()` on both axes, squared distance compared with the touch slop. */
  predicate SlopExceeded(focus: Point, start: Point, touchSlopSquare: int)
  {
    var dx := Trunc(focus.x - start.x);
    var dy := Trunc(focus.y - start.y);
    dx * dx + dy * dy > touchSlopSquare
  }

  /** isConsideredCloseTap */
  predicate IsConsideredCloseTap(previousDown: Option<MotionEvent>, currentDown: Option<MotionEvent>, tapSlopSquare: int)
    requires previousDown.Some? ==> |previousDown.value.pointers| >= 1
    requires currentDown.Some? ==> |currentDown.value.pointers| >= 1
  {
    if currentDown.None? then false
    else if previousDown.None? then true
    else
      var dx := Trunc(First(currentDown.value).x) - Trunc(First(previousDown.value).x);
      var dy := Trunc(First(currentDown.value).y) - Trunc(First(previousDown.value).y);
      dx * dx + dy * dy < tapSlopSquare
  }

  /** VelocityTracker.computeCurrentVelocity(1000, max): each component clamped to [-max, max]. */
  function Clamp(v: real, max: int): real
  {
    if v > max as real then max as real else if v < -(max as real) then -(max as real) else v
  }

  function Abs(v: real): real
  {
    if v < 0.0 then -v else v
  }

  /** isConsideredFling: only on ACTION_UP, a clamped velocity component above the minimum. */
  predicate IsConsideredFling(e: MotionEvent, minFlingVelocity: int, maxFlingVelocity: int)
  {
    && e.action == Up
    && (Abs(Clamp(e.velocityY, maxFlingVelocity)) > minFlingVelocity as real
        || Abs(Clamp(e.velocityX, maxFlingVelocity)) > minFlingVelocity as real)
  }

  /** SparseArray.get: the point held for `id`, or null. */
  function Get(mp: map<int, Point>, id: int): Option<Point>
  {
    if id in mp then Some(mp[id]) else None
  }

  /** The entries of one pointer array for the anchor ids, the first two of the down order. */
  function AnchorPoints(mp: map<int, Point>, order: seq<int>): seq<Option<Point>>
    requires |order| >= 2
  {
    [Get(mp, order[0]), Get(mp, order[1])]
  }

  datatype PinchCall = Begins | Moves | Ends

  /** The pinch callback for the anchors' entries of both pointer arrays. */
  function PinchGesture(call: PinchCall, p: Pinching): Gesture
    requires |p.order| >= 2
  {
    var starts := AnchorPoints(p.start, p.order);
    match call
    case Begins => PinchBegin(starts)
    case Moves => Gesture.Pinch(starts, AnchorPoints(p.stop, p.order))
    case Ends => PinchEnd(starts, AnchorPoints(p.stop, p.order))
  }

  /**
   * A pinch callback whose arguments are the anchors' entries. Kotlin's
   * `listener?.onPinchX(...)` evaluates no argument without a listener; the Java
   * call evaluates them first, and reading the down order past its end throws.
   */
  function EmitPinch(m: M, call: PinchCall, ev: Option<MyMotionEvent>, t: Ref, c: Ref): (r: M)
    ensures r.single == m.single && r.cur == m.cur && r.pending == m.pending && r.pinch == m.pinch
    ensures r.multi == m.multi && r.drag == m.drag
  {
    if m.variant != Legacy && !m.listener then m
    else if |m.pinch.order| < 2 then m.(fault := Some(IndexOutOfRange))
    else Emit(m, PinchGesture(call, m.pinch), ev, t, c)
  }

  // ---------------------------------------------------------------------------
  // The owner and the hooks of the states.

  /** issueStateTransition: the current state exits, the instance for `tag` becomes current and enters. */
  function Transition(m: M, tag: Tag, e: MotionEvent, t: Ref, c: Ref): (r: M)
    requires WellFormed(e) && Held(m)
    ensures Held(r)
    decreases TagLevel(m.variant, tag, e), 2
  {
    var m1 := Exit(m, e, t, c);
    if m1.fault.Some? then m1
    else match Resolve(m.variant, tag)
      case None => m1.(fault := Some(NoPoolEntry))
      case Some(next) => Enter(m1.(cur := next), next, e, t, c)
  }

  function Enter(m: M, inst: Inst, e: MotionEvent, t: Ref, c: Ref): (r: M)
    requires WellFormed(e) && Held(m)
    ensures Held(r)
    decreases Level(inst, e), 1
  {
    match inst
    case Idle => IdleEnter(m, e, t, c)
    case IdleForDragOnly => Emit(m, ActionEnd, Some(Snapshot(e)), t, c)
    case SingleFingerPressing =>
      SingleDoing(m.(single := m.single.(tapCount := 0, hadLongPress := false, touchingObject := t, touchingContext := c)), e, t, c)
    case SingleFingerPressingForDragOnly =>
      OnlySingleDoing(m.(onlySingle := m.onlySingle.(tapCount := 0, hadLongPress := false, touchingObject := t, touchingContext := c)), e, t, c)
    case MultipleFingersPressing => MultiEnter(m, e, t, c)
    case Drag => DragEnter(m, e, t, c)
    case Pinch => PinchEnter(m, e, t, c)
    case DragForDragOnly => OnlyDragEnter(m, e, t, c)
  }

  /** onEnter of the idle state: the action end, with a snapshot except in the legacy library. */
  function IdleEnter(m: M, e: MotionEvent, t: Ref, c: Ref): (r: M)
    requires WellFormed(e)
    ensures r.single == m.single
  {
    if m.variant == Legacy then Emit(m, ActionEnd, None, Null, Null)
    else Emit(m, ActionEnd, Some(Snapshot(e)), t, c)
  }

  /** onEnter of the drag state: the first pointer is the start of the drag, and the drag begins. */
  function DragEnter(m: M, e: MotionEvent, t: Ref, c: Ref): (r: M)
    requires WellFormed(e)
    ensures r.single == m.single
  {
    Emit(m.(drag := m.drag.(start := First(e))), DragBegin, Clone(m, e), t, c)
  }

  function Exit(m: M, e: MotionEvent, t: Ref, c: Ref): (r: M)
    requires WellFormed(e) && Held(m)
    ensures Held(r)
  {
    match m.cur
    case Idle | IdleForDragOnly => IdleExit(m, e, t, c)
    case SingleFingerPressing => SingleExit(m, e)
    case SingleFingerPressingForDragOnly => m
    case MultipleFingersPressing => m.(multi := Pointers(map[], map[]))
    case Drag => DragExit(m, e, t, c)
    case Pinch => PinchExit(m, e, t, c)
    case DragForDragOnly => OnlyDragExit(m, e, t, c)
  }

  /** onDoing of the current state. */
  function Doing(m: M, e: MotionEvent, t: Ref, c: Ref): (r: M)
    requires WellFormed(e) && Held(m)
    ensures Held(r)
    decreases 4, 0
  {
    match m.cur
    case Idle => IdleDoing(m, e, t, c)
    case IdleForDragOnly =>
      if e.action == Down then Transition(m, StateSingleFingerPressing, e, t, c) else m
    case SingleFingerPressing => SingleDoing(m, e, t, c)
    case SingleFingerPressingForDragOnly => OnlySingleDoing(m, e, t, c)
    case MultipleFingersPressing => MultiDoing(m, e, t, c)
    case Drag => DragDoing(m, e, t, c)
    case Pinch => PinchDoing(m, e, t, c)
    case DragForDragOnly => OnlyDragDoing(m, e, t, c)
  }

  // --- IdleState ---------------------------------------------------------------

  function IdleDoing(m: M, e: MotionEvent, t: Ref, c: Ref): (r: M)
    requires WellFormed(e) && Held(m)
    ensures Held(r)
    decreases 3, 0
  {
    if e.action != Down then m
    else if |e.pointers| == 1 || (m.variant != Legacy && !m.idleMultitouch) then
      Transition(m, StateSingleFingerPressing, e, t, c)
    else Transition(m, StateMultipleFingersPressing, e, t, c)
  }

  /** onExit of the idle states: the gesture begins. */
  function IdleExit(m: M, e: MotionEvent, t: Ref, c: Ref): (r: M)
    requires WellFormed(e)
    ensures r.single == m.single
  {
    if m.variant == Legacy then Emit(m, ActionBegin, None, Null, Null)
    else Emit(m, ActionBegin, Some(Snapshot(e)), t, c)
  }

  // --- SingleFingerPressingState -----------------------------------------------

  function SingleDoing(m: M, e: MotionEvent, t: Ref, c: Ref): (r: M)
    requires WellFormed(e) && Held(m)
    ensures Held(r)
    decreases 2, 0
  {
    var multitouch := m.variant == Legacy || m.single.multitouch;
    match e.action
    case PointerDown =>
      if !multitouch then m else Transition(m, StateMultipleFingersPressing, e, t, c)
    case PointerUp => m.(single := m.single.(start := Focus(e)))
    case Down => SinglePress(m, e, t, c)
    case Move =>
      if SlopExceeded(Focus(e), m.single.start, m.config.touchSlopSquare) then Transition(m, StateDrag, e, t, c) else m
    case Up => SingleRelease(m, e, t, c)
    case Cancel => Transition(m, StateIdle, e, t, c)
    case Other(_) => m
  }

  /**
   * ACTION_DOWN: hold the press; one finger (or any number with multi-touch
   * off) arms the timers, several go to the multiple-fingers state.
   */
  function SinglePress(m: M, e: MotionEvent, t: Ref, c: Ref): (r: M)
    requires WellFormed(e) && Held(m)
    ensures Held(r)
    decreases 2, 0, 0
  {
    var m1 := HoldPress(m, e);
    if DownCount(e) == 1 || !(m.variant == Legacy || m.single.multitouch) then ArmTimers(m1, e, Focus(e), t, c)
    else Transition(m1, StateMultipleFingersPressing, e, t, c)
  }

  /** ACTION_UP: hold the release; after a long press the gesture ends, otherwise the tap is deferred. */
  function SingleRelease(m: M, e: MotionEvent, t: Ref, c: Ref): (r: M)
    requires WellFormed(e) && e.action == Up && Held(m)
    ensures Held(r)
    decreases 2, 0, 0
  {
    var m1 := HoldRelease(m, e);
    if m.single.hadLongPress then Transition(m1, StateIdle, e, t, c) else DeferTap(m1, e, t, c)
  }

  /** ACTION_DOWN holds the press: the current down becomes the previous one. */
  function HoldPress(m: M, e: MotionEvent): (r: M)
    requires WellFormed(e) && Held(m)
    ensures Held(r)
  {
    m.(single := m.single.(previousDown := m.single.currentDown, currentDown := Some(e)))
  }

  /**
   * A single-finger press cancels the pending tap, reschedules the long press
   * when it is enabled, and takes the focus as the start of the move.
   */
  function ArmTimers(m: M, e: MotionEvent, focus: Point, t: Ref, c: Ref): (r: M)
    requires WellFormed(e) && Held(m)
    ensures Held(r)
  {
    var q := RemoveMessages(m.pending, MSG_TAP);
    var q' := if m.single.longPressEnabled
              then RemoveMessages(q, MSG_LONG_PRESS)
                   + [Message(MSG_LONG_PRESS, Payload(Clone(m, e), t, c),
                              AtTime(e.downTime + m.config.tapTimeout + m.config.longPressTimeout))]
              else q;
    m.(single := m.single.(start := focus), pending := q')
  }

  /** ACTION_UP holds the release. */
  function HoldRelease(m: M, e: MotionEvent): (r: M)
    requires WellFormed(e) && e.action == Up && Held(m)
    ensures Held(r)
  {
    m.(single := m.single.(currentUp := Some(e)))
  }

  /**
   * A release without a long press counts a tap close to the previous one,
   * cancels the long press and defers the end of the gesture by a tap message.
   */
  function DeferTap(m: M, e: MotionEvent, t: Ref, c: Ref): (r: M)
    requires WellFormed(e) && Held(m)
    ensures Held(r)
  {
    var s := m.single;
    var count := if IsConsideredCloseTap(s.previousDown, s.currentDown, m.config.tapSlopSquare) then s.tapCount + 1 else s.tapCount;
    m.(single := s.(tapCount := count, hadLongPress := false),
       pending := RemoveMessages(m.pending, MSG_LONG_PRESS)
                  + [Message(MSG_TAP, Payload(Clone(m, e), t, c), Delayed(m.config.tapTimeout))])
  }

  /** The tap callback for a count of taps. */
  function TapGesture(tapCount: int): Gesture
  {
    if tapCount == 1 then SingleTap else if tapCount == 2 then DoubleTap else MoreTap(tapCount)
  }

  /** The tap callback onExit sends on ACTION_UP, at most one. */
  function TapCallback(m: M, clone: Option<MyMotionEvent>): (r: M)
    ensures r.single == m.single
  {
    var s := m.single;
    if s.longPressEnabled && s.hadLongPress then Emit(m, LongTap, clone, s.touchingObject, s.touchingContext)
    else if s.tapEnabled && s.tapCount > 0 then Emit(m, TapGesture(s.tapCount), clone, s.touchingObject, s.touchingContext)
    else m
  }

  /** The pressing state's exit first cancels the tap and, with long press on, the long-press messages. */
  function CancelTimers(m: M): (r: M)
    ensures r == m.(pending := r.pending)
  {
    var q := RemoveMessages(m.pending, MSG_TAP);
    m.(pending := if m.single.longPressEnabled then RemoveMessages(q, MSG_LONG_PRESS) else q)
  }

  /** Then, on ACTION_UP, it reports the held release; without one the Java state throws. */
  function ReportRelease(m: M, e: MotionEvent): (r: M)
    requires Held(m)
    ensures r.single == m.single && r.pending == m.pending
  {
    if e.action != Up then m
    else if m.single.currentUp.None? then m.(fault := Some(NullPointer))
    else TapCallback(m, Clone(m, m.single.currentUp.value))
  }

  /** And last it forgets the held events. */
  function ForgetHeld(m: M): (r: M)
    requires Held(m)
    ensures Held(r)
  {
    if m.fault.Some? then m else m.(single := m.single.(previousDown := None, currentDown := None, currentUp := None))
  }

  function SingleExit(m: M, e: MotionEvent): (r: M)
    requires Held(m)
    ensures Held(r)
  {
    ForgetHeld(ReportRelease(CancelTimers(m), e))
  }

  /** onHandleMessage of the current state, and what it returns. */
  function HandleMessage(m: M, msg: Message): (r: (M, bool))
    requires Held(m)
    ensures Held(r.0)
  {
    match m.cur
    case Idle | IdleForDragOnly => (m, true)
    case SingleFingerPressing =>
      if msg.what == MSG_LONG_PRESS then
        var m1 := m.(pending := RemoveMessages(m.pending, MSG_TAP), single := m.single.(hadLongPress := true));
        (if m.single.longPressEnabled && m.listener
         then Emit(m1, LongPress, msg.payload.event, msg.payload.target, msg.payload.context)
         else m1, true)
      else if msg.what == MSG_TAP then
        if m.single.currentUp.Some? then
          (Transition(m, StateIdle, m.single.currentUp.value, m.single.touchingObject, m.single.touchingContext), true)
        else if m.variant == Legacy then (m.(fault := Some(NullPointer)), true)
        else (m, true)
      else (m, false)
    case _ => (m, false)
  }

  // --- MultipleFingersPressingState --------------------------------------------

  function MultiEnter(m: M, e: MotionEvent, t: Ref, c: Ref): (r: M)
    requires WellFormed(e) && Held(m)
    ensures Held(r)
    decreases Level(MultipleFingersPressing, e), 0
  {
    if e.action == Up || e.action == Cancel then Transition(m, StateIdle, e, t, c)
    else if DownCount(e) > 1 then
      var held := HoldMap(Remaining(e));
      m.(multi := Pointers(held, held))
    else Transition(m, StateSingleFingerPressing, e, t, c)
  }

  function MultiDoing(m: M, e: MotionEvent, t: Ref, c: Ref): (r: M)
    requires WellFormed(e) && Held(m)
    ensures Held(r)
    decreases 3, 1
  {
    match e.action
    case Move => MultiMove(m, e, t, c)
    case PointerDown =>
      var p := e.pointers[e.actionIndex];
      m.(multi := Pointers(m.multi.start[p.id := PointOf(p)], m.multi.stop[p.id := PointOf(p)]))
    case PointerUp => MultiLift(m, e, t, c)
    case Up | Cancel => Transition(m, StateIdle, e, t, c)
    case _ => m
  }

  /**
   * Where ACTION_MOVE leaves the held stop points: the Kotlin state moves the
   * fingers still down that it holds; the legacy one moves the first
   * `DownCount` pointers and throws on one it does not hold.
   */
  function MovedStop(m: M, e: MotionEvent): Option<map<int, Point>>
    requires WellFormed(e)
  {
    if m.variant != Legacy then Some(MoveHeld(m.multi.stop, Remaining(e)))
    else MoveAll(m.multi.stop, e.pointers[..DownCount(e)])
  }

  /** ACTION_MOVE with several fingers: follow them, and pinch once a pair has moved past the slop. */
  function MultiMove(m: M, e: MotionEvent, t: Ref, c: Ref): (r: M)
    requires WellFormed(e) && Held(m)
    ensures Held(r)
    decreases 3, 0
  {
    if m.variant != Legacy && DownCount(e) < 2 then Transition(m, StateSingleFingerPressing, e, t, c)
    else
      match MovedStop(m, e)
      case None => m.(fault := Some(NullPointer))
      case Some(stop) =>
        var m1 := m.(multi := m.multi.(stop := stop));
        if ConsideredPinch(m1.multi.start, m1.multi.stop, m.config.touchSlopSquare) then Transition(m1, StatePinch, e, t, c) else m1
  }

  /** ACTION_POINTER_UP forgets the lifted finger, and with one finger left goes back to the single-finger press. */
  function MultiLift(m: M, e: MotionEvent, t: Ref, c: Ref): (r: M)
    requires WellFormed(e) && Held(m)
    ensures Held(r)
    decreases 3, 0
  {
    var upId := e.pointers[e.actionIndex].id;
    var m1 := m.(multi := Pointers(m.multi.start - {upId}, m.multi.stop - {upId}));
    if DownCount(e) > 1 then m1 else Transition(m1, StateSingleFingerPressing, e, t, c)
  }

  // --- DragState ---------------------------------------------------------------

  function DragDoing(m: M, e: MotionEvent, t: Ref, c: Ref): (r: M)
    requires WellFormed(e) && Held(m)
    ensures Held(r)
    decreases 3, 0
  {
    match e.action
    case PointerDown =>
      if m.variant != Legacy && !m.drag.multitouch then m else Transition(m, StateMultipleFingersPressing, e, t, c)
    case Move => Emit(m, Gesture.Drag(m.drag.start, First(e)), Clone(m, e), t, c)
    case Up =>
      if m.variant != Legacy && |e.pointers| - 1 > 0 then m else Transition(m, StateIdle, e, t, c)
    case Cancel => Transition(m, StateIdle, e, t, c)
    case _ => m
  }

  function DragExit(m: M, e: MotionEvent, t: Ref, c: Ref): (r: M)
    requires WellFormed(e)
    ensures r.single == m.single
  {
    var clone := Clone(m, e);
    var m1 := if IsConsideredFling(e, m.config.minFlingVelocity, m.config.maxFlingVelocity)
              then Emit(m, DragFling(Origin, Origin, 0.0, 0.0), clone, t, c) else m;
    Emit(m1, DragEnd(m.drag.start, First(e)), clone, t, c)
  }

  // --- PinchState --------------------------------------------------------------

  /** Hold the pointers still down, in index order, as start and stop points and as the down order. */
  function Restart(m: M, e: MotionEvent): (r: M)
    requires WellFormed(e)
    ensures r.single == m.single
  {
    var kept := Remaining(e);
    var held := HoldMap(kept);
    m.(pinch := Pinching(held, held, Ids(kept)))
  }

  function PinchEnter(m: M, e: MotionEvent, t: Ref, c: Ref): (r: M)
    requires WellFormed(e)
    ensures r.single == m.single
  {
    EmitPinch(Restart(m, e), Begins, Clone(m, e), t, c)
  }

  function PinchDoing(m: M, e: MotionEvent, t: Ref, c: Ref): (r: M)
    requires WellFormed(e) && Held(m)
    ensures Held(r)
    decreases 3, 0
  {
    var pinch := m.pinch;
    match e.action
    case Move =>
      if m.variant != Legacy && DownCount(e) < 2 then Transition(m, StateSingleFingerPressing, e, t, c)
      else PinchMove(m, e, t, c)
    case PointerDown =>
      var p := e.pointers[e.actionIndex];
      m.(pinch := Pinching(pinch.start[p.id := PointOf(p)], pinch.stop[p.id := PointOf(p)], pinch.order + [p.id]))
    case PointerUp =>
      if DownCount(e) >= 2 then PinchLift(m, e, t, c)
      else Transition(m, StateSingleFingerPressing, e, t, c)
    case Up | Cancel => Transition(m, StateIdle, e, t, c)
    case _ => m
  }

  /** ACTION_MOVE with the pinch going on: the anchors' stop points follow the first two pointers. */
  function PinchMove(m: M, e: MotionEvent, t: Ref, c: Ref): (r: M)
    requires WellFormed(e)
    ensures r.cur == m.cur && r.single == m.single
  {
    var pinch := m.pinch;
    if |pinch.order| < 1 then m.(fault := Some(IndexOutOfRange))
    else if pinch.order[0] !in pinch.stop then m.(fault := Some(NullPointer))
    else if |pinch.order| < 2 || |e.pointers| < 2 then m.(fault := Some(IndexOutOfRange))
    else if pinch.order[1] !in pinch.stop then m.(fault := Some(NullPointer))
    else
      var a, b := pinch.order[0], pinch.order[1];
      var m1 := m.(pinch := pinch.(stop := pinch.stop[a := PointOf(e.pointers[0])][b := PointOf(e.pointers[1])]));
      EmitPinch(m1, Moves, Clone(m, e), t, c)
  }

  /**
   * ACTION_POINTER_UP leaving two or more fingers down: losing an anchor ends
   * the pinch and begins one on the fingers still down; losing another finger
   * forgets it.
   */
  function PinchLift(m: M, e: MotionEvent, t: Ref, c: Ref): (r: M)
    requires WellFormed(e)
    ensures r.cur == m.cur && r.single == m.single
  {
    var pinch := m.pinch;
    var upId := e.pointers[e.actionIndex].id;
    var index := IndexOf(pinch.order, upId);
    if index != -1 && index < 2 then
      var m1 := EmitPinch(m, Ends, Clone(m, e), t, c);
      if m1.fault.Some? then m1 else EmitPinch(Restart(m1, e), Begins, Clone(m, e), t, c)
    else m.(pinch := Forget(pinch, upId))
  }

  /** Remove the lifted pointer from both arrays and from the down order. */
  function Forget(p: Pinching, upId: int): Pinching
  {
    var index := IndexOf(p.order, upId);
    Pinching(p.start - {upId}, p.stop - {upId}, if index != -1 then RemoveAt(p.order, index) else p.order)
  }

  /**
   * onExit of the pinch state, reporting the anchor pair (the first two ids of
   * the down order) that the last pinch-begin reported; Findings.PinchExitAsWritten
   * is the source's smallest-two-ids version.
   */
  function PinchExit(m: M, e: MotionEvent, t: Ref, c: Ref): (r: M)
    requires WellFormed(e)
    ensures r.single == m.single
  {
    var m1 := EmitPinch(m, Ends, Clone(m, e), t, c);
    if m1.fault.Some? then m1 else m1.(pinch := Pinching(map[], map[], []))
  }

  // --- SingleFingerPressingStateForDragOnly ------------------------------------

  function OnlySingleDoing(m: M, e: MotionEvent, t: Ref, c: Ref): (r: M)
    requires WellFormed(e) && Held(m)
    ensures Held(r)
    decreases 2, 0
  {
    var focus := Focus(e);
    match e.action
    case PointerUp | Down => m.(onlySingle := m.onlySingle.(start := focus))
    case Move =>
      if SlopExceeded(focus, m.onlySingle.start, m.config.touchSlopSquare) then Transition(m, StateDrag, e, t, c) else m
    case Up | Cancel => Transition(m, StateIdle, e, t, c)
    case _ => m
  }

  // --- DragStateForDragOnly ----------------------------------------------------

  /**
   * The focus pointer a drag-only drag follows: on POINTER_UP the first pointer
   * still down, otherwise the pointer the action is about.
   */
  function FocusIdOnEnter(e: MotionEvent): int
    requires WellFormed(e)
  {
    RemainingCount(e);
    if e.action == PointerUp then Remaining(e)[0].id else e.pointers[e.actionIndex].id
  }

  /** The focus id picked on entry is one of the event's pointers, so looking it up succeeds. */
  lemma FocusIdPresent(e: MotionEvent)
    requires WellFormed(e)
    ensures IndexOfId(e.pointers, FocusIdOnEnter(e)).Some?
  {
    RemainingCount(e);
    var j := if e.action == PointerUp then (if UpIndex(e) == 0 then 1 else 0) else e.actionIndex;
    assert e.pointers[j].id == FocusIdOnEnter(e);
  }

  function OnlyDragEnter(m: M, e: MotionEvent, t: Ref, c: Ref): (r: M)
    requires WellFormed(e)
    ensures r.single == m.single
  {
    var id := FocusIdOnEnter(e);
    FocusIdPresent(e);
    var k := IndexOfId(e.pointers, id).value;
    Emit(m.(onlyDrag := DraggingForDragOnly(id, PointOf(e.pointers[k]))), DragBegin, Some(Snapshot(e)), t, c)
  }

  function OnlyDragDoing(m: M, e: MotionEvent, t: Ref, c: Ref): (r: M)
    requires WellFormed(e) && Held(m)
    ensures Held(r)
    decreases 3, 0
  {
    match IndexOfId(e.pointers, m.onlyDrag.focusId)
    case None => m.(fault := Some(IndexOutOfRange))
    case Some(k) =>
      match e.action
      case PointerUp => if e.actionIndex == k then Transition(m, StateDrag, e, t, c) else m
      case Move => Emit(m, Gesture.Drag(m.onlyDrag.start, PointOf(e.pointers[k])), Some(Snapshot(e)), t, c)
      case Up | Cancel => Transition(m, StateIdle, e, t, c)
      case _ => m
  }

  function OnlyDragExit(m: M, e: MotionEvent, t: Ref, c: Ref): (r: M)
    requires WellFormed(e)
    ensures r.single == m.single
  {
    match IndexOfId(e.pointers, m.onlyDrag.focusId)
    case None => m.(fault := Some(IndexOutOfRange))
    case Some(k) =>
      var start := m.onlyDrag.start;
      var stop := PointOf(e.pointers[k]);
      var clone := Some(Snapshot(e));
      var m1 := if IsConsideredFling(e, m.config.minFlingVelocity, m.config.maxFlingVelocity)
                then Emit(m, DragFling(start, stop, 0.0, 0.0), clone, t, c) else m;
      Emit(m1, DragEnd(start, stop), clone, t, c)
  }

  // ---------------------------------------------------------------------------
  // The owner's entry points.

  /** onTouchEvent: the current state handles the event (a faulted owner is not driven any more). */
  function OnTouchEvent(m: M, e: MotionEvent, t: Ref, c: Ref): (r: M)
    requires WellFormed(e) && Held(m)
    ensures Held(r)
  {
    if m.fault.Some? then m else Doing(m, e, t, c)
  }

  /** The Handler dispatches the pending message at `i` (which one is due first is the caller's choice). */
  function Deliver(m: M, i: int): (r: M)
    requires Held(m) && 0 <= i < |m.pending|
    ensures Held(r)
  {
    if m.fault.Some? then m
    else HandleMessage(m.(pending := m.pending[..i] + m.pending[i + 1..]), m.pending[i]).0
  }
}
