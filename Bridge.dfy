/**
 * ListenerBridge: one IAllGesturesListener in front of a tap, a drag and a pinch
 * listener. Setting a listener switches its family's enable flags, which can
 * also be written on their own; the
 * lifecycle callbacks go to the first listener that is set; the tap family is
 * gated by its flags at each call; the drag and pinch families are gated by a
 * latch taken at the begin of their session. What the bridge hands on is
 * recorded, with the listener that received it, in `delivered`.
 */
module Bridge {
  import opened Wrappers
  import opened Callbacks

  /** The three listeners behind the bridge. */
  datatype Family = TapFamily | DragFamily | PinchFamily

  /** A callback the bridge passed on, and the listener that received it. */
  datatype Delivery = Delivery(to: Family, callback: Callback)

  /** The bridge's fields as one record; a listener is only present or absent. */
  datatype B = B(
    hasTap: bool,
    hasDrag: bool,
    hasPinch: bool,
    tapEnabled: bool,
    longPressEnabled: bool,
    dragEnabled: bool,
    pinchEnabled: bool,
    ifHandleDrag: bool,
    ifHandlePinch: bool,
    delivered: seq<Delivery>)

  /** A fresh bridge: no listener, every flag and latch false. */
  function Initial(): (b: B)
    ensures !b.hasTap && !b.hasDrag && !b.hasPinch
    ensures !b.tapEnabled && !b.longPressEnabled && !b.dragEnabled && !b.pinchEnabled
    ensures !b.ifHandleDrag && !b.ifHandlePinch && b.delivered == []
  {
    B(false, false, false, false, false, false, false, false, false, [])
  }

  function Has(b: B, f: Family): bool
  {
    match f
    case TapFamily => b.hasTap
    case DragFamily => b.hasDrag
    case PinchFamily => b.hasPinch
  }

  /** The session latch of the drag or the pinch family. */
  function Latch(b: B, f: Family): bool
  {
    match f
    case TapFamily => false
    case DragFamily => b.ifHandleDrag
    case PinchFamily => b.ifHandlePinch
  }

  /** The enable flag a session latch is taken from. */
  function Enabled(b: B, f: Family): bool
  {
    match f
    case TapFamily => b.tapEnabled
    case DragFamily => b.dragEnabled
    case PinchFamily => b.pinchEnabled
  }

  /** The listener family a callback belongs to; the lifecycle callbacks belong to none. */
  function FamilyOf(g: Gesture): Option<Family>
  {
    match g
    case ActionBegin => None
    case ActionEnd => None
    case SingleTap => Some(TapFamily)
    case DoubleTap => Some(TapFamily)
    case MoreTap(_) => Some(TapFamily)
    case LongTap => Some(TapFamily)
    case LongPress => Some(TapFamily)
    case DragBegin => Some(DragFamily)
    case Drag(_, _) => Some(DragFamily)
    case DragFling(_, _, _, _) => Some(DragFamily)
    case DragEnd(_, _) => Some(DragFamily)
    case PinchBegin(_) => Some(PinchFamily)
    case Pinch(_, _) => Some(PinchFamily)
    case PinchFling => Some(PinchFamily)
    case PinchEnd(_, _) => Some(PinchFamily)
  }

  /** The callback that opens a drag or a pinch session. */
  predicate IsBegin(g: Gesture)
  {
    g.DragBegin? || g.PinchBegin?
  }

  // --- Setters ---------------------------------------------------------------

  /** The `tapListener` setter: both tap flags follow the listener's presence. */
  function SetTapListener(b: B, present: bool): (r: B)
    ensures r.hasTap == present && r.tapEnabled == present && r.longPressEnabled == present
    ensures r.dragEnabled == b.dragEnabled && r.pinchEnabled == b.pinchEnabled
    ensures r.hasDrag == b.hasDrag && r.hasPinch == b.hasPinch
    ensures r.ifHandleDrag == b.ifHandleDrag && r.ifHandlePinch == b.ifHandlePinch && r.delivered == b.delivered
  {
    b.(hasTap := present, tapEnabled := present, longPressEnabled := present)
  }

  /** The `dragListener` setter: the drag flag follows the listener's presence; the latch is left alone. */
  function SetDragListener(b: B, present: bool): (r: B)
    ensures r.hasDrag == present && r.dragEnabled == present
    ensures r.tapEnabled == b.tapEnabled && r.longPressEnabled == b.longPressEnabled && r.pinchEnabled == b.pinchEnabled
    ensures r.hasTap == b.hasTap && r.hasPinch == b.hasPinch
    ensures r.ifHandleDrag == b.ifHandleDrag && r.ifHandlePinch == b.ifHandlePinch && r.delivered == b.delivered
  {
    b.(hasDrag := present, dragEnabled := present)
  }

  /** The `pinchListener` setter: the pinch flag follows the listener's presence; the latch is left alone. */
  function SetPinchListener(b: B, present: bool): (r: B)
    ensures r.hasPinch == present && r.pinchEnabled == present
    ensures r.tapEnabled == b.tapEnabled && r.longPressEnabled == b.longPressEnabled && r.dragEnabled == b.dragEnabled
    ensures r.hasTap == b.hasTap && r.hasDrag == b.hasDrag
    ensures r.ifHandleDrag == b.ifHandleDrag && r.ifHandlePinch == b.ifHandlePinch && r.delivered == b.delivered
  {
    b.(hasPinch := present, pinchEnabled := present)
  }

  /** The four enable flags, each an `internal var` the owner may write on its own. */
  datatype Flag = TapFlag | LongPressFlag | DragFlag | PinchFlag

  /** Writing one enable flag directly: the listeners, the latches and the other flags stay. */
  function SetFlag(b: B, flag: Flag, v: bool): (r: B)
    ensures r.hasTap == b.hasTap && r.hasDrag == b.hasDrag && r.hasPinch == b.hasPinch
    ensures r.tapEnabled == (if flag == TapFlag then v else b.tapEnabled)
    ensures r.longPressEnabled == (if flag == LongPressFlag then v else b.longPressEnabled)
    ensures r.dragEnabled == (if flag == DragFlag then v else b.dragEnabled)
    ensures r.pinchEnabled == (if flag == PinchFlag then v else b.pinchEnabled)
    ensures r.ifHandleDrag == b.ifHandleDrag && r.ifHandlePinch == b.ifHandlePinch && r.delivered == b.delivered
  {
    match flag
    case TapFlag => b.(tapEnabled := v)
    case LongPressFlag => b.(longPressEnabled := v)
    case DragFlag => b.(dragEnabled := v)
    case PinchFlag => b.(pinchEnabled := v)
  }

  // --- Forwarding ------------------------------------------------------------

  /** `listener?.onX(...)`: the callback reaches the listener if one is set. */
  function Offer(b: B, f: Family, cb: Callback): B
  {
    if Has(b, f) then b.(delivered := b.delivered + [Delivery(f, cb)]) else b
  }

  /** The receiver of onActionBegin and onActionEnd: the first of tap, drag and pinch that is set. */
  function LifecycleTarget(b: B): Option<Family>
  {
    if b.hasTap then Some(TapFamily)
    else if b.hasDrag then Some(DragFamily)
    else if b.hasPinch then Some(PinchFamily)
    else None
  }

  /** Whether the flags let a tap-family callback through at call time. */
  predicate TapGate(b: B, g: Gesture)
  {
    match g
    case LongTap => b.longPressEnabled && b.tapEnabled
    case LongPress => b.longPressEnabled
    case _ => b.tapEnabled
  }

  /** onActionBegin and onActionEnd: the first listener that is set, whatever the flags. */
  function ForwardLifecycle(b: B, cb: Callback): B
  {
    match LifecycleTarget(b)
    case None => b
    case Some(f) => Offer(b, f, cb)
  }

  /** The tap family: each override checks its flags at call time. */
  function ForwardTap(b: B, cb: Callback): B
  {
    if TapGate(b, cb.gesture) then Offer(b, TapFamily, cb) else b
  }

  /** The drag family: onDragBegin takes the latch from the flag, every drag callback checks the latch. */
  function ForwardDrag(b: B, cb: Callback): B
  {
    var b1 := if cb.gesture.DragBegin? then b.(ifHandleDrag := b.dragEnabled) else b;
    if b1.ifHandleDrag then Offer(b1, DragFamily, cb) else b1
  }

  /** The pinch family: onPinchBegin takes the latch from the flag, every pinch callback checks the latch. */
  function ForwardPinch(b: B, cb: Callback): B
  {
    var b1 := if cb.gesture.PinchBegin? then b.(ifHandlePinch := b.pinchEnabled) else b;
    if b1.ifHandlePinch then Offer(b1, PinchFamily, cb) else b1
  }

  /** One callback arriving at the bridge: the override for its gesture. */
  function Forward(b: B, cb: Callback): B
  {
    match FamilyOf(cb.gesture)
    case None => ForwardLifecycle(b, cb)
    case Some(f) =>
      if f == TapFamily then ForwardTap(b, cb)
      else if f == DragFamily then ForwardDrag(b, cb)
      else ForwardPinch(b, cb)
  }

  // --- Properties of one call --------------------------------------------------

  /**
   * A call hands on at most this one callback, to a listener that is set, of
   * the callback's own family; nothing but the delivery record and, on a begin,
   * that family's latch changes.
   */
  lemma ForwardAtMostOnce(b: B, cb: Callback)
    ensures AtMostOnce(b, Forward(b, cb), cb)
  {
    var family := FamilyOf(cb.gesture);
    if family.None? {
      assert Forward(b, cb) == ForwardLifecycle(b, cb);
      LifecycleOnce(b, cb);
    } else if family.value == TapFamily {
      assert Forward(b, cb) == ForwardTap(b, cb);
      TapOnce(b, cb);
    } else if family.value == DragFamily {
      assert Forward(b, cb) == ForwardDrag(b, cb);
      DragOnce(b, cb);
    } else {
      assert Forward(b, cb) == ForwardPinch(b, cb);
      PinchOnce(b, cb);
    }
  }

  /**
   * What one call may do: leave the listeners and flags alone, hand on at most
   * this callback, and move a latch only on that family's begin.
   */
  predicate AtMostOnce(b: B, r: B, cb: Callback)
  {
    && SameSettings(r, b)
    && (r.delivered == b.delivered || HandedOn(b, r, cb))
    && (r.ifHandleDrag != b.ifHandleDrag ==> cb.gesture.DragBegin?)
    && (r.ifHandlePinch != b.ifHandlePinch ==> cb.gesture.PinchBegin?)
  }

  lemma LifecycleOnce(b: B, cb: Callback)
    requires FamilyOf(cb.gesture).None?
    ensures AtMostOnce(b, ForwardLifecycle(b, cb), cb)
  {
    if LifecycleTarget(b).Some? {
      OfferOnce(b, LifecycleTarget(b).value, cb);
    }
  }

  lemma TapOnce(b: B, cb: Callback)
    requires FamilyOf(cb.gesture) == Some(TapFamily)
    ensures AtMostOnce(b, ForwardTap(b, cb), cb)
  {
    OfferOnce(b, TapFamily, cb);
  }

  lemma DragOnce(b: B, cb: Callback)
    requires FamilyOf(cb.gesture) == Some(DragFamily)
    ensures AtMostOnce(b, ForwardDrag(b, cb), cb)
  {
    OfferOnce(b.(ifHandleDrag := if cb.gesture.DragBegin? then b.dragEnabled else b.ifHandleDrag), DragFamily, cb);
  }

  lemma PinchOnce(b: B, cb: Callback)
    requires FamilyOf(cb.gesture) == Some(PinchFamily)
    ensures AtMostOnce(b, ForwardPinch(b, cb), cb)
  {
    OfferOnce(b.(ifHandlePinch := if cb.gesture.PinchBegin? then b.pinchEnabled else b.ifHandlePinch), PinchFamily, cb);
  }

  /** The listeners and the enable flags are the same in both. */
  predicate SameSettings(r: B, b: B)
  {
    && r.hasTap == b.hasTap && r.hasDrag == b.hasDrag && r.hasPinch == b.hasPinch
    && r.tapEnabled == b.tapEnabled && r.longPressEnabled == b.longPressEnabled
    && r.dragEnabled == b.dragEnabled && r.pinchEnabled == b.pinchEnabled
  }

  /**
   * `r` records one more delivery than `b`: this callback, to a listener that
   * is set and, unless it is a lifecycle callback, of the callback's family.
   */
  predicate HandedOn(b: B, r: B, cb: Callback)
  {
    && |r.delivered| == |b.delivered| + 1
    && r.delivered[..|b.delivered|] == b.delivered
    && r.delivered[|b.delivered|].callback == cb
    && Has(b, r.delivered[|b.delivered|].to)
    && (FamilyOf(cb.gesture).Some? ==> r.delivered[|b.delivered|].to == FamilyOf(cb.gesture).value)
  }

  lemma OfferOnce(b: B, f: Family, cb: Callback)
    requires FamilyOf(cb.gesture).Some? ==> f == FamilyOf(cb.gesture).value
    ensures var r := Offer(b, f, cb);
      && SameSettings(r, b) && r.ifHandleDrag == b.ifHandleDrag && r.ifHandlePinch == b.ifHandlePinch
      && (r.delivered == b.delivered || HandedOn(b, r, cb))
  {
    if Has(b, f) {
      var r := Offer(b, f, cb);
      assert r.delivered[..|b.delivered|] == b.delivered;
    }
  }

  /**
   * onActionBegin and onActionEnd reach exactly one listener, the first of tap,
   * drag and pinch that is set, whatever the enable flags say; with none set
   * they are dropped.
   */
  lemma LifecycleGoesToFirst(b: B, cb: Callback)
    requires cb.gesture == ActionBegin || cb.gesture == ActionEnd
    ensures Forward(b, cb).delivered ==
      if b.hasTap then b.delivered + [Delivery(TapFamily, cb)]
      else if b.hasDrag then b.delivered + [Delivery(DragFamily, cb)]
      else if b.hasPinch then b.delivered + [Delivery(PinchFamily, cb)]
      else b.delivered
  {
    assert FamilyOf(cb.gesture).None?;
    assert Forward(b, cb) == ForwardLifecycle(b, cb);
  }

  /**
   * A tap-family callback reaches the tap listener exactly when its gate is
   * open at call time (onLongTap needs both flags, onLongPress only the
   * long-press flag, the taps only the tap flag) and the listener is set.
   */
  lemma TapGates(b: B, cb: Callback)
    requires IsTap(cb.gesture) || cb.gesture.LongPress?
    ensures Forward(b, cb).delivered ==
      if TapGate(b, cb.gesture) && b.hasTap then b.delivered + [Delivery(TapFamily, cb)] else b.delivered
    ensures cb.gesture.LongTap? ==> (TapGate(b, cb.gesture) <==> b.longPressEnabled && b.tapEnabled)
    ensures cb.gesture.LongPress? ==> (TapGate(b, cb.gesture) <==> b.longPressEnabled)
    ensures (cb.gesture.SingleTap? || cb.gesture.DoubleTap? || cb.gesture.MoreTap?) ==> (TapGate(b, cb.gesture) <==> b.tapEnabled)
  {
    assert FamilyOf(cb.gesture) == Some(TapFamily);
    assert Forward(b, cb) == ForwardTap(b, cb);
  }

  /** A begin latches its family's enable flag, and is handed on exactly when the latch is set and the listener is there. */
  lemma BeginLatches(b: B, cb: Callback)
    requires IsBegin(cb.gesture)
    ensures var f := FamilyOf(cb.gesture).value;
      var r := Forward(b, cb);
      && Latch(r, f) == Enabled(b, f)
      && r.delivered == (if Enabled(b, f) && Has(b, f) then b.delivered + [Delivery(f, cb)] else b.delivered)
  {
    if cb.gesture.DragBegin? {
      assert FamilyOf(cb.gesture) == Some(DragFamily);
      assert Forward(b, cb) == ForwardDrag(b, cb);
    } else {
      assert FamilyOf(cb.gesture) == Some(PinchFamily);
      assert Forward(b, cb) == ForwardPinch(b, cb);
    }
  }

  // --- Sessions ----------------------------------------------------------------

  /** One thing that can happen to the bridge: a listener set or cleared, an enable flag written, or a callback. */
  datatype Op = SetTap(present: bool) | SetDrag(present: bool) | SetPinch(present: bool) | Write(flag: Flag, v: bool) | Call(cb: Callback)

  function Apply(b: B, op: Op): B
  {
    match op
    case SetTap(p) => SetTapListener(b, p)
    case SetDrag(p) => SetDragListener(b, p)
    case SetPinch(p) => SetPinchListener(b, p)
    case Write(flag, v) => SetFlag(b, flag, v)
    case Call(cb) => Forward(b, cb)
  }

  /** The bridge after a run of operations, in order. */
  function Run(b: B, ops: seq<Op>): B
    decreases |ops|
  {
    if |ops| == 0 then b else Run(Apply(b, ops[0]), ops[1..])
  }

  /** No operation of `ops` is the begin callback of family `f`. */
  predicate NoBegin(ops: seq<Op>, f: Family)
  {
    forall i :: 0 <= i < |ops| ==> !(ops[i].Call? && IsBegin(ops[i].cb.gesture) && FamilyOf(ops[i].cb.gesture) == Some(f))
  }

  /** Until the next begin of its family, nothing changes a session latch: no setter and no other callback. */
  lemma {:induction false} LatchHolds(b: B, ops: seq<Op>, f: Family)
    requires f != TapFamily && NoBegin(ops, f)
    ensures Latch(Run(b, ops), f) == Latch(b, f)
    decreases |ops|
  {
    if |ops| > 0 {
      var b1 := Apply(b, ops[0]);
      ApplyKeepsLatch(b, ops[0], f);
      assert NoBegin(ops[1..], f) by {
        forall i | 0 <= i < |ops[1..]|
          ensures !(ops[1..][i].Call? && IsBegin(ops[1..][i].cb.gesture) && FamilyOf(ops[1..][i].cb.gesture) == Some(f))
        {
          assert ops[1..][i] == ops[i + 1];
        }
      }
      LatchHolds(b1, ops[1..], f);
    }
  }

  /** An operation other than the family's begin leaves its latch alone. */
  lemma ApplyKeepsLatch(b: B, op: Op, f: Family)
    requires f != TapFamily && !(op.Call? && IsBegin(op.cb.gesture) && FamilyOf(op.cb.gesture) == Some(f))
    ensures Latch(Apply(b, op), f) == Latch(b, f)
  {
    if op.Call? {
      ForwardAtMostOnce(b, op.cb);
      if op.cb.gesture.DragBegin? {
        assert FamilyOf(op.cb.gesture) == Some(DragFamily);
      } else if op.cb.gesture.PinchBegin? {
        assert FamilyOf(op.cb.gesture) == Some(PinchFamily);
      }
    }
  }

  /**
   * Within a drag or pinch session, a callback of that family (other than a
   * new begin) is handed on exactly when the family was enabled when the
   * session began and its listener is set now: changing the flags mid-session
   * does not stop it, clearing the listener does.
   */
  lemma SessionForwarding(b: B, begin: Callback, ops: seq<Op>, cb: Callback)
    requires IsBegin(begin.gesture) && FamilyOf(cb.gesture) == FamilyOf(begin.gesture) && !IsBegin(cb.gesture)
    requires NoBegin(ops, FamilyOf(begin.gesture).value)
    ensures var f := FamilyOf(begin.gesture).value;
      var now := Run(Forward(b, begin), ops);
      Forward(now, cb).delivered ==
        if Enabled(b, f) && Has(now, f) then now.delivered + [Delivery(f, cb)] else now.delivered
  {
    var f := FamilyOf(begin.gesture).value;
    BeginLatches(b, begin);
    LatchHolds(Forward(b, begin), ops, f);
  }

  /**
   * The case the class comment promises: a drag begun while dragging is
   * enabled goes on being handed to the drag listener after the drag flag
   * has been switched off.
   */
  lemma DisablingMidDragKeepsDrag(b: B, begin: Callback, cb: Callback)
    requires begin.gesture == DragBegin && cb.gesture.Drag?
    requires b.dragEnabled && b.hasDrag
    ensures var now := SetFlag(Forward(b, begin), DragFlag, false);
      !now.dragEnabled && Forward(now, cb).delivered == now.delivered + [Delivery(DragFamily, cb)]
  {
    var ops := [Write(DragFlag, false)];
    assert NoBegin(ops, DragFamily);
    SessionForwarding(b, begin, ops, cb);
    assert Run(Forward(b, begin), ops) == Run(SetFlag(Forward(b, begin), DragFlag, false), []);
  }

}

/** ListenerBridge as an object: its fields, the setters and the overrides, each proved against Bridge. */
module BridgeObject {
  import opened Callbacks
  import opened Bridge

  class ListenerBridge {
    var hasTap: bool
    var hasDrag: bool
    var hasPinch: bool
    var tapEnabled: bool
    var longPressEnabled: bool
    var dragEnabled: bool
    var pinchEnabled: bool
    var ifHandleDrag: bool
    var ifHandlePinch: bool
    var delivered: seq<Delivery>

    function Model(): B
      reads this
    {
      B(hasTap, hasDrag, hasPinch, tapEnabled, longPressEnabled, dragEnabled, pinchEnabled, ifHandleDrag, ifHandlePinch, delivered)
    }

    constructor ()
      ensures Model() == Initial()
    {
      hasTap, hasDrag, hasPinch := false, false, false;
      tapEnabled, longPressEnabled, dragEnabled, pinchEnabled := false, false, false, false;
      ifHandleDrag, ifHandlePinch := false, false;
      delivered := [];
    }

    method SetTapListener(present: bool)
      modifies this
      ensures Model() == Bridge.SetTapListener(old(Model()), present)
    {
      hasTap := present;
      tapEnabled := present;
      longPressEnabled := present;
    }

    method SetDragListener(present: bool)
      modifies this
      ensures Model() == Bridge.SetDragListener(old(Model()), present)
    {
      hasDrag := present;
      dragEnabled := present;
    }

    method SetPinchListener(present: bool)
      modifies this
      ensures Model() == Bridge.SetPinchListener(old(Model()), present)
    {
      hasPinch := present;
      pinchEnabled := present;
    }

    /** Writing `tapEnabled` on its own. */
    method SetTapEnabled(v: bool)
      modifies this
      ensures Model() == SetFlag(old(Model()), TapFlag, v)
    {
      tapEnabled := v;
    }

    /** Writing `longPressEnabled` on its own. */
    method SetLongPressEnabled(v: bool)
      modifies this
      ensures Model() == SetFlag(old(Model()), LongPressFlag, v)
    {
      longPressEnabled := v;
    }

    /** Writing `dragEnabled` on its own. */
    method SetDragEnabled(v: bool)
      modifies this
      ensures Model() == SetFlag(old(Model()), DragFlag, v)
    {
      dragEnabled := v;
    }

    /** Writing `pinchEnabled` on its own. */
    method SetPinchEnabled(v: bool)
      modifies this
      ensures Model() == SetFlag(old(Model()), PinchFlag, v)
    {
      pinchEnabled := v;
    }

    /** `listener?.onX(...)` on the listener of family `f`. */
    method Offer(f: Family, cb: Callback)
      modifies this
      ensures Model() == Bridge.Offer(old(Model()), f, cb)
    {
      var present := match f case TapFamily => hasTap case DragFamily => hasDrag case PinchFamily => hasPinch;
      if present {
        delivered := delivered + [Delivery(f, cb)];
      }
    }

    /** onActionBegin and onActionEnd: the first listener that is set. */
    method OnLifecycle(cb: Callback)
      modifies this
      ensures Model() == ForwardLifecycle(old(Model()), cb)
    {
      if hasTap {
        Offer(TapFamily, cb);
      } else if hasDrag {
        Offer(DragFamily, cb);
      } else if hasPinch {
        Offer(PinchFamily, cb);
      }
    }

    /** onSingleTap, onDoubleTap, onMoreTap, onLongTap and onLongPress. */
    method OnTapFamily(cb: Callback)
      modifies this
      ensures Model() == ForwardTap(old(Model()), cb)
    {
      var open := match cb.gesture
        case LongTap => longPressEnabled && tapEnabled
        case LongPress => longPressEnabled
        case _ => tapEnabled;
      if !open {
        return;
      }
      Offer(TapFamily, cb);
    }

    /** onDragBegin latches the drag flag; onDragBegin, onDrag, onDragFling and onDragEnd go on only with the latch set. */
    method OnDragFamily(cb: Callback)
      modifies this
      ensures Model() == ForwardDrag(old(Model()), cb)
    {
      if cb.gesture.DragBegin? {
        ifHandleDrag := dragEnabled;
      }
      if !ifHandleDrag {
        return;
      }
      Offer(DragFamily, cb);
    }

    /** onPinchBegin latches the pinch flag; the pinch callbacks go on only with the latch set. */
    method OnPinchFamily(cb: Callback)
      modifies this
      ensures Model() == ForwardPinch(old(Model()), cb)
    {
      if cb.gesture.PinchBegin? {
        ifHandlePinch := pinchEnabled;
      }
      if !ifHandlePinch {
        return;
      }
      Offer(PinchFamily, cb);
    }

    /** Any IAllGesturesListener callback: the override for its gesture. */
    method Dispatch(cb: Callback)
      modifies this
      ensures Model() == Forward(old(Model()), cb)
    {
      var family := FamilyOf(cb.gesture);
      if family.None? {
        OnLifecycle(cb);
      } else if family.value == TapFamily {
        OnTapFamily(cb);
      } else if family.value == DragFamily {
        OnDragFamily(cb);
      } else {
        OnPinchFamily(cb);
      }
    }
  }
}
