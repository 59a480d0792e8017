/**
 * What the gesture states send out: listener callbacks (IGestureListener) and
 * delayed messages to the owner's Handler (MSG_TAP, MSG_LONG_PRESS).
 */
module Callbacks {
  import opened Wrappers
  import opened Events
  import opened Snapshots

  /** An `Any?` reference passed through untouched: the touched object or its context. */
  datatype Ref = Null | Obj(handle: nat)

  /**
   * The IGestureListener callback and its gesture-specific arguments. A pinch
   * callback carries the points the state looked up for the anchor ids; an id
   * missing from its pointer array gives a null entry (`None`).
   */
  datatype Gesture =
    | ActionBegin
    | ActionEnd
    | SingleTap
    | DoubleTap
    | MoreTap(tapCount: int)
    | LongTap
    | LongPress
    | DragBegin
    | Drag(start: Point, stop: Point)
    | DragFling(start: Point, stop: Point, velocityX: real, velocityY: real)
    | DragEnd(start: Point, stop: Point)
    | PinchBegin(starts: seq<Option<Point>>)
    | Pinch(starts: seq<Option<Point>>, stops: seq<Option<Point>>)
    | PinchFling
    | PinchEnd(starts: seq<Option<Point>>, stops: seq<Option<Point>>)

  /**
   * One callback as the listener receives it. Callbacks of the legacy library
   * carry no snapshot (`None`): its obtainMyMotionEvent calls a MyMotionEvent
   * constructor that library does not declare.
   */
  datatype Callback = Callback(gesture: Gesture, event: Option<MyMotionEvent>, target: Ref, context: Ref)

  predicate IsTap(g: Gesture)
  {
    g.SingleTap? || g.DoubleTap? || g.MoreTap? || g.LongTap?
  }

  const MSG_TAP: int := 0xA1
  const MSG_LONG_PRESS: int := 0xA2

  /** When a message is due: at an uptime (sendMessageAtTime) or after a delay (sendMessageDelayed). */
  datatype Due = AtTime(uptime: int) | Delayed(delay: int)

  /** MyMessagePayload (BaseGestureState.kt). */
  datatype Payload = Payload(event: Option<MyMotionEvent>, target: Ref, context: Ref)

  datatype Message = Message(what: int, payload: Payload, due: Due)

  predicate HasMessages(q: seq<Message>, what: int)
  {
    exists i :: 0 <= i < |q| && q[i].what == what
  }

  /** The last message in `q` is the only one with code `what`. */
  predicate OnlyLast(q: seq<Message>, what: int)
  {
    |q| > 0 && q[|q| - 1].what == what && !HasMessages(q[..|q| - 1], what)
  }

  /** Handler.removeMessages(what): every pending message with that code goes, the others stay in order. */
  function RemoveMessages(q: seq<Message>, what: int): (r: seq<Message>)
    ensures |r| <= |q|
  {
    if |q| == 0 then []
    else
      var rest := RemoveMessages(q[..|q| - 1], what);
      var last := q[|q| - 1];
      if last.what == what then rest else rest + [last]
  }

  /**
   * What removeMessages leaves: exactly the messages with another code, so none
   * with this code, the same set of other codes, and the queue untouched when it
   * held none with this code.
   */
  lemma {:induction false} RemoveMessagesFacts(q: seq<Message>, what: int)
    ensures var r := RemoveMessages(q, what);
      && (forall msg :: msg in r <==> msg in q && msg.what != what)
      && !HasMessages(r, what)
      && (!HasMessages(q, what) ==> r == q)
      && (forall w :: w != what ==> (HasMessages(r, w) <==> HasMessages(q, w)))
  {
    if |q| > 0 {
      var init, last := q[..|q| - 1], q[|q| - 1];
      RemoveMessagesFacts(init, what);
      assert q == init + [last];
      var rest := RemoveMessages(init, what);
      forall w ensures HasMessages(q, w) <==> HasMessages(init, w) || last.what == w {
        HasMessagesAppend(init, last, w);
      }
      if last.what != what {
        forall w ensures HasMessages(rest + [last], w) <==> HasMessages(rest, w) || last.what == w {
          HasMessagesAppend(rest, last, w);
        }
      }
    }
  }

  /** Appending a message adds its code to the codes pending. */
  lemma HasMessagesAppend(q: seq<Message>, msg: Message, w: int)
    ensures HasMessages(q + [msg], w) <==> HasMessages(q, w) || msg.what == w
  {
    if HasMessages(q, w) {
      var i :| 0 <= i < |q| && q[i].what == w;
      assert (q + [msg])[i] == q[i];
    }
    if msg.what == w {
      assert (q + [msg])[|q|] == msg;
    }
  }

  /** Removing the same code twice is removing it once. */
  lemma RemoveMessagesIdempotent(q: seq<Message>, what: int)
    ensures RemoveMessages(RemoveMessages(q, what), what) == RemoveMessages(q, what)
  {
  }

  /** obtainMessagePayload (BaseGestureState.kt): a snapshot of the event with the target and context untouched. */
  method ObtainMessagePayload(e: MotionEvent, target: Ref, context: Ref) returns (p: Payload)
    requires WellFormed(e)
    ensures p.event == Some(Snapshot(e)) && p.target == target && p.context == context
  {
    var clone := ObtainMyMotionEvent(e);
    p := Payload(Some(clone), target, context);
  }
}
