/**
 * What the pinch state promises: its anchor pair (the first two fingers of the
 * down order) is always held in both pointer arrays, so every pinch callback
 * carries four points and never a null; losing an anchor ends the pinch and
 * begins a new one on the fingers still down; losing any other finger is silent.
 */
module PinchProperties {
  import opened Wrappers
  import opened Events
  import opened Snapshots
  import opened Callbacks
  import opened Policy
  import opened PointerMaps
  import opened Recognizer

  /** No id occurs twice. */
  predicate Distinct(order: seq<int>)
  {
    forall i, j :: 0 <= i < j < |order| ==> order[i] != order[j]
  }

  /**
   * The pinch state's bookkeeping while it is current: the down order holds at
   * least two ids, none twice, and both arrays hold exactly the ids of the
   * down order.
   */
  predicate PinchInv(p: Pinching)
  {
    && |p.order| >= 2 && Distinct(p.order)
    && (forall k :: k in p.start ==> k in p.order) && (forall k :: k in p.order ==> k in p.start)
    && p.start.Keys == p.stop.Keys
  }

  /** Under the invariant neither array has a null entry for an anchor. */
  lemma AnchorsPresent(p: Pinching)
    requires PinchInv(p)
    ensures p.order[0] != p.order[1]
    ensures AnchorPoints(p.start, p.order) == [Some(p.start[p.order[0]]), Some(p.start[p.order[1]])]
    ensures AnchorPoints(p.stop, p.order) == [Some(p.stop[p.order[0]]), Some(p.stop[p.order[1]])]
  {
    assert p.order[0] in p.order && p.order[1] in p.order;
    assert p.order[0] in p.stop.Keys && p.order[1] in p.stop.Keys;
  }

  /**
   * Holding the fingers still down, as the state does on entry and on restart,
   * establishes the invariant when two or more are down: the anchors are the
   * first two fingers in index order, at their positions.
   */
  lemma RestartEstablishes(m: M, e: MotionEvent)
    requires WellFormed(e) && DownCount(e) >= 2
    ensures var p := Restart(m, e).pinch;
      var kept := Remaining(e);
      && |kept| >= 2
      && PinchInv(p) && p.order == Ids(kept) && p.start == p.stop
      && AnchorPoints(p.start, p.order) == [Some(PointOf(kept[0])), Some(PointOf(kept[1]))]
  {
    RemainingCount(e);
    var kept := Remaining(e);
    HoldMapFacts(kept);
    assert kept[0].id in Ids(kept) && kept[1].id in Ids(kept);
  }

  /** Entering with two or more fingers down begins a pinch on the first two. */
  lemma EnterBegins(m: M, e: MotionEvent, t: Ref, c: Ref)
    requires WellFormed(e) && DownCount(e) >= 2 && m.listener && m.fault.None?
    ensures var r := PinchEnter(m, e, t, c);
      var kept := Remaining(e);
      && |kept| >= 2
      && r.fault.None? && PinchInv(r.pinch) && r.cur == m.cur
      && r.log == m.log + [Callback(PinchBegin([Some(PointOf(kept[0])), Some(PointOf(kept[1]))]), Clone(m, e), t, c)]
  {
    RestartEstablishes(m, e);
  }

  /**
   * Entering with fewer than two fingers down reads the down order past its
   * end, whenever the begin callback's arguments are evaluated.
   */
  lemma EnterWithOneFingerThrows(m: M, e: MotionEvent, t: Ref, c: Ref)
    requires WellFormed(e) && DownCount(e) < 2 && (m.variant == Legacy || m.listener)
    ensures PinchEnter(m, e, t, c).fault == Some(IndexOutOfRange)
  {
    RemainingCount(e);
  }

  /**
   * A move with two or more fingers down puts the anchors' stop points at the
   * first two pointers and reports the pinch from the anchors' start points to
   * them; the invariant is kept and nothing else changes.
   */
  lemma MoveReportsPinch(m: M, e: MotionEvent, t: Ref, c: Ref)
    requires WellFormed(e) && Held(m) && m.fault.None? && m.cur == Inst.Pinch && PinchInv(m.pinch)
    requires e.action == Move && DownCount(e) >= 2
    ensures var r := PinchDoing(m, e, t, c);
      var p := m.pinch;
      var p0, p1 := PointOf(e.pointers[0]), PointOf(e.pointers[1]);
      && r.cur == Inst.Pinch && PinchInv(r.pinch)
      && r.pinch == p.(stop := p.stop[p.order[0] := p0][p.order[1] := p1])
      && (r.fault.None? <==> m.listener || m.variant != Legacy)
      && (m.listener ==>
            r.log == m.log + [Callback(Gesture.Pinch([Some(p.start[p.order[0]]), Some(p.start[p.order[1]])], [Some(p0), Some(p1)]),
                                       Clone(m, e), t, c)])
      && (!m.listener ==> r.log == m.log)
  {
    var p := m.pinch;
    assert p.order[0] in p.stop.Keys && p.order[1] in p.stop.Keys;
    var p' := p.(stop := p.stop[p.order[0] := PointOf(e.pointers[0])][p.order[1] := PointOf(e.pointers[1])]);
    assert PinchInv(p');
    AnchorsPresent(p');
  }

  /**
   * A finger going down (with an id not already held, as the platform assigns
   * it) is held and queued behind the others; the anchors and the log stay.
   */
  lemma PointerDownQueues(m: M, e: MotionEvent, t: Ref, c: Ref)
    requires WellFormed(e) && Held(m) && m.fault.None? && m.cur == Inst.Pinch && PinchInv(m.pinch)
    requires e.action == PointerDown && e.pointers[e.actionIndex].id !in m.pinch.start
    ensures var r := PinchDoing(m, e, t, c);
      var q := e.pointers[e.actionIndex];
      && r.cur == Inst.Pinch && r.fault.None? && r.log == m.log && PinchInv(r.pinch)
      && r.pinch.order == m.pinch.order + [q.id]
      && r.pinch.start[q.id] == r.pinch.stop[q.id] == PointOf(q)
      && r.pinch.order[..2] == m.pinch.order[..2]
  {
  }

  /**
   * A finger other than the anchors going up is forgotten without a callback;
   * the anchors stay where they were.
   */
  lemma OtherFingerUpIsSilent(m: M, e: MotionEvent, t: Ref, c: Ref)
    requires WellFormed(e) && Held(m) && m.fault.None? && m.cur == Inst.Pinch && PinchInv(m.pinch)
    requires e.action == PointerUp && DownCount(e) >= 2
    requires var i := IndexOf(m.pinch.order, e.pointers[e.actionIndex].id); i == -1 || i >= 2
    ensures var r := PinchDoing(m, e, t, c);
      var upId := e.pointers[e.actionIndex].id;
      && r.cur == Inst.Pinch && r.fault.None? && r.log == m.log && PinchInv(r.pinch)
      && upId !in r.pinch.start && upId !in r.pinch.stop && upId !in r.pinch.order
      && r.pinch.order[..2] == m.pinch.order[..2]
      && AnchorPoints(r.pinch.start, r.pinch.order) == AnchorPoints(m.pinch.start, m.pinch.order)
      && AnchorPoints(r.pinch.stop, r.pinch.order) == AnchorPoints(m.pinch.stop, m.pinch.order)
  {
    assert PinchDoing(m, e, t, c) == PinchLift(m, e, t, c);
    LiftForgets(m, e, t, c);
  }

  lemma LiftForgets(m: M, e: MotionEvent, t: Ref, c: Ref)
    requires WellFormed(e) && PinchInv(m.pinch)
    requires e.action == PointerUp
    requires var i := IndexOf(m.pinch.order, e.pointers[e.actionIndex].id); i == -1 || i >= 2
    ensures var r := PinchLift(m, e, t, c);
      var upId := e.pointers[e.actionIndex].id;
      && r == m.(pinch := r.pinch) && PinchInv(r.pinch)
      && upId !in r.pinch.start && upId !in r.pinch.stop && upId !in r.pinch.order
      && r.pinch.order[..2] == m.pinch.order[..2]
      && AnchorPoints(r.pinch.start, r.pinch.order) == AnchorPoints(m.pinch.start, m.pinch.order)
      && AnchorPoints(r.pinch.stop, r.pinch.order) == AnchorPoints(m.pinch.stop, m.pinch.order)
  {
    ForgetKeepsAnchors(m.pinch, e.pointers[e.actionIndex].id);
  }

  /** Forgetting a finger other than the anchors keeps the invariant and the anchors' entries. */
  lemma ForgetKeepsAnchors(p: Pinching, upId: int)
    requires PinchInv(p)
    requires var i := IndexOf(p.order, upId); i == -1 || i >= 2
    ensures var q := Forget(p, upId);
      && PinchInv(q)
      && upId !in q.start && upId !in q.stop && upId !in q.order
      && q.order[..2] == p.order[..2]
      && AnchorPoints(q.start, q.order) == AnchorPoints(p.start, p.order)
      && AnchorPoints(q.stop, q.order) == AnchorPoints(p.stop, p.order)
  {
    var i := IndexOf(p.order, upId);
    assert p.order[0] != upId && p.order[1] != upId;
    if i != -1 {
      RemoveAtDistinct(p.order, i);
    }
  }

  /** Removing one entry of a repetition-free order removes exactly that id. */
  lemma RemoveAtDistinct(order: seq<int>, i: int)
    requires Distinct(order) && 0 <= i < |order|
    ensures var o := RemoveAt(order, i);
      Distinct(o) && forall k :: k in o <==> k in order && k != order[i]
  {
    var o := RemoveAt(order, i);
    forall k | k in order && k != order[i] ensures k in o {
      var j :| 0 <= j < |order| && order[j] == k;
      assert o[if j < i then j else j - 1] == k;
    }
  }

  /**
   * An anchor going up ends the pinch (reporting the old anchors) and begins a
   * new one on the first two fingers still down.
   */
  lemma AnchorUpRestarts(m: M, e: MotionEvent, t: Ref, c: Ref)
    requires WellFormed(e) && Held(m) && m.fault.None? && m.cur == Inst.Pinch && PinchInv(m.pinch) && m.listener
    requires e.action == PointerUp && DownCount(e) >= 2
    requires 0 <= IndexOf(m.pinch.order, e.pointers[e.actionIndex].id) < 2
    ensures var r := PinchDoing(m, e, t, c);
      var p := m.pinch;
      var kept := Remaining(e);
      && |kept| >= 2
      && r.cur == Inst.Pinch && r.fault.None? && PinchInv(r.pinch) && r.pinch.order == Ids(kept)
      && AnchorPoints(r.pinch.start, r.pinch.order) == [Some(PointOf(kept[0])), Some(PointOf(kept[1]))]
      && r.log == m.log
           + [Callback(PinchEnd(AnchorPoints(p.start, p.order), AnchorPoints(p.stop, p.order)), Clone(m, e), t, c),
              Callback(PinchBegin(AnchorPoints(r.pinch.start, r.pinch.order)), Clone(m, e), t, c)]
  {
    assert PinchDoing(m, e, t, c) == PinchLift(m, e, t, c);
    LiftRestarts(m, e, t, c);
  }

  lemma LiftRestarts(m: M, e: MotionEvent, t: Ref, c: Ref)
    requires WellFormed(e) && m.fault.None? && |m.pinch.order| >= 2 && m.listener
    requires e.action == PointerUp && DownCount(e) >= 2
    requires 0 <= IndexOf(m.pinch.order, e.pointers[e.actionIndex].id) < 2
    ensures var r := PinchLift(m, e, t, c);
      var p := m.pinch;
      var kept := Remaining(e);
      && |kept| >= 2
      && r.cur == m.cur && r.fault.None? && PinchInv(r.pinch) && r.pinch.order == Ids(kept)
      && AnchorPoints(r.pinch.start, r.pinch.order) == [Some(PointOf(kept[0])), Some(PointOf(kept[1]))]
      && r.log == m.log
           + [Callback(PinchEnd(AnchorPoints(p.start, p.order), AnchorPoints(p.stop, p.order)), Clone(m, e), t, c),
              Callback(PinchBegin(AnchorPoints(r.pinch.start, r.pinch.order)), Clone(m, e), t, c)]
  {
    var ev := Clone(m, e);
    var m1 := EmitPinch(m, Ends, ev, t, c);
    EmitPinchAppends(m, Ends, ev, t, c);
    RestartEstablishes(m1, e);
    EmitPinchAppends(Restart(m1, e), Begins, ev, t, c);
  }

  /** With a listener and two anchors, a pinch callback is appended and nothing else changes. */
  lemma EmitPinchAppends(m: M, call: PinchCall, ev: Option<MyMotionEvent>, t: Ref, c: Ref)
    requires m.listener && |m.pinch.order| >= 2
    ensures EmitPinch(m, call, ev, t, c) == m.(log := m.log + [Callback(PinchGesture(call, m.pinch), ev, t, c)])
  {
  }

  /** Leaving the state reports the end of the pinch on the anchors and forgets every finger. */
  lemma ExitReportsAnchors(m: M, e: MotionEvent, t: Ref, c: Ref)
    requires WellFormed(e) && m.fault.None? && PinchInv(m.pinch) && m.listener
    ensures var r := PinchExit(m, e, t, c);
      var p := m.pinch;
      && r.fault.None? && r.pinch == Pinching(map[], map[], [])
      && r.log == m.log + [Callback(PinchEnd([Some(p.start[p.order[0]]), Some(p.start[p.order[1]])],
                                             [Some(p.stop[p.order[0]]), Some(p.stop[p.order[1]])]), Clone(m, e), t, c)]
  {
    AnchorsPresent(m.pinch);
  }
}
