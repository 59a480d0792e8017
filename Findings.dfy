/**
 * Two places where the source does not do what it evidently means to, each
 * modelled as written (with an input that shows the discrepancy) beside the
 * corrected behaviour the rest of the model uses.
 */
module Findings {
  import opened Wrappers
  import opened Events
  import opened Callbacks
  import opened Policy
  import opened PointerMaps
  import opened Recognizer
  import opened Steps
  import opened Settings
  import opened SingleFingerProperties
  import opened PinchProperties

  // --- setIsLongPressEnabled of GestureDetector.kt ----------------------------

  /** setIsLongPressEnabled of GestureDetector.kt as written: it flips the tap switch. */
  function SetLongPressEnabledAsWritten(m: M, enabled: bool): (r: M)
    ensures r.single.tapEnabled == enabled && r.single.longPressEnabled == m.single.longPressEnabled
  {
    m.(single := m.single.(tapEnabled := enabled))
  }

  /**
   * Turning long press off as written leaves it on, so the next press still
   * schedules a long press, and turns taps off instead.
   */
  lemma LongPressOffAsWrittenStillSchedules(m: M, e: MotionEvent, t: Ref, c: Ref)
    requires WellFormed(e) && Held(m) && m.fault.None? && m.cur == SingleFingerPressing && e.action == Down && DownCount(e) == 1
    requires m.single.longPressEnabled
    ensures var m1 := SetLongPressEnabledAsWritten(m, false);
      && !m1.single.tapEnabled
      && OnlyLast(SingleDoing(m1, e, t, c).pending, MSG_LONG_PRESS)
  {
    PressSchedulesLongPress(SetLongPressEnabledAsWritten(m, false), e, t, c);
  }

  /** The corrected setter turns long press off and leaves taps alone. */
  lemma LongPressOffCorrected(m: M, e: MotionEvent, t: Ref, c: Ref)
    requires WellFormed(e) && Held(m) && m.fault.None? && m.cur == SingleFingerPressing && e.action == Down && DownCount(e) == 1
    requires !HasMessages(m.pending, MSG_LONG_PRESS)
    ensures var m1 := SetLongPressEnabled(m, false);
      && m1.single.tapEnabled == m.single.tapEnabled
      && !HasMessages(SingleDoing(m1, e, t, c).pending, MSG_LONG_PRESS)
  {
    LongPressOffSchedulesNothing(m, e, t, c);
  }

  // --- onExit of PinchState ---------------------------------------------------

  /**
   * onExit of PinchState as written: the end of the pinch is reported on the
   * two smallest pointer ids of each array (`keyAt(0)`, `keyAt(1)`), not on the
   * anchor pair the begin and every move reported; fewer than two keys make
   * `keyAt(1)` an index out of range.
   */
  function PinchExitAsWritten(m: M, e: MotionEvent, t: Ref, c: Ref): (r: M)
    requires WellFormed(e)
    ensures r.cur == m.cur && r.single == m.single
  {
    var p := m.pinch;
    var ks, kt := SortedKeys(p.start.Keys), SortedKeys(p.stop.Keys);
    var m1 :=
      if m.variant != Legacy && !m.listener then m
      else if |ks| < 2 || |kt| < 2 then m.(fault := Some(IndexOutOfRange))
      else Emit(m, PinchEnd([Get(p.start, ks[0]), Get(p.start, ks[1])], [Get(p.stop, kt[0]), Get(p.stop, kt[1])]), Clone(m, e), t, c);
    if m1.fault.Some? then m1 else m1.(pinch := Pinching(map[], map[], []))
  }

  /** The keys 0, 1 and 2 in ascending order. */
  lemma SortedThree()
    ensures SortedKeys({0, 1, 2}) == [0, 1, 2]
  {
    var r := SortedKeys({0, 1, 2});
    forall k ensures k in r <==> k in [0, 1, 2] {
      assert k in r <==> k in {0, 1, 2};
    }
    IncreasingUnique(r, [0, 1, 2]);
  }

  /** With fingers 0, 1 and 2 down, the end as written reports fingers 0 and 1. */
  lemma AsWrittenOnThree(m: M, e: MotionEvent, t: Ref, c: Ref, a: Point, b: Point, d: Point)
    requires WellFormed(e) && m.fault.None? && m.listener
    requires m.pinch == Pinching(map[0 := a, 1 := b, 2 := d], map[0 := a, 1 := b, 2 := d], [1, 2, 0])
    ensures PinchExitAsWritten(m, e, t, c).log == m.log + [Callback(PinchEnd([Some(a), Some(b)], [Some(a), Some(b)]), Clone(m, e), t, c)]
  {
    assert m.pinch.start.Keys == {0, 1, 2} && m.pinch.stop.Keys == {0, 1, 2};
    SortedThree();
  }

  /**
   * Fingers 1 and 2 pinch, then finger 0 goes down: the down order is
   * [1, 2, 0]. The begin reported fingers 1 and 2; the end as written reports
   * fingers 0 and 1, while the corrected exit reports 1 and 2 again.
   */
  lemma PinchEndAsWrittenSwapsFingers(m: M, e: MotionEvent, t: Ref, c: Ref, a: Point, b: Point, d: Point)
    requires WellFormed(e) && m.fault.None? && m.listener && a != d
    requires m.pinch == Pinching(map[0 := a, 1 := b, 2 := d], map[0 := a, 1 := b, 2 := d], [1, 2, 0])
    ensures PinchGesture(Begins, m.pinch) == PinchBegin([Some(b), Some(d)])
    ensures PinchExitAsWritten(m, e, t, c).log == m.log + [Callback(PinchEnd([Some(a), Some(b)], [Some(a), Some(b)]), Clone(m, e), t, c)]
    ensures PinchExit(m, e, t, c).log == m.log + [Callback(PinchEnd([Some(b), Some(d)], [Some(b), Some(d)]), Clone(m, e), t, c)]
    ensures PinchExitAsWritten(m, e, t, c).log != PinchExit(m, e, t, c).log
  {
    AsWrittenOnThree(m, e, t, c, a, b, d);
    assert PinchInv(m.pinch);
    ExitReportsAnchors(m, e, t, c);
    var w := PinchExitAsWritten(m, e, t, c).log;
    assert w[|m.log|].gesture.starts[0] == Some(a);
    assert PinchExit(m, e, t, c).log[|m.log|].gesture.starts[0] == Some(b);
  }
}
