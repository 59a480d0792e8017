/**
 * The detectors' configuration: the thresholds GestureDetector's `init` derives
 * from its arguments and the platform's ViewConfiguration, and the switches its
 * setters flip on the state instances.
 */
module Settings {
  import opened Wrappers
  import opened Events
  import opened Callbacks
  import opened Policy
  import opened Recognizer
  import opened Steps

  /** The ViewConfiguration values a detector reads once, on construction. */
  datatype Platform = Platform(
    scaledTouchSlop: real,
    scaledDoubleTapSlop: real,
    scaledMinimumFlingVelocity: real,
    scaledMaximumFlingVelocity: real,
    tapTimeout: int,
    longPressTimeout: int)

  function Min(a: real, b: real): real { if a <= b then a else b }
  function Max(a: real, b: real): real { if a >= b then a else b }

  /**
   * `init` of both detectors: each slop is the smaller of the argument and the
   * platform's, squared and truncated; each fling velocity the larger of the
   * two, truncated. The tap timeout is at least 150 ms.
   */
  function InitConfig(touchSlop: real, tapSlop: real, minFlingVec: real, maxFlingVec: real, p: Platform): (r: Config)
    ensures r.tapTimeout >= 150 && r.tapTimeout >= p.tapTimeout && r.longPressTimeout == p.longPressTimeout
    ensures r.touchSlopSquare >= 0 && r.tapSlopSquare >= 0
  {
    var touch := Min(touchSlop, p.scaledTouchSlop);
    var tap := Min(tapSlop, p.scaledDoubleTapSlop);
    Config(Trunc(touch * touch), Trunc(tap * tap),
           Trunc(Max(minFlingVec, p.scaledMinimumFlingVelocity)),
           Trunc(Max(maxFlingVec, p.scaledMaximumFlingVelocity)),
           if p.tapTimeout >= 150 then p.tapTimeout else 150,
           p.longPressTimeout)
  }

  /**
   * The slops a detector uses never exceed the platform's: the squared touch
   * slop is within one of the square of the smaller slop, and at most the
   * square of either when both are non-negative. The fling thresholds are at
   * least the platform's, up to truncation.
   */
  lemma ConfigBounds(touchSlop: real, tapSlop: real, minFlingVec: real, maxFlingVec: real, p: Platform)
    ensures var r := InitConfig(touchSlop, tapSlop, minFlingVec, maxFlingVec, p);
      var s := Min(touchSlop, p.scaledTouchSlop);
      && r.touchSlopSquare as real <= s * s < r.touchSlopSquare as real + 1.0
      && (0.0 <= touchSlop && 0.0 <= p.scaledTouchSlop ==>
            r.touchSlopSquare as real <= touchSlop * touchSlop && r.touchSlopSquare as real <= p.scaledTouchSlop * p.scaledTouchSlop)
      && (0.0 <= p.scaledMinimumFlingVelocity ==> r.minFlingVelocity as real > p.scaledMinimumFlingVelocity - 1.0)
      && (0.0 <= p.scaledMaximumFlingVelocity ==> r.maxFlingVelocity as real > p.scaledMaximumFlingVelocity - 1.0)
  {
    var s := Min(touchSlop, p.scaledTouchSlop);
    assert s * s >= 0.0;
    if 0.0 <= touchSlop && 0.0 <= p.scaledTouchSlop {
      assert 0.0 <= s <= touchSlop && s <= p.scaledTouchSlop;
      assert s * s <= touchSlop * touchSlop;
      assert s * s <= p.scaledTouchSlop * p.scaledTouchSlop;
    }
  }

  /** setIsTapEnabled: the pressing state's tap switch. */
  function SetTapEnabled(m: M, enabled: bool): (r: M)
    ensures r.single.tapEnabled == enabled
  {
    m.(single := m.single.(tapEnabled := enabled))
  }

  /** setIsLongPressEnabled as the Java detector writes it (and as the Kotlin one evidently intends). */
  function SetLongPressEnabled(m: M, enabled: bool): (r: M)
    ensures r.single.longPressEnabled == enabled
  {
    m.(single := m.single.(longPressEnabled := enabled))
  }

  /** setIsMultitouchEnabled: the switch of the pressing, idle and drag states together. */
  function SetMultitouchEnabled(m: M, enabled: bool): (r: M)
    ensures r.single.multitouch == enabled && r.idleMultitouch == enabled && r.drag.multitouch == enabled
  {
    m.(single := m.single.(multitouch := enabled), idleMultitouch := enabled, drag := m.drag.(multitouch := enabled))
  }

  /** resetConfig: every switch back on. */
  function ResetConfig(m: M): (r: M)
  {
    m.(single := m.single.(longPressEnabled := true, tapEnabled := true, multitouch := true),
       idleMultitouch := true, drag := m.drag.(multitouch := true))
  }

  /** What onTouchEvent returns: whether taps or long presses are on. */
  predicate Consumed(m: M)
  {
    m.single.tapEnabled || m.single.longPressEnabled
  }

  /** The switches of a detector. */
  function Switches(m: M): (bool, bool, bool, bool, bool)
  {
    (m.single.tapEnabled, m.single.longPressEnabled, m.single.multitouch, m.idleMultitouch, m.drag.multitouch)
  }

  /** Resetting puts every switch back as a new detector has it and changes nothing else. */
  lemma ResetRestoresDefaults(m: M)
    ensures Switches(ResetConfig(m)) == Switches(Initial(m.variant, m.config, m.listener))
    ensures ResetConfig(m).cur == m.cur && ResetConfig(m).log == m.log && ResetConfig(m).pending == m.pending
    ensures ResetConfig(ResetConfig(m)) == ResetConfig(m)
    ensures Consumed(ResetConfig(m))
  {
  }

  /** With taps off, a release that is not a long tap reports nothing on leaving the pressing state. */
  lemma TapsOffSilenceRelease(m: M, e: MotionEvent)
    requires WellFormed(e) && Held(m) && m.fault.None? && e.action == Up && m.single.currentUp.Some?
    requires !(m.single.longPressEnabled && m.single.hadLongPress)
    ensures var r := SingleExit(SetTapEnabled(m, false), e);
      r.fault.None? && r.log == m.log
  {
  }

  /** A one-finger press while long press is off leaves neither a tap nor a long press pending. */
  lemma PressWhileLongPressOff(m: M, e: MotionEvent, t: Ref, c: Ref)
    requires WellFormed(e) && Held(m) && m.fault.None? && m.cur == SingleFingerPressing && e.action == Down && DownCount(e) == 1
    requires !m.single.longPressEnabled && !HasMessages(m.pending, MSG_LONG_PRESS)
    ensures var r := SingleDoing(m, e, t, c);
      r.cur == SingleFingerPressing && !HasMessages(r.pending, MSG_LONG_PRESS) && !HasMessages(r.pending, MSG_TAP)
  {
    PressArms(m, e, t, c);
    ArmTimersQuiet(HoldPress(m, e), e, Focus(e), t, c);
  }

  /** With long press switched off, a press schedules no long press. */
  lemma LongPressOffSchedulesNothing(m: M, e: MotionEvent, t: Ref, c: Ref)
    requires WellFormed(e) && Held(m) && m.fault.None? && m.cur == SingleFingerPressing && e.action == Down && DownCount(e) == 1
    requires !HasMessages(m.pending, MSG_LONG_PRESS)
    ensures var r := SingleDoing(SetLongPressEnabled(m, false), e, t, c);
      r.cur == SingleFingerPressing && !HasMessages(r.pending, MSG_LONG_PRESS) && !HasMessages(r.pending, MSG_TAP)
  {
    PressWhileLongPressOff(SetLongPressEnabled(m, false), e, t, c);
  }

  /** With multi-touch off, a second finger neither leaves the pressing state nor the drag. */
  lemma MultitouchOffIgnoresSecondFinger(m: M, e: MotionEvent, t: Ref, c: Ref)
    requires WellFormed(e) && Held(m) && m.variant == Kotlin && e.action == PointerDown
    ensures SingleDoing(SetMultitouchEnabled(m, false), e, t, c) == SetMultitouchEnabled(m, false)
    ensures DragDoing(SetMultitouchEnabled(m, false), e, t, c) == SetMultitouchEnabled(m, false)
  {
  }

  /** With multi-touch off, several fingers going down at once start the single-finger press. */
  lemma MultitouchOffPressesWithOneFinger(m: M, e: MotionEvent, t: Ref, c: Ref)
    requires WellFormed(e) && Held(m) && m.fault.None? && m.variant == Kotlin && m.cur == Idle && e.action == Down
    ensures var r := IdleDoing(SetMultitouchEnabled(m, false), e, t, c);
      r.cur == SingleFingerPressing && r.single.currentDown == Some(e)
  {
    IdlePressWithoutMultitouch(SetMultitouchEnabled(m, false), e, t, c);
  }

  lemma IdlePressWithoutMultitouch(m: M, e: MotionEvent, t: Ref, c: Ref)
    requires WellFormed(e) && Held(m) && m.fault.None? && m.variant == Kotlin && m.cur == Idle && e.action == Down
    requires !m.idleMultitouch && !m.single.multitouch
    ensures var r := IdleDoing(m, e, t, c);
      r.cur == SingleFingerPressing && r.single.currentDown == Some(e)
  {
    IdlePressStep(m, e, t, c);
    var x := IdleExit(m, e, t, c);
    PressWithoutMultitouch(x.(cur := SingleFingerPressing, single := x.single.(tapCount := 0, hadLongPress := false, touchingObject := t, touchingContext := c)), e, t, c);
  }

  /**
   * Without multi-touch, a press of any number of fingers stays in the pressing
   * state and arms the timers: the focus is the start, no tap is pending, and with
   * long press on the only long-press message is last, due at the press's down
   * time plus both timeouts.
   */
  lemma PressWithoutMultitouch(m: M, e: MotionEvent, t: Ref, c: Ref)
    requires WellFormed(e) && Held(m) && m.variant == Kotlin && !m.single.multitouch && e.action == Down && m.cur == SingleFingerPressing
    ensures var r := SingleDoing(m, e, t, c);
      && r.cur == SingleFingerPressing && r.single.currentDown == Some(e)
      && r.single.previousDown == m.single.currentDown && r.single.start == Focus(e)
      && r.log == m.log && r.fault == m.fault
      && !HasMessages(r.pending, MSG_TAP)
      && (m.single.longPressEnabled ==>
            && OnlyLast(r.pending, MSG_LONG_PRESS)
            && r.pending[|r.pending| - 1].due == AtTime(e.downTime + m.config.tapTimeout + m.config.longPressTimeout))
      && (!m.single.longPressEnabled ==> r.pending == RemoveMessages(m.pending, MSG_TAP))
  {
    PressArms(m, e, t, c);
    ArmTimersSchedules(HoldPress(m, e), e, Focus(e), t, c);
  }
}
