/**
 * The immutable snapshot of a touch event that the gesture states hand to
 * listeners (MyMotionEvent in both the Kotlin library and the legacy Java
 * library), the test-side ShadowMotionEvent, and obtainMyMotionEvent, which
 * builds a snapshot from an event.
 */
module Snapshots {
  import opened Wrappers
  import opened Events

  /** A Kotlin Float as far as this model needs it: a real value, or NaN (0f / 0). */
  datatype Num = Finite(v: real) | NaN

  /** `sum / count` over Floats, where the mean of nothing is 0f / 0 = NaN. */
  function Mean(xs: seq<real>): Num
  {
    if |xs| == 0 then NaN else Finite(Sum(xs) / (|xs| as real))
  }

  /** The exception a snapshot constructor throws. */
  datatype ArgError = InvalidDownArrays | InconsistentDownArrays | IndexOutOfBounds

  /** MyMotionEvent.kt: the arrays are kept, the count and the focus are derived from them. */
  datatype MyMotionEvent = MyMotionEvent(
    maskedAction: int,
    downXs: seq<real>,
    downYs: seq<real>,
    isUp: bool,
    upX: real,
    upY: real,
    downPointerCount: int,
    downFocusX: Num,
    downFocusY: Num)

  /**
   * What the MyMotionEvent.kt constructor produces: it throws on a missing array
   * or on arrays of different lengths; otherwise the focus is the mean of each array.
   */
  function MyMotionEventOf(maskedAction: int, downXs: Option<seq<real>>, downYs: Option<seq<real>>,
                           isUp: bool, upX: real, upY: real): (r: Result<MyMotionEvent, ArgError>)
    ensures r.Err? <==> downXs.None? || downYs.None? || |downXs.value| != |downYs.value|
    ensures r.Err? ==> r.error == if downXs.None? || downYs.None? then InvalidDownArrays else InconsistentDownArrays
    ensures r.Ok? ==> r.value.downPointerCount == |r.value.downXs| == |r.value.downYs|
  {
    if downXs.None? || downYs.None? then Err(InvalidDownArrays)
    else if |downXs.value| != |downYs.value| then Err(InconsistentDownArrays)
    else Ok(MyMotionEvent(maskedAction, downXs.value, downYs.value, isUp, upX, upY,
                          |downXs.value|, Mean(downXs.value), Mean(downYs.value)))
  }

  /** The MyMotionEvent.kt constructor, with its summing loop. */
  method NewMyMotionEvent(maskedAction: int, downXs: Option<seq<real>>, downYs: Option<seq<real>>,
                          isUp: bool, upX: real, upY: real) returns (r: Result<MyMotionEvent, ArgError>)
    ensures r == MyMotionEventOf(maskedAction, downXs, downYs, isUp, upX, upY)
  {
    if downXs.None? || downYs.None? {
      return Err(InvalidDownArrays);
    } else if |downXs.value| != |downYs.value| {
      return Err(InconsistentDownArrays);
    }
    var xs, ys := downXs.value, downYs.value;
    var count := |xs|;
    var sumX, sumY := 0.0, 0.0;
    var i := 0;
    while i < count
      invariant 0 <= i <= count
      invariant sumX == Sum(xs[..i]) && sumY == Sum(ys[..i])
    {
      assert xs[..i + 1] == xs[..i] + [xs[i]] && ys[..i + 1] == ys[..i] + [ys[i]];
      SumAppend(xs[..i], xs[i]);
      SumAppend(ys[..i], ys[i]);
      sumX := sumX + xs[i];
      sumY := sumY + ys[i];
      i := i + 1;
    }
    assert xs[..count] == xs && ys[..count] == ys;
    var focusX := if count == 0 then NaN else Finite(sumX / (count as real));
    var focusY := if count == 0 then NaN else Finite(sumY / (count as real));
    r := Ok(MyMotionEvent(maskedAction, xs, ys, isUp, upX, upY, count, focusX, focusY));
  }

  /** A sum of values that all lie in [lo, hi] lies in [n * lo, n * hi]. */
  lemma {:induction false} SumBounds(xs: seq<real>, lo: real, hi: real)
    requires forall i :: 0 <= i < |xs| ==> lo <= xs[i] <= hi
    ensures (|xs| as real) * lo <= Sum(xs) <= (|xs| as real) * hi
  {
    if |xs| > 0 {
      SumBounds(xs[..|xs| - 1], lo, hi);
    }
  }

  /** The focus of a snapshot lies between the smallest and the largest down coordinate. */
  lemma MeanWithinBounds(xs: seq<real>, lo: real, hi: real)
    requires |xs| > 0
    requires forall i :: 0 <= i < |xs| ==> lo <= xs[i] <= hi
    ensures Mean(xs).Finite? && lo <= Mean(xs).v <= hi
  {
    SumBounds(xs, lo, hi);
    var n := |xs| as real;
    assert Sum(xs) / n >= lo by { assert Sum(xs) >= n * lo; }
    assert Sum(xs) / n <= hi by { assert Sum(xs) <= n * hi; }
  }

  /** MyMotionEvent.java: the same validation; no focus is derived. */
  datatype LegacyMyMotionEvent = LegacyMyMotionEvent(
    maskedAction: int,
    downPointerCount: int,
    downXs: seq<real>,
    downYs: seq<real>,
    isUp: bool,
    upX: real,
    upY: real)

  function LegacyMyMotionEventOf(maskedAction: int, downXs: Option<seq<real>>, downYs: Option<seq<real>>,
                                 isUp: bool, upX: real, upY: real): (r: Result<LegacyMyMotionEvent, ArgError>)
    ensures r.Err? <==> downXs.None? || downYs.None? || |downXs.value| != |downYs.value|
    ensures r.Ok? ==> r.value.downPointerCount == |r.value.downXs| == |r.value.downYs|
  {
    if downXs.None? || downYs.None? then Err(InvalidDownArrays)
    else if |downXs.value| != |downYs.value| then Err(InconsistentDownArrays)
    else Ok(LegacyMyMotionEvent(maskedAction, |downXs.value|, downXs.value, downYs.value, isUp, upX, upY))
  }

  /** Both libraries reject the same arguments with the same error and keep the same fields. */
  lemma LegacyAgreesWithKotlin(maskedAction: int, downXs: Option<seq<real>>, downYs: Option<seq<real>>,
                               isUp: bool, upX: real, upY: real)
    ensures var k := MyMotionEventOf(maskedAction, downXs, downYs, isUp, upX, upY);
            var j := LegacyMyMotionEventOf(maskedAction, downXs, downYs, isUp, upX, upY);
            && (k.Err? <==> j.Err?)
            && (k.Err? ==> k.error == j.error)
            && (k.Ok? ==> && k.value.downXs == j.value.downXs && k.value.downYs == j.value.downYs
                          && k.value.downPointerCount == j.value.downPointerCount
                          && k.value.isUp == j.value.isUp && k.value.upX == j.value.upX && k.value.upY == j.value.upY)
  {
  }

  /** ShadowMotionEvent.kt: a data class whose count and focus are overridable defaults. */
  datatype ShadowMotionEvent = ShadowMotionEvent(
    maskedAction: int,
    downXs: seq<real>,
    downYs: seq<real>,
    isUp: bool,
    upX: real,
    upY: real,
    downPointerCount: int,
    downFocusX: Num,
    downFocusY: Num)

  /**
   * The default focus of ShadowMotionEvent: the first `count` values summed and
   * divided by `count`. It reads past the array (and throws) when `count` exceeds
   * its length; a count of zero gives 0f / 0 = NaN, a negative one 0f / count = 0.
   */
  function DefaultFocus(values: seq<real>, count: int): Result<Num, ArgError>
  {
    if count > |values| then Err(IndexOutOfBounds)
    else if count == 0 then Ok(NaN)
    else if count < 0 then Ok(Finite(0.0))
    else Ok(Finite(Sum(values[..count]) / (count as real)))
  }

  /** The ShadowMotionEvent.kt constructor; `None` stands for an argument left to its default. */
  function ShadowOf(maskedAction: int, downXs: seq<real>, downYs: seq<real>, isUp: bool, upX: real, upY: real,
                    count: Option<int>, focusX: Option<Num>, focusY: Option<Num>): Result<ShadowMotionEvent, ArgError>
  {
    var n := if count.Some? then count.value else if |downXs| <= |downYs| then |downXs| else |downYs|;
    var fx := if focusX.Some? then Ok(focusX.value) else DefaultFocus(downXs, n);
    var fy := if focusY.Some? then Ok(focusY.value) else DefaultFocus(downYs, n);
    if fx.Err? then Err(fx.error)
    else if fy.Err? then Err(fy.error)
    else Ok(ShadowMotionEvent(maskedAction, downXs, downYs, isUp, upX, upY, n, fx.value, fy.value))
  }

  /** The default-argument loop of ShadowMotionEvent.kt for one coordinate. */
  method ComputeDefaultFocus(values: seq<real>, count: int) returns (r: Result<Num, ArgError>)
    ensures r == DefaultFocus(values, count)
  {
    var sum := 0.0;
    var i := 0;
    while i <= count - 1
      invariant 0 <= i <= if count < 0 then 0 else count
      invariant i <= |values|
      invariant sum == Sum(values[..i])
    {
      if i >= |values| {
        return Err(IndexOutOfBounds);
      }
      assert values[..i + 1] == values[..i] + [values[i]];
      SumAppend(values[..i], values[i]);
      sum := sum + values[i];
      i := i + 1;
    }
    if count == 0 {
      r := Ok(NaN);
    } else if count < 0 {
      r := Ok(Finite(0.0));
    } else {
      r := Ok(Finite(sum / (count as real)));
    }
  }

  method NewShadowMotionEvent(maskedAction: int, downXs: seq<real>, downYs: seq<real>, isUp: bool, upX: real, upY: real,
                              count: Option<int>, focusX: Option<Num>, focusY: Option<Num>)
    returns (r: Result<ShadowMotionEvent, ArgError>)
    ensures r == ShadowOf(maskedAction, downXs, downYs, isUp, upX, upY, count, focusX, focusY)
  {
    var n := if count.Some? then count.value else if |downXs| <= |downYs| then |downXs| else |downYs|;
    var fx := if focusX.Some? then Ok(focusX.value) else Err(IndexOutOfBounds);
    if focusX.None? {
      fx := ComputeDefaultFocus(downXs, n);
    }
    if fx.Err? {
      return Err(fx.error);
    }
    var fy := if focusY.Some? then Ok(focusY.value) else Err(IndexOutOfBounds);
    if focusY.None? {
      fy := ComputeDefaultFocus(downYs, n);
    }
    if fy.Err? {
      return Err(fy.error);
    }
    r := Ok(ShadowMotionEvent(maskedAction, downXs, downYs, isUp, upX, upY, n, fx.value, fy.value));
  }

  /**
   * With every default taken, a ShadowMotionEvent over arrays of equal length has
   * the count and the focus MyMotionEvent.kt derives from the same arrays.
   */
  lemma ShadowDefaultsMatchMyMotionEvent(maskedAction: int, xs: seq<real>, ys: seq<real>, isUp: bool, upX: real, upY: real)
    requires |xs| == |ys|
    ensures var s := ShadowOf(maskedAction, xs, ys, isUp, upX, upY, None, None, None);
            var k := MyMotionEventOf(maskedAction, Some(xs), Some(ys), isUp, upX, upY);
            && s.Ok? && k.Ok?
            && s.value.downPointerCount == k.value.downPointerCount
            && s.value.downFocusX == k.value.downFocusX && s.value.downFocusY == k.value.downFocusY
  {
    assert xs[..|xs|] == xs && ys[..|ys|] == ys;
  }

  /** With the default focus, a count larger than either array reads past it. */
  lemma ShadowCountBeyondArray(maskedAction: int, xs: seq<real>, ys: seq<real>, isUp: bool, upX: real, upY: real, n: int)
    requires n > |xs| || n > |ys|
    ensures ShadowOf(maskedAction, xs, ys, isUp, upX, upY, Some(n), None, None) == Err(IndexOutOfBounds)
  {
  }

  /**
   * obtainMyMotionEvent: the pointers still down, in index order (without the one
   * a POINTER_UP lifts), and for a POINTER_UP the position of the lifted pointer.
   */
  function Snapshot(e: MotionEvent): (r: MyMotionEvent)
    requires WellFormed(e)
    ensures r.maskedAction == Code(e.action) && r.downPointerCount == DownCount(e)
  {
    RemainingCount(e);
    var kept := Remaining(e);
    var up := e.action == PointerUp;
    MyMotionEvent(Code(e.action), Xs(kept), Ys(kept), up,
                  if up then e.pointers[e.actionIndex].x else 0.0,
                  if up then e.pointers[e.actionIndex].y else 0.0,
                  |kept|, Mean(Xs(kept)), Mean(Ys(kept)))
  }

  /**
   * A snapshot holds the coordinates of the pointers still down, in index
   * order, their centroid as focus, and for a POINTER_UP where the lifted
   * pointer was.
   */
  lemma SnapshotContents(e: MotionEvent)
    requires WellFormed(e)
    ensures var r := Snapshot(e);
      && r.downPointerCount == |r.downXs| == |r.downYs| == DownCount(e)
      && (r.isUp <==> e.action == PointerUp)
      && (r.isUp ==> r.upX == e.pointers[e.actionIndex].x && r.upY == e.pointers[e.actionIndex].y)
      && (!r.isUp ==> r.upX == 0.0 && r.upY == 0.0)
      && (forall j :: 0 <= j < |r.downXs| ==>
            var i := if e.action == PointerUp && e.actionIndex <= j then j + 1 else j;
            r.downXs[j] == e.pointers[i].x && r.downYs[j] == e.pointers[i].y)
      && r.downFocusX == Finite(Focus(e).x) && r.downFocusY == Finite(Focus(e).y)
  {
    RemainingCount(e);
  }

  /**
   * The two-counter copy loop of obtainMyMotionEvent (BaseGestureState.kt): the
   * coordinates of every pointer but the one at `upIndex`, into arrays of `count` cells.
   */
  method CopyDownCoordinates(ps: seq<Pointer>, upIndex: int, count: int) returns (downXs: array<real>, downYs: array<real>)
    requires count == |Kept(ps, upIndex)|
    ensures downXs[..] == Xs(Kept(ps, upIndex)) && downYs[..] == Ys(Kept(ps, upIndex))
  {
    downXs := new real[count];
    downYs := new real[count];
    var i, j := 0, 0;
    while i < |ps|
      invariant 0 <= i <= |ps|
      invariant j == |Kept(ps[..i], upIndex)| <= count
      invariant downXs[..j] == Xs(Kept(ps[..i], upIndex))
      invariant downYs[..j] == Ys(Kept(ps[..i], upIndex))
    {
      CopyStep(ps, upIndex, i);
      if i != upIndex {
        downXs[j] := ps[i].x;
        downYs[j] := ps[i].y;
        assert downXs[..j + 1] == downXs[..j] + [ps[i].x];
        assert downYs[..j + 1] == downYs[..j] + [ps[i].y];
        j := j + 1;
      }
      i := i + 1;
    }
    assert ps[..i] == ps;
    assert downXs[..] == downXs[..j] && downYs[..] == downYs[..j];
  }

  /** One turn of the copy loop: the pointer at `i` is copied unless it is the lifted one. */
  lemma CopyStep(ps: seq<Pointer>, skip: int, i: int)
    requires 0 <= i < |ps|
    ensures var k := Kept(ps[..i], skip);
      var n := Kept(ps[..i + 1], skip);
      && |n| == |k| + (if i == skip then 0 else 1) && |n| <= |Kept(ps, skip)|
      && Xs(n) == Xs(k) + (if i == skip then [] else [ps[i].x])
      && Ys(n) == Ys(k) + (if i == skip then [] else [ps[i].y])
  {
    KeptStep(ps, skip, i);
    var k := Kept(ps[..i], skip);
    if i != skip {
      assert Kept(ps[..i + 1], skip) == k + [ps[i]];
      XsYsAppend(k, ps[i]);
    } else {
      assert Kept(ps[..i + 1], skip) == k + [];
      assert k + [] == k;
      assert Xs(k) + [] == Xs(k) && Ys(k) + [] == Ys(k);
    }
  }

  /** obtainMyMotionEvent (BaseGestureState.kt). */
  method ObtainMyMotionEvent(e: MotionEvent) returns (r: MyMotionEvent)
    requires WellFormed(e)
    ensures r == Snapshot(e)
  {
    var pointerUp := e.action == PointerUp;
    var upIndex := if pointerUp then e.actionIndex else -1;
    var downPointerCount := |e.pointers| - (if pointerUp then 1 else 0);
    var downXs, downYs := CopyDownCoordinates(e.pointers, upIndex, downPointerCount);
    var made := NewMyMotionEvent(Code(e.action), Some(downXs[..]), Some(downYs[..]), pointerUp,
                                 if pointerUp then e.pointers[upIndex].x else 0.0,
                                 if pointerUp then e.pointers[upIndex].y else 0.0);
    r := made.value;
  }

  /** The platform test's first event: one pointer down at the origin gives focus (0, 0). */
  lemma SinglePointerAtOriginSnapshot(downTime: int)
    ensures var e := MotionEvent(Down, 0, [Pointer(0, 0.0, 0.0)], downTime, 0.0, 0.0);
            WellFormed(e) && Snapshot(e) ==
              MyMotionEvent(ACTION_DOWN, [0.0], [0.0], false, 0.0, 0.0, 1, Finite(0.0), Finite(0.0))
  {
    var e := MotionEvent(Down, 0, [Pointer(0, 0.0, 0.0)], downTime, 0.0, 0.0);
    var s := Snapshot(e);
    assert s.downXs == [0.0] && s.downYs == [0.0];
    assert Sum([0.0]) == 0.0 by { assert [0.0][..0] == []; }
  }
}
