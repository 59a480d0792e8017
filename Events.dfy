/**
 * The part of android.view.MotionEvent that the gesture states read: the masked
 * action, the action index, the pointers (id and position, in index order), the
 * down time, and the velocity a VelocityTracker reports for the pointer at index 0.
 */
module Events {
  import opened Wrappers

  // Masked action codes of android.view.MotionEvent.
  const ACTION_DOWN: int := 0
  const ACTION_UP: int := 1
  const ACTION_MOVE: int := 2
  const ACTION_CANCEL: int := 3
  const ACTION_POINTER_DOWN: int := 5
  const ACTION_POINTER_UP: int := 6

  datatype Action = Down | Up | Move | Cancel | PointerDown | PointerUp | Other(code: int)

  /** The value `getActionMasked()` returns for an action. */
  function Code(a: Action): int
  {
    match a
    case Down => ACTION_DOWN
    case Up => ACTION_UP
    case Move => ACTION_MOVE
    case Cancel => ACTION_CANCEL
    case PointerDown => ACTION_POINTER_DOWN
    case PointerUp => ACTION_POINTER_UP
    case Other(c) => c
  }

  /** android.graphics.PointF */
  datatype Point = Point(x: real, y: real)

  datatype Pointer = Pointer(id: int, x: real, y: real)

  /**
   * One touch event. `velocityX`/`velocityY` stand for what the platform's
   * VelocityTracker would report (units of pixels per second, before clamping)
   * for the pointer at index 0 once this event has been added to it.
   */
  datatype MotionEvent = MotionEvent(
    action: Action,
    actionIndex: int,
    pointers: seq<Pointer>,
    downTime: int,
    velocityX: real,
    velocityY: real)

  predicate DistinctIds(ps: seq<Pointer>)
  {
    forall i, j :: 0 <= i < j < |ps| ==> ps[i].id != ps[j].id
  }

  /**
   * What the platform guarantees of every event it dispatches: at least one
   * pointer, an action index that is a pointer index, distinct pointer ids, and
   * at least two pointers when one of them goes down or up on its own.
   */
  predicate WellFormed(e: MotionEvent)
  {
    && |e.pointers| >= 1
    && 0 <= e.actionIndex < |e.pointers|
    && DistinctIds(e.pointers)
    && ((e.action == PointerDown || e.action == PointerUp) ==> |e.pointers| >= 2)
  }

  function PointOf(p: Pointer): Point
  {
    Point(p.x, p.y)
  }

  /** `event.x`, `event.y`: the position of the pointer at index 0. */
  function First(e: MotionEvent): Point
    requires |e.pointers| >= 1
  {
    PointOf(e.pointers[0])
  }

  /** The index of the pointer lifted by ACTION_POINTER_UP, -1 for every other action. */
  function UpIndex(e: MotionEvent): int
  {
    if e.action == PointerUp then e.actionIndex else -1
  }

  /**
   * The pointers of `ps` in index order without the one at index `skip`
   * (none is left out when `skip` is not an index).
   */
  function Kept(ps: seq<Pointer>, skip: int): (r: seq<Pointer>)
    ensures |r| == if 0 <= skip < |ps| then |ps| - 1 else |ps|
    ensures forall j :: 0 <= j < |r| ==> r[j] == ps[if 0 <= skip <= j then j + 1 else j]
  {
    if |ps| == 0 then []
    else Kept(ps[..|ps| - 1], skip) + (if |ps| - 1 == skip then [] else [ps[|ps| - 1]])
  }

  /** The pointers still down once the event is handled: all but the one a POINTER_UP lifts. */
  function Remaining(e: MotionEvent): (r: seq<Pointer>)
  {
    Kept(e.pointers, UpIndex(e))
  }

  /** `pointerCount` minus the pointer a POINTER_UP lifts. */
  function DownCount(e: MotionEvent): int
  {
    |e.pointers| - (if e.action == PointerUp then 1 else 0)
  }

  /** Only a POINTER_UP lifts a finger: after any other action every pointer is still down. */
  lemma NoneLifted(e: MotionEvent)
    requires e.action != PointerUp
    ensures Remaining(e) == e.pointers
  {
    var r := Remaining(e);
    assert |r| == |e.pointers|;
    forall j | 0 <= j < |r| ensures r[j] == e.pointers[j] {
    }
  }

  lemma RemainingCount(e: MotionEvent)
    requires WellFormed(e)
    ensures |Remaining(e)| == DownCount(e) >= 1
    ensures DistinctIds(Remaining(e))
  {
    var ps, r := e.pointers, Remaining(e);
    forall i, j | 0 <= i < j < |r| ensures r[i].id != r[j].id {
      var u := UpIndex(e);
      var i' := if 0 <= u <= i then i + 1 else i;
      var j' := if 0 <= u <= j then j + 1 else j;
      assert r[i] == ps[i'] && r[j] == ps[j'] && i' < j';
    }
  }

  function Xs(ps: seq<Pointer>): (r: seq<real>)
  {
    seq(|ps|, i requires 0 <= i < |ps| => ps[i].x)
  }

  function Ys(ps: seq<Pointer>): (r: seq<real>)
  {
    seq(|ps|, i requires 0 <= i < |ps| => ps[i].y)
  }

  function Sum(xs: seq<real>): real
  {
    if |xs| == 0 then 0.0 else Sum(xs[..|xs| - 1]) + xs[|xs| - 1]
  }

  lemma SumAppend(xs: seq<real>, v: real)
    ensures Sum(xs + [v]) == Sum(xs) + v
  {
    assert (xs + [v])[..|xs|] == xs;
  }

  lemma KeptStep(ps: seq<Pointer>, skip: int, i: int)
    requires 0 <= i < |ps|
    ensures Kept(ps[..i + 1], skip) == Kept(ps[..i], skip) + (if i == skip then [] else [ps[i]])
  {
    assert ps[..i + 1][..i] == ps[..i];
  }

  lemma XsYsAppend(ps: seq<Pointer>, p: Pointer)
    ensures Xs(ps + [p]) == Xs(ps) + [p.x]
    ensures Ys(ps + [p]) == Ys(ps) + [p.y]
  {
  }

  /**
   * The centroid of the pointers still down, as SingleFingerPressingState
   * computes it: sum of their coordinates divided by their count.
   */
  function Focus(e: MotionEvent): Point
    requires WellFormed(e)
  {
    RemainingCount(e);
    var r := Remaining(e);
    Point(Sum(Xs(r)) / (|r| as real), Sum(Ys(r)) / (|r| as real))
  }

  /** The focal point of the pressing states: the sums over the pointers still down, divided by their count. */
  method ComputeFocus(e: MotionEvent) returns (focus: Point)
    requires WellFormed(e)
    ensures focus == Focus(e)
  {
    var sumX, sumY := SumDown(e.pointers, UpIndex(e));
    var downPointerCount := if e.action == PointerUp then |e.pointers| - 1 else |e.pointers|;
    FocusOfSums(e);
    focus := Point(sumX / downPointerCount as real, sumY / downPointerCount as real);
  }

  /** The focal-point loop: the coordinates of every pointer but the one at `skip`, summed. */
  method SumDown(ps: seq<Pointer>, skip: int) returns (sumX: real, sumY: real)
    ensures sumX == Sum(Xs(Kept(ps, skip))) && sumY == Sum(Ys(Kept(ps, skip)))
  {
    sumX, sumY := 0.0, 0.0;
    var i := 0;
    while i < |ps|
      invariant 0 <= i <= |ps|
      invariant sumX == Sum(Xs(Kept(ps[..i], skip))) && sumY == Sum(Ys(Kept(ps[..i], skip)))
    {
      SumStep(ps, skip, i);
      if i != skip {
        sumX := sumX + ps[i].x;
        sumY := sumY + ps[i].y;
      }
      i := i + 1;
    }
    assert ps[..|ps|] == ps;
  }

  /** The focus divides the sums over the pointers still down by their count, which is positive. */
  lemma FocusOfSums(e: MotionEvent)
    requires WellFormed(e)
    ensures DownCount(e) >= 1
    ensures Focus(e) == Point(Sum(Xs(Kept(e.pointers, UpIndex(e)))) / DownCount(e) as real,
                              Sum(Ys(Kept(e.pointers, UpIndex(e)))) / DownCount(e) as real)
  {
    RemainingCount(e);
  }

  /** One more pointer of the focal-point loop. */
  lemma SumStep(ps: seq<Pointer>, skip: int, i: int)
    requires 0 <= i < |ps|
    ensures var k := Kept(ps[..i], skip);
      && Sum(Xs(Kept(ps[..i + 1], skip))) == Sum(Xs(k)) + (if i == skip then 0.0 else ps[i].x)
      && Sum(Ys(Kept(ps[..i + 1], skip))) == Sum(Ys(k)) + (if i == skip then 0.0 else ps[i].y)
  {
    KeptStep(ps, skip, i);
    var k := Kept(ps[..i], skip);
    if i != skip {
      assert Kept(ps[..i + 1], skip) == k + [ps[i]];
      XsYsAppend(k, ps[i]);
      SumAppend(Xs(k), ps[i].x);
      SumAppend(Ys(k), ps[i].y);
    } else {
      assert Kept(ps[..i + 1], skip) == k + [];
      assert k + [] == k;
    }
  }

  /** Kotlin's `Float.toInt()` on in-range values: truncation toward zero. */
  function Trunc(v: real): (r: int)
    ensures -1.0 < v - r as real < 1.0
    ensures v >= 0.0 ==> 0 <= r && r as real <= v
    ensures v < 0.0 ==> r <= 0 && v <= r as real
  {
    if v >= 0.0 then v.Floor else -((-v).Floor)
  }

  /**
   * The index of the first pointer with id `id`: what the drag-only drag state
   * assumes of `getFocusIndexFromId`, which is not defined in the repository.
   * A pointer index when the id is down; `None` otherwise, standing for an
   * index the event's coordinate getters reject.
   */
  function IndexOfId(ps: seq<Pointer>, id: int): (r: Option<nat>)
    ensures r.Some? ==> r.value < |ps| && ps[r.value].id == id
    ensures r.Some? ==> forall j :: 0 <= j < r.value ==> ps[j].id != id
    ensures r.None? <==> forall j :: 0 <= j < |ps| ==> ps[j].id != id
  {
    if |ps| == 0 then None
    else if ps[0].id == id then Some(0)
    else match IndexOfId(ps[1..], id)
      case None => None
      case Some(k) => Some(k + 1)
  }
}
