/**
 * The pointer bookkeeping of the multi-finger and pinch states: SparseArray<PointF>
 * keyed by pointer id (a map whose keys SparseArray keeps in ascending order), and
 * the ArrayList of ids in the order the fingers went down.
 */
module PointerMaps {
  import opened Wrappers
  import opened Events

  /** The puts of a "hold all the down pointers" loop, in index order. */
  function HoldMap(ps: seq<Pointer>): (r: map<int, Point>)
  {
    if |ps| == 0 then map[]
    else
      var init, last := ps[..|ps| - 1], ps[|ps| - 1];
      assert Ids(ps) == Ids(init) + [last.id];
      HoldMap(init)[last.id := PointOf(last)]
  }

  /** The map holds exactly the ids of `ps`, each at the position of its pointer. */
  lemma {:induction false} HoldMapFacts(ps: seq<Pointer>)
    ensures forall k :: k in HoldMap(ps) <==> k in Ids(ps)
    ensures DistinctIds(ps) ==> forall i :: 0 <= i < |ps| ==> HoldMap(ps)[ps[i].id] == PointOf(ps[i])
  {
    if |ps| > 0 {
      var init, last := ps[..|ps| - 1], ps[|ps| - 1];
      HoldMapFacts(init);
      assert Ids(ps) == Ids(init) + [last.id];
      if DistinctIds(ps) {
        assert DistinctIds(init);
        forall i | 0 <= i < |ps| ensures HoldMap(ps)[ps[i].id] == PointOf(ps[i]) {
          if i < |ps| - 1 {
            assert init[i] == ps[i];
          }
        }
      }
    }
  }

  /** The ids of the pointers, in index order. */
  function Ids(ps: seq<Pointer>): (r: seq<int>)
    ensures |r| == |ps| && forall i :: 0 <= i < |ps| ==> r[i] == ps[i].id
  {
    seq(|ps|, i requires 0 <= i < |ps| => ps[i].id)
  }

  /**
   * The MOVE loop of MultipleFingersPressingState.kt: the stop point of every
   * pointer already held is moved; a pointer that is not held is ignored (`pointer?.set`).
   */
  function MoveHeld(stop: map<int, Point>, ps: seq<Pointer>): (r: map<int, Point>)
    ensures r.Keys == stop.Keys
    ensures DistinctIds(ps) ==> forall i :: 0 <= i < |ps| && ps[i].id in stop ==> r[ps[i].id] == PointOf(ps[i])
    ensures forall k :: k in stop && (forall i :: 0 <= i < |ps| ==> ps[i].id != k) ==> r[k] == stop[k]
  {
    if |ps| == 0 then stop
    else
      var init, p := ps[..|ps| - 1], ps[|ps| - 1];
      assert forall i :: 0 <= i < |init| ==> init[i] == ps[i];
      assert DistinctIds(ps) ==> DistinctIds(init) && forall i :: 0 <= i < |init| ==> init[i].id != p.id;
      var r0 := MoveHeld(stop, init);
      if p.id in r0 then r0[p.id := PointOf(p)] else r0
  }

  /**
   * The MOVE loop of MultipleFingersPressingState.java: `get(id).set(...)` on every
   * pointer, which throws (none) as soon as one is not held.
   */
  function MoveAll(stop: map<int, Point>, ps: seq<Pointer>): (r: Option<map<int, Point>>)
    ensures r.Some? <==> forall i :: 0 <= i < |ps| ==> ps[i].id in stop
  {
    if |ps| == 0 then Some(stop)
    else
      var init, p := ps[..|ps| - 1], ps[|ps| - 1];
      assert forall i :: 0 <= i < |init| ==> init[i] == ps[i];
      match MoveAll(stop, init)
      case None => None
      case Some(r0) => if p.id in stop then Some(r0[p.id := PointOf(p)]) else None
  }

  /** When every pointer is held, the Java loop moves exactly what the Kotlin loop moves. */
  lemma {:induction false} MoveAllMovesHeld(stop: map<int, Point>, ps: seq<Pointer>)
    requires MoveAll(stop, ps).Some?
    ensures MoveAll(stop, ps).value == MoveHeld(stop, ps)
  {
    if |ps| > 0 {
      var init := ps[..|ps| - 1];
      MoveAllMovesHeld(stop, init);
    }
  }


  /** Some element of a non-empty set is below all the others. */
  lemma {:induction false} MinKeyExists(s: set<int>)
    requires s != {}
    ensures exists k :: k in s && forall y :: y in s ==> k <= y
    decreases |s|
  {
    var x := Pick(s);
    var rest := s - {x};
    assert s == rest + {x};
    if rest == {} {
      assert s == {x};
      assert x in s && forall y :: y in s ==> x <= y;
    } else {
      MinKeyExists(rest);
      var k :| k in rest && forall y :: y in rest ==> k <= y;
      var m := MinOfAdded(x, rest, k);
      assert m in s && forall y :: y in s ==> m <= y;
    }
  }

  /** An element of a non-empty set. */
  lemma Pick(s: set<int>) returns (x: int)
    requires s != {}
    ensures x in s
  {
    assert exists y :: y in s by {
      if forall y :: y !in s {
        assert false;
      }
    }
    x :| x in s;
  }

  /** Adding `x` to a set whose least element is `k` makes the least element the smaller of the two. */
  lemma MinOfAdded(x: int, rest: set<int>, k: int) returns (m: int)
    requires k in rest && forall y :: y in rest ==> k <= y
    ensures m in rest + {x} && forall y :: y in rest + {x} ==> m <= y
  {
    m := if x < k then x else k;
  }

  /** The smallest key. */
  function MinKey(s: set<int>): (k: int)
    requires s != {}
    ensures k in s && forall y :: y in s ==> k <= y
  {
    MinKeyExists(s);
    var k :| k in s && forall y :: y in s ==> k <= y; k
  }

  predicate Increasing(ks: seq<int>)
  {
    forall i, j :: 0 <= i < j < |ks| ==> ks[i] < ks[j]
  }

  /** The keys in ascending order: `keyAt(i)` of a SparseArray is `SortedKeys(keys)[i]`. */
  function SortedKeys(s: set<int>): (r: seq<int>)
    ensures |r| == |s| && Increasing(r)
    ensures forall k :: k in r <==> k in s
    decreases |s|
  {
    if s == {} then []
    else
      var k := MinKey(s);
      var rest := SortedKeys(s - {k});
      assert forall j :: 0 <= j < |rest| ==> k < rest[j];
      [k] + rest
  }

  /** ArrayList.indexOf: the first index holding `id`, or -1. */
  function IndexOf(order: seq<int>, id: int): (r: int)
    ensures -1 <= r < |order|
    ensures r >= 0 ==> order[r] == id && forall j :: 0 <= j < r ==> order[j] != id
    ensures r == -1 <==> id !in order
  {
    if |order| == 0 then -1
    else if order[0] == id then 0
    else var k := IndexOf(order[1..], id); if k == -1 then -1 else k + 1
  }

  /** ArrayList.removeAt */
  function RemoveAt(order: seq<int>, i: int): (r: seq<int>)
    requires 0 <= i < |order|
    ensures |r| == |order| - 1
    ensures forall j :: 0 <= j < |r| ==> r[j] == order[if j < i then j else j + 1]
  {
    order[..i] + order[i + 1..]
  }

  /** Whether a pointer moved from `a` to `b` by more than the touch slop (compared as Floats). */
  predicate Moved(a: Point, b: Point, touchSlopSquare: int)
  {
    (b.x - a.x) * (b.x - a.x) + (b.y - a.y) * (b.y - a.y) > touchSlopSquare as real
  }

  /**
   * isConsideredPinch: for every i below the smaller size, the start point under the
   * i-th smallest key of `start` is compared with the stop point under the i-th
   * smallest key of `stop`.
   */
  predicate ConsideredPinch(start: map<int, Point>, stop: map<int, Point>, touchSlopSquare: int)
  {
    var ks, kt := SortedKeys(start.Keys), SortedKeys(stop.Keys);
    exists i :: 0 <= i < |ks| && i < |kt| && PairMoved(start, stop, ks, kt, i, touchSlopSquare)
  }

  predicate PairMoved(start: map<int, Point>, stop: map<int, Point>, ks: seq<int>, kt: seq<int>, i: int, touchSlopSquare: int)
  {
    0 <= i < |ks| && i < |kt| && ks[i] in start && kt[i] in stop && Moved(start[ks[i]], stop[kt[i]], touchSlopSquare)
  }

  /** Two increasing sequences with the same elements are equal. */
  lemma {:induction false} IncreasingUnique(a: seq<int>, b: seq<int>)
    requires Increasing(a) && Increasing(b)
    requires forall k :: k in a <==> k in b
    ensures a == b
  {
    assert |a| > 0 ==> a[0] in a && a[0] in b;
    assert |b| > 0 ==> b[0] in b && b[0] in a;
    if |a| > 0 && |b| > 0 {
      var i :| 0 <= i < |b| && b[i] == a[0];
      var j :| 0 <= j < |a| && a[j] == b[0];
      assert b[0] <= b[i] && a[0] <= a[j];
      forall k ensures k in a[1..] <==> k in b[1..] {
        if k in a[1..] {
          assert k in b && k != b[0];
        }
        if k in b[1..] {
          assert k in a && k != a[0];
        }
      }
      IncreasingUnique(a[1..], b[1..]);
      assert a == [a[0]] + a[1..] && b == [b[0]] + b[1..];
    }
  }

  /**
   * When both arrays hold the same pointer ids (as they always do in the
   * multiple-fingers state), isConsideredPinch holds exactly when some held
   * pointer moved by more than the touch slop.
   */
  lemma ConsideredPinchSameKeys(start: map<int, Point>, stop: map<int, Point>, touchSlopSquare: int)
    requires start.Keys == stop.Keys
    ensures ConsideredPinch(start, stop, touchSlopSquare) <==>
              exists k :: k in start && Moved(start[k], stop[k], touchSlopSquare)
  {
    var ks := SortedKeys(start.Keys);
    if exists k :: k in start && Moved(start[k], stop[k], touchSlopSquare) {
      var k :| k in start && Moved(start[k], stop[k], touchSlopSquare);
      var i :| 0 <= i < |ks| && ks[i] == k;
      assert PairMoved(start, stop, ks, ks, i, touchSlopSquare);
    }
  }

  // --- The loops of the states over these arrays --------------------------------

  /**
   * "Hold all the down pointers": every pointer but the one at `skip` is put in
   * both arrays, and its id appended to the down order.
   */
  method HoldDown(ps: seq<Pointer>, skip: int) returns (held: map<int, Point>, order: seq<int>)
    ensures held == HoldMap(Kept(ps, skip)) && order == Ids(Kept(ps, skip))
  {
    held, order := map[], [];
    var i := 0;
    while i < |ps|
      invariant 0 <= i <= |ps|
      invariant held == HoldMap(Kept(ps[..i], skip)) && order == Ids(Kept(ps[..i], skip))
    {
      HoldStep(ps, skip, i);
      if i != skip {
        held := held[ps[i].id := PointOf(ps[i])];
        order := order + [ps[i].id];
      }
      i := i + 1;
    }
    assert ps[..|ps|] == ps;
  }

  /** One more pointer of the hold loop. */
  lemma HoldStep(ps: seq<Pointer>, skip: int, i: int)
    requires 0 <= i < |ps|
    ensures var k := Kept(ps[..i], skip);
      && HoldMap(Kept(ps[..i + 1], skip)) == (if i == skip then HoldMap(k) else HoldMap(k)[ps[i].id := PointOf(ps[i])])
      && Ids(Kept(ps[..i + 1], skip)) == (if i == skip then Ids(k) else Ids(k) + [ps[i].id])
  {
    KeptStep(ps, skip, i);
    var k := Kept(ps[..i], skip);
    if i != skip {
      assert Kept(ps[..i + 1], skip) == k + [ps[i]];
      HoldAppend(k, ps[i]);
    } else {
      assert Kept(ps[..i + 1], skip) == k + [];
      assert k + [] == k;
    }
  }

  lemma HoldAppend(k: seq<Pointer>, p: Pointer)
    ensures HoldMap(k + [p]) == HoldMap(k)[p.id := PointOf(p)]
    ensures Ids(k + [p]) == Ids(k) + [p.id]
  {
    assert (k + [p])[..|k|] == k;
  }

  /** The MOVE loop of MultipleFingersPressingState.kt, over the pointers of a move. */
  method MoveHeldDown(stop: map<int, Point>, ps: seq<Pointer>) returns (r: map<int, Point>)
    ensures r == MoveHeld(stop, ps)
  {
    r := stop;
    var i := 0;
    while i < |ps|
      invariant 0 <= i <= |ps|
      invariant r == MoveHeld(stop, ps[..i])
    {
      MoveStep(stop, ps, i);
      if ps[i].id in r {
        r := r[ps[i].id := PointOf(ps[i])];
      }
      i := i + 1;
    }
    assert ps[..|ps|] == ps;
  }

  /** One more pointer of both MOVE loops. */
  lemma MoveStep(stop: map<int, Point>, ps: seq<Pointer>, i: int)
    requires 0 <= i < |ps|
    ensures var r0 := MoveHeld(stop, ps[..i]);
      MoveHeld(stop, ps[..i + 1]) == if ps[i].id in r0 then r0[ps[i].id := PointOf(ps[i])] else r0
    ensures MoveAll(stop, ps[..i + 1]) ==
      match MoveAll(stop, ps[..i])
      case None => None
      case Some(r0) => if ps[i].id in stop then Some(r0[ps[i].id := PointOf(ps[i])]) else None
  {
    assert ps[..i + 1][..i] == ps[..i];
  }

  /** The MOVE loop of MultipleFingersPressingState.java: none as soon as a pointer is not held. */
  method MoveAllDown(stop: map<int, Point>, ps: seq<Pointer>) returns (r: Option<map<int, Point>>)
    ensures r == MoveAll(stop, ps)
  {
    var moved := stop;
    var i := 0;
    while i < |ps|
      invariant 0 <= i <= |ps|
      invariant MoveAll(stop, ps[..i]) == Some(moved)
    {
      MoveStep(stop, ps, i);
      if ps[i].id !in stop {
        NoneStaysNone(stop, ps, i + 1);
        return None;
      }
      moved := moved[ps[i].id := PointOf(ps[i])];
      i := i + 1;
    }
    assert ps[..|ps|] == ps;
    r := Some(moved);
  }

  /** Once the Java loop has thrown, the rest of the pointers do not matter. */
  lemma {:induction false} NoneStaysNone(stop: map<int, Point>, ps: seq<Pointer>, n: int)
    requires 0 <= n <= |ps| && MoveAll(stop, ps[..n]).None?
    ensures MoveAll(stop, ps).None?
  {
    var i :| 0 <= i < n && ps[..n][i].id !in stop;
    assert ps[i].id !in stop;
  }

  /** isConsideredPinch: the keys of both arrays in ascending order, then the loop over them. */
  method IsConsideredPinch(start: map<int, Point>, stop: map<int, Point>, touchSlopSquare: int) returns (b: bool)
    ensures b == ConsideredPinch(start, stop, touchSlopSquare)
  {
    var ks, kt := SortedKeys(start.Keys), SortedKeys(stop.Keys);
    b := AnyPairMoved(start, stop, ks, kt, touchSlopSquare);
  }

  /** The loop of isConsideredPinch over the first `min(sizes)` keys: `keyAt(i)` of each array is `ks[i]`, `kt[i]`. */
  method AnyPairMoved(start: map<int, Point>, stop: map<int, Point>, ks: seq<int>, kt: seq<int>, touchSlopSquare: int) returns (b: bool)
    requires forall j :: 0 <= j < |ks| ==> ks[j] in start
    requires forall j :: 0 <= j < |kt| ==> kt[j] in stop
    ensures b <==> exists i :: 0 <= i < |ks| && i < |kt| && PairMoved(start, stop, ks, kt, i, touchSlopSquare)
  {
    var size := if |ks| < |kt| then |ks| else |kt|;
    var i := 0;
    while i < size
      invariant 0 <= i <= size
      invariant forall j :: 0 <= j < i ==> !PairMoved(start, stop, ks, kt, j, touchSlopSquare)
    {
      if Moved(start[ks[i]], stop[kt[i]], touchSlopSquare) {
        assert PairMoved(start, stop, ks, kt, i, touchSlopSquare);
        return true;
      }
      i := i + 1;
    }
    return false;
  }
}
