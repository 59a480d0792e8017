/**
 * The state tags of IGestureStateOwner, the state instances a detector holds,
 * and GesturePolicy.kt, which keeps one pool of instances per policy mode.
 */
module Policy {
  import opened Wrappers

  /** IGestureStateOwner.State */
  datatype Tag = StateIdle | StateSingleFingerPressing | StateDrag | StateMultipleFingersPressing | StatePinch

  /** The state classes; every owner holds at most one instance of each. */
  datatype Inst =
    | Idle | SingleFingerPressing | MultipleFingersPressing | Drag | Pinch
    | IdleForDragOnly | SingleFingerPressingForDragOnly | DragForDragOnly

  const ALL: int := 1
  const DRAG_ONLY: int := 2   // 1 shl 1

  /** The instance GestureDetector.kt (and GestureDetector.java) keeps for each tag. */
  function DetectorInstance(tag: Tag): Inst
  {
    match tag
    case StateIdle => Idle
    case StateSingleFingerPressing => SingleFingerPressing
    case StateDrag => Drag
    case StateMultipleFingersPressing => MultipleFingersPressing
    case StatePinch => Pinch
  }

  /**
   * The entry the `init` block of GesturePolicy.kt puts in the pool of `tag`
   * under key `mode`. Its SingleFingerIdleState, MultipleFingersIdleState and
   * SingleFingerIdleStateForDragOnly are not defined in the repository; they are
   * read as the pressing states with the same constructor arguments.
   */
  function PoolEntry(mode: int, tag: Tag): Option<Inst>
  {
    if mode == ALL then Some(DetectorInstance(tag))
    else if mode == DRAG_ONLY then
      match tag
      case StateIdle => Some(IdleForDragOnly)
      case StateSingleFingerPressing => Some(SingleFingerPressingForDragOnly)
      case StateDrag => Some(DragForDragOnly)
      case _ => None
    else None
  }


  datatype PolicyError = InvalidPolicy | MissingPoolEntry

  class GesturePolicy {
    var policy: int
    var idleStatePool: map<int, Inst>
    var singleFingerPressingStatePool: map<int, Inst>
    var multipleFingersPressingStatePool: map<int, Inst>
    var dragStatePool: map<int, Inst>
    var pinchStatePool: map<int, Inst>

    /** The pool a tag is looked up in. */
    function PoolOf(tag: Tag): map<int, Inst>
      reads this
    {
      match tag
      case StateIdle => idleStatePool
      case StateSingleFingerPressing => singleFingerPressingStatePool
      case StateDrag => dragStatePool
      case StateMultipleFingersPressing => multipleFingersPressingStatePool
      case StatePinch => pinchStatePool
    }

    /** The pools hold exactly the entries `init` put there, and the mode is a valid one. */
    ghost predicate Valid()
      reads this
    {
      && (policy == ALL || policy == DRAG_ONLY)
      && forall tag: Tag, mode :: (mode in PoolOf(tag) <==> PoolEntry(mode, tag).Some?)
                                  && (mode in PoolOf(tag) ==> PoolOf(tag)[mode] == PoolEntry(mode, tag).value)
    }

    constructor ()
      ensures Valid() && policy == ALL
    {
      policy := ALL;
      idleStatePool := map[ALL := Idle, DRAG_ONLY := IdleForDragOnly];
      singleFingerPressingStatePool := map[ALL := SingleFingerPressing, DRAG_ONLY := SingleFingerPressingForDragOnly];
      multipleFingersPressingStatePool := map[ALL := MultipleFingersPressing];
      dragStatePool := map[ALL := Drag, DRAG_ONLY := DragForDragOnly];
      pinchStatePool := map[ALL := Pinch];
    }

    /** setPolicy: only ALL and DRAG_ONLY are accepted; anything else throws and changes nothing. */
    method SetPolicy(p: int) returns (r: Result<(), PolicyError>)
      requires Valid()
      modifies this`policy
      ensures Valid()
      ensures r.Ok? <==> p == ALL || p == DRAG_ONLY
      ensures r.Err? ==> r.error == InvalidPolicy
      ensures policy == if r.Ok? then p else old(policy)
    {
      if p == ALL || p == DRAG_ONLY {
        policy := p;
        r := Ok(());
      } else {
        r := Err(InvalidPolicy);
      }
    }

    /** getDefaultState: the idle state of mode ALL, whatever the current mode. */
    method GetDefaultState() returns (r: Result<Inst, PolicyError>)
      requires Valid()
      ensures r == Ok(Idle)
    {
      assert PoolOf(StateIdle) == idleStatePool;
      if ALL in idleStatePool {
        r := Ok(idleStatePool[ALL]);
      } else {
        r := Err(MissingPoolEntry);
      }
    }

    /** getNewState: the pool entry of the current mode, or the exception `!!` throws when there is none. */
    method GetNewState(tag: Tag) returns (r: Result<Inst, PolicyError>)
      requires Valid()
      ensures r.Ok? <==> PoolEntry(policy, tag).Some?
      ensures r.Ok? ==> r.value == PoolEntry(policy, tag).value
      ensures r.Err? ==> r.error == MissingPoolEntry
    {
      var pool := PoolOf(tag);
      assert policy in pool <==> PoolEntry(policy, tag).Some?;
      if policy in pool {
        r := Ok(pool[policy]);
      } else {
        r := Err(MissingPoolEntry);
      }
    }
  }

  /** Under ALL every tag has an instance, and it is the one the detectors hold. */
  lemma AllPoolIsComplete(tag: Tag)
    ensures PoolEntry(ALL, tag) == Some(DetectorInstance(tag))
  {
  }

  /**
   * Under DRAG_ONLY there is no multiple-fingers or pinch state, and every
   * instance is one of the drag-only classes.
   */
  lemma DragOnlyPoolIsPartial(tag: Tag)
    ensures PoolEntry(DRAG_ONLY, tag).None? <==> tag == StateMultipleFingersPressing || tag == StatePinch
    ensures PoolEntry(DRAG_ONLY, tag).Some? ==>
              PoolEntry(DRAG_ONLY, tag).value in {IdleForDragOnly, SingleFingerPressingForDragOnly, DragForDragOnly}
  {
  }
}
