# Collage gesture detector — a Dafny model

This project models the gesture recogniser of the Collage gesture-detector
library: the Kotlin `GestureDetector`, its five gesture states, the drag-only
state pool of `GesturePolicy`, the `ListenerBridge` and the `MyMotionEvent`
snapshots. It also models the legacy Java library under `library/`, which has
the same states without the multi-touch switches.

The recogniser is a state machine. Its states are idle, single-finger
pressing, multiple-fingers pressing, drag and pinch. On every touch event the
current state's `onDoing` runs. A state change goes through
`issueStateTransition`: the old state's `onExit` runs, then the new state's
`onEnter`, and `onEnter` may hand the same event on to `onDoing` again.
The model has two layers:

- `Recognizer` is the specification. It holds one flat record `M`: every
  field of every state object, the current state instance, the Handler's
  pending messages (`MSG_TAP` = 0xA1, `MSG_LONG_PRESS` = 0xA2, each with its due
  time), the callbacks the listener received, and an optional fault.
  `onEnter`, `onDoing`, `onExit` and `onHandleMessage` of each state are
  mutually recursive functions over `M`.
- `Detector.GestureDetector` is the owner as a class. Its fields are those
  of the Kotlin detector and its state objects. Each method is one hook of
  one state, written with the loops the source has. Each method proves that
  it leaves exactly the record the matching `Recognizer` function computes.

Three owners are modelled. `Kotlin` is `GestureDetector.kt`. `Legacy` is the
Java `GestureDetector.java`. `DragOnlyOwner` is an owner that looks up every
state in the `GesturePolicy` pools under `DRAG_ONLY`; it starts in the
`getDefaultState()` instance, which is the full policy's idle state.

An exception the source would throw is recorded as a `fault`:

- a `!!` on a missing pool entry;
- a `SparseArray` or array read past its end;
- a call on a null listener or a null held event in the Java library.

After a fault the machine is not driven any more.

Several properties are proved as lemmas in the `*Properties` modules. Among
them:

- the tap count reported on release;
- the one long press pending after a press;
- when a move becomes a drag or a pinch;
- the fling test;
- the pinch bookkeeping invariant: the down order and both pointer arrays hold
  the same ids;
- that the listener bridge hands each callback on at most once, and keeps a
  drag or pinch session's enable flag for the whole session;
- in `Silence`, that a Kotlin owner without a listener reports nothing and,
  unless the same owner with a listener faults, ends in that owner's state.

`Snapshots` models `MyMotionEvent` (both libraries), `ShadowMotionEvent` and
`obtainMyMotionEvent`. `Settings` models the detector's configuration and
switches. `Policy` models `GesturePolicy`. `Bridge` (values) and
`BridgeObject` (the class) model `ListenerBridge`.

Floats are modelled as exact reals. `Float.toInt()` is truncation toward
zero, written out in `Events.Trunc`; integers are unbounded (see Left out).

## Model

| member | source | states |
|---|---|---|
| Detector.FindFocusId | collage-gesture-detector/src/main/java/com/cardinalblue/gesture/state/DragStateForDragOnly.kt:52-67 | The search loop returns the focus id the drag-only drag follows. On POINTER_UP that is the first pointer still down; otherwise it is the pointer the action is about. |
| Detector.GestureDetector.constructor | collage-gesture-detector/src/main/java/com/cardinalblue/gesture/GestureDetector.kt:72-95 | A new detector is `Recognizer.Initial`: the configuration comes from `init`, every state object is freshly built, idle is current, and nothing is pending or logged. |
| Detector.GestureDetector.SetListener | collage-gesture-detector/src/main/java/com/cardinalblue/gesture/GestureDetector.kt:62 | Attaching or clearing the listener changes nothing else. Kotlin only: the Java detector's listener is final. |
| Detector.GestureDetector.SetIsTapEnabled | collage-gesture-detector/src/main/java/com/cardinalblue/gesture/GestureDetector.kt:118-120 | Only the pressing state's tap switch changes. |
| Detector.GestureDetector.SetIsLongPressEnabled | library/src/main/java/com/cardinalblue/gesture/GestureDetector.java:167-169 | Only the long-press switch changes. This is the Java setter, and the evident intent of the Kotlin one (see Findings). |
| Detector.GestureDetector.SetIsMultitouchEnabled | collage-gesture-detector/src/main/java/com/cardinalblue/gesture/GestureDetector.kt:135-139 | The multi-touch switches of the pressing, idle and drag states all take the value; nothing else changes. Kotlin only. |
| Detector.GestureDetector.ResetConfig | collage-gesture-detector/src/main/java/com/cardinalblue/gesture/GestureDetector.kt:141-147 | Every switch goes back on; the rest of the record is unchanged. Kotlin only. |
| Detector.GestureDetector.OnTouchEvent | collage-gesture-detector/src/main/java/com/cardinalblue/gesture/GestureDetector.kt:158-165 | The current state's `onDoing` handles the event, with the transitions it issues, unless the owner has faulted. The result is true exactly when taps or long presses are on. The held events stay well formed, so the next event can be sent. |
| Detector.GestureDetector.HandleMessageAt | collage-gesture-detector/src/main/java/com/cardinalblue/gesture/GestureDetector.kt:167-170 | The pending message at the given index leaves the queue and goes to the current state's `onHandleMessage`. The result is whether that state consumed it: true exactly in an idle state, or in the pressing state for a tap or long-press message, and false once the owner has faulted. The held events stay well formed. |
| Detector.GestureDetector.Emit | collage-gesture-detector/src/main/java/com/cardinalblue/gesture/state/IdleState.kt:62-68 | `listener?.onX(...)`: the callback is appended only when a listener is attached. In the Java library a missing listener is a NullPointer fault. Nothing else changes. |
| Detector.GestureDetector.Clone | collage-gesture-detector/src/main/java/com/cardinalblue/gesture/state/BaseGestureState.kt:48-84 | The snapshot a callback carries: `obtainMyMotionEvent` of the event in Kotlin; none in the Java library (see Left out). |
| Detector.GestureDetector.EmitPinch | collage-gesture-detector/src/main/java/com/cardinalblue/gesture/state/PinchState.kt:46-75 | A pinch callback on the two anchors' entries of both pointer arrays. When the down order holds fewer than two ids, the Java call faults, and so does the Kotlin call with a listener. The Kotlin call without a listener evaluates no argument and does nothing. |
| Detector.GestureDetector.Transition | collage-gesture-detector/src/main/java/com/cardinalblue/gesture/GestureDetector.kt:97-116 | `issueStateTransition`: the current state exits, the instance resolved for the tag becomes current, and it enters. A drag-only pool without an entry for the tag is a fault. |
| Detector.GestureDetector.Enter | collage-gesture-detector/src/main/java/com/cardinalblue/gesture/GestureDetector.kt:115 | `onEnter` of whichever instance is now current. |
| Detector.GestureDetector.IdleEnter | collage-gesture-detector/src/main/java/com/cardinalblue/gesture/state/IdleState.kt:33-39 | Entering idle reports the end of the gesture. The Kotlin state attaches a snapshot; the Java one attaches none. |
| Detector.GestureDetector.DragEnter | collage-gesture-detector/src/main/java/com/cardinalblue/gesture/state/DragState.kt:41-50 | The first pointer becomes the start of the drag, and the drag's begin is reported. |
| Detector.GestureDetector.Exit | collage-gesture-detector/src/main/java/com/cardinalblue/gesture/GestureDetector.kt:101-102 | `onExit` of the current instance. The held events stay ones the platform dispatched. |
| Detector.GestureDetector.Doing | collage-gesture-detector/src/main/java/com/cardinalblue/gesture/GestureDetector.kt:161 | `onDoing` of the current instance. |
| Detector.GestureDetector.HandleMessage | collage-gesture-detector/src/main/java/com/cardinalblue/gesture/state/SingleFingerPressingState.kt:252-283 | The idle states consume every message. The pressing state handles the tap and long-press messages. The other states consume none. |
| Detector.GestureDetector.IdleDoing | collage-gesture-detector/src/main/java/com/cardinalblue/gesture/state/IdleState.kt:41-60 | Only ACTION_DOWN leaves idle. One finger, or multi-touch off, goes to the pressing state; several fingers go to the multiple-fingers state. |
| Detector.GestureDetector.IdleExit | collage-gesture-detector/src/main/java/com/cardinalblue/gesture/state/IdleState.kt:62-68 | Leaving idle reports the begin of a gesture. |
| Detector.GestureDetector.SingleDoing | collage-gesture-detector/src/main/java/com/cardinalblue/gesture/state/SingleFingerPressingState.kt:76-202 | Computes the focus with the centroid loop, then dispatches on the action exactly as the source's `when` does. |
| Detector.GestureDetector.SinglePress | collage-gesture-detector/src/main/java/com/cardinalblue/gesture/state/SingleFingerPressingState.kt:111-149 | ACTION_DOWN holds the press. One finger, or multi-touch off, arms the timers; otherwise the state goes to multiple fingers. |
| Detector.GestureDetector.SingleRelease | collage-gesture-detector/src/main/java/com/cardinalblue/gesture/state/SingleFingerPressingState.kt:164-192 | ACTION_UP holds the release. After a long press it goes idle; otherwise it defers the tap. |
| Detector.GestureDetector.HoldPress | collage-gesture-detector/src/main/java/com/cardinalblue/gesture/state/SingleFingerPressingState.kt:112-118 | The current down becomes the previous down, and the event becomes the current down. |
| Detector.GestureDetector.ArmTimers | collage-gesture-detector/src/main/java/com/cardinalblue/gesture/state/SingleFingerPressingState.kt:121-142 | Cancels a pending tap. With long press on, it replaces the long press with one due at down time plus both timeouts. The focus becomes the start point. |
| Detector.GestureDetector.HoldRelease | collage-gesture-detector/src/main/java/com/cardinalblue/gesture/state/SingleFingerPressingState.kt:165-169 | The event becomes the held release. |
| Detector.GestureDetector.DeferTap | collage-gesture-detector/src/main/java/com/cardinalblue/gesture/state/SingleFingerPressingState.kt:176-190 | Counts a close tap, cancels the long press, and schedules the tap message after the tap timeout. |
| Detector.GestureDetector.TapCallback | collage-gesture-detector/src/main/java/com/cardinalblue/gesture/state/SingleFingerPressingState.kt:220-234 | At most one callback: a long tap after a long press, otherwise a single, double or more tap for the count when taps are on. |
| Detector.GestureDetector.SingleExit | collage-gesture-detector/src/main/java/com/cardinalblue/gesture/state/SingleFingerPressingState.kt:204-250 | Cancels the timers, reports the release on ACTION_UP, then forgets the held events. |
| Detector.GestureDetector.CancelTimers | collage-gesture-detector/src/main/java/com/cardinalblue/gesture/state/SingleFingerPressingState.kt:209-214 | Removes the tap messages, and with long press on the long-press messages; only the queue changes. |
| Detector.GestureDetector.ReportRelease | collage-gesture-detector/src/main/java/com/cardinalblue/gesture/state/SingleFingerPressingState.kt:216-235 | On ACTION_UP the tap callback on a snapshot of the held release. Both states fault when no release is held: the Java one on a null event, the Kotlin one at `!!`. |
| Detector.GestureDetector.ForgetHeld | collage-gesture-detector/src/main/java/com/cardinalblue/gesture/state/SingleFingerPressingState.kt:237-249 | All three held events are cleared. |
| Detector.GestureDetector.MultiEnter | collage-gesture-detector/src/main/java/com/cardinalblue/gesture/state/MultipleFingersPressingState.kt:40-78 | On a release or cancel the state goes idle. With one finger left it goes to the pressing state. Otherwise the hold loop stores every finger still down in both arrays. |
| Detector.GestureDetector.MultiDoing | collage-gesture-detector/src/main/java/com/cardinalblue/gesture/state/MultipleFingersPressingState.kt:80-145 | Dispatches move, pointer down, pointer up, release and cancel as the source does. |
| Detector.GestureDetector.MoveStop | collage-gesture-detector/src/main/java/com/cardinalblue/gesture/state/MultipleFingersPressingState.kt:92-99 | The move loop's stop points. Kotlin moves the held fingers still down; Java moves the first `DownCount` pointers and has no entry when one of them is not held. |
| Detector.GestureDetector.MultiMove | collage-gesture-detector/src/main/java/com/cardinalblue/gesture/state/MultipleFingersPressingState.kt:89-112 | Follows the fingers, and starts a pinch once some held pair has moved past the slop. |
| Detector.GestureDetector.MultiLift | collage-gesture-detector/src/main/java/com/cardinalblue/gesture/state/MultipleFingersPressingState.kt:124-136 | Forgets the lifted finger. With one finger left the state goes back to single-finger pressing. |
| Detector.GestureDetector.DragDoing | collage-gesture-detector/src/main/java/com/cardinalblue/gesture/state/DragState.kt:52-101 | Dispatches pointer down (multi-touch switch), move, release and cancel as the source does. |
| Detector.GestureDetector.DragExit | collage-gesture-detector/src/main/java/com/cardinalblue/gesture/state/DragState.kt:103-128 | Reports a fling when the release is one, then the drag's end. |
| Detector.GestureDetector.Restart | collage-gesture-detector/src/main/java/com/cardinalblue/gesture/state/PinchState.kt:128-158 | Holds the pointers still down, in index order, as start and stop points and as the down order. |
| Detector.GestureDetector.PinchEnter | collage-gesture-detector/src/main/java/com/cardinalblue/gesture/state/PinchState.kt:46-75 | Holds the fingers down and reports the pinch's begin on the first two. |
| Detector.GestureDetector.PinchDoing | collage-gesture-detector/src/main/java/com/cardinalblue/gesture/state/PinchState.kt:77-184 | Dispatches move, pointer down, pointer up, release and cancel as the source does. |
| Detector.GestureDetector.PinchMove | collage-gesture-detector/src/main/java/com/cardinalblue/gesture/state/PinchState.kt:86-110 | The anchors' stop points follow the first two pointers, and the pinch is reported. |
| Detector.GestureDetector.PinchLift | collage-gesture-detector/src/main/java/com/cardinalblue/gesture/state/PinchState.kt:124-174 | Losing an anchor restarts the pinch; losing another finger forgets it. |
| Detector.GestureDetector.PinchExit | collage-gesture-detector/src/main/java/com/cardinalblue/gesture/state/PinchState.kt:186-201 | Reports the end of the pinch on the anchors and clears the arrays. This is the corrected exit; see Findings. |
| Detector.GestureDetector.OnlySingleDoing | collage-gesture-detector/src/main/java/com/cardinalblue/gesture/state/SingleFingerPressingStateForDragOnly.kt:62-123 | Drag-only pressing: a press or lift restarts the slop; a move past the slop starts the drag; a release or cancel goes idle. |
| Detector.GestureDetector.OnlyDragEnter | collage-gesture-detector/src/main/java/com/cardinalblue/gesture/state/DragStateForDragOnly.kt:46-78 | Finds the focus finger with the search loop, stores it as start and stop, and reports the drag's begin. |
| Detector.GestureDetector.OnlyDragDoing | collage-gesture-detector/src/main/java/com/cardinalblue/gesture/state/DragStateForDragOnly.kt:80-134 | Drag-only drag: a move follows the focus finger; lifting the focus finger restarts the drag; a release or cancel ends it. |
| Detector.GestureDetector.OnlyDragExit | collage-gesture-detector/src/main/java/com/cardinalblue/gesture/state/DragStateForDragOnly.kt:136-166 | Reports a fling when the release is one, then the end, both at the focus finger. |
| Recognizer.FocusIdPresent | collage-gesture-detector/src/main/java/com/cardinalblue/gesture/state/DragStateForDragOnly.kt:52-67 | The focus id picked on entry belongs to one of the event's pointers, so the index lookup succeeds. |
| Steps.ArmTimersSchedules | collage-gesture-detector/src/main/java/com/cardinalblue/gesture/state/SingleFingerPressingState.kt:121-142 | After arming no tap message is left. With long press on, the only long-press message is the new one, last in the queue and due at down time plus both timeouts; with it off only the tap is cancelled. |
| Steps.DeferTapSchedules | collage-gesture-detector/src/main/java/com/cardinalblue/gesture/state/SingleFingerPressingState.kt:176-190 | After deferring, the tap message is last in the queue, no long press is left, and the other pending codes are unchanged. The new tap message is the only one exactly when none was pending before. |
| Steps.SingleExitOnRelease | collage-gesture-detector/src/main/java/com/cardinalblue/gesture/state/SingleFingerPressingState.kt:204-250 | Exit on a held release: no tap message pending, the tap callback (if any) appended, the held events cleared. |
| Steps.SingleExitElse | collage-gesture-detector/src/main/java/com/cardinalblue/gesture/state/SingleFingerPressingState.kt:204-250 | Exit on anything else: no callback, no tap message pending, the held events cleared. |
| Steps.MultiEnterHoldsAll | collage-gesture-detector/src/main/java/com/cardinalblue/gesture/state/MultipleFingersPressingState.kt:57-70 | A press of several fingers holds every one of them in both arrays. |
| IdleProperties.Begin | collage-gesture-detector/src/main/java/com/cardinalblue/gesture/state/IdleState.kt:62-68 | The begin callback the idle exit sends, with the snapshot the owner variant attaches. |
| IdleProperties.IdleIgnoresOtherActions | collage-gesture-detector/src/main/java/com/cardinalblue/gesture/state/IdleState.kt:41-60 | Both idle states ignore every action other than ACTION_DOWN. |
| IdleProperties.ExitBegins | collage-gesture-detector/src/main/java/com/cardinalblue/gesture/state/IdleState.kt:62-68 | Leaving idle appends the begin callback and changes nothing else. |
| IdleProperties.OneFingerDownPresses | collage-gesture-detector/src/main/java/com/cardinalblue/gesture/state/IdleState.kt:41-60 | One finger down reports the begin and enters pressing with the counters reset and the touched object remembered; the press is held as the current down. |
| IdleProperties.FingersDownHold | collage-gesture-detector/src/main/java/com/cardinalblue/gesture/state/IdleState.kt:41-60 | Several fingers down with multi-touch on (always in Java) reports the begin and holds every finger in the multiple-fingers state. |
| IdleProperties.DragOnlyFingersDownThrow | collage-gesture-detector/src/main/java/com/cardinalblue/gesture/GesturePolicy.kt:76-85 | A fresh drag-only owner reports the begin on a two-finger press, then faults with no pool entry for the multiple-fingers state. |
| IdleProperties.LegacyWithoutListenerThrows | library/src/main/java/com/cardinalblue/gesture/state/IdleState.java:65-69 | The Java detector without a listener faults with a NullPointer on the first begin callback. |
| Silence.KotlinWithoutListenerIsSilent | collage-gesture-detector/src/main/java/com/cardinalblue/gesture/GestureDetector.kt:62 | For any Kotlin owner without a listener, `onTouchEvent` appends nothing to the log. Unless the same owner with a listener faults, it ends in exactly that owner's state: current state, timers, held events and pointer arrays. Only the listener's run can fault at a pinch callback, because `?.` skips the arguments. |
| Silence.KotlinWithoutListenerIsSilentOnMessage | collage-gesture-detector/src/main/java/com/cardinalblue/gesture/state/SingleFingerPressingState.kt:252-281 | The same for a Handler message: without a listener the long press is not reported, and the tap message ends the gesture as it does with one. |
| SingleFingerProperties.ExitReportsTapCount | collage-gesture-detector/src/main/java/com/cardinalblue/gesture/state/SingleFingerPressingState.kt:217-235 | On ACTION_UP after taps and no long press: exactly one tap callback whose count is the number of close taps, for the touched object and context; no tap message and no held event remain. |
| SingleFingerProperties.TapGestureCounts | collage-gesture-detector/src/main/java/com/cardinalblue/gesture/state/SingleFingerPressingState.kt:223-233 | A positive count maps to single, double, or a more-tap carrying that count from three on. |
| SingleFingerProperties.ExitReportsLongTap | collage-gesture-detector/src/main/java/com/cardinalblue/gesture/state/SingleFingerPressingState.kt:220-222 | After a long press the release reports a long tap and no tap, whatever the count. |
| SingleFingerProperties.ExitWithoutTapIsSilent | collage-gesture-detector/src/main/java/com/cardinalblue/gesture/state/SingleFingerPressingState.kt:204-250 | An exit that is not on a release, or has nothing to report, sends no callback. |
| SingleFingerProperties.ReleaseDefersTap | collage-gesture-detector/src/main/java/com/cardinalblue/gesture/state/SingleFingerPressingState.kt:171-191 | A release without a long press counts a close tap, cancels the long press, and puts a tap message last in the queue, due after the tap timeout. An earlier tap message is not removed, so the new one is the only tap message exactly when none was pending. |
| SingleFingerProperties.ReleaseAfterLongPress | collage-gesture-detector/src/main/java/com/cardinalblue/gesture/state/SingleFingerPressingState.kt:171-174 | A release after a long press ends the gesture at once: a long tap, then the action end. |
| SingleFingerProperties.PressSchedulesLongPress | collage-gesture-detector/src/main/java/com/cardinalblue/gesture/state/SingleFingerPressingState.kt:121-142 | A one-finger press leaves no tap message and exactly one long press, due at down time plus both timeouts; the focus becomes the move reference. |
| SingleFingerProperties.PressWithoutLongPress | collage-gesture-detector/src/main/java/com/cardinalblue/gesture/state/SingleFingerPressingState.kt:124-138 | With long press off, a press only cancels the pending tap. |
| SingleFingerProperties.MoveStartsDragIff | collage-gesture-detector/src/main/java/com/cardinalblue/gesture/state/SingleFingerPressingState.kt:151-162 | A move starts a drag if and only if the truncated focus displacement exceeds the touch slop; the drag starts at the first pointer. Otherwise nothing changes. |
| SingleFingerProperties.HandledIff | collage-gesture-detector/src/main/java/com/cardinalblue/gesture/state/SingleFingerPressingState.kt:252-283 | The result of `onHandleMessage` for every state and every message code. |
| SingleFingerProperties.LongPressFires | collage-gesture-detector/src/main/java/com/cardinalblue/gesture/state/SingleFingerPressingState.kt:254-268 | The long-press message cancels the tap, marks the press as long, and reports the long press with its payload when long press is on. |
| SingleFingerProperties.TapMessageEndsGesture | collage-gesture-detector/src/main/java/com/cardinalblue/gesture/state/SingleFingerPressingState.kt:270-279 | The tap message ends the gesture with the held release: the tap callback, then the action end. With no release held, the Kotlin state ignores the message. |
| SingleFingerProperties.LegacyTapMessageWithoutReleaseThrows | library/src/main/java/com/cardinalblue/gesture/state/SingleFingerPressingState.java:287-294 | The Java tap message with no release held faults with a NullPointer. |
| MultiProperties.EnterHoldsFingers | collage-gesture-detector/src/main/java/com/cardinalblue/gesture/state/MultipleFingersPressingState.kt:57-70 | Entering with two or more fingers down holds each one at its position, in both arrays. |
| MultiProperties.EnterOnReleaseGoesIdle | collage-gesture-detector/src/main/java/com/cardinalblue/gesture/state/MultipleFingersPressingState.kt:40-56 | Entering on a release or cancel goes idle at once and reports the gesture's end. |
| MultiProperties.KotlinMoveFollowsFingers | collage-gesture-detector/src/main/java/com/cardinalblue/gesture/state/MultipleFingersPressingState.kt:89-112 | A Kotlin move moves the stop point of every held finger. It becomes a pinch if and only if some held finger has moved past the slop; otherwise nothing else changes. |
| MultiProperties.MoveIntoPinch | collage-gesture-detector/src/main/java/com/cardinalblue/gesture/state/MultipleFingersPressingState.kt:164-169 | The transition to the pinch clears both arrays and enters the pinch state with its invariant established. |
| MultiProperties.LegacyMoveThrowsOnUnheldFinger | library/src/main/java/com/cardinalblue/gesture/state/MultipleFingersPressingState.java:102-107 | The Java move faults with a NullPointer on a finger that is not held. |
| MultiProperties.LegacyMoveAgreesWhenAllHeld | library/src/main/java/com/cardinalblue/gesture/state/MultipleFingersPressingState.java:100-115 | When every finger is held, the Java move computes the same stop points as the Kotlin one. |
| MultiProperties.PointerDownHolds | collage-gesture-detector/src/main/java/com/cardinalblue/gesture/state/MultipleFingersPressingState.kt:114-122 | A finger going down is held in both arrays; nothing else changes. |
| MultiProperties.PointerUpForgets | collage-gesture-detector/src/main/java/com/cardinalblue/gesture/state/MultipleFingersPressingState.kt:124-136 | A finger going up is forgotten. The state goes back to single-finger pressing if and only if one finger is left. |
| MultiProperties.LiftIntoSingle | collage-gesture-detector/src/main/java/com/cardinalblue/gesture/state/MultipleFingersPressingState.kt:124-136 | Lifting into the pressing state restarts it from the focus of the fingers left. |
| MultiProperties.ReleaseGoesIdle | collage-gesture-detector/src/main/java/com/cardinalblue/gesture/state/MultipleFingersPressingState.kt:138-143 | A release or cancel ends the gesture from this state. |
| DragProperties.ClampBounds | collage-gesture-detector/src/main/java/com/cardinalblue/gesture/state/DragState.kt:141-156 | A clamped velocity component is no faster than the maximum, and no faster than the velocity itself. |
| DragProperties.SlowReleaseIsNoFling | collage-gesture-detector/src/main/java/com/cardinalblue/gesture/state/DragState.kt:141-156 | A release no faster than the minimum on both axes is no fling. |
| DragProperties.NoFlingUnlessMaxAboveMin | collage-gesture-detector/src/main/java/com/cardinalblue/gesture/state/DragState.kt:141-156 | When the maximum is no larger than the minimum, nothing is a fling. |
| DragProperties.FastReleaseIsFling | collage-gesture-detector/src/main/java/com/cardinalblue/gesture/state/DragState.kt:141-156 | A release faster than the minimum on either axis, within the maximum, is a fling. No other action is. |
| DragProperties.EnterBeginsDrag | collage-gesture-detector/src/main/java/com/cardinalblue/gesture/state/DragState.kt:41-50 | Entering takes the first pointer as the start and reports the drag's begin. |
| DragProperties.MoveReportsDrag | collage-gesture-detector/src/main/java/com/cardinalblue/gesture/state/DragState.kt:77-82 | A move reports the drag from the start to the first pointer and changes nothing else. |
| DragProperties.ExitReportsFlingThenEnd | collage-gesture-detector/src/main/java/com/cardinalblue/gesture/state/DragState.kt:103-128 | Leaving reports a fling first when the release is one, then the end from the start to the first pointer. |
| DragProperties.SecondFingerIgnoredWithoutMultitouch | collage-gesture-detector/src/main/java/com/cardinalblue/gesture/state/DragState.kt:65-75 | With multi-touch off, the Kotlin drag ignores a second finger. |
| DragProperties.SecondFingerEndsDrag | collage-gesture-detector/src/main/java/com/cardinalblue/gesture/state/DragState.kt:65-75 | Otherwise a second finger ends the drag without a fling, and the multiple-fingers state holds every finger down. |
| DragProperties.KotlinReleaseWithFingersLeftIsIgnored | collage-gesture-detector/src/main/java/com/cardinalblue/gesture/state/DragState.kt:84-94 | The Kotlin drag ignores a release that leaves fingers down. |
| DragProperties.ReleaseEndsDrag | collage-gesture-detector/src/main/java/com/cardinalblue/gesture/state/DragState.kt:84-99 | The last finger up, or a cancel, reports the fling if there is one, the end, then the end of the gesture. |
| DragOnlyProperties.DownPresses | collage-gesture-detector/src/main/java/com/cardinalblue/gesture/state/IdleStateForDragOnly.kt:46-57 | A first finger down takes the drag-only idle state to the drag-only pressing state. |
| DragOnlyProperties.PressRestartsSlop | collage-gesture-detector/src/main/java/com/cardinalblue/gesture/state/SingleFingerPressingStateForDragOnly.kt:84-94 | A press or a lift restarts the slop from the focus of the fingers left. Another finger going down changes nothing. |
| DragOnlyProperties.MoveStartsDragIff | collage-gesture-detector/src/main/java/com/cardinalblue/gesture/state/SingleFingerPressingStateForDragOnly.kt:96-107 | A move becomes a drag if and only if the focus has left the slop. The drag then follows the event's action finger from where it is. |
| DragOnlyProperties.ReleaseEndsPress | collage-gesture-detector/src/main/java/com/cardinalblue/gesture/state/SingleFingerPressingStateForDragOnly.kt:109-121 | A release or cancel while pressing ends the gesture. |
| DragOnlyProperties.MoveReportsDrag | collage-gesture-detector/src/main/java/com/cardinalblue/gesture/state/DragStateForDragOnly.kt:111-117 | A move reports the drag from its start to where the focus finger is now. |
| DragOnlyProperties.LostFocusThrows | collage-gesture-detector/src/main/java/com/cardinalblue/gesture/state/DragStateForDragOnly.kt:111-117 | Under the assumed lookup (see Left out), an event without the focus finger is an index-out-of-range fault. |
| DragOnlyProperties.OtherFingersIgnored | collage-gesture-detector/src/main/java/com/cardinalblue/gesture/state/DragStateForDragOnly.kt:95-109 | Other fingers going down or up do not disturb the drag. |
| DragOnlyProperties.EndCallbacks | collage-gesture-detector/src/main/java/com/cardinalblue/gesture/state/DragStateForDragOnly.kt:136-166 | The exit's callbacks: the fling when the release was fast, then the end. |
| DragOnlyProperties.ExitReportsEnd | collage-gesture-detector/src/main/java/com/cardinalblue/gesture/state/DragStateForDragOnly.kt:136-166 | Leaving appends exactly those callbacks, at the focus finger. |
| DragOnlyProperties.FocusLiftReissuesDrag | collage-gesture-detector/src/main/java/com/cardinalblue/gesture/state/DragStateForDragOnly.kt:95-105 | Lifting the focus finger ends this drag and begins a new one that follows the first finger left, from where it is. |
| DragOnlyProperties.ReleaseEndsDrag | collage-gesture-detector/src/main/java/com/cardinalblue/gesture/state/DragStateForDragOnly.kt:119-132 | A release or cancel ends the drag, then the gesture. |
| PinchProperties.AnchorsPresent | collage-gesture-detector/src/main/java/com/cardinalblue/gesture/state/PinchState.kt:86-110 | Under the pinch invariant neither array has a null entry for an anchor. |
| PinchProperties.RestartEstablishes | collage-gesture-detector/src/main/java/com/cardinalblue/gesture/state/PinchState.kt:46-75 | Holding two or more fingers establishes the invariant, with the first two fingers in index order as anchors at their positions. |
| PinchProperties.EnterBegins | collage-gesture-detector/src/main/java/com/cardinalblue/gesture/state/PinchState.kt:46-75 | Entering with two or more fingers begins a pinch on the first two. |
| PinchProperties.EnterWithOneFingerThrows | collage-gesture-detector/src/main/java/com/cardinalblue/gesture/state/PinchState.kt:46-75 | Entering with fewer than two fingers reads the down order past its end whenever the begin's arguments are evaluated. |
| PinchProperties.MoveReportsPinch | collage-gesture-detector/src/main/java/com/cardinalblue/gesture/state/PinchState.kt:86-110 | A move puts the anchors' stop points at the first two pointers and reports the pinch from their start points. The invariant holds and nothing else changes. |
| PinchProperties.PointerDownQueues | collage-gesture-detector/src/main/java/com/cardinalblue/gesture/state/PinchState.kt:112-122 | A new finger is held and queued behind the others; the anchors and the log stay. |
| PinchProperties.OtherFingerUpIsSilent | collage-gesture-detector/src/main/java/com/cardinalblue/gesture/state/PinchState.kt:159-167 | A non-anchor finger going up is forgotten without a callback; the anchors stay. |
| PinchProperties.LiftForgets | collage-gesture-detector/src/main/java/com/cardinalblue/gesture/state/PinchState.kt:159-167 | A non-anchor finger going up leaves both arrays and the down order. The invariant, the anchors and their entries are kept, and nothing else changes. |
| PinchProperties.ForgetKeepsAnchors | collage-gesture-detector/src/main/java/com/cardinalblue/gesture/state/PinchState.kt:159-167 | Forgetting a non-anchor finger keeps the invariant and the anchors' entries. |
| PinchProperties.AnchorUpRestarts | collage-gesture-detector/src/main/java/com/cardinalblue/gesture/state/PinchState.kt:128-158 | An anchor going up ends the pinch on the old anchors and begins one on the first two fingers still down. |
| PinchProperties.LiftRestarts | collage-gesture-detector/src/main/java/com/cardinalblue/gesture/state/PinchState.kt:128-158 | An anchor going up logs the end on the old anchors, then a begin on the first two fingers still down. Their ids in index order become the down order, and the invariant holds again. |
| PinchProperties.EmitPinchAppends | collage-gesture-detector/src/main/java/com/cardinalblue/gesture/state/PinchState.kt:86-110 | With a listener and two anchors, a pinch callback is appended and nothing else changes. |
| PinchProperties.ExitReportsAnchors | collage-gesture-detector/src/main/java/com/cardinalblue/gesture/state/PinchState.kt:186-201 | Leaving reports the end of the pinch on the anchors and forgets every finger. |
| Settings.InitConfig | collage-gesture-detector/src/main/java/com/cardinalblue/gesture/GestureDetector.kt:175-191 | Each slop is the smaller of the argument and the platform's, squared and truncated. Each fling velocity is the larger, truncated. The tap timeout is at least 150 ms. |
| Settings.ConfigBounds | collage-gesture-detector/src/main/java/com/cardinalblue/gesture/GestureDetector.kt:181-190 | The squared slops never exceed the platform's, up to truncation. The fling thresholds are at least the platform's. |
| Settings.ResetRestoresDefaults | collage-gesture-detector/src/main/java/com/cardinalblue/gesture/GestureDetector.kt:141-147 | Reset puts every switch back as a new detector has it, leaves the rest alone, is idempotent, and makes `onTouchEvent` report consumption. |
| Settings.TapsOffSilenceRelease | collage-gesture-detector/src/main/java/com/cardinalblue/gesture/state/SingleFingerPressingState.kt:220-234 | With taps off, a release that is not a long tap reports nothing on exit. |
| Settings.PressWhileLongPressOff | collage-gesture-detector/src/main/java/com/cardinalblue/gesture/state/SingleFingerPressingState.kt:121-142 | A press with long press off leaves neither a tap nor a long press pending. |
| Settings.LongPressOffSchedulesNothing | collage-gesture-detector/src/main/java/com/cardinalblue/gesture/state/SingleFingerPressingState.kt:131-138 | After switching long press off, a press schedules no long press. |
| Settings.MultitouchOffIgnoresSecondFinger | collage-gesture-detector/src/main/java/com/cardinalblue/gesture/state/SingleFingerPressingState.kt:97-104 | With multi-touch off, a second finger leaves neither the pressing state nor the drag. |
| Settings.MultitouchOffPressesWithOneFinger | collage-gesture-detector/src/main/java/com/cardinalblue/gesture/state/IdleState.kt:41-60 | With multi-touch off, several fingers going down at once start the single-finger press. |
| Settings.IdlePressWithoutMultitouch | collage-gesture-detector/src/main/java/com/cardinalblue/gesture/state/IdleState.kt:41-60 | Without multi-touch, idle always goes to the pressing state on ACTION_DOWN. |
| Settings.PressWithoutMultitouch | collage-gesture-detector/src/main/java/com/cardinalblue/gesture/state/SingleFingerPressingState.kt:120-142 | Without multi-touch, a press of any number of fingers stays in pressing and holds the press. It arms the timers: the focus becomes the start, no tap is pending, and with long press on the only long-press message is last, due at the down time plus both timeouts. With long press off only the tap is removed. Nothing is logged. |
| Policy.GesturePolicy.constructor | collage-gesture-detector/src/main/java/com/cardinalblue/gesture/GesturePolicy.kt:46-63 | The pools hold exactly the entries `init` creates, with the three undefined classes read as the pressing states (see Left out), and the mode is ALL. |
| Policy.GesturePolicy.SetPolicy | collage-gesture-detector/src/main/java/com/cardinalblue/gesture/GesturePolicy.kt:65-70 | ALL and DRAG_ONLY are accepted. Anything else is an error and leaves the mode unchanged. |
| Policy.GesturePolicy.GetDefaultState | collage-gesture-detector/src/main/java/com/cardinalblue/gesture/GesturePolicy.kt:72-74 | Always the idle state of mode ALL. |
| Policy.GesturePolicy.GetNewState | collage-gesture-detector/src/main/java/com/cardinalblue/gesture/GesturePolicy.kt:76-85 | The current mode's pool entry for the tag, or the error `!!` throws if and only if there is none. |
| Policy.AllPoolIsComplete | collage-gesture-detector/src/main/java/com/cardinalblue/gesture/GesturePolicy.kt:46-63 | Under ALL every tag has the instance the detectors hold, with the same reading of the three undefined classes (see Left out). |
| Policy.DragOnlyPoolIsPartial | collage-gesture-detector/src/main/java/com/cardinalblue/gesture/GesturePolicy.kt:46-63 | Under DRAG_ONLY exactly the multiple-fingers and pinch tags have no instance; the others are drag-only instances. |
| Callbacks.RemoveMessagesFacts | collage-gesture-detector/src/main/java/com/cardinalblue/gesture/state/SingleFingerPressingState.kt:321-323 | `removeMessages(what)` leaves exactly the messages with other codes, in order. It leaves the queue untouched when none has the code. |
| Callbacks.HasMessagesAppend | collage-gesture-detector/src/main/java/com/cardinalblue/gesture/state/SingleFingerPressingState.kt:134-137 | Sending a message adds its code to the codes pending. |
| Callbacks.RemoveMessagesIdempotent | collage-gesture-detector/src/main/java/com/cardinalblue/gesture/state/SingleFingerPressingState.kt:315-319 | Removing a code twice is removing it once. |
| Callbacks.ObtainMessagePayload | collage-gesture-detector/src/main/java/com/cardinalblue/gesture/state/BaseGestureState.kt:86-94 | The payload is a snapshot of the event, with the target and context unchanged. |
| Events.ComputeFocus | collage-gesture-detector/src/main/java/com/cardinalblue/gesture/state/SingleFingerPressingState.kt:84-94 | The focal point is the centroid of the pointers still down. |
| Events.SumDown | collage-gesture-detector/src/main/java/com/cardinalblue/gesture/state/SingleFingerPressingState.kt:84-91 | The loop sums the coordinates of every pointer except the lifted one. |
| Events.FocusOfSums | collage-gesture-detector/src/main/java/com/cardinalblue/gesture/state/SingleFingerPressingState.kt:92-94 | The centroid is the sums divided by the down count, which is positive. |
| Events.Kept | collage-gesture-detector/src/main/java/com/cardinalblue/gesture/state/SingleFingerPressingState.kt:87-91 | The pointers in index order, without the one at the skipped index. |
| Events.RemainingCount | collage-gesture-detector/src/main/java/com/cardinalblue/gesture/state/BaseGestureState.kt:48-84 | The pointers still down number the down count, at least one, with distinct ids. |
| Events.Trunc | collage-gesture-detector/src/main/java/com/cardinalblue/gesture/state/SingleFingerPressingState.kt:152-153 | `toInt()` truncates toward zero: within one of the value, on the side of zero. |
| Events.IndexOfId | collage-gesture-detector/src/main/java/com/cardinalblue/gesture/state/DragStateForDragOnly.kt:111-117 | The lookup assumed for the undefined `getFocusIndexFromId`: the first index holding the id, or none exactly when no pointer has it. |
| PointerMaps.HoldDown | collage-gesture-detector/src/main/java/com/cardinalblue/gesture/state/MultipleFingersPressingState.kt:57-70 | The hold loop stores the position of every pointer still down, and their ids in index order. |
| PointerMaps.HoldMapFacts | collage-gesture-detector/src/main/java/com/cardinalblue/gesture/state/MultipleFingersPressingState.kt:57-70 | The held keys are exactly the pointers' ids, each at its pointer's position. |
| PointerMaps.MoveHeldDown | collage-gesture-detector/src/main/java/com/cardinalblue/gesture/state/MultipleFingersPressingState.kt:92-99 | The Kotlin move loop gives every held pointer of the event its new position and keeps the other entries. |
| PointerMaps.MoveAllDown | library/src/main/java/com/cardinalblue/gesture/state/MultipleFingersPressingState.java:102-107 | The Java move loop: none if and only if some pointer is not held. |
| PointerMaps.MoveAllMovesHeld | library/src/main/java/com/cardinalblue/gesture/state/MultipleFingersPressingState.java:102-107 | When every pointer is held, the Java loop's result is the Kotlin one's. |
| PointerMaps.SortedKeys | collage-gesture-detector/src/main/java/com/cardinalblue/gesture/state/PinchState.kt:186-201 | `SparseArray` key order: the keys in strictly increasing order, each once. |
| PointerMaps.ConsideredPinchSameKeys | collage-gesture-detector/src/main/java/com/cardinalblue/gesture/state/MultipleFingersPressingState.kt:147-162 | On arrays with the same keys, `isConsideredPinch` holds if and only if some held finger has moved past the slop. |
| PointerMaps.IsConsideredPinch | collage-gesture-detector/src/main/java/com/cardinalblue/gesture/state/MultipleFingersPressingState.kt:147-162 | The method returns `isConsideredPinch` of the two arrays. |
| PointerMaps.AnyPairMoved | collage-gesture-detector/src/main/java/com/cardinalblue/gesture/state/MultipleFingersPressingState.kt:150-160 | The loop is true if and only if some index pairs a start and a stop point farther apart than the slop. |
| Snapshots.MyMotionEventOf | collage-gesture-detector/src/main/java/com/cardinalblue/gesture/MyMotionEvent.kt:37-53 | Fails if and only if an array is missing or the lengths differ, with the matching error. Otherwise the count is the length of both arrays. |
| Snapshots.NewMyMotionEvent | collage-gesture-detector/src/main/java/com/cardinalblue/gesture/MyMotionEvent.kt:37-53 | The constructor with its summing loop builds `MyMotionEventOf`. |
| Snapshots.SumBounds | collage-gesture-detector/src/main/java/com/cardinalblue/gesture/MyMotionEvent.kt:45-50 | A sum of values in [lo, hi] lies in [n·lo, n·hi]. |
| Snapshots.MeanWithinBounds | collage-gesture-detector/src/main/java/com/cardinalblue/gesture/MyMotionEvent.kt:51-52 | The focus of a non-empty snapshot lies between the smallest and the largest coordinate. |
| Snapshots.LegacyMyMotionEventOf | library/src/main/java/com/cardinalblue/gesture/MyMotionEvent.java:32-53 | The Java constructor fails on the same arguments and keeps the arrays and their count. |
| Snapshots.LegacyAgreesWithKotlin | library/src/main/java/com/cardinalblue/gesture/MyMotionEvent.java:32-53 | Both constructors reject the same arguments with the same error, and accept with the same fields. |
| Snapshots.ComputeDefaultFocus | collage-gesture-detector/src/main/java/com/cardinalblue/gesture/ShadowMotionEvent.kt:33-39 | The default-focus loop: the first `count` values summed and divided by the count. A count past the array is an index-out-of-bounds error, zero gives NaN, and a negative count gives 0. |
| Snapshots.NewShadowMotionEvent | collage-gesture-detector/src/main/java/com/cardinalblue/gesture/ShadowMotionEvent.kt:26-46 | The data class with its defaults: the count defaults to the shorter length, and the focus defaults to the mean. |
| Snapshots.ShadowDefaultsMatchMyMotionEvent | collage-gesture-detector/src/main/java/com/cardinalblue/gesture/ShadowMotionEvent.kt:26-46 | With every default taken and equal lengths, the count and focus equal those MyMotionEvent derives. |
| Snapshots.ShadowCountBeyondArray | collage-gesture-detector/src/main/java/com/cardinalblue/gesture/ShadowMotionEvent.kt:32-39 | With the default focus, a count beyond either array reads past its end. |
| Snapshots.Snapshot | collage-gesture-detector/src/main/java/com/cardinalblue/gesture/state/BaseGestureState.kt:48-84 | The snapshot's action code is the event's and its count is the down count. |
| Snapshots.SnapshotContents | collage-gesture-detector/src/main/java/com/cardinalblue/gesture/state/BaseGestureState.kt:48-84 | The snapshot holds the coordinates of the pointers still down in index order, their centroid, and the lifted pointer's position on POINTER_UP. |
| Snapshots.CopyDownCoordinates | collage-gesture-detector/src/main/java/com/cardinalblue/gesture/state/BaseGestureState.kt:55-72 | The two-counter copy loop fills the arrays with the coordinates of every pointer except the lifted one. |
| Snapshots.ObtainMyMotionEvent | collage-gesture-detector/src/main/java/com/cardinalblue/gesture/state/BaseGestureState.kt:48-84 | `obtainMyMotionEvent` builds exactly `Snapshot(e)`. |
| Snapshots.SinglePointerAtOriginSnapshot | collage-gesture-detector/src/test/java/com/cardinalblue/gesture/GestureDetectorTest.kt:70 | One pointer down at the origin gives a snapshot with focus (0, 0). |
| Bridge.Initial | collage-gesture-detector/src/main/java/com/cardinalblue/gesture/ListenerBridge.kt:36-58 | A new bridge has no listener, every flag off, and nothing delivered. |
| Bridge.SetTapListener | collage-gesture-detector/src/main/java/com/cardinalblue/gesture/ListenerBridge.kt:38-44 | Setting the tap listener sets both tap flags to whether it is present and changes nothing else. |
| Bridge.SetDragListener | collage-gesture-detector/src/main/java/com/cardinalblue/gesture/ListenerBridge.kt:47-51 | Setting the drag listener sets its flag to whether it is present and changes nothing else. |
| Bridge.SetPinchListener | collage-gesture-detector/src/main/java/com/cardinalblue/gesture/ListenerBridge.kt:54-58 | Setting the pinch listener sets its flag to whether it is present and changes nothing else. |
| Bridge.ForwardAtMostOnce | collage-gesture-detector/src/main/java/com/cardinalblue/gesture/ListenerBridge.kt:60-215 | A call hands on at most this callback, to a listener that is set and of its own family. Only the delivery record changes, plus the family's latch on a begin. |
| Bridge.OfferOnce | collage-gesture-detector/src/main/java/com/cardinalblue/gesture/ListenerBridge.kt:83-117 | Offering to a family delivers at most once and changes no setting. |
| Bridge.LifecycleGoesToFirst | collage-gesture-detector/src/main/java/com/cardinalblue/gesture/ListenerBridge.kt:60-78 | Begin and end go to exactly the first listener set among tap, drag and pinch, whatever the flags; with none set they are dropped. |
| Bridge.TapGates | collage-gesture-detector/src/main/java/com/cardinalblue/gesture/ListenerBridge.kt:83-117 | A tap-family callback is delivered if and only if its gate is open and the listener is set. A long tap needs both flags, a long press the long-press flag, the taps the tap flag. |
| Bridge.BeginLatches | collage-gesture-detector/src/main/java/com/cardinalblue/gesture/ListenerBridge.kt:124-132 | A begin latches its family's enable flag, and is delivered if and only if that flag is on and the listener is set. |
| Bridge.LatchHolds | collage-gesture-detector/src/main/java/com/cardinalblue/gesture/ListenerBridge.kt:122-168 | Until the family's next begin, no setter and no other callback changes its latch. |
| Bridge.SessionForwarding | collage-gesture-detector/src/main/java/com/cardinalblue/gesture/ListenerBridge.kt:134-168 | Within a session, after any run of listener setters, flag writes and other callbacks, a callback is delivered if and only if the family was enabled at the begin and the listener is set now. Flag changes mid-session do not stop it. |
| Bridge.SetFlag | collage-gesture-detector/src/main/java/com/cardinalblue/gesture/ListenerBridge.kt:36-53 | Writing one enable flag on its own changes that flag only; listeners, latches, the other flags and the deliveries stay. |
| Bridge.DisablingMidDragKeepsDrag | collage-gesture-detector/src/main/java/com/cardinalblue/gesture/ListenerBridge.kt:27-33 | A drag begun with dragging enabled is still handed to the drag listener after the drag flag is switched off. |
| BridgeObject.ListenerBridge.constructor | collage-gesture-detector/src/main/java/com/cardinalblue/gesture/ListenerBridge.kt:34-58 | The object starts as `Bridge.Initial`. |
| BridgeObject.ListenerBridge.SetTapListener | collage-gesture-detector/src/main/java/com/cardinalblue/gesture/ListenerBridge.kt:38-44 | The setter's new state is `Bridge.SetTapListener` of the old one. |
| BridgeObject.ListenerBridge.SetDragListener | collage-gesture-detector/src/main/java/com/cardinalblue/gesture/ListenerBridge.kt:47-51 | The setter's new state is `Bridge.SetDragListener` of the old one. |
| BridgeObject.ListenerBridge.SetPinchListener | collage-gesture-detector/src/main/java/com/cardinalblue/gesture/ListenerBridge.kt:54-58 | The setter's new state is `Bridge.SetPinchListener` of the old one. |
| BridgeObject.ListenerBridge.SetTapEnabled | collage-gesture-detector/src/main/java/com/cardinalblue/gesture/ListenerBridge.kt:36 | The new state is `Bridge.SetFlag` of the old one for `TapFlag`. |
| BridgeObject.ListenerBridge.SetLongPressEnabled | collage-gesture-detector/src/main/java/com/cardinalblue/gesture/ListenerBridge.kt:37 | The new state is `Bridge.SetFlag` of the old one for `LongPressFlag`. |
| BridgeObject.ListenerBridge.SetDragEnabled | collage-gesture-detector/src/main/java/com/cardinalblue/gesture/ListenerBridge.kt:46 | The new state is `Bridge.SetFlag` of the old one for `DragFlag`. |
| BridgeObject.ListenerBridge.SetPinchEnabled | collage-gesture-detector/src/main/java/com/cardinalblue/gesture/ListenerBridge.kt:53 | The new state is `Bridge.SetFlag` of the old one for `PinchFlag`. |
| BridgeObject.ListenerBridge.Offer | collage-gesture-detector/src/main/java/com/cardinalblue/gesture/ListenerBridge.kt:87 | `listener?.onX(...)`: appends a delivery when that family's listener is set. |
| BridgeObject.ListenerBridge.OnLifecycle | collage-gesture-detector/src/main/java/com/cardinalblue/gesture/ListenerBridge.kt:60-78 | `onActionBegin` and `onActionEnd` follow `Bridge.ForwardLifecycle`. |
| BridgeObject.ListenerBridge.OnTapFamily | collage-gesture-detector/src/main/java/com/cardinalblue/gesture/ListenerBridge.kt:83-117 | The tap overrides, with their gates, follow `Bridge.ForwardTap`. |
| BridgeObject.ListenerBridge.OnDragFamily | collage-gesture-detector/src/main/java/com/cardinalblue/gesture/ListenerBridge.kt:122-168 | The drag overrides, with the session latch, follow `Bridge.ForwardDrag`. |
| BridgeObject.ListenerBridge.OnPinchFamily | collage-gesture-detector/src/main/java/com/cardinalblue/gesture/ListenerBridge.kt:173-215 | The pinch overrides, with the session latch, follow `Bridge.ForwardPinch`. |
| BridgeObject.ListenerBridge.Dispatch | collage-gesture-detector/src/main/java/com/cardinalblue/gesture/ListenerBridge.kt:34-216 | Any callback the bridge receives follows `Bridge.Forward`. |
| Findings.SetLongPressEnabledAsWritten | collage-gesture-detector/src/main/java/com/cardinalblue/gesture/GestureDetector.kt:131-133 | As written, the setter flips the tap switch and leaves long press alone. |
| Findings.LongPressOffAsWrittenStillSchedules | collage-gesture-detector/src/main/java/com/cardinalblue/gesture/GestureDetector.kt:131-133 | After switching long press off as written, a press still schedules a long press, and taps are off. |
| Findings.LongPressOffCorrected | collage-gesture-detector/src/main/java/com/cardinalblue/gesture/GestureDetector.kt:131-133 | The corrected setter turns long press off, leaves taps alone, and the next press schedules no long press. |
| Findings.PinchExitAsWritten | collage-gesture-detector/src/main/java/com/cardinalblue/gesture/state/PinchState.kt:186-201 | As written, the end reports each array's two smallest ids (`keyAt(0)`, `keyAt(1)`); fewer than two keys is an index-out-of-range fault. |
| Findings.AsWrittenOnThree | collage-gesture-detector/src/main/java/com/cardinalblue/gesture/state/PinchState.kt:186-201 | With fingers 0, 1 and 2 held, the end as written reports fingers 0 and 1. |
| Findings.PinchEndAsWrittenSwapsFingers | collage-gesture-detector/src/main/java/com/cardinalblue/gesture/state/PinchState.kt:186-201 | With down order [1, 2, 0], the begin reported fingers 1 and 2, but the end as written reports 0 and 1. The corrected exit reports 1 and 2. |

## Left out

- The Handler's clock is not modelled. `sendMessageAtTime` and `sendMessageDelayed` store the due time with the message. `Detector.GestureDetector.HandleMessageAt` delivers whichever pending message the caller picks, so the order in which messages fall due is the caller's choice.
- VelocityTracker is not modelled. Each event carries the velocity the tracker would report for it, and only `computeCurrentVelocity`'s clamping is written out.
- Float arithmetic is exact real arithmetic. Rounding is not modelled; NaN appears only where a mean of no values is taken.
- The main-thread check in the Kotlin constructor (IllegalThreadStateException) is left out, because threads are outside the model.
- `recycle()` calls and the `MotionEvent.obtain` copies are left out. A held event is the event value itself.
- ViewConfiguration is a `Platform` parameter of the constructor. `TAP_TIMEOUT` and `LONG_PRESS_TIMEOUT` are read from it.
- Listeners are present or absent. The model records the callbacks a listener receives, and the code behind the listener interfaces is not part of the model.
- Detector.GestureDetector.Clone: in the legacy library, `obtainMyMotionEvent` and `obtainMessagePayload` (library/src/main/java/com/cardinalblue/gesture/state/BaseGestureState.java:51-65) call `new MyMotionEvent(action, null, null)`. MyMotionEvent.java:32-37 declares no such three-argument constructor, so that code does not compile as it stands. Had it been given null arrays, the six-argument constructor would throw IllegalArgumentException (MyMotionEvent.java:38-39). The model records no snapshot (`None`) on every Java callback and message payload that would carry one (DragState.java, PinchState.java, SingleFingerPressingState.java, IdleState.java) instead of a fault.
- The Java idle state calls `onActionBegin()` and `onActionEnd()` with no arguments. Their target and context are recorded as null.
- The Kotlin pressing state's `onExit` calls `owner.listener.onX` without `?.`. It is modelled like the other Kotlin calls, which reach only an attached listener.
- The Kotlin detector's `listener` property starts null. The constructor takes whether one is attached, and `SetListener` changes it.
- The state objects' fields are flattened into one record and one class. Aliasing between state objects is not modelled; each state object is owned by exactly one detector.
- Policy.GesturePolicy.constructor, Policy.AllPoolIsComplete: GesturePolicy.kt:49-60 fills the pools with `SingleFingerIdleState`, `MultipleFingersIdleState` and `SingleFingerIdleStateForDragOnly`. None of these classes is defined in the repository. The model reads them as the pressing states the detectors use (`SingleFingerPressingState`, `MultipleFingersPressingState` and `SingleFingerPressingStateForDragOnly`), which take the same constructor arguments and sit in the pools named after them.
- Detector.GestureDetector.PinchMove, Detector.GestureDetector.EmitPinch: the points handed to `onPinch` and `onPinchEnd` are the pinch state's own `PointF` objects (PinchState.kt:89-103, PinchState.java:98-104). The next ACTION_MOVE overwrites them in place with `set`. A listener that keeps the array, as the Rx wrapper's `OnPinchEvent` does, sees them change after the callback returns. The model records the callbacks' points as values at the time of the call; later updates in place to delivered points are not modelled. The same holds for every other callback that passes a state's points.
- Events.Trunc, Recognizer.SlopExceeded, Recognizer.IsConsideredCloseTap: the source computes the truncated deltas and their squares in 32-bit `Int`, and `Float.toInt()` saturates at the `Int` bounds (SingleFingerPressingState.kt:152-154 and 310-312). The model uses unbounded integers. The two differ only when a squared delta or their sum passes 2^31 - 1, that is, a displacement of more than 32767 px on both axes or 46340 px on one.
- PointerUtils' coordinate transform (`getTransformFromPointers`) is not part of this model.
- DragOnlyProperties.LostFocusThrows: `PointerUtils.getFocusIndexFromId`, which DragStateForDragOnly.kt calls at lines 70, 89 and 140, is not defined anywhere in the repository. The model assumes it returns the index of the pointer holding the id (`Events.IndexOfId`). For a missing id it assumes an index that `getX` rejects, recorded as an IndexOutOfRange fault. The fault in `Detector.GestureDetector.OnlyDragDoing` and `Detector.GestureDetector.OnlyDragExit`, and this lemma, rest on that assumption.
- The `DragOnlyOwner` variant is an owner that looks states up in `GesturePolicy`. No such owner exists in the repository; it is modelled from the policy's pools.
- The Rx wrapper module, the demo app and the IGestureListener interfaces are not part of this model.
- TwoDTransformUtils.java of the legacy library (matrix helpers no state uses) is not part of this model.
- Detector.GestureDetector.Emit: the legacy call on a null listener is recorded as a NullPointer fault and the owner is not driven afterwards; the stack unwinding through the caller is not modelled.

## Findings

| source | as written | input that shows it | evidently intended | confidence | as-written member | corrected member |
|---|---|---|---|---|---|---|
| collage-gesture-detector/src/main/java/com/cardinalblue/gesture/GestureDetector.kt:131-133 | `setIsLongPressEnabled(enabled)` assigns `isTapEnabled` | `setIsLongPressEnabled(false)`, then a one-finger ACTION_DOWN: a long press is still scheduled, and taps are now off | assign `isLongPressEnabled`, as library/src/main/java/com/cardinalblue/gesture/GestureDetector.java:167-169 does | high (not executed) | Findings.LongPressOffAsWrittenStillSchedules | Findings.LongPressOffCorrected |
| collage-gesture-detector/src/main/java/com/cardinalblue/gesture/state/PinchState.kt:186-201 | `onPinchEnd` takes each array's `keyAt(0)` and `keyAt(1)`, the two smallest pointer ids | fingers 1 and 2 pinch, then finger 0 goes down (down order [1, 2, 0]): the begin and every move reported fingers 1 and 2, the end reports fingers 0 and 1 | report the anchor pair, the first two ids of the down order, as the begin and the moves do | medium (not executed) | Findings.PinchEndAsWrittenSwapsFingers | PinchProperties.ExitReportsAnchors |

The same `keyAt` exit is in library/src/main/java/com/cardinalblue/gesture/state/PinchState.java:194-209. The
model's machine uses the corrected setter and the corrected exit; `Findings.SetLongPressEnabledAsWritten` and
`Findings.PinchExitAsWritten` are the definitions as written.
