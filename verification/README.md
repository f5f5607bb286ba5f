# On-screen analog sticks of the virtual controller

This project models the input engine behind the on-screen analog sticks of the
virtual gamepad, and proves properties of it in Dafny. The model has three layers.

- **The stick.** `VirtualAnalog` turns touch events, and rotation-sensor samples, into
  movements, clicks, double clicks and revokes. It notifies these to its listeners.
  - A touch-down anchors the stick and classifies the touch as a single or a double
    click, using a 350 ms window.
  - Every event handled while pressed clamps the offset to the stick's travel and
    reports it normalized to the unit square.
  - A lift revokes the click and reports a zero movement.
  - With the sensor enabled, each sample goes through a one-sided jerk filter and a
    dead-zone/smoothing response map. While the stick is not pressed, the sample
    then moves the stick as a "virtual" touch from the element's centre.
- **The listeners.** The left stick, the right stick and the stand-alone right analog
  stick each register one listener. A listener writes only its own stick's two axes,
  or sets or clears only its own click bit, in the controller's shared input record.
  Then it asks the controller to send the record.
- **The controller.** `VirtualController` owns that one record. A send cancels the
  pending resends, reports the record at once, and posts three resends 25, 50 and
  75 ms later. Each resend reports the record as it is when it runs.

## Modules

| File | Module | Contents |
|---|---|---|
| `numerics.dfy` | `Numerics` | Java's `short`/`byte` widths. The float-to-`short` narrowing `(short)(v * 0x7FFE)`, per section 5.1.3 of the Java Language Specification. |
| `buttons.dfy` | `Buttons` | The 16-bit button mask. The two click flags (`LS_CLK_FLAG = 0x40`, `RS_CLK_FLAG = 0x80`), set and clear. |
| `geometry.dfy` | `Geometry` | The stateless helpers: radius, angle, `getAbs`, `getVectorDirection`, `mapResponse`, and the polar offset of the drawn stick. |
| `sensor_filter.dfy` | `SensorFilter` | The jerk and outlier specification of the sensor filter. |
| `clicks.dfy` | `Clicks` | The single/double click classifier. |
| `controller.dfy` | `Controller` | The input record and its report. The classes `ControllerInputContext` and `VirtualController`, the latter with its pending-resend queue. |
| `listeners.dfy` | `Listeners` | The three listeners, both as a function on the record and as methods on the controller. |
| `analog.dfy` | `Analog` | The class `VirtualAnalog`, and the value-level description (`Stick`, `Calc`, `Touch`) its handlers are proved against. |
| `sticks.dfy` | `Sticks` | The constructors of the left and the right virtual stick. |

How external inputs are modelled:

- The uptime clock is a `now: int` parameter of the handlers.
- The process-wide gyro toggle is a `useGyro: bool` parameter of `calculateAnalogPosition`.
- The platform timer queue is the list of pending resend deadlines. `RunDelayedRetransmit` fires its head.
- The controller handler is the log of reports. Its presence is `hasHandler`.
- `Math.sqrt`, `Math.atan`, `Math.sin` and `Math.cos` are the fields of a `MathLib`. The model knows only the facts in `MathLib.Sound`:
  - `sqrt(0) = 0`, and `sqrt` is non-negative on non-negative inputs;
  - `atan` of a positive value lies in (0, pi/2);
  - `sin` and `cos` lie in [-1, 1].
- `MathLib.Pythagorean` is the identity sin² + cos² = 1. It is used only where it is required.

Notes on the program's behaviour:

- **Axis narrowing.** The listeners narrow an axis value by truncating toward zero, `(short)(v * 0x7FFE)`.
- **Sign of a rightward drag.** A drag 30 to the right of the anchor, with a travel of 40, reports X = +0.75. An offset along +x has angle 3pi/2, which makes `correlated_x` equal to -30, and the report is `-correlated_x / complete`. See `DragRightReportsPositiveX`.
- **The pass-on path changes state.** When `calculateAnalogPosition` passes an event on, it notifies nothing and returns false. But it has already overwritten the relative offset, the radius and the angle. On the sensor path it has also moved the anchor to the element's centre. `GyroPassesOnOutside` states exactly this.
- **An early first touch is a double click.** `timeLastClick` starts at 0 and the initial click state is single. So a first touch-down less than 350 ms after the clock's origin is classified as a double click.
- **Trigger type.** The trigger fields are Java `byte`s, signed 8-bit values.

## Model

All source paths below are under `app/src/main/java/com/limelight/binding/input/virtual_controller/`, written in full in each cell.

| member | source | states |
|---|---|---|
| Numerics.Trunc | app/src/main/java/com/limelight/binding/input/virtual_controller/LeftVirtualAnalog.java:23-24 | The first step of float-to-int narrowing rounds toward zero. The result lies within 1 of the value, on the value's side of zero. |
| Numerics.FloatToInt | app/src/main/java/com/limelight/binding/input/virtual_controller/LeftVirtualAnalog.java:23-24 | Float to `int` is the truncation when it fits, and otherwise saturates at `Integer.MIN_VALUE` / `MAX_VALUE`. |
| Numerics.IntToShort | app/src/main/java/com/limelight/binding/input/virtual_controller/LeftVirtualAnalog.java:23-24 | `int` to `short` keeps the value modulo 2^16. It is the identity on the `short` range. |
| Numerics.AxisValue | app/src/main/java/com/limelight/binding/input/virtual_controller/LeftVirtualAnalog.java:23-24 | For v in [-1, 1], `(short)(v * 0x7FFE)` is trunc(v·32766) and lies in [-32766, 32766]. |
| Numerics.AxisValueEndpoints | app/src/main/java/com/limelight/binding/input/virtual_controller/LeftVirtualAnalog.java:23-24 | 0 maps to 0, and ±1 maps to ±0x7FFE. ±0.99999 maps to ±32765: the value is truncated, not rounded. |
| Buttons.SetFlag | app/src/main/java/com/limelight/binding/input/virtual_controller/LeftVirtualAnalog.java:37 | OR-ing the flag into `inputMap` sets the flag's bits and keeps every other bit. |
| Buttons.ClearFlag | app/src/main/java/com/limelight/binding/input/virtual_controller/LeftVirtualAnalog.java:46 | `inputMap &= ~flag` clears the flag's bits and keeps every other bit. |
| Buttons.FlagUpdatesIdempotent | app/src/main/java/com/limelight/binding/input/virtual_controller/LeftVirtualAnalog.java:34-49 | Setting a flag twice is setting it once, and likewise for clearing. |
| Buttons.LsClickRoundTrip | app/src/main/java/com/limelight/binding/input/virtual_controller/LeftVirtualAnalog.java:34-49 | Setting and then clearing `LS_CLK_FLAG` restores the mask if and only if the flag was clear. |
| Buttons.RsClickRoundTrip | app/src/main/java/com/limelight/binding/input/virtual_controller/RightVirtualAnalog.java:40-55 | The same for `RS_CLK_FLAG`. |
| Buttons.ClickFlagsIndependent | app/src/main/java/com/limelight/binding/input/virtual_controller/RightVirtualAnalog.java:40-55 | The two flags are disjoint. Updating one leaves the other's bit as it was. |
| Buttons.SetsCommute | app/src/main/java/com/limelight/binding/input/virtual_controller/LeftVirtualAnalog.java:37 | Setting the left flag and setting the right flag commute. |
| Buttons.ClearLsSetRsCommute | app/src/main/java/com/limelight/binding/input/virtual_controller/LeftVirtualAnalog.java:46 | Clearing the left flag and setting the right flag commute. |
| Buttons.SetLsClearRsCommute | app/src/main/java/com/limelight/binding/input/virtual_controller/LeftVirtualAnalog.java:37 | Setting the left flag and clearing the right flag commute. |
| Buttons.ClearsCommute | app/src/main/java/com/limelight/binding/input/virtual_controller/LeftVirtualAnalog.java:46 | Clearing the left flag and clearing the right flag commute. |
| Geometry.MovementRadius | app/src/main/java/com/limelight/binding/input/virtual_controller/VirtualAnalog.java:171-173 | The distance of the offset from the anchor is never negative. |
| Geometry.Angle | app/src/main/java/com/limelight/binding/input/virtual_controller/VirtualAnalog.java:175-204 | The angle lies in [0, 2pi). Each open quadrant lands in its own quarter turn: (3pi/2, 2pi), (pi, 3pi/2), (pi/2, pi) or (0, pi/2). |
| Geometry.AngleOnAxes | app/src/main/java/com/limelight/binding/input/virtual_controller/VirtualAnalog.java:176-185 | On the axes the angle is exact: x = 0 gives pi if y < 0 and 0 otherwise; y = 0 gives 3pi/2 for x > 0 and pi/2 for x < 0. |
| Geometry.GetAbs | app/src/main/java/com/limelight/binding/input/virtual_controller/VirtualAnalog.java:600-606 | The result is non-negative and is the value or its negation. |
| Geometry.VectorDirection | app/src/main/java/com/limelight/binding/input/virtual_controller/VirtualAnalog.java:590-598 | The result is -1, 0 or 1. Direction times magnitude gives back the value. |
| Geometry.ResponseTargetRange | app/src/main/java/com/limelight/binding/input/virtual_controller/VirtualAnalog.java:568 | The rescaling maps the edge of the dead zone to the analog dead zone and full deflection to 1. On that range it stays within [analog dead zone, 1]. |
| Geometry.MapResponse | app/src/main/java/com/limelight/binding/input/virtual_controller/VirtualAnalog.java:562-574 | Inside the dead zone the result is exactly 0, with no smoothing. Past it, result − last = smooth·(target − last), and the result lies between last and the target, where the target is sign·rescaled magnitude. |
| Geometry.MovementWithinUnitRange | app/src/main/java/com/limelight/binding/input/virtual_controller/VirtualAnalog.java:337-359 | While the radius is within the travel, both reported components lie in [-1, 1]. |
| Geometry.MovementLength | app/src/main/java/com/limelight/binding/input/virtual_controller/VirtualAnalog.java:337-359 | Given sin² + cos² = 1, the reported pair has length radius/travel. So it is exactly 1 at full travel. |
| SensorFilter.Max | app/src/main/java/com/limelight/binding/input/virtual_controller/VirtualAnalog.java:516 | `Math.max` is an upper bound of both arguments and equals one of them. |
| SensorFilter.MaxJerkBounds | app/src/main/java/com/limelight/binding/input/virtual_controller/VirtualAnalog.java:510-521 | The running `jerk` never decreases, bounds every axis's jerk seen, and is either its old value or one of those jerks. |
| SensorFilter.FilteredDeltas | app/src/main/java/com/limelight/binding/input/virtual_controller/VirtualAnalog.java:523-527 | The rates used are the last rates for an outlier sample, and the sample's own rates otherwise. |
| SensorFilter.OneSidedTest | app/src/main/java/com/limelight/binding/input/virtual_controller/VirtualAnalog.java:515-518 | The test has no absolute value. With time moving forward, falling rates never make an outlier. Any axis rising by more than threshold·dt does. |
| Clicks.Classify | app/src/main/java/com/limelight/binding/input/virtual_controller/VirtualAnalog.java:387-394 | Double if and only if the previous state was Single and now − timeLastClick < 350. |
| Clicks.DoubleClickWindow | app/src/main/java/com/limelight/binding/input/virtual_controller/VirtualAnalog.java:387-394 | 349 ms after a single click gives Double, and 350 ms gives Single. After a double click, every touch is Single. |
| Clicks.ClassifyAll | app/src/main/java/com/limelight/binding/input/virtual_controller/VirtualAnalog.java:366-396 | Each touch-down of a run is classified against the previous outcome and time. |
| Clicks.NoTwoDoublesInARow | app/src/main/java/com/limelight/binding/input/virtual_controller/VirtualAnalog.java:387-396 | However fast the taps come, two consecutive classifications are never both Double. |
| Controller.ReportOf | app/src/main/java/com/limelight/binding/input/virtual_controller/VirtualController.java:285-293 | A report passes inputMap, leftStickX, leftStickY, rightStickX, rightStickY, leftTrigger, rightTrigger, each from the record's field of that name. |
| Controller.Schedule | app/src/main/java/com/limelight/binding/input/virtual_controller/VirtualController.java:307-309 | A send posts exactly three resends, at now+25, now+50 and now+75, in increasing order. |
| Controller.AfterSend | app/src/main/java/com/limelight/binding/input/virtual_controller/VirtualController.java:297-310 | After a send, the pending resends are exactly the new three. One report of the record is made with a handler, and none without. |
| Controller.SecondSendCancelsFirst | app/src/main/java/com/limelight/binding/input/virtual_controller/VirtualController.java:299 | After two sends only the second one's resends are pending, whatever the first one's deadlines were. |
| Controller.ControllerInputContext.constructor | app/src/main/java/com/limelight/binding/input/virtual_controller/VirtualController.java:39-47 | A fresh record has every field zero. |
| Controller.VirtualController.constructor | app/src/main/java/com/limelight/binding/input/virtual_controller/VirtualController.java:71 | The controller owns one fresh, all-zero record. Nothing is pending and nothing has been reported. |
| Controller.VirtualController.GetControllerInputContext | app/src/main/java/com/limelight/binding/input/virtual_controller/VirtualController.java:273-275 | Every call returns the one record the controller owns. |
| Controller.VirtualController.SendInternal | app/src/main/java/com/limelight/binding/input/virtual_controller/VirtualController.java:277-295 | Reports the record as it is now if there is a handler, and nothing otherwise. |
| Controller.VirtualController.Send | app/src/main/java/com/limelight/binding/input/virtual_controller/VirtualController.java:297-310 | The new state is `AfterSend` of the old one. The queue invariant (at most the last send's resends are pending) holds. |
| Controller.VirtualController.RunDelayedRetransmit | app/src/main/java/com/limelight/binding/input/virtual_controller/VirtualController.java:61-66 | A resend fires if and only if its deadline has passed. It then reports the record as it is at firing time, and the queue invariant is kept. |
| Controller.SendOnceThenIdle | app/src/main/java/com/limelight/binding/input/virtual_controller/VirtualController.java:297-310 | One send followed by no other sends makes exactly four reports, after which nothing is pending. |
| Listeners.Apply | app/src/main/java/com/limelight/binding/input/virtual_controller/LeftVirtualAnalog.java:18-50 | A callback changes only its own stick's axes, or only its own click bit. The triggers never change, and `onClick` changes nothing. |
| Listeners.MovementStoresTruncatedAxes | app/src/main/java/com/limelight/binding/input/virtual_controller/RightVirtualAnalog.java:26-33 | For x and y in [-1, 1], `onMovement` stores trunc(v·32766), which lies in [-32766, 32766]. |
| Listeners.DoubleClickSetsOwnBit | app/src/main/java/com/limelight/binding/input/virtual_controller/RightAnalogStick.java:37-43 | `onDoubleClick` sets the listener's click bit. |
| Listeners.RevokeClearsOwnBit | app/src/main/java/com/limelight/binding/input/virtual_controller/RightAnalogStick.java:46-52 | `onRevoke` clears the listener's click bit. |
| Listeners.DoubleClickKeepsOtherBits | app/src/main/java/com/limelight/binding/input/virtual_controller/LeftVirtualAnalog.java:34-40 | `onDoubleClick` leaves every other bit unchanged. |
| Listeners.RevokeKeepsOtherBits | app/src/main/java/com/limelight/binding/input/virtual_controller/LeftVirtualAnalog.java:43-49 | `onRevoke` leaves every other bit unchanged. |
| Listeners.OtherClickBitKept | app/src/main/java/com/limelight/binding/input/virtual_controller/RightVirtualAnalog.java:40-55 | No callback of one stick touches the other stick's click bit. |
| Listeners.CallbacksIdempotent | app/src/main/java/com/limelight/binding/input/virtual_controller/LeftVirtualAnalog.java:20-49 | Every callback is idempotent on the record. |
| Listeners.DoubleClickThenRevoke | app/src/main/java/com/limelight/binding/input/virtual_controller/LeftVirtualAnalog.java:34-49 | A double click followed by a revoke restores the record if and only if the listener's bit was clear. |
| Listeners.RightListenersAgree | app/src/main/java/com/limelight/binding/input/virtual_controller/RightAnalogStick.java:21-53 | The `RightAnalogStick` listener acts on the record exactly as the `RightVirtualAnalog` one does. |
| Listeners.LeftAndRightCommute | app/src/main/java/com/limelight/binding/input/virtual_controller/RightVirtualAnalog.java:26-55 | A left-stick callback and a right-stick callback give the same record in either order. |
| Listeners.ClickBitsCommute | app/src/main/java/com/limelight/binding/input/virtual_controller/RightVirtualAnalog.java:40-55 | The click-bit part of that commutation. |
| Listeners.Deliver | app/src/main/java/com/limelight/binding/input/virtual_controller/LeftVirtualAnalog.java:20-49 | One callback updates the record and, except for `onClick`, sends once: the record is reported and the new resends replace the old. `onClick` leaves the controller unchanged. |
| Listeners.NotifyReports | app/src/main/java/com/limelight/binding/input/virtual_controller/VirtualAnalog.java:236-266 | Notifying n listeners makes n reports, and none for a click. After a non-click event, the pending resends are the last send's. |
| Listeners.NotifyAllAppend | app/src/main/java/com/limelight/binding/input/virtual_controller/VirtualAnalog.java:236-266 | Notifying a run of events in two parts is notifying the whole run. |
| Listeners.ReleaseResetsStick | app/src/main/java/com/limelight/binding/input/virtual_controller/VirtualAnalog.java:445-454 | With one listener, a release leaves that stick's click bit clear and its axes zero, keeps every other bit, and makes two sends. |
| Listeners.OnMovement | app/src/main/java/com/limelight/binding/input/virtual_controller/LeftVirtualAnalog.java:20-27 | Writing the two axes in place and sending yields `Deliver` of a movement on the controller's state. |
| Listeners.OnClick | app/src/main/java/com/limelight/binding/input/virtual_controller/RightVirtualAnalog.java:36-37 | `onClick` leaves the controller's state unchanged, including its queue and reports. |
| Listeners.OnDoubleClick | app/src/main/java/com/limelight/binding/input/virtual_controller/LeftVirtualAnalog.java:34-40 | OR-ing the flag into `inputMap` in place, then a send, yields `Deliver` of a double click. |
| Listeners.OnRevoke | app/src/main/java/com/limelight/binding/input/virtual_controller/LeftVirtualAnalog.java:43-49 | `inputMap &= ~flag` in place, then a send, yields `Deliver` of a revoke. |
| Listeners.Dispatch | app/src/main/java/com/limelight/binding/input/virtual_controller/VirtualAnalog.java:236-266 | Calling the listener's callback for an event yields `Deliver` of that event. The controller's resend queue stays `Valid`, so a later `RunDelayedRetransmit` can run. |
| Analog.VirtualAnalog.SensorResponseShape | app/src/main/java/com/limelight/binding/input/virtual_controller/VirtualAnalog.java:552-574 | Inside the dead zone (divided by the sensitivity) the scaled rate snaps the offset to 0. Past it, the offset moves a tenth of the way towards a target whose magnitude is at least 0.1, and at most 1 while the scaled rate is at most 1. |
| Analog.VirtualAnalog.OffsetWithinUnitRange | app/src/main/java/com/limelight/binding/input/virtual_controller/VirtualAnalog.java:359 | While the radius is within the travel, the reported movement lies in the unit square. |
| Analog.VirtualAnalog.PressedStickMoves | app/src/main/java/com/limelight/binding/input/virtual_controller/VirtualAnalog.java:417-444 | While pressed, every event sets the radius to min(radius, travel) and makes the stick active. Exactly one movement in the unit square is reported. |
| Analog.VirtualAnalog.GyroPassesOnOutside | app/src/main/java/com/limelight/binding/input/virtual_controller/VirtualAnalog.java:418-441 | Unpressed in gyro mode, the event is passed on (false, no notification) if and only if the radius exceeds `radius_complete`. Otherwise the stick moves as if pressed. |
| Analog.VirtualAnalog.SensorMovesFromCentre | app/src/main/java/com/limelight/binding/input/virtual_controller/VirtualAnalog.java:423-427 | Without an event, the anchor becomes the element's centre and the offset is the negated sensor offset. |
| Analog.VirtualAnalog.ReleaseRevokesAndRecentres | app/src/main/java/com/limelight/binding/input/virtual_controller/VirtualAnalog.java:445-459 | Neither pressed nor in gyro mode, the stick reports a revoke then a zero movement, returns true, and resets state, anchor and radius. Nothing else changes. |
| Analog.VirtualAnalog.TouchDownAtAnchor | app/src/main/java/com/limelight/binding/input/virtual_controller/VirtualAnalog.java:381-412 | A touch-down reports a double click exactly when the classifier says so, and a click otherwise, followed by a zero movement. It presses the stick, zeroes the sensor offset, records the time and anchors at the touch point. |
| Analog.VirtualAnalog.DragRightReportsPositiveX | app/src/main/java/com/limelight/binding/input/virtual_controller/VirtualAnalog.java:335-361 | A drag 30 to the right of the anchor with travel 40 reports (+0.75, 0). |
| Analog.VirtualAnalog.LiftReleases | app/src/main/java/com/limelight/binding/input/virtual_controller/VirtualAnalog.java:405-454 | A lift outside gyro mode unpresses and releases the stick. |
| Analog.VirtualAnalog.HandledEndsWithMovement | app/src/main/java/com/limelight/binding/input/virtual_controller/VirtualAnalog.java:412-459 | A handled event always ends with a movement report. Only an unpressed stick in gyro mode passes one on, and then it reports nothing. |
| Analog.VirtualAnalog.constructor | app/src/main/java/com/limelight/binding/input/virtual_controller/VirtualAnalog.java:112-230 | A new stick is released, with no movement, Single, the sensor off at sensitivities 0.1, zeroed buffers, and the drawn stick at the element's centre. |
| Analog.VirtualAnalog.AddVirtualAnalogListener | app/src/main/java/com/limelight/binding/input/virtual_controller/VirtualAnalog.java:232-234 | The listener is appended, so listeners are notified in registration order. |
| Analog.VirtualAnalog.SetUseSensor | app/src/main/java/com/limelight/binding/input/virtual_controller/VirtualAnalog.java:613-615 | Sets the sensor switch. |
| Analog.VirtualAnalog.SetSensorSensitivityX | app/src/main/java/com/limelight/binding/input/virtual_controller/VirtualAnalog.java:660-662 | Sets the X sensitivity. |
| Analog.VirtualAnalog.SetSensorSensitivityY | app/src/main/java/com/limelight/binding/input/virtual_controller/VirtualAnalog.java:656-658 | Sets the Y sensitivity. |
| Analog.VirtualAnalog.NotifyListeners | app/src/main/java/com/limelight/binding/input/virtual_controller/VirtualAnalog.java:236-266 | Each listener, in registration order, handles the event. The controller ends in `Notify` of the old state. The controller's resend queue stays `Valid`, so a later `RunDelayedRetransmit` can run. |
| Analog.VirtualAnalog.UpdatePosition | app/src/main/java/com/limelight/binding/input/virtual_controller/VirtualAnalog.java:335-361 | The drawn stick is placed at anchor − polar offset and becomes active. The reported movement is the offset over the travel, X negated. The controller's resend queue stays `Valid`, so a later `RunDelayedRetransmit` can run. |
| Analog.VirtualAnalog.PlaceStick | app/src/main/java/com/limelight/binding/input/virtual_controller/VirtualAnalog.java:343-355 | The drawn stick is placed at the anchor minus the given offset, and the state becomes active. No other variable of the stick changes. |
| Analog.VirtualAnalog.LocateOffset | app/src/main/java/com/limelight/binding/input/virtual_controller/VirtualAnalog.java:420-428 | The offset is the event point minus the anchor, or without an event the negated sensor offset, with the anchor moved to the centre. |
| Analog.VirtualAnalog.Locate | app/src/main/java/com/limelight/binding/input/virtual_controller/VirtualAnalog.java:419-432 | The offset, its radius and its angle become `Located` of the old stick. |
| Analog.VirtualAnalog.Release | app/src/main/java/com/limelight/binding/input/virtual_controller/VirtualAnalog.java:445-454 | Revoke, then a zero movement, are notified. State, anchor and radius are reset. The controller's resend queue stays `Valid`, so a later `RunDelayedRetransmit` can run. |
| Analog.VirtualAnalog.ResetAnchor | app/src/main/java/com/limelight/binding/input/virtual_controller/VirtualAnalog.java:451-453 | The anchor returns to the origin and the radius to zero. No other variable of the stick changes. |
| Analog.VirtualAnalog.CalculateAnalogPosition | app/src/main/java/com/limelight/binding/input/virtual_controller/VirtualAnalog.java:417-460 | The new stick, the return value and the notifications are those of `Calc`, whose properties are the lemmas above. The controller's resend queue stays `Valid`, so a later `RunDelayedRetransmit` can run. |
| Analog.VirtualAnalog.CheckDoubleClick | app/src/main/java/com/limelight/binding/input/virtual_controller/VirtualAnalog.java:386-394 | The click state becomes the classification, and exactly the matching callback is notified. The controller's resend queue stays `Valid`, so a later `RunDelayedRetransmit` can run. |
| Analog.VirtualAnalog.EnterDeadZone | app/src/main/java/com/limelight/binding/input/virtual_controller/VirtualAnalog.java:382-385 | A touch-down first enters the dead zone and zeroes the sensor offset. |
| Analog.VirtualAnalog.TouchDown | app/src/main/java/com/limelight/binding/input/virtual_controller/VirtualAnalog.java:380-402 | The stick becomes `TouchedDown` of the old one: classified, timestamped, pressed, anchored at the touch point. The click or double click is notified. The controller's resend queue stays `Valid`, so a later `RunDelayedRetransmit` can run. |
| Analog.VirtualAnalog.Anchor | app/src/main/java/com/limelight/binding/input/virtual_controller/VirtualAnalog.java:395-401 | The click time becomes the touch time, the stick is pressed, and the touch point becomes the anchor. No other variable of the stick changes. |
| Analog.VirtualAnalog.SwitchOnAction | app/src/main/java/com/limelight/binding/input/virtual_controller/VirtualAnalog.java:377-410 | A down action is `TouchDown`, with its notification. An up action only unpresses the stick. Any other action changes nothing and notifies nothing. The controller's resend queue stays `Valid`, so a later `RunDelayedRetransmit` can run. |
| Analog.VirtualAnalog.OnElementTouchEvent | app/src/main/java/com/limelight/binding/input/virtual_controller/VirtualAnalog.java:364-415 | The new stick, the return value and the notifications, in order, are those of `Touch`. The controller's resend queue stays `Valid`, so a later `RunDelayedRetransmit` can run. |
| Analog.VirtualAnalog.MapResponseX | app/src/main/java/com/limelight/binding/input/virtual_controller/VirtualAnalog.java:552-555 | Returns and stores as the last X offset the response map, with the dead zone divided by the X sensitivity, smoothed from the old last value. |
| Analog.VirtualAnalog.MapResponseY | app/src/main/java/com/limelight/binding/input/virtual_controller/VirtualAnalog.java:557-560 | The same for Y. |
| Analog.VirtualAnalog.FilterSample | app/src/main/java/com/limelight/binding/input/virtual_controller/VirtualAnalog.java:502-529 | The rates used are `FilteredDeltas` and `jerk` is the running maximum. The timestamp advances exactly when the sample is not an outlier. |
| Analog.VirtualAnalog.UpdateSensorOffsets | app/src/main/java/com/limelight/binding/input/virtual_controller/VirtualAnalog.java:532-535 | Both sensor offsets become the response to the scaled rates used. No other variable of the stick changes. |
| Analog.VirtualAnalog.RememberSample | app/src/main/java/com/limelight/binding/input/virtual_controller/VirtualAnalog.java:539-542 | The last sample and the last rates become the current ones. |
| Analog.VirtualAnalog.SampleSensor | app/src/main/java/com/limelight/binding/input/virtual_controller/VirtualAnalog.java:502-542 | After a sample, the last rates are the rates used and the timestamp is frozen on an outlier. `jerk` never decreases and the offsets are the response. Only the sensor offset of the stick changes. |
| Analog.VirtualAnalog.SampleAndMove | app/src/main/java/com/limelight/binding/input/virtual_controller/VirtualAnalog.java:502-548 | With the sensor on, the sample is taken as `Sampled` states. An unpressed stick then moves as `Calc` without an event, in gyro mode; a pressed one stays as the sample left it. The controller's resend queue stays `Valid`, so a later `RunDelayedRetransmit` can run. |
| Analog.VirtualAnalog.OnRotationSensorChanged | app/src/main/java/com/limelight/binding/input/virtual_controller/VirtualAnalog.java:481-550 | Nothing changes with the sensor off. With it on, the sample is taken, and an unpressed stick then moves as `Calc` without an event, in gyro mode. The controller's resend queue stays `Valid`, so a later `RunDelayedRetransmit` can run. |
| Sticks.NewLeftVirtualAnalog | app/src/main/java/com/limelight/binding/input/virtual_controller/LeftVirtualAnalog.java:15-51 | The left stick has exactly the left listener and the sensor off. |
| Sticks.NewRightVirtualAnalog | app/src/main/java/com/limelight/binding/input/virtual_controller/RightVirtualAnalog.java:18-57 | The right stick has the sensor on at sensitivities 2 and 2.5 and exactly the right listener. |
| Sticks.TouchThenResend | app/src/main/java/com/limelight/binding/input/virtual_controller/VirtualController.java:61-66 | A touch on a stick followed by the timer queue: the stick and the notifications are those of `Touch`. A resend fires exactly when the earliest deadline the touch left has passed, and reports the record as the touch left it. The queue invariant is kept. |

## Left out

- Drawing and layout are not modelled:
  - `onElementDraw` and all Paint/Canvas code are rendering only.
  - The element's size is fixed at construction (`width`, `height`, the three radii). `onSizeChanged` depends on layout helpers that are not part of this model.
- Sensor registration in the stick's constructor is not modelled. The sensor manager is not part of this model; samples arrive as calls of `OnRotationSensorChanged`.
- The rest of `VirtualController` is not modelled: its buttons, menus, modes, element list, visibility and profile saving are UI and persistence.
- The `properties` files are not part of this model.
- The `AnalogStick` parent of `RightAnalogStick` is not part of this model. Only its listener is modelled.
- The platform `Handler` is an abstract list of deadlines. Real-time delivery, and resends racing with other events, are not modelled.
- Dead code is not modelled: the unreferenced `clamp`, the unused `timeoutDeadzone`, the rotation-matrix arrays, `sensor_calibrate_*`, the commented-out code, and the `_DBG` logging.
- The index and inversion of the sensor axes are constants (0/1, not inverted/inverted). Their setters are never called within the modelled code.
- IEEE `float`/`double` arithmetic is not modelled: rounding, the `(float)` casts in `updatePosition`, and float timestamps are all reals. `sqrt`/`atan`/`sin`/`cos` are uninterpreted beyond `MathLib.Sound`.
- `SystemClock.uptimeMillis()` is read twice in a touch-down. The model uses one `now` for both reads.
- The global gyro toggle is modelled as `useGyro`. In `OnRotationSensorChanged` it is true around its call only, as the source sets and resets it. The source's `Game.setUseGyro(false)` (VirtualAnalog.java:548) also clears a toggle that was already true before the call; because `useGyro` is a parameter and not shared state, the model does not capture that overwrite.
- Subclassing is not modelled. The two stick constructors are the factory methods `Sticks.NewLeftVirtualAnalog` and `Sticks.NewRightVirtualAnalog`.
- Analog.VirtualAnalog.constructor: requires `0 <= radiusAnalogStick < radiusComplete`. In the source both radii are 0 until the first `onSizeChanged` sets them from the element's size, and a touch that arrives before that first layout is not modelled. `Sticks.NewLeftVirtualAnalog` and `Sticks.NewRightVirtualAnalog` pass the same requirement on.
- FilterSample: requires `timestamp - lastTimestamp != 0`. The source divides by that time step without a guard, and the IEEE infinity or NaN of a zero step is not modelled.
- SampleSensor: the same nonzero time step, plus sensitivities that are nonzero and different from the dead zone (`SensitivitiesUsable`). The source divides by both.
- OnRotationSensorChanged: the same two requirements, needed only when the sensor is on.
- MapResponseX: requires a usable X sensitivity, for the same division.
- MapResponseY: requires a usable Y sensitivity, for the same division.
- MovementLength: holds only for a `MathLib` satisfying the Pythagorean identity. The other geometric results do not assume it.
- DragRightReportsPositiveX: assumes `sqrt(900) = 30`, `cos(-pi) = -1` and `sin(-pi) = 0` of the `MathLib`.
