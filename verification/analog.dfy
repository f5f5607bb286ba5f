/** `VirtualAnalog`: the on-screen analog stick. A touch-down anchors the stick at
    the touch point and classifies the touch as a single or double click; every
    touch event handled while pressed moves the stick within its travel and
    notifies the listeners of the normalized offset; the release revokes the click
    and re-centres the stick. With the rotation sensor enabled, each sensor sample
    is filtered, mapped through the dead-zone/smoothing response, and, while the
    stick is not pressed, moves the stick as a "virtual" touch from the element's
    centre. Layout sizes are fixed at construction, the uptime clock is the `now`
    parameter, and the process-wide gyro toggle is the `useGyro` parameter.

    The class keeps the fields of the Java class and updates them step by step as
    its methods do; the functions `Located`, `Calc`, `TouchedDown` and `Touch`
    describe the same steps on a `Stick` value, and the lemmas after them state
    what the handlers promise. */
module Analog {
  import opened Geometry
  import opened SensorFilter
  import opened Clicks
  import opened Controller
  import opened Listeners

  /** `STICK_STATE`. */
  datatype StickState = NoMovement | MovedInDeadZone | MovedActive | MovedBySensor

  /** The masked action of a `MotionEvent`; `Other` stands for every action the
      stick does not single out (a move, a cancel, ...). */
  datatype Action = Down | PointerDown | Up | PointerUp | Other

  /** A point, or an offset, in the element's coordinates. */
  datatype Point = Point(x: real, y: real)

  datatype Option<T> = None | Some(value: T)

  /** The variables of the stick the touch and sensor paths read and write. */
  datatype Stick = Stick(
    pressed: bool,
    stickState: StickState,
    clickState: ClickState,
    timeLastClick: int,
    relative: Point,
    movementRadius: real,
    movementAngle: real,
    positionStick: Point,
    center: Point,
    sensorOffset: Point)

  /** What a handler did: the stick afterwards, the notifications it made in order,
      and its return value. */
  datatype Outcome = Outcome(stick: Stick, events: seq<Event>, handled: bool)

  /** What the rotation-sensor filter keeps from one sample to the next: the last
      sample's angles, the last rates used, the last timestamp, the largest jerk so
      far, and the last X and Y sensor offsets. */
  datatype SensorVars = SensorVars(orientations: seq<real>, deltas: seq<real>, timestamp: real, jerk: real,
                                   xLast: real, yLast: real)

  class VirtualAnalog {
    /** The controller all of this stick's listeners act on. */
    const ctrl: VirtualController
    const math: MathLib

    /** `getWidth()` and `getHeight()` of the element. */
    const width: nat
    const height: nat
    /** `radius_complete`, `radius_analog_stick` and `radius_dead_zone`. */
    const radiusComplete: real
    const radiusAnalogStick: real
    const radiusDeadZone: real

    var listeners: seq<Listener>
    /** `isPressed()` of the element. */
    var pressed: bool
    var stickState: StickState
    var clickState: ClickState
    var timeLastClick: int

    var relativeX: real
    var relativeY: real
    var movementRadius: real
    var movementAngle: real
    var positionStickX: real
    var positionStickY: real
    var centerX: real
    var centerY: real

    var sensorOffsetX: real
    var sensorOffsetY: real
    var useSensor: bool
    var sensorSensitivityX: real
    var sensorSensitivityY: real
    const sensorXIndex: nat := 0
    const sensorYIndex: nat := 1
    const sensorXInvert: bool := false
    const sensorYInvert: bool := true
    const sensorDeadZone: real := 0.17
    const analogDeadZone: real := 0.1
    var sensorOffsetXLast: real
    var sensorOffsetYLast: real
    const smoothFactor: real := 0.1

    const orientations: array<real>
    const orientationsDelta: array<real>
    const lastOrientationsDelta: array<real>
    const lastOrientations: array<real>
    var lastTimestamp: real
    var timeDelta: real
    var jerk: real

    /** The facts about the constants of the stick the geometry relies on. */
    ghost predicate Consistent()
    {
      math.Sound() && 0.0 <= radiusAnalogStick < radiusComplete
    }

    /** The four sensor buffers hold three axes each and are distinct arrays. */
    ghost predicate Buffers()
    {
      && orientations.Length == orientationsDelta.Length == 3
      && lastOrientationsDelta.Length == lastOrientations.Length == 3
      && orientations != orientationsDelta && orientations != lastOrientationsDelta
      && orientations != lastOrientations && orientationsDelta != lastOrientationsDelta
      && orientationsDelta != lastOrientations && lastOrientationsDelta != lastOrientations
    }

    /** `complete`: the travel of the stick's centre, the "100% way". */
    function Travel(): real
    {
      radiusComplete - radiusAnalogStick
    }

    /** The stick's variables as a value. */
    ghost function Snapshot(): Stick
      reads this
    {
      Stick(pressed, stickState, clickState, timeLastClick, Point(relativeX, relativeY),
            movementRadius, movementAngle, Point(positionStickX, positionStickY),
            Point(centerX, centerY), Point(sensorOffsetX, sensorOffsetY))
    }

    /** The first step of `calculateAnalogPosition` while pressed or in gyro mode:
        the offset of the event point from the anchor, or without an event the
        negated sensor offset from the element's centre (which becomes the anchor),
        and the offset's radius and angle. */
    function Located(s: Stick, p: Option<Point>): Stick
      requires Consistent()
    {
      var center := if p.Some? then s.center else Point((width / 2) as real, (height / 2) as real);
      var rel := if p.Some? then Point(-(s.center.x - p.value.x), -(s.center.y - p.value.y))
                 else Point(-s.sensorOffset.x, -s.sensorOffset.y);
      s.(center := center, relative := rel,
         movementRadius := MovementRadius(math, rel.x, rel.y), movementAngle := Angle(math, rel.x, rel.y))
    }

    /** The radius chopped to the travel. */
    function Chopped(s: Stick): Stick
    {
      if s.movementRadius > radiusComplete - radiusAnalogStick then s.(movementRadius := radiusComplete - radiusAnalogStick) else s
    }

    /** `updatePosition` on the variables: the drawn stick at the anchor minus the
        polar offset, and the state active. */
    function Positioned(s: Stick): Stick
    {
      s.(positionStick := Point(s.center.x - StickOffsetX(math, s.movementAngle, s.movementRadius),
                                s.center.y - StickOffsetY(math, s.movementAngle, s.movementRadius)),
         stickState := MovedActive)
    }

    /** The movement `updatePosition` reports: the polar offset as a fraction of the
        travel, X negated. */
    function Offset(s: Stick): Event
      requires Consistent()
    {
      Movement(-StickOffsetX(math, s.movementAngle, s.movementRadius) / Travel(),
               StickOffsetY(math, s.movementAngle, s.movementRadius) / Travel())
    }

    /** The release branch of `calculateAnalogPosition` on the variables. */
    function Released(s: Stick): Stick
    {
      s.(stickState := NoMovement, center := Point(0.0, 0.0), movementRadius := 0.0)
    }

    /** `calculateAnalogPosition` on the variables, given the event point (none on the
        sensor path) and the gyro toggle. */
    function Calc(s: Stick, p: Option<Point>, useGyro: bool): Outcome
      requires Consistent()
    {
      if s.pressed || useGyro then
        var l := Located(s, p);
        if l.movementRadius > radiusComplete && !s.pressed then
          Outcome(l, [], false)
        else
          var u := Positioned(Chopped(l));
          Outcome(u, [Offset(u)], true)
      else
        Outcome(Released(s), [Revoke, Movement(0.0, 0.0)], true)
    }

    /** The touch-down branch of `onElementTouchEvent` on the variables. */
    function TouchedDown(s: Stick, p: Point, now: int): Stick
    {
      s.(stickState := MovedInDeadZone, sensorOffset := Point(0.0, 0.0),
         clickState := Classify(s.clickState, s.timeLastClick, now), timeLastClick := now,
         pressed := true, center := p)
    }

    /** `onElementTouchEvent` on the variables. */
    function Touch(s: Stick, action: Action, p: Point, now: int, useGyro: bool): Outcome
      requires Consistent()
    {
      if action.Down? || action.PointerDown? then
        var d := TouchedDown(s, p, now);
        var o := Calc(d, Some(p), useGyro);
        o.(events := [ClickEvent(d.clickState)] + o.events)
      else if action.Up? || action.PointerUp? then
        Calc(s.(pressed := false), Some(p), useGyro)
      else
        Calc(s, Some(p), useGyro)
    }

    /** The rate the sensor path feeds into the response map for one axis: the axis's
        rate times the sensitivity, negated if inverted, times the travel. */
    function SensorInput(rate: real, sensitivity: real, invert: bool): real
    {
      rate * sensitivity * (if invert then -1.0 else 1.0) * Travel()
    }

    /** The offset the sensor path derives from one axis's rate and the last offset
        of that axis: the response map of the scaled rate, with the dead zone divided
        by the sensitivity and smoothing from the last offset. */
    function SensorResponse(rate: real, last: real, sensitivity: real, invert: bool): real
      requires sensitivity != 0.0 && sensorDeadZone / sensitivity != 1.0
    {
      MapResponse(SensorInput(rate, sensitivity, invert), last, sensorDeadZone / sensitivity, analogDeadZone, smoothFactor)
    }

    /** A scaled rate inside the scaled dead zone snaps the offset to zero. Past it,
        the offset moves a tenth of the way from the last offset towards a target
        with the rate's sign (after inversion) whose magnitude is at least the
        analog dead zone, and at most 1 while the scaled rate is. */
    lemma SensorResponseShape(rate: real, last: real, sensitivity: real, invert: bool)
      requires 0.0 < sensitivity && sensorDeadZone / sensitivity < 1.0
      ensures var v := SensorInput(rate, sensitivity, invert);
              var dz := sensorDeadZone / sensitivity;
              var r := SensorResponse(rate, last, sensitivity, invert);
              && (GetAbs(v) < dz ==> r == 0.0)
              && (dz <= GetAbs(v) ==>
                    var t := ResponseTarget(GetAbs(v), dz, analogDeadZone);
                    && r == last + 0.1 * (t * VectorDirection(v) - last)
                    && analogDeadZone <= t
                    && (GetAbs(v) <= 1.0 ==> t <= 1.0))
    {
      var v := SensorInput(rate, sensitivity, invert);
      ResponseTargetRange(GetAbs(v), sensorDeadZone / sensitivity, analogDeadZone);
    }

    /** The reported movement always lies in the unit square once the radius is
        within the travel. */
    lemma OffsetWithinUnitRange(s: Stick)
      requires Consistent() && 0.0 <= s.movementRadius <= Travel()
      ensures -1.0 <= Offset(s).x <= 1.0 && -1.0 <= Offset(s).y <= 1.0
    {
      MovementWithinUnitRange(math, s.movementAngle, s.movementRadius, Travel());
    }

    /** While pressed, every event moves the stick: the radius of the offset from the
        anchor is clamped to the travel, the stick becomes active, and exactly one
        movement is notified, in the unit square. */
    lemma PressedStickMoves(s: Stick, p: Option<Point>, useGyro: bool)
      requires Consistent() && s.pressed
      ensures var o := Calc(s, p, useGyro); var l := Located(s, p);
              && o.handled && o.stick.stickState == MovedActive
              && o.stick.relative == l.relative && o.stick.center == l.center
              && o.stick.movementAngle == l.movementAngle
              && o.stick.movementRadius == Min(l.movementRadius, Travel())
              && o.events == [Offset(o.stick)]
              && -1.0 <= o.events[0].x <= 1.0 && -1.0 <= o.events[0].y <= 1.0
    {
      var u := Calc(s, p, useGyro).stick;
      OffsetWithinUnitRange(u);
    }

    /** Not pressed but in gyro mode, an offset beyond the outer circle is passed on
        unhandled, with the offset recorded but no notification and the stick left
        where it was; an offset within it moves the stick as a press would. */
    lemma GyroPassesOnOutside(s: Stick, p: Option<Point>)
      requires Consistent() && !s.pressed
      ensures var o := Calc(s, p, true); var l := Located(s, p);
              && (!o.handled <==> l.movementRadius > radiusComplete)
              && (!o.handled ==> o.stick == l && o.events == [])
              && (o.handled ==> o.stick.stickState == MovedActive && o.events == [Offset(o.stick)]
                                && o.stick.movementRadius == Min(l.movementRadius, Travel())
                                && -1.0 <= o.events[0].x <= 1.0 && -1.0 <= o.events[0].y <= 1.0)
    {
      var o := Calc(s, p, true);
      if o.handled {
        OffsetWithinUnitRange(o.stick);
      }
    }

    /** Without an event point (the sensor path) the anchor moves to the element's
        centre and the offset is the negated sensor offset. */
    lemma SensorMovesFromCentre(s: Stick)
      requires Consistent()
      ensures var l := Located(s, None);
              && l.center == Point((width / 2) as real, (height / 2) as real)
              && l.relative == Point(-s.sensorOffset.x, -s.sensorOffset.y)
              && l.movementRadius == MovementRadius(math, -s.sensorOffset.x, -s.sensorOffset.y)
    {
    }

    /** Neither pressed nor in gyro mode, the stick is released: a revoke, then a zero
        movement, the state back to no movement, anchor and radius zeroed, and
        nothing else of the stick changed. */
    lemma ReleaseRevokesAndRecentres(s: Stick, p: Option<Point>)
      requires Consistent() && !s.pressed
      ensures var o := Calc(s, p, false);
              && o.handled && o.events == [Revoke, Movement(0.0, 0.0)]
              && o.stick.stickState == NoMovement && o.stick.center == Point(0.0, 0.0)
              && o.stick.movementRadius == 0.0
              && o.stick.relative == s.relative && o.stick.movementAngle == s.movementAngle
              && o.stick.positionStick == s.positionStick && o.stick.sensorOffset == s.sensorOffset
              && o.stick.pressed == s.pressed && o.stick.clickState == s.clickState
              && o.stick.timeLastClick == s.timeLastClick
    {
    }

    /** A touch-down notifies a double click exactly when the previous touch-down was
        a single click less than the timeout earlier, and a click otherwise; it then
        anchors the stick at the touch point, so the movement reported right after
        is zero and the drawn stick sits on the anchor. */
    lemma TouchDownAtAnchor(s: Stick, action: Action, p: Point, now: int, useGyro: bool)
      requires Consistent() && (action.Down? || action.PointerDown?)
      ensures var o := Touch(s, action, p, now, useGyro);
              var c := Classify(s.clickState, s.timeLastClick, now);
              && (c == Double <==> s.clickState == Single && now - s.timeLastClick < TimeoutDoubleClick)
              && o.handled && o.stick.pressed
              && o.stick.clickState == c && o.stick.timeLastClick == now
              && o.stick.sensorOffset == Point(0.0, 0.0)
              && o.stick.center == p && o.stick.relative == Point(0.0, 0.0)
              && o.stick.movementRadius == 0.0 && o.stick.movementAngle == 0.0
              && o.stick.positionStick == p && o.stick.stickState == MovedActive
              && o.events == [if c == Double then DoubleClick else Click, Movement(0.0, 0.0)]
    {
      var d := TouchedDown(s, p, now);
      AngleOnAxes(math, 0.0, 0.0);
      assert Located(d, Some(p)).relative == Point(0.0, 0.0);
    }

    /** The sign of the reported X: with the anchor at (100, 100) and a travel of
        40, a pressed stick dragged 30 to the right reports an X of +0.75: the angle of
        an offset along +x is 3pi/2, so `correlated_x` is -30 and its negation is
        reported. */
    lemma DragRightReportsPositiveX(s: Stick)
      requires Consistent() && s.pressed && s.center == Point(100.0, 100.0) && Travel() == 40.0
      requires math.sqrt(900.0) == 30.0 && math.cos(-Pi) == -1.0 && math.sin(-Pi) == 0.0
      ensures Calc(s, Some(Point(130.0, 100.0)), false).events == [Movement(0.75, 0.0)]
    {
      var l := Located(s, Some(Point(130.0, 100.0)));
      assert l.relative == Point(30.0, 0.0);
      assert l.movementAngle == 3.0 * Pi / 2.0;
      assert Pi / 2.0 - l.movementAngle == -Pi;
    }

    /** A lift outside gyro mode releases the stick. */
    lemma LiftReleases(s: Stick, action: Action, p: Point, now: int)
      requires Consistent() && (action.Up? || action.PointerUp?)
      ensures var o := Touch(s, action, p, now, false);
              && o.handled && !o.stick.pressed && o.stick.stickState == NoMovement
              && o.stick.center == Point(0.0, 0.0) && o.stick.movementRadius == 0.0
              && o.events == [Revoke, Movement(0.0, 0.0)]
    {
    }

    /** Every touch event ends, when handled, with the stick's movement notified, and
        notifies nothing when passed on; only an unpressed stick in gyro mode ever
        passes one on. */
    lemma HandledEndsWithMovement(s: Stick, action: Action, p: Point, now: int, useGyro: bool)
      requires Consistent()
      ensures var o := Touch(s, action, p, now, useGyro);
              && (o.handled ==> o.events != [] && o.events[|o.events| - 1].Movement?)
              && (!o.handled ==> o.events == [] && useGyro && !o.stick.pressed)
    {
    }

    constructor (ctrl: VirtualController, math: MathLib, width: nat, height: nat,
                 radiusComplete: real, radiusAnalogStick: real, radiusDeadZone: real)
      requires math.Sound() && 0.0 <= radiusAnalogStick < radiusComplete
      ensures Consistent() && Buffers()
      ensures this.ctrl == ctrl && this.math == math && this.width == width && this.height == height
      ensures this.radiusComplete == radiusComplete && this.radiusAnalogStick == radiusAnalogStick
      ensures this.radiusDeadZone == radiusDeadZone
      ensures listeners == []
      ensures Snapshot() == Stick(false, NoMovement, Single, 0, Point(0.0, 0.0), 0.0, 0.0,
                                  Point((width / 2) as real, (height / 2) as real), Point(0.0, 0.0), Point(0.0, 0.0))
      ensures !useSensor && sensorSensitivityX == 0.1 && sensorSensitivityY == 0.1
      ensures sensorOffsetXLast == 0.0 && sensorOffsetYLast == 0.0
      ensures lastTimestamp == 0.0 && jerk == 0.0
      ensures orientationsDelta[..] == lastOrientationsDelta[..] == [0.0, 0.0, 0.0]
      ensures fresh(orientations) && fresh(orientationsDelta) && fresh(lastOrientationsDelta) && fresh(lastOrientations)
    {
      this.ctrl, this.math, this.width, this.height := ctrl, math, width, height;
      this.radiusComplete, this.radiusAnalogStick, this.radiusDeadZone := radiusComplete, radiusAnalogStick, radiusDeadZone;
      listeners, pressed := [], false;
      stickState, clickState, timeLastClick := NoMovement, Single, 0;
      relativeX, relativeY, movementRadius, movementAngle := 0.0, 0.0, 0.0, 0.0;
      centerX, centerY := 0.0, 0.0;
      sensorOffsetX, sensorOffsetY := 0.0, 0.0;
      useSensor, sensorSensitivityX, sensorSensitivityY := false, 0.1, 0.1;
      sensorOffsetXLast, sensorOffsetYLast := 0.0, 0.0;
      orientations := new real[3](_ => 0.0);
      orientationsDelta := new real[3](_ => 0.0);
      lastOrientationsDelta := new real[3](_ => 0.0);
      lastOrientations := new real[3](_ => 0.0);
      lastTimestamp, timeDelta, jerk := 0.0, 0.0, 0.0;
      new;
      // the drawn stick starts at the middle of the element
      positionStickX := (width / 2) as real;
      positionStickY := (height / 2) as real;
    }

    /** `addVirtualAnalogListener`: listeners are notified in registration order. */
    method AddVirtualAnalogListener(l: Listener)
      modifies this`listeners
      ensures listeners == old(listeners) + [l]
    {
      listeners := listeners + [l];
    }

    method SetUseSensor(useSensor: bool)
      modifies this`useSensor
      ensures this.useSensor == useSensor
    {
      this.useSensor := useSensor;
    }

    method SetSensorSensitivityX(s: real)
      modifies this`sensorSensitivityX
      ensures sensorSensitivityX == s
    {
      sensorSensitivityX := s;
    }

    method SetSensorSensitivityY(s: real)
      modifies this`sensorSensitivityY
      ensures sensorSensitivityY == s
    {
      sensorSensitivityY := s;
    }

    /** `notifyOnMovement`, `notifyOnClick`, `notifyOnDoubleClick` and
        `notifyOnRevoke`: every listener, in registration order, handles the event. */
    method NotifyListeners(e: Event, now: int)
      requires ctrl.Valid()
      modifies ctrl`pending, ctrl`reports, ctrl`lastSendTime, ctrl.inputContext
      ensures ctrl.Valid()
      ensures ctrl.State() == Notify(listeners, old(ctrl.State()), e, now, ctrl.hasHandler)
    {
      for i := 0 to |listeners|
        invariant ctrl.Valid()
        invariant ctrl.State() == Notify(listeners[..i], old(ctrl.State()), e, now, ctrl.hasHandler)
      {
        Dispatch(listeners[i], ctrl, e, now);
        assert listeners[..i + 1][..i] == listeners[..i];
      }
      assert listeners[..|listeners|] == listeners;
    }

    /** `updatePosition`: place the drawn stick at the anchor offset by the polar
        coordinates, become active, and report the offset as a fraction of the
        travel. */
    method UpdatePosition(now: int)
      requires Consistent()
      requires ctrl.Valid()
      modifies this`positionStickX, this`positionStickY, this`stickState
      modifies ctrl`pending, ctrl`reports, ctrl`lastSendTime, ctrl.inputContext
      ensures ctrl.Valid()
      ensures Snapshot() == Positioned(old(Snapshot()))
      ensures ctrl.State() == Notify(listeners, old(ctrl.State()), Offset(Snapshot()), now, ctrl.hasHandler)
    {
      // the full travel, to which the reported offset is scaled
      var complete := radiusComplete - radiusAnalogStick;
      var correlatedY := StickOffsetY(math, movementAngle, movementRadius);
      var correlatedX := StickOffsetX(math, movementAngle, movementRadius);
      PlaceStick(correlatedX, correlatedY);
      if stickState == MovedActive {
        NotifyListeners(Movement(-correlatedX / complete, correlatedY / complete), now);
      }
    }

    /** The drawn stick at the anchor minus the offset, and the state active, which
        `updatePosition` sets however near the anchor the stick is. */
    method PlaceStick(correlatedX: real, correlatedY: real)
      modifies this`positionStickX, this`positionStickY, this`stickState
      ensures Snapshot() == old(Snapshot()).(positionStick := Point(centerX - correlatedX, centerY - correlatedY),
                                             stickState := MovedActive)
    {
      positionStickX := centerX - correlatedX;
      positionStickY := centerY - correlatedY;
      stickState := MovedActive;
    }

    /** The offset of the event point from the anchor or, without an event, the
        negated sensor offset from the element's centre, which becomes the anchor. */
    method LocateOffset(p: Option<Point>)
      modifies this`centerX, this`centerY, this`relativeX, this`relativeY
      ensures p.Some? ==> centerX == old(centerX) && centerY == old(centerY)
      ensures p.None? ==> centerX == (width / 2) as real && centerY == (height / 2) as real
      ensures p.Some? ==> relativeX == -(old(centerX) - p.value.x) && relativeY == -(old(centerY) - p.value.y)
      ensures p.None? ==> relativeX == -sensorOffsetX && relativeY == -sensorOffsetY
    {
      if p.Some? {
        relativeX := -(centerX - p.value.x);
        relativeY := -(centerY - p.value.y);
      } else {
        centerX := (width / 2) as real;
        centerY := (height / 2) as real;
        relativeX := -sensorOffsetX;
        relativeY := -sensorOffsetY;
      }
    }

    /** The first step of `calculateAnalogPosition` while pressed or in gyro mode. */
    method Locate(p: Option<Point>)
      requires Consistent()
      modifies this`centerX, this`centerY, this`relativeX, this`relativeY, this`movementRadius, this`movementAngle
      ensures Snapshot() == Located(old(Snapshot()), p)
    {
      LocateOffset(p);
      // polar form of that offset
      movementRadius := MovementRadius(math, relativeX, relativeY);
      movementAngle := Angle(math, relativeX, relativeY);
    }

    /** The branch of `calculateAnalogPosition` taken when neither pressed nor in gyro
        mode: revoke, then a zero movement, then reset the anchor and radius. */
    method Release(now: int)
      requires ctrl.Valid()
      modifies this`centerX, this`centerY, this`movementRadius, this`stickState
      modifies ctrl`pending, ctrl`reports, ctrl`lastSendTime, ctrl.inputContext
      ensures ctrl.Valid()
      ensures Snapshot() == Released(old(Snapshot()))
      ensures ctrl.State() == NotifyAll(listeners, old(ctrl.State()), [Revoke, Movement(0.0, 0.0)], now, ctrl.hasHandler)
    {
      ghost var st0 := ctrl.State();
      stickState := NoMovement;
      NotifyListeners(Revoke, now);
      NotifyListeners(Movement(0.0, 0.0), now);
      NotifyAllTwo(listeners, st0, Revoke, Movement(0.0, 0.0), now, ctrl.hasHandler);
      ResetAnchor();
    }

    /** The end of a release: the anchor back at the origin and no travel. */
    method ResetAnchor()
      modifies this`centerX, this`centerY, this`movementRadius
      ensures Snapshot() == old(Snapshot()).(center := Point(0.0, 0.0), movementRadius := 0.0)
    {
      centerX := 0.0;
      centerY := 0.0;
      movementRadius := 0.0;
    }

    /** `calculateAnalogPosition`. */
    method CalculateAnalogPosition(p: Option<Point>, now: int, useGyro: bool) returns (handled: bool)
      requires Consistent()
      requires ctrl.Valid()
      modifies this`centerX, this`centerY, this`relativeX, this`relativeY, this`movementRadius
      modifies this`movementAngle, this`positionStickX, this`positionStickY, this`stickState
      modifies ctrl`pending, ctrl`reports, ctrl`lastSendTime, ctrl.inputContext
      ensures ctrl.Valid()
      ensures var o := Calc(old(Snapshot()), p, useGyro);
              && Snapshot() == o.stick && handled == o.handled
              && ctrl.State() == NotifyAll(listeners, old(ctrl.State()), o.events, now, ctrl.hasHandler)
    {
      if pressed || useGyro {
        Locate(p);
        // beyond the outer circle an unpressed stick leaves the event unhandled
        if movementRadius > radiusComplete && !pressed {
          return false;
        }
        // the stick cannot travel further than the full travel
        if movementRadius > radiusComplete - radiusAnalogStick {
          movementRadius := radiusComplete - radiusAnalogStick;
        }
        UpdatePosition(now);
        NotifyAllOne(listeners, old(ctrl.State()), Offset(Snapshot()), now, ctrl.hasHandler);
      } else {
        Release(now);
      }
      handled := true;
    }

    /** The double-click check of a touch-down: a double click if the previous
        touch-down was a single click less than `timeoutDoubleClick` ago, a click
        otherwise, notified to the listeners. */
    method CheckDoubleClick(lastClickState: ClickState, now: int)
      requires ctrl.Valid()
      modifies this`clickState, ctrl`pending, ctrl`reports, ctrl`lastSendTime, ctrl.inputContext
      ensures ctrl.Valid()
      ensures clickState == Classify(lastClickState, timeLastClick, now)
      ensures ctrl.State() == Notify(listeners, old(ctrl.State()), ClickEvent(clickState), now, ctrl.hasHandler)
    {
      if lastClickState == Single && timeLastClick + TimeoutDoubleClick > now {
        clickState := Double;
        NotifyListeners(DoubleClick, now);
      } else {
        clickState := Single;
        NotifyListeners(Click, now);
      }
    }

    /** The first step of a touch-down: the stick is set to the dead zone (to be
        corrected by the position update if necessary) and the sensor offset is
        cleared. */
    method EnterDeadZone()
      modifies this`stickState, this`sensorOffsetX, this`sensorOffsetY
      ensures stickState == MovedInDeadZone && sensorOffsetX == 0.0 && sensorOffsetY == 0.0
    {
      stickState := MovedInDeadZone;
      sensorOffsetX := 0.0;
      sensorOffsetY := 0.0;
    }

    /** The touch-down branch of `onElementTouchEvent`. */
    method TouchDown(p: Point, now: int)
      requires ctrl.Valid()
      modifies this`pressed, this`clickState, this`timeLastClick, this`sensorOffsetX, this`sensorOffsetY
      modifies this`centerX, this`centerY, this`stickState
      modifies ctrl`pending, ctrl`reports, ctrl`lastSendTime, ctrl.inputContext
      ensures ctrl.Valid()
      ensures Snapshot() == TouchedDown(old(Snapshot()), p, now)
      ensures ctrl.State() == Notify(listeners, old(ctrl.State()), ClickEvent(clickState), now, ctrl.hasHandler)
    {
      var lastClickState := clickState;
      EnterDeadZone();
      CheckDoubleClick(lastClickState, now);
      Anchor(p, now);
    }

    /** The end of a touch-down: the click time restarts, the stick is pressed and
        the touch point becomes the anchor. */
    method Anchor(p: Point, now: int)
      modifies this`timeLastClick, this`pressed, this`centerX, this`centerY
      ensures Snapshot() == old(Snapshot()).(timeLastClick := now, pressed := true, center := p)
    {
      timeLastClick, pressed, centerX, centerY := now, true, p.x, p.y;
    }

    /** The switch on the action in `onElementTouchEvent`: a touch-down is classified
        and anchors the stick, a lift unpresses it, any other action changes
        nothing. */
    method SwitchOnAction(action: Action, p: Point, now: int)
      requires ctrl.Valid()
      modifies this`pressed, this`clickState, this`timeLastClick, this`sensorOffsetX, this`sensorOffsetY
      modifies this`centerX, this`centerY, this`stickState
      modifies ctrl`pending, ctrl`reports, ctrl`lastSendTime, ctrl.inputContext
      ensures ctrl.Valid()
      ensures action.Down? || action.PointerDown? ==>
                && Snapshot() == TouchedDown(old(Snapshot()), p, now)
                && ctrl.State() == Notify(listeners, old(ctrl.State()), ClickEvent(clickState), now, ctrl.hasHandler)
      ensures action.Up? || action.PointerUp? ==> Snapshot() == old(Snapshot()).(pressed := false) && ctrl.State() == old(ctrl.State())
      ensures action.Other? ==> Snapshot() == old(Snapshot()) && ctrl.State() == old(ctrl.State())
    {
      if action == Down || action == PointerDown {
        TouchDown(p, now);
      } else if action == Up || action == PointerUp {
        pressed := false;
      }
    }

    /** `onElementTouchEvent`: a touch-down is classified and anchors the stick, a
        lift unpresses it, and every event then goes through
        `calculateAnalogPosition`. */
    method OnElementTouchEvent(action: Action, p: Point, now: int, useGyro: bool) returns (handled: bool)
      requires Consistent()
      requires ctrl.Valid()
      modifies this`pressed, this`clickState, this`timeLastClick, this`sensorOffsetX, this`sensorOffsetY
      modifies this`centerX, this`centerY, this`relativeX, this`relativeY, this`movementRadius
      modifies this`movementAngle, this`positionStickX, this`positionStickY, this`stickState
      modifies ctrl`pending, ctrl`reports, ctrl`lastSendTime, ctrl.inputContext
      ensures ctrl.Valid()
      ensures var o := Touch(old(Snapshot()), action, p, now, useGyro);
              && Snapshot() == o.stick && handled == o.handled
              && ctrl.State() == NotifyAll(listeners, old(ctrl.State()), o.events, now, ctrl.hasHandler)
    {
      ghost var st0 := ctrl.State();
      SwitchOnAction(action, p, now);
      ghost var s1 := Snapshot();
      handled := CalculateAnalogPosition(Some(p), now, useGyro);
      if action.Down? || action.PointerDown? {
        ghost var o := Calc(s1, Some(p), useGyro);
        NotifyAllOne(listeners, st0, ClickEvent(s1.clickState), now, ctrl.hasHandler);
        NotifyAllAppend(listeners, st0, [ClickEvent(s1.clickState)], o.events, now, ctrl.hasHandler);
      }
    }

    /** `mapResponseX`: the response map with the dead zone scaled down by the
        sensitivity, smoothed from and stored as the last X offset. */
    method MapResponseX(value: real) returns (r: real)
      requires sensorSensitivityX != 0.0 && sensorDeadZone / sensorSensitivityX != 1.0
      modifies this`sensorOffsetXLast
      ensures r == sensorOffsetXLast
      ensures r == MapResponse(value, old(sensorOffsetXLast), sensorDeadZone / sensorSensitivityX, analogDeadZone, smoothFactor)
    {
      sensorOffsetXLast := MapResponse(value, sensorOffsetXLast, sensorDeadZone / sensorSensitivityX, analogDeadZone, smoothFactor);
      r := sensorOffsetXLast;
    }

    /** `mapResponseY`: the same for the Y offset. */
    method MapResponseY(value: real) returns (r: real)
      requires sensorSensitivityY != 0.0 && sensorDeadZone / sensorSensitivityY != 1.0
      modifies this`sensorOffsetYLast
      ensures r == sensorOffsetYLast
      ensures r == MapResponse(value, old(sensorOffsetYLast), sensorDeadZone / sensorSensitivityY, analogDeadZone, smoothFactor)
    {
      sensorOffsetYLast := MapResponse(value, sensorOffsetYLast, sensorDeadZone / sensorSensitivityY, analogDeadZone, smoothFactor);
      r := sensorOffsetYLast;
    }

    /** The first part of `onRotationSensorChanged`: take the sample's rates, track
        the largest jerk seen, and if any axis's jerk is above the threshold replace
        the whole sample by the last rates and keep the last timestamp; otherwise
        advance the last timestamp to the sample's. */
    method FilterSample(values: seq<real>, timestamp: real)
      requires Buffers() && Axes <= |values| && timestamp - lastTimestamp != 0.0
      modifies orientations, orientationsDelta, this`timeDelta, this`jerk, this`lastTimestamp
      ensures timeDelta == timestamp - old(lastTimestamp)
      ensures orientations[..] == values[..Axes]
      ensures orientationsDelta[..] == FilteredDeltas(values, lastOrientationsDelta[..], timeDelta)
      ensures jerk == MaxJerk(old(jerk), values, lastOrientationsDelta[..], timeDelta, Axes)
      ensures lastTimestamp == if IsOutlier(values, lastOrientationsDelta[..], timeDelta) then old(lastTimestamp) else timestamp
    {
      timeDelta := timestamp - lastTimestamp;
      var last := lastOrientationsDelta[..];
      var isOutlier := false;
      for i := 0 to 3
        invariant timeDelta == timestamp - old(lastTimestamp) && lastTimestamp == old(lastTimestamp)
        invariant lastOrientationsDelta[..] == last
        invariant forall k :: 0 <= k < i ==> orientations[k] == values[k] && orientationsDelta[k] == values[k]
        invariant jerk == MaxJerk(old(jerk), values, last, timeDelta, i)
        invariant isOutlier <==> exists k :: 0 <= k < i && Jerk(values, last, timeDelta, k) > OutlierThreshold
      {
        orientations[i] := values[i];
        orientationsDelta[i] := orientations[i] * 1.0 * 1.0;
        var orientationJerk := (orientationsDelta[i] - lastOrientationsDelta[i]) / timeDelta;
        assert orientationJerk == Jerk(values, last, timeDelta, i);
        jerk := Max(jerk, orientationJerk);
        if orientationJerk > OutlierThreshold {
          isOutlier := true;
        }
      }
      assert isOutlier == IsOutlier(values, last, timeDelta);
      assert orientations[..] == values[..Axes];
      assert orientationsDelta[..] == values[..Axes];
      if isOutlier {
        for i := 0 to 3
          invariant timeDelta == timestamp - old(lastTimestamp) && lastTimestamp == old(lastTimestamp)
          invariant jerk == MaxJerk(old(jerk), values, last, timeDelta, Axes)
          invariant lastOrientationsDelta[..] == last
          invariant forall k :: 0 <= k < i ==> orientationsDelta[k] == last[k]
          invariant forall k :: 0 <= k < 3 ==> orientations[k] == values[k]
        {
          orientationsDelta[i] := lastOrientationsDelta[i];
        }
        assert orientationsDelta[..] == last[..Axes];
      } else {
        lastTimestamp := timestamp;
      }
      assert lastOrientationsDelta[..] == last;
    }

    /** The sensitivities the sensor path divides by are usable. */
    predicate SensitivitiesUsable()
      reads this`sensorSensitivityX, this`sensorSensitivityY
    {
      && sensorSensitivityX != 0.0 && sensorDeadZone / sensorSensitivityX != 1.0
      && sensorSensitivityY != 0.0 && sensorDeadZone / sensorSensitivityY != 1.0
    }

    /** The second part of `onRotationSensorChanged`: the rates used on the X and Y
        axes, mapped through the response, become the new sensor offsets. */
    method UpdateSensorOffsets()
      requires Buffers() && SensitivitiesUsable()
      modifies this`sensorOffsetX, this`sensorOffsetY, this`sensorOffsetXLast, this`sensorOffsetYLast
      ensures sensorOffsetX == sensorOffsetXLast
              == SensorResponse(orientationsDelta[sensorXIndex], old(sensorOffsetXLast), sensorSensitivityX, sensorXInvert)
      ensures sensorOffsetY == sensorOffsetYLast
              == SensorResponse(orientationsDelta[sensorYIndex], old(sensorOffsetYLast), sensorSensitivityY, sensorYInvert)
      ensures Snapshot() == old(Snapshot()).(sensorOffset := Point(sensorOffsetX, sensorOffsetY))
    {
      var tX := MapResponseX(SensorInput(orientationsDelta[sensorXIndex], sensorSensitivityX, sensorXInvert));
      var tY := MapResponseY(SensorInput(orientationsDelta[sensorYIndex], sensorSensitivityY, sensorYInvert));
      sensorOffsetX := tX;
      sensorOffsetY := tY;
    }

    /** The last part of `onRotationSensorChanged`: the sample and the rates used
        become the last ones. */
    method RememberSample()
      requires Buffers()
      modifies lastOrientations, lastOrientationsDelta
      ensures lastOrientations[..] == orientations[..] && lastOrientationsDelta[..] == orientationsDelta[..]
    {
      for i := 0 to 3
        invariant forall k :: 0 <= k < i ==> lastOrientations[k] == orientations[k] && lastOrientationsDelta[k] == orientationsDelta[k]
      {
        lastOrientations[i] := orientations[i];
        lastOrientationsDelta[i] := orientationsDelta[i];
      }
    }

    /** What taking a sample leaves behind, given the last rates `last`, the last
        timestamp `lastTs`, the running maximum jerk `jerk0` and the last offsets
        `xLast` and `yLast` before it: the sample and the rates used (the last ones
        for an outlier, the sample's otherwise) become the last ones, the timestamp
        advances unless the sample is an outlier, the maximum jerk does not
        decrease, and the new offsets are the response to the rates used. */
    ghost predicate Sampled(values: seq<real>, timestamp: real, last: seq<real>, lastTs: real, jerk0: real,
                            xLast: real, yLast: real)
      requires Axes <= |values| && Axes <= |last| && timestamp - lastTs != 0.0 && SensitivitiesUsable()
      reads this`lastTimestamp, this`jerk, this`sensorOffsetXLast, this`sensorOffsetYLast
      reads this`sensorSensitivityX, this`sensorSensitivityY, lastOrientations, lastOrientationsDelta
    {
      SampleTaken(values, timestamp, last, lastTs, jerk0, xLast, yLast, Filter())
    }

    /** The filter's variables as they are now. */
    ghost function Filter(): SensorVars
      reads this`lastTimestamp, this`jerk, this`sensorOffsetXLast, this`sensorOffsetYLast, lastOrientations, lastOrientationsDelta
    {
      SensorVars(lastOrientations[..], lastOrientationsDelta[..], lastTimestamp, jerk, sensorOffsetXLast, sensorOffsetYLast)
    }

    /** `Sampled`, stated of given filter variables `v`. */
    ghost predicate SampleTaken(values: seq<real>, timestamp: real, last: seq<real>, lastTs: real, jerk0: real,
                                xLast: real, yLast: real, v: SensorVars)
      requires Axes <= |values| && Axes <= |last| && timestamp - lastTs != 0.0 && SensitivitiesUsable()
      reads this`sensorSensitivityX, this`sensorSensitivityY
    {
      var used := FilteredDeltas(values, last, timestamp - lastTs);
      && v.orientations == values[..Axes] && v.deltas == used
      && v.timestamp == (if IsOutlier(values, last, timestamp - lastTs) then lastTs else timestamp)
      && jerk0 <= v.jerk
      && v.xLast == SensorResponse(used[sensorXIndex], xLast, sensorSensitivityX, sensorXInvert)
      && v.yLast == SensorResponse(used[sensorYIndex], yLast, sensorSensitivityY, sensorYInvert)
    }

    /** The sensor-sample part of `onRotationSensorChanged`: filter the sample, map
        the rates used to the new sensor offsets and remember the sample. Of the
        stick's variables only the sensor offset changes. */
    method SampleSensor(values: seq<real>, timestamp: real)
      requires Buffers() && Axes <= |values| && timestamp - lastTimestamp != 0.0 && SensitivitiesUsable()
      modifies orientations, orientationsDelta, lastOrientations, lastOrientationsDelta
      modifies this`timeDelta, this`jerk, this`lastTimestamp
      modifies this`sensorOffsetX, this`sensorOffsetY, this`sensorOffsetXLast, this`sensorOffsetYLast
      ensures Sampled(values, timestamp, old(lastOrientationsDelta[..]), old(lastTimestamp), old(jerk),
                      old(sensorOffsetXLast), old(sensorOffsetYLast))
      ensures Snapshot() == old(Snapshot()).(sensorOffset := Point(sensorOffsetXLast, sensorOffsetYLast))
    {
      ghost var last := lastOrientationsDelta[..];
      FilterSample(values, timestamp);
      MaxJerkBounds(old(jerk), values, last, timeDelta, Axes);
      ghost var used := orientationsDelta[..];
      UpdateSensorOffsets();
      RememberSample();
      assert lastOrientationsDelta[..] == used;
    }

    /** The enabled-sensor branch of `onRotationSensorChanged`: take the sample and,
        while the stick is not pressed, move it as a touch without an event point,
        with the process-wide gyro toggle switched on around that call only. */
    method SampleAndMove(values: seq<real>, timestamp: real, now: int)
      requires Consistent() && Buffers() && Axes <= |values|
      requires timestamp - lastTimestamp != 0.0 && SensitivitiesUsable()
      requires ctrl.Valid()
      modifies orientations, orientationsDelta, lastOrientations, lastOrientationsDelta
      modifies this`timeDelta, this`jerk, this`lastTimestamp
      modifies this`sensorOffsetX, this`sensorOffsetY, this`sensorOffsetXLast, this`sensorOffsetYLast
      modifies this`centerX, this`centerY, this`relativeX, this`relativeY, this`movementRadius
      modifies this`movementAngle, this`positionStickX, this`positionStickY, this`stickState
      modifies ctrl`pending, ctrl`reports, ctrl`lastSendTime, ctrl.inputContext
      ensures ctrl.Valid()
      ensures Sampled(values, timestamp, old(lastOrientationsDelta[..]), old(lastTimestamp), old(jerk),
                      old(sensorOffsetXLast), old(sensorOffsetYLast))
      ensures var s := old(Snapshot()).(sensorOffset := Point(sensorOffsetXLast, sensorOffsetYLast));
              if s.pressed then Snapshot() == s && ctrl.State() == old(ctrl.State())
              else var o := Calc(s, None, true);
                   Snapshot() == o.stick && ctrl.State() == NotifyAll(listeners, old(ctrl.State()), o.events, now, ctrl.hasHandler)
    {
      SampleSensor(values, timestamp);
      if !pressed {
        var _ := CalculateAnalogPosition(None, now, true);
      }
    }

    /** `onRotationSensorChanged`: with the sensor enabled, take the sample and, while
        the stick is not pressed, move it as a touch without an event point in gyro
        mode; with the sensor disabled, nothing changes. */
    method OnRotationSensorChanged(values: seq<real>, timestamp: real, now: int)
      requires Consistent() && Buffers() && Axes <= |values|
      requires useSensor ==> timestamp - lastTimestamp != 0.0 && SensitivitiesUsable()
      requires ctrl.Valid()
      modifies orientations, orientationsDelta, lastOrientations, lastOrientationsDelta
      modifies this`timeDelta, this`jerk, this`lastTimestamp
      modifies this`sensorOffsetX, this`sensorOffsetY, this`sensorOffsetXLast, this`sensorOffsetYLast
      modifies this`centerX, this`centerY, this`relativeX, this`relativeY, this`movementRadius
      modifies this`movementAngle, this`positionStickX, this`positionStickY, this`stickState
      modifies ctrl`pending, ctrl`reports, ctrl`lastSendTime, ctrl.inputContext
      ensures ctrl.Valid()
      ensures !useSensor ==> unchanged(this, orientations, orientationsDelta, lastOrientations, lastOrientationsDelta)
      ensures !useSensor ==> unchanged(ctrl, ctrl.inputContext)
      ensures useSensor ==>
                Sampled(values, timestamp, old(lastOrientationsDelta[..]), old(lastTimestamp), old(jerk),
                        old(sensorOffsetXLast), old(sensorOffsetYLast))
      ensures useSensor ==>
                var s := old(Snapshot()).(sensorOffset := Point(sensorOffsetXLast, sensorOffsetYLast));
                if s.pressed then Snapshot() == s && ctrl.State() == old(ctrl.State())
                else var o := Calc(s, None, true);
                     Snapshot() == o.stick && ctrl.State() == NotifyAll(listeners, old(ctrl.State()), o.events, now, ctrl.hasHandler)
    {
      if useSensor {
        SampleAndMove(values, timestamp, now);
      }
    }
  }

  function Min(a: real, b: real): real
  {
    if a > b then b else a
  }

  /** The event a touch-down notifies for its classification. */
  function ClickEvent(c: ClickState): Event
  {
    if c == Double then DoubleClick else Click
  }

  lemma NotifyAllTwo(ls: seq<Listener>, st: ControllerState, e1: Event, e2: Event, now: int, h: bool)
    ensures NotifyAll(ls, st, [e1, e2], now, h) == Notify(ls, Notify(ls, st, e1, now, h), e2, now, h)
  {
    assert [e1, e2][..1] == [e1];
    NotifyAllOne(ls, st, e1, now, h);
  }

  lemma NotifyAllOne(ls: seq<Listener>, st: ControllerState, e: Event, now: int, h: bool)
    ensures NotifyAll(ls, st, [e], now, h) == Notify(ls, st, e, now, h)
  {
    assert [e][..0] == [];
  }
}
