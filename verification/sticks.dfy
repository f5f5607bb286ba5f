/** The two concrete on-screen sticks. Each is a `VirtualAnalog` configured by its
    constructor: the left one with the left-stick listener only, the right one
    with the rotation sensor enabled at sensitivities 2 and 2.5 and the
    right-stick listener. Without subclassing, each constructor is a method that
    builds and configures the stick. */
module Sticks {
  import opened Geometry
  import opened Controller
  import opened Clicks
  import opened Listeners
  import opened Analog

  /** The state of a freshly built stick: released, not moving, a single click at
      time 0, and the drawn stick at the centre of the element. */
  function InitialStick(width: nat, height: nat): Stick
  {
    Stick(false, NoMovement, Single, 0, Point(0.0, 0.0), 0.0, 0.0,
          Point((width / 2) as real, (height / 2) as real), Point(0.0, 0.0), Point(0.0, 0.0))
  }

  /** `LeftVirtualAnalog`: one listener, acting on the left stick's axes and click
      bit; the sensor stays disabled. */
  method NewLeftVirtualAnalog(ctrl: VirtualController, math: MathLib, width: nat, height: nat,
                              radiusComplete: real, radiusAnalogStick: real, radiusDeadZone: real)
    returns (a: VirtualAnalog)
    requires math.Sound() && 0.0 <= radiusAnalogStick < radiusComplete
    ensures fresh(a) && a.Consistent() && a.Buffers() && a.ctrl == ctrl
    ensures a.listeners == [LeftVirtualAnalogListener] && !a.useSensor
    ensures a.Snapshot() == InitialStick(width, height)
  {
    a := new VirtualAnalog(ctrl, math, width, height, radiusComplete, radiusAnalogStick, radiusDeadZone);
    a.AddVirtualAnalogListener(LeftVirtualAnalogListener);
  }

  /** `RightVirtualAnalog`: the sensor enabled with sensitivity 2 on X and 2.5 on Y,
      which the sensor path can divide by, and one listener acting on the right
      stick's axes and click bit. */
  method NewRightVirtualAnalog(ctrl: VirtualController, math: MathLib, width: nat, height: nat,
                               radiusComplete: real, radiusAnalogStick: real, radiusDeadZone: real)
    returns (a: VirtualAnalog)
    requires math.Sound() && 0.0 <= radiusAnalogStick < radiusComplete
    ensures fresh(a) && a.Consistent() && a.Buffers() && a.ctrl == ctrl
    ensures a.listeners == [RightVirtualAnalogListener]
    ensures a.useSensor && a.sensorSensitivityX == 2.0 && a.sensorSensitivityY == 2.5 && a.SensitivitiesUsable()
    ensures a.Snapshot() == InitialStick(width, height)
  {
    a := new VirtualAnalog(ctrl, math, width, height, radiusComplete, radiusAnalogStick, radiusDeadZone);
    a.SetUseSensor(true);
    a.SetSensorSensitivityX(2.0);
    a.SetSensorSensitivityY(2.5);
    a.AddVirtualAnalogListener(RightVirtualAnalogListener);
  }

  /** A touch on a stick, then the timer queue running at `later`: the touch leaves
      the stick and the controller as `Touch` and its notifications say, and a
      resend then fires exactly when the earliest deadline the touch left has
      passed, reporting the record as the touch left it. */
  method TouchThenResend(a: VirtualAnalog, action: Action, p: Point, now: int, useGyro: bool, later: int)
      returns (handled: bool, fired: bool)
    requires a.Consistent() && a.ctrl.Valid()
    modifies a, a.ctrl, a.ctrl.inputContext
    ensures a.ctrl.Valid()
    ensures var o := a.Touch(old(a.Snapshot()), action, p, now, useGyro);
            var st := NotifyAll(a.listeners, old(a.ctrl.State()), o.events, now, a.ctrl.hasHandler);
            && a.Snapshot() == o.stick && handled == o.handled
            && (fired <==> st.pending != [] && st.pending[0] <= later)
            && (fired ==> a.ctrl.pending == st.pending[1..])
            && (fired && a.ctrl.hasHandler ==> a.ctrl.reports == st.reports + [ReportOf(st.record)])
            && (!fired ==> a.ctrl.State() == st)
  {
    handled := a.OnElementTouchEvent(action, p, now, useGyro);
    fired := a.ctrl.RunDelayedRetransmit(later);
  }
}
