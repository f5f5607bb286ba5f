/** The listeners the sticks notify. `LeftVirtualAnalog` and `RightVirtualAnalog`
    each register one anonymous `VirtualAnalogListener`, and `RightAnalogStick`
    registers an `AnalogStickListener` with the same four callbacks. Each listener
    holds the controller it was built with. It writes only its own stick's two axis
    fields, or sets or clears only its own stick's click bit, in the shared record,
    and then asks the controller to send it. `onClick` does nothing at all. */
module Listeners {
  import opened Numerics
  import opened Buttons
  import opened Controller

  /** The four callbacks, as events a stick notifies. */
  datatype Event = Movement(x: real, y: real) | Click | DoubleClick | Revoke

  /** The three listener classes. */
  datatype Listener = LeftVirtualAnalogListener | RightVirtualAnalogListener | RightAnalogStickListener
  {
    predicate IsLeft()
    {
      this == LeftVirtualAnalogListener
    }

    /** The click bit the listener owns. */
    function ClickFlag(): bv16
    {
      if IsLeft() then LsClkFlag else RsClkFlag
    }
  }

  /** What a callback does to the click bits: `onDoubleClick` is `inputMap |= flag`,
      `onRevoke` is `inputMap &= ~flag`, the others leave the mask alone. */
  function ClickBits(l: Listener, m: bv16, e: Event): bv16
  {
    match e
    case DoubleClick => SetFlag(m, l.ClickFlag())
    case Revoke => ClearFlag(m, l.ClickFlag())
    case _ => m
  }

  /** What a callback does to the record. Nothing but the listener's own axes and
      its click bits ever changes: the triggers never, the other stick's axes never,
      and `onClick` changes nothing. */
  function Apply(l: Listener, r: Record, e: Event): (r': Record)
    ensures r'.leftTrigger == r.leftTrigger && r'.rightTrigger == r.rightTrigger
    ensures l.IsLeft() ==> r'.rightStickX == r.rightStickX && r'.rightStickY == r.rightStickY
    ensures !l.IsLeft() ==> r'.leftStickX == r.leftStickX && r'.leftStickY == r.leftStickY
    ensures !e.Movement? ==> r'.leftStickX == r.leftStickX && r'.leftStickY == r.leftStickY
    ensures !e.Movement? ==> r'.rightStickX == r.rightStickX && r'.rightStickY == r.rightStickY
    ensures r'.inputMap == ClickBits(l, r.inputMap, e)
    ensures e.Movement? ==> r'.inputMap == r.inputMap
    ensures e.Click? ==> r' == r
  {
    match e
    case Movement(x, y) =>
      if l.IsLeft() then r.(leftStickX := AxisValue(x), leftStickY := AxisValue(y))
      else r.(rightStickX := AxisValue(x), rightStickY := AxisValue(y))
    case _ => r.(inputMap := ClickBits(l, r.inputMap, e))
  }

  /** `onMovement(x, y)` with both values in [-1, 1] stores `(short)(v * 0x7FFE)`,
      the product truncated toward zero, which then lies in [-32766, 32766]. */
  lemma MovementStoresTruncatedAxes(l: Listener, r: Record, x: real, y: real)
    requires -1.0 <= x <= 1.0 && -1.0 <= y <= 1.0
    ensures var r' := Apply(l, r, Movement(x, y));
            var (sx, sy) := if l.IsLeft() then (r'.leftStickX, r'.leftStickY) else (r'.rightStickX, r'.rightStickY);
            && sx as int == Trunc(x * AxisScale) && sy as int == Trunc(y * AxisScale)
            && -0x7FFE <= sx <= 0x7FFE && -0x7FFE <= sy <= 0x7FFE
  {
  }

  /** `onDoubleClick` sets the listener's click bit. */
  lemma DoubleClickSetsOwnBit(l: Listener, m: bv16)
    ensures ClickBits(l, m, DoubleClick) & l.ClickFlag() == l.ClickFlag()
  {
  }

  /** `onRevoke` clears the listener's click bit. */
  lemma RevokeClearsOwnBit(l: Listener, m: bv16)
    ensures ClickBits(l, m, Revoke) & l.ClickFlag() == 0
  {
  }

  /** `onDoubleClick` leaves every other bit as it was. */
  lemma DoubleClickKeepsOtherBits(l: Listener, m: bv16)
    ensures ClickBits(l, m, DoubleClick) & !l.ClickFlag() == m & !l.ClickFlag()
  {
    var f := l.ClickFlag();
    assert ClickBits(l, m, DoubleClick) == SetFlag(m, f);
  }

  /** `onRevoke` leaves every other bit as it was. */
  lemma RevokeKeepsOtherBits(l: Listener, m: bv16)
    ensures ClickBits(l, m, Revoke) & !l.ClickFlag() == m & !l.ClickFlag()
  {
    var f := l.ClickFlag();
    assert ClickBits(l, m, Revoke) == ClearFlag(m, f);
  }

  /** In particular the other stick's click bit is left as it was. */
  lemma OtherClickBitKept(l: Listener, m: bv16, e: Event)
    ensures l.IsLeft() ==> ClickBits(l, m, e) & RsClkFlag == m & RsClkFlag
    ensures !l.IsLeft() ==> ClickBits(l, m, e) & LsClkFlag == m & LsClkFlag
  {
    ClickFlagsIndependent(m);
  }

  /** Every callback is idempotent on the record: doing it twice is doing it once. */
  lemma CallbacksIdempotent(l: Listener, r: Record, e: Event)
    ensures Apply(l, Apply(l, r, e), e) == Apply(l, r, e)
  {
    FlagUpdatesIdempotent(r.inputMap, l.ClickFlag());
  }

  /** A double click followed by a revoke gives back the original record exactly
      when the listener's click bit was clear before. */
  lemma DoubleClickThenRevoke(l: Listener, r: Record)
    ensures Apply(l, Apply(l, r, DoubleClick), Revoke) == r <==> r.inputMap & l.ClickFlag() == 0
  {
    if l.IsLeft() {
      LsClickRoundTrip(r.inputMap);
    } else {
      RsClickRoundTrip(r.inputMap);
    }
  }

  /** The `RightAnalogStick` listener and the `RightVirtualAnalog` listener act on
      the record identically. */
  lemma RightListenersAgree(r: Record, e: Event)
    ensures Apply(RightAnalogStickListener, r, e) == Apply(RightVirtualAnalogListener, r, e)
  {
  }

  /** Since the two sticks own disjoint fields and bits, a left callback and a right
      callback give the same record in either order. */
  lemma LeftAndRightCommute(l: Listener, r: Record, e1: Event, e2: Event)
    requires !l.IsLeft()
    ensures Apply(LeftVirtualAnalogListener, Apply(l, r, e2), e1) == Apply(l, Apply(LeftVirtualAnalogListener, r, e1), e2)
  {
    var a := Apply(LeftVirtualAnalogListener, Apply(l, r, e2), e1);
    var b := Apply(l, Apply(LeftVirtualAnalogListener, r, e1), e2);
    ClickBitsCommute(l, r.inputMap, e1, e2);
    assert a.inputMap == b.inputMap;
  }

  /** The click-bit part of `LeftAndRightCommute`. */
  lemma ClickBitsCommute(l: Listener, m: bv16, e1: Event, e2: Event)
    requires !l.IsLeft()
    ensures ClickBits(LeftVirtualAnalogListener, ClickBits(l, m, e2), e1) == ClickBits(l, ClickBits(LeftVirtualAnalogListener, m, e1), e2)
  {
    if e1.DoubleClick? && e2.DoubleClick? {
      SetsCommute(m);
    } else if e1.Revoke? && e2.DoubleClick? {
      ClearLsSetRsCommute(m);
    } else if e1.DoubleClick? && e2.Revoke? {
      SetLsClearRsCommute(m);
    } else if e1.Revoke? && e2.Revoke? {
      ClearsCommute(m);
    }
  }

  /** One listener handling one event, as seen by the controller: the record is
      updated, and, for every callback except `onClick`, a send then reports the
      updated record and replaces the pending resends. */
  function Deliver(l: Listener, st: ControllerState, e: Event, now: int, hasHandler: bool): (st': ControllerState)
    ensures st'.record == Apply(l, st.record, e)
    ensures e.Click? ==> st' == st
    ensures !e.Click? ==> st'.pending == Schedule(now)
    ensures !e.Click? ==> st'.reports == st.reports + if hasHandler then [ReportOf(st'.record)] else []
  {
    var st1 := st.(record := Apply(l, st.record, e));
    if e.Click? then st1 else AfterSend(st1, now, hasHandler)
  }

  /** The listeners handling one event in registration order. */
  function Notify(ls: seq<Listener>, st: ControllerState, e: Event, now: int, hasHandler: bool): ControllerState
    decreases |ls|
  {
    if ls == [] then st else Deliver(ls[|ls| - 1], Notify(ls[..|ls| - 1], st, e, now, hasHandler), e, now, hasHandler)
  }

  /** A run of events, each handled by every listener before the next. */
  function NotifyAll(ls: seq<Listener>, st: ControllerState, evs: seq<Event>, now: int, hasHandler: bool): ControllerState
    decreases |evs|
  {
    if evs == [] then st else Notify(ls, NotifyAll(ls, st, evs[..|evs| - 1], now, hasHandler), evs[|evs| - 1], now, hasHandler)
  }

  /** Each listener sends once per event except for `onClick`, which sends nothing;
      an empty listener list leaves the controller untouched. */
  lemma {:induction false} NotifyReports(ls: seq<Listener>, st: ControllerState, e: Event, now: int, hasHandler: bool)
    ensures var st' := Notify(ls, st, e, now, hasHandler);
            |st'.reports| == |st.reports| + (if hasHandler && !e.Click? then |ls| else 0)
    ensures e.Click? ==> Notify(ls, st, e, now, hasHandler) == st
    ensures ls != [] && !e.Click? ==> Notify(ls, st, e, now, hasHandler).pending == Schedule(now)
    decreases |ls|
  {
    if ls != [] {
      NotifyReports(ls[..|ls| - 1], st, e, now, hasHandler);
    }
  }

  /** Handling a run of events in two parts is handling the whole run. */
  lemma {:induction false} NotifyAllAppend(ls: seq<Listener>, st: ControllerState, a: seq<Event>, b: seq<Event>, now: int, hasHandler: bool)
    ensures NotifyAll(ls, st, a + b, now, hasHandler) == NotifyAll(ls, NotifyAll(ls, st, a, now, hasHandler), b, now, hasHandler)
    decreases |b|
  {
    if b == [] {
      assert a + b == a;
    } else {
      assert (a + b)[..|a + b| - 1] == a + b[..|b| - 1];
      NotifyAllAppend(ls, st, a, b[..|b| - 1], now, hasHandler);
    }
  }

  /** What the release of a stick does to the controller when a single listener is
      registered: its click bit is cleared, its axes are zeroed, two sends are made
      and the last one's resends are pending. */
  lemma ReleaseResetsStick(l: Listener, st: ControllerState, now: int, hasHandler: bool)
    ensures var st' := NotifyAll([l], st, [Revoke, Movement(0.0, 0.0)], now, hasHandler);
            && st'.record.inputMap & l.ClickFlag() == 0
            && st'.record.inputMap & !l.ClickFlag() == st.record.inputMap & !l.ClickFlag()
            && (if l.IsLeft() then st'.record.leftStickX == 0 && st'.record.leftStickY == 0
                else st'.record.rightStickX == 0 && st'.record.rightStickY == 0)
            && st'.pending == Schedule(now)
            && |st'.reports| == |st.reports| + if hasHandler then 2 else 0
  {
    var st1 := Deliver(l, st, Revoke, now, hasHandler);
    var st2 := Deliver(l, st1, Movement(0.0, 0.0), now, hasHandler);
    assert [l][..0] == [];
    assert Notify([l], st, Revoke, now, hasHandler) == st1;
    assert [Revoke, Movement(0.0, 0.0)][..1] == [Revoke];
    assert [Revoke][..0] == [];
    assert NotifyAll([l], st, [Revoke], now, hasHandler) == st1;
    assert Notify([l], st1, Movement(0.0, 0.0), now, hasHandler) == st2;
    assert NotifyAll([l], st, [Revoke, Movement(0.0, 0.0)], now, hasHandler) == st2;
    assert st2.record.inputMap == st1.record.inputMap;
    RevokeClearsOwnBit(l, st.record.inputMap);
    RevokeKeepsOtherBits(l, st.record.inputMap);
    AxisValueEndpoints();
  }

  /** `onMovement`: write the two axes of the listener's stick into the controller's
      record in place, then send. */
  method OnMovement(l: Listener, c: VirtualController, x: real, y: real, now: int)
    modifies c.inputContext, c`pending, c`reports, c`lastSendTime
    ensures c.Valid()
    ensures c.State() == Deliver(l, old(c.State()), Movement(x, y), now, c.hasHandler)
  {
    var inputContext := c.GetControllerInputContext();
    if l.IsLeft() {
      inputContext.leftStickX := AxisValue(x);
      inputContext.leftStickY := AxisValue(y);
    } else {
      inputContext.rightStickX := AxisValue(x);
      inputContext.rightStickY := AxisValue(y);
    }
    c.Send(now);
  }

  /** `onClick`: nothing. */
  method OnClick(l: Listener, c: VirtualController)
    ensures c.State() == Deliver(l, c.State(), Click, 0, c.hasHandler)
  {
  }

  /** `onDoubleClick`: `inputMap |= flag` in place, then send. */
  method OnDoubleClick(l: Listener, c: VirtualController, now: int)
    modifies c.inputContext, c`pending, c`reports, c`lastSendTime
    ensures c.Valid()
    ensures c.State() == Deliver(l, old(c.State()), DoubleClick, now, c.hasHandler)
  {
    var inputContext := c.GetControllerInputContext();
    inputContext.inputMap := inputContext.inputMap | l.ClickFlag();
    c.Send(now);
  }

  /** `onRevoke`: `inputMap &= ~flag` in place, then send. */
  method OnRevoke(l: Listener, c: VirtualController, now: int)
    modifies c.inputContext, c`pending, c`reports, c`lastSendTime
    ensures c.Valid()
    ensures c.State() == Deliver(l, old(c.State()), Revoke, now, c.hasHandler)
  {
    var inputContext := c.GetControllerInputContext();
    inputContext.inputMap := inputContext.inputMap & !l.ClickFlag();
    c.Send(now);
  }

  /** The call `listener.onX(...)` a stick makes for an event. */
  method Dispatch(l: Listener, c: VirtualController, e: Event, now: int)
    requires c.Valid()
    modifies c.inputContext, c`pending, c`reports, c`lastSendTime
    ensures c.Valid()
    ensures c.State() == Deliver(l, old(c.State()), e, now, c.hasHandler)
  {
    match e
    case Movement(x, y) => OnMovement(l, c, x, y, now);
    case Click => OnClick(l, c);
    case DoubleClick => OnDoubleClick(l, c, now);
    case Revoke => OnRevoke(l, c, now);
  }
}
