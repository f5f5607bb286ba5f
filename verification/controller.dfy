/** The shared gamepad input record and its transmission. Every listener of every
    on-screen control writes into the one `ControllerInputContext` the controller
    owns and then asks for it to be sent. A send cancels the pending resends,
    reports the record at once, and posts three resends 25, 50 and 75 ms later;
    each resend reports the record as it is when it runs. The platform's timer
    queue is modelled by the list of pending deadlines, and the transport by the
    log of reports handed to the controller handler. */
module Controller {
  import opened Numerics

  /** The value held by a `ControllerInputContext`, field by field. */
  datatype Record = Record(
    inputMap: bv16,
    leftTrigger: int8,
    rightTrigger: int8,
    rightStickX: int16,
    rightStickY: int16,
    leftStickX: int16,
    leftStickY: int16)

  /** One call of `reportOscState`, with its arguments in call order. */
  datatype OscReport = OscReport(
    buttonFlags: bv16,
    leftStickX: int16,
    leftStickY: int16,
    rightStickX: int16,
    rightStickY: int16,
    leftTrigger: int8,
    rightTrigger: int8)

  /** The report `sendControllerInputContextInternal` makes of a record. */
  function ReportOf(r: Record): (p: OscReport)
    ensures p.buttonFlags == r.inputMap
    ensures p.leftStickX == r.leftStickX && p.leftStickY == r.leftStickY
    ensures p.rightStickX == r.rightStickX && p.rightStickY == r.rightStickY
    ensures p.leftTrigger == r.leftTrigger && p.rightTrigger == r.rightTrigger
  {
    OscReport(r.inputMap, r.leftStickX, r.leftStickY, r.rightStickX, r.rightStickY, r.leftTrigger, r.rightTrigger)
  }

  /** The delays, in ms, of the three resends posted by every send. */
  const ResendDelays: seq<int> := [25, 50, 75]

  /** The deadlines of the resends posted by a send at `now`. */
  function Schedule(now: int): (s: seq<int>)
    ensures |s| == |ResendDelays| == 3
    ensures forall i :: 0 <= i < |s| ==> s[i] == now + ResendDelays[i]
    ensures forall i, j :: 0 <= i < j < |s| ==> s[i] < s[j]
  {
    [now + 25, now + 50, now + 75]
  }

  /** The whole observable state of the controller: the record, the deadlines of
      the pending resends, and the reports made so far. */
  datatype ControllerState = ControllerState(record: Record, pending: seq<int>, reports: seq<OscReport>)

  /** The state after `sendControllerInputContext` at `now`: the pending resends are
      exactly the three new ones, and one report of the current record has been made
      if there is a controller handler. */
  function AfterSend(st: ControllerState, now: int, hasHandler: bool): (st': ControllerState)
    ensures st'.record == st.record
    ensures st'.pending == Schedule(now)
    ensures hasHandler ==> st'.reports == st.reports + [ReportOf(st.record)]
    ensures !hasHandler ==> st'.reports == st.reports
  {
    ControllerState(st.record, Schedule(now), st.reports + if hasHandler then [ReportOf(st.record)] else [])
  }

  /** Two sends in a row leave only the second one's resends pending; the first
      one's are cancelled whatever their deadlines. */
  lemma SecondSendCancelsFirst(st: ControllerState, t1: int, t2: int, h: bool)
    ensures AfterSend(AfterSend(st, t1, h), t2, h).pending == Schedule(t2)
    ensures h ==> AfterSend(AfterSend(st, t1, h), t2, h).reports == st.reports + [ReportOf(st.record), ReportOf(st.record)]
  {
  }

  /** `VirtualController.ControllerInputContext`: the mutable record. */
  class ControllerInputContext {
    var inputMap: bv16
    var leftTrigger: int8
    var rightTrigger: int8
    var rightStickX: int16
    var rightStickY: int16
    var leftStickX: int16
    var leftStickY: int16

    /** A fresh record is all zero. */
    constructor ()
      ensures Value() == Record(0, 0, 0, 0, 0, 0, 0)
    {
      inputMap, leftTrigger, rightTrigger := 0x0000, 0x00, 0x00;
      rightStickX, rightStickY, leftStickX, leftStickY := 0x0000, 0x0000, 0x0000, 0x0000;
    }

    function Value(): Record
      reads this
    {
      Record(inputMap, leftTrigger, rightTrigger, rightStickX, rightStickY, leftStickX, leftStickY)
    }
  }

  /** `VirtualController`, restricted to the input record and its transmission. */
  class VirtualController {
    /** The one record of the session; being a constant, every caller of
        `GetControllerInputContext` gets the same object. */
    const inputContext: ControllerInputContext
    /** Whether the controller handler is non-null. */
    const hasHandler: bool
    /** The deadlines of the posted, not yet run, `delayedRetransmitRunnable`s. */
    var pending: seq<int>
    /** Every `reportOscState` call made so far. */
    var reports: seq<OscReport>
    /** The time of the last send, whose resends are the pending ones. */
    ghost var lastSendTime: int

    /** At most one chain of resends is ever pending: what remains of the last
        send's three, in deadline order. */
    ghost predicate Valid()
      reads this
    {
      && |pending| <= 3
      && forall i :: 0 <= i < |pending| ==> pending[i] == lastSendTime + ResendDelays[3 - |pending| + i]
    }

    function State(): ControllerState
      reads this, inputContext
    {
      ControllerState(inputContext.Value(), pending, reports)
    }

    constructor (hasHandler: bool)
      ensures Valid() && fresh(inputContext)
      ensures this.hasHandler == hasHandler
      ensures inputContext.Value() == Record(0, 0, 0, 0, 0, 0, 0)
      ensures pending == [] && reports == []
    {
      this.hasHandler := hasHandler;
      inputContext := new ControllerInputContext();
      pending, reports := [], [];
      lastSendTime := 0;
    }

    /** `getControllerInputContext`: always the same record. */
    method GetControllerInputContext() returns (c: ControllerInputContext)
      ensures c == inputContext
    {
      c := inputContext;
    }

    /** `sendControllerInputContextInternal`: report the record as it is now, in the
        argument order inputMap, leftStickX, leftStickY, rightStickX, rightStickY,
        leftTrigger, rightTrigger, if there is a handler. */
    method SendInternal()
      modifies this`reports
      ensures reports == old(reports) + if hasHandler then [ReportOf(inputContext.Value())] else []
    {
      if hasHandler {
        var c := inputContext;
        reports := reports + [OscReport(c.inputMap, c.leftStickX, c.leftStickY, c.rightStickX, c.rightStickY, c.leftTrigger, c.rightTrigger)];
      }
    }

    /** `sendControllerInputContext`: cancel every pending resend, report once, and
        post three resends at now+25, now+50 and now+75. */
    method Send(now: int)
      modifies this`pending, this`reports, this`lastSendTime
      ensures Valid()
      ensures pending == Schedule(now)
      ensures reports == old(reports) + if hasHandler then [ReportOf(inputContext.Value())] else []
      ensures State() == AfterSend(old(State()), now, hasHandler)
    {
      pending := [];
      SendInternal();
      pending := pending + [now + 25];
      pending := pending + [now + 50];
      pending := pending + [now + 75];
      lastSendTime := now;
    }

    /** The timer queue running the earliest posted `delayedRetransmitRunnable`
        once its deadline has passed: it reports the record as it is at that moment,
        not as it was when the resend was posted. */
    method RunDelayedRetransmit(now: int) returns (fired: bool)
      requires Valid()
      modifies this`pending, this`reports
      ensures Valid()
      ensures fired <==> old(pending) != [] && old(pending)[0] <= now
      ensures fired ==> pending == old(pending)[1..]
      ensures fired ==> reports == old(reports) + if hasHandler then [ReportOf(inputContext.Value())] else []
      ensures !fired ==> pending == old(pending) && reports == old(reports)
    {
      fired := pending != [] && pending[0] <= now;
      if fired {
        pending := pending[1..];
        SendInternal();
      }
    }
  }

  /** One send followed by no further sends produces exactly four reports: the
      immediate one and three resends, all of the record's current value; after
      the last resend nothing is pending and the queue stays quiet. */
  method SendOnceThenIdle(c: VirtualController, now: int)
    requires c.hasHandler
    modifies c
    ensures c.Valid() && c.pending == []
    ensures var p := ReportOf(c.inputContext.Value()); c.reports == old(c.reports) + [p, p, p, p]
  {
    c.Send(now);
    var fired := c.RunDelayedRetransmit(now + 25);
    assert fired;
    fired := c.RunDelayedRetransmit(now + 50);
    assert fired;
    fired := c.RunDelayedRetransmit(now + 75);
    assert fired;
    fired := c.RunDelayedRetransmit(now + 1000);
    assert !fired;
  }
}
