/**
  The virtual touchpad: a device with two buttons and absolute X and Y axes
  whose bounds are given at creation. A move writes the X record, then the
  Y record, then syncs.
 */
module TouchPad {
  import opened Kernel
  import opened Errors
  import opened Trace
  import opened Buttons
  import opened Setup

  /** The operations of an open touchpad, one per public method. */
  datatype Action =
    | MoveTo(x: int32, y: int32)
    | LeftClick
    | RightClick
    | LeftPress
    | LeftRelease
    | RightPress
    | RightRelease
    | Close

  /** The descriptor of a touchpad: USB identity with the touchpad's product
      ID, and the given bounds in the X and Y slots of the bound arrays, every
      other slot zero. The bounds are taken as given: neither clamped nor
      checked for min <= max. */
  function Descriptor(name: seq<byte>, minX: int32, maxX: int32, minY: int32, maxY: int32): (d: UinputUserDev)
    ensures d.name == ToUinputName(name)
    ensures d.id == InputId(BusUsb, 0x4711, 0x0817, 1)
    ensures |d.absMin| == AbsSize && |d.absMax| == AbsSize
    ensures d.absMin[AbsSlot(AbsX)] == minX && d.absMax[AbsSlot(AbsX)] == maxX
    ensures d.absMin[AbsSlot(AbsY)] == minY && d.absMax[AbsSlot(AbsY)] == maxY
    ensures forall i :: 0 <= i < AbsSize && i != AbsSlot(AbsX) && i != AbsSlot(AbsY) ==>
              d.absMin[i] == 0 && d.absMax[i] == 0
  {
    var absMin := ZeroBounds()[AbsSlot(AbsX) := minX][AbsSlot(AbsY) := minY];
    var absMax := ZeroBounds()[AbsSlot(AbsX) := maxX][AbsSlot(AbsY) := maxY];
    UinputUserDev(ToUinputName(name), InputId(BusUsb, 0x4711, 0x0817, 1), absMin, absMax)
  }

  /** The unexported `createTouchPad`, which creates the touchpad's device
      file: open, then each registration in turn, closing the file and
      returning that stage's error as soon as one fails, then the descriptor
      submission with the axis bounds. */
  function SetUpTouchPad(o: Oracle, path: string, name: seq<byte>, minX: int32, maxX: int32, minY: int32, maxY: int32): (r: Run)
    ensures |r.world.trace| > 0 && r.world.trace[0] == Open(path)
    ensures o(0) ==> r == Run(World([Open(path)], 1), Err(CouldNotCreate(Absolute)))
  {
    var w0 := Unopened;
    var w1 := Attempt(w0, Open(path));
    if Fails(w0, o) then Run(w1, Err(CouldNotCreate(Absolute))) else
    var w2 := Attempt(w1, RegisterType(EvKey));
    if Fails(w1, o) then Abort(w2, RegisterKeyDevice) else
    var w3 := Attempt(w2, SetBit(UiSetKeyBit, BtnLeft));
    if Fails(w2, o) then Abort(w3, RegisterLeftClick) else
    var w4 := Attempt(w3, SetBit(UiSetKeyBit, BtnRight));
    if Fails(w3, o) then Abort(w4, RegisterRightClick) else
    var w5 := Attempt(w4, RegisterType(EvAbs));
    if Fails(w4, o) then Abort(w5, RegisterAxisDevice(Absolute)) else
    var w6 := Attempt(w5, SetBit(UiSetAbsBit, AbsX));
    if Fails(w5, o) then Abort(w6, RegisterXAxis(Absolute)) else
    var w7 := Attempt(w6, SetBit(UiSetAbsBit, AbsY));
    if Fails(w6, o) then Abort(w7, RegisterYAxis(Absolute)) else
    CreateUsbDevice(w7, o, Descriptor(name, minX, maxX, minY, maxY))
  }

  /** Creating a touchpad runs the mandated setup script for absolute axes. */
  lemma SetUpTouchPadFollowsScript(o: Oracle, path: string, name: seq<byte>,
                                   minX: int32, maxX: int32, minY: int32, maxY: int32)
    ensures SetUpTouchPad(o, path, name, minX, maxX, minY, maxY)
         == Exec(Unopened, o, Script(path, Absolute, Descriptor(name, minX, maxX, minY, maxY)))
  {
    var dev := Descriptor(name, minX, maxX, minY, maxY);
    var script, t := Script(path, Absolute, dev), MandatedOrder(path, Absolute, dev);
    var w1 := Attempt(Unopened, t[0]);
    var w2 := Attempt(w1, t[1]);
    var w3 := Attempt(w2, t[2]);
    var w4 := Attempt(w3, t[3]);
    var w5 := Attempt(w4, t[4]);
    var w6 := Attempt(w5, t[5]);
    var w7 := Attempt(w6, t[6]);
    assert script[0..] == script;
    SetupStep(o, path, Absolute, dev, Unopened, 0);
    SetupStep(o, path, Absolute, dev, w1, 1);
    SetupStep(o, path, Absolute, dev, w2, 2);
    SetupStep(o, path, Absolute, dev, w3, 3);
    SetupStep(o, path, Absolute, dev, w4, 4);
    SetupStep(o, path, Absolute, dev, w5, 5);
    SetupStep(o, path, Absolute, dev, w6, 6);
    SetupStep(o, path, Absolute, dev, w7, 7);
    assert script[SetupSteps..] == [];
  }

  /** The bounds have no say in whether the setup succeeds or in which calls
      it issues before the descriptor: two setups that differ only in the
      bounds stop at the same stage with the same status. */
  lemma BoundsNotChecked(o: Oracle, path: string, name: seq<byte>,
                         minX: int32, maxX: int32, minY: int32, maxY: int32,
                         minX': int32, maxX': int32, minY': int32, maxY': int32)
    ensures var r := SetUpTouchPad(o, path, name, minX, maxX, minY, maxY);
            var r' := SetUpTouchPad(o, path, name, minX', maxX', minY', maxY');
            && r.status == r'.status
            && r.world.steps == r'.world.steps
            && |r.world.trace| == |r'.world.trace|
            && r.world.trace[..|r.world.trace| - 1] == r'.world.trace[..|r'.world.trace| - 1]
  {
    var dev := Descriptor(name, minX, maxX, minY, maxY);
    var dev' := Descriptor(name, minX', maxX', minY', maxY');
    SetUpTouchPadFollowsScript(o, path, name, minX, maxX, minY, maxY);
    SetUpTouchPadFollowsScript(o, path, name, minX', maxX', minY', maxY');
    var k := FirstFailure(o, 0, SetupSteps);
    var t, t' := MandatedOrder(path, Absolute, dev), MandatedOrder(path, Absolute, dev');
    assert t[..SetupSteps - 1] == t'[..SetupSteps - 1];
    if k == SetupSteps {
      SetupIssuesMandatedOrder(o, path, Absolute, dev);
      SetupIssuesMandatedOrder(o, path, Absolute, dev');
    } else {
      SetupStopsAtFailedStage(o, path, Absolute, dev, k);
      SetupStopsAtFailedStage(o, path, Absolute, dev', k);
      if k < SetupSteps - 1 {
        assert t[..k + 1] == t'[..k + 1];
      }
    }
  }

  /** The record a move writes for one axis: an absolute-position event with a
      zero timestamp. */
  function AbsRecord(code: Code, value: int32): InputEvent
  {
    InputEvent(ZeroTime, EvAbs, code, value)
  }

  /** Writing records in turn: encode one, write it, go on with the next. */
  function WriteScript(events: seq<InputEvent>): (script: seq<Step>)
    ensures |script| == 2 * |events|
  {
    if events == [] then []
    else [Encode(EncodeEvent(Absolute)), Invoke(Write(events[0]), WriteEvent(Absolute), false)]
         + WriteScript(events[1..])
  }

  /** The loop over the records of a move: each is encoded and written, and
      the first encode or write failure ends the loop with its error. */
  function WriteEvents(w: World, o: Oracle, events: seq<InputEvent>): (r: Run)
    ensures r == Exec(w, o, WriteScript(events))
    ensures w.trace <= r.world.trace
    ensures forall i :: |w.trace| <= i < |r.world.trace| ==> r.world.trace[i].Write? && r.world.trace[i].event in events
    decreases |events|
  {
    if events == [] then Run(w, Ok)
    else
      var iev := events[0];
      if Fails(w, o) then Run(Skip(w), Err(EncodeEvent(Absolute))) else
      var w1 := Skip(w);
      if Fails(w1, o) then Run(Attempt(w1, Write(iev)), Err(WriteEvent(Absolute))) else
      WriteEvents(Attempt(w1, Write(iev)), o, events[1..])
  }

  function AbsScript(x: int32, y: int32): seq<Step>
  {
    WriteScript([AbsRecord(AbsX, x), AbsRecord(AbsY, y)]) + [Invoke(Sync, Passed(FromSyncEvents), false)]
  }

  /** Sends an absolute position: the X record, the Y record, then a sync.
      The ensures only confine the new calls to those three; their order
      and each failure case are given in closed form by `MoveToOrder`. */
  function SendAbsEvent(w: World, o: Oracle, xPos: int32, yPos: int32): (r: Run)
    ensures w.trace <= r.world.trace
    ensures forall i :: |w.trace| <= i < |r.world.trace| ==>
              r.world.trace[i] in [Write(AbsRecord(AbsX, xPos)), Write(AbsRecord(AbsY, yPos)), Sync]
  {
    var r := WriteEvents(w, o, [AbsRecord(AbsX, xPos), AbsRecord(AbsY, yPos)]);
    if r.status.Err? then r else SyncEvents(r.world, o)
  }

  lemma SendAbsEventFollowsScript(w: World, o: Oracle, x: int32, y: int32)
    ensures SendAbsEvent(w, o, x, y) == Exec(w, o, AbsScript(x, y))
  {
    var events := [AbsRecord(AbsX, x), AbsRecord(AbsY, y)];
    ExecAppend(w, o, WriteScript(events), [Invoke(Sync, Passed(FromSyncEvents), false)]);
  }

  /** A move to (x, y) writes the X record, then the Y record, then syncs, and
      stops at the first failure: if encoding or writing X fails neither Y nor
      the sync is sent; if encoding or writing Y fails, X stays written and the
      sync is never sent. The coordinates are written as given. */
  lemma MoveToOrder(w: World, o: Oracle, x: int32, y: int32)
    ensures var r, s := Perform(w, o, MoveTo(x, y)), w.steps;
            var wx, wy := Write(AbsRecord(AbsX, x)), Write(AbsRecord(AbsY, y));
            && (o(s) ==> r == Run(World(w.trace, s + 1), Err(EncodeEvent(Absolute))))
            && (!o(s) && o(s + 1) ==> r == Run(World(w.trace + [wx], s + 2), Err(WriteEvent(Absolute))))
            && (!o(s) && !o(s + 1) && o(s + 2) ==> r == Run(World(w.trace + [wx], s + 3), Err(EncodeEvent(Absolute))))
            && (!o(s) && !o(s + 1) && !o(s + 2) && o(s + 3) ==>
                  r == Run(World(w.trace + [wx, wy], s + 4), Err(WriteEvent(Absolute))))
            && (SucceedsFrom(o, s, 4) ==>
                  r.world == World(w.trace + [wx, wy, Sync], s + 5) && (r.status.Ok? <==> !o(s + 4)))
  {
    var events := [AbsRecord(AbsX, x), AbsRecord(AbsY, y)];
    var w1 := Attempt(Skip(w), Write(events[0]));
    var w2 := Attempt(Skip(w1), Write(events[1]));
    assert events[1..] == [events[1]];
    assert [events[1]][1..] == [];
    if !o(w.steps) && !o(w.steps + 1) {
      assert WriteEvents(w, o, events) == WriteEvents(w1, o, [events[1]]);
      if !o(w.steps + 2) && !o(w.steps + 3) {
        assert WriteEvents(w1, o, [events[1]]) == Run(w2, Ok);
      }
    }
  }

  /** The intended steps of each operation. */
  function ActionScript(a: Action): seq<Step>
  {
    match a
    case MoveTo(x, y) => AbsScript(x, y)
    case LeftClick => ClickScript(Left)
    case RightClick => ClickScript(Right)
    case LeftPress => [ButtonStep(Left, Pressed, Passed(FromSendBtnEvent))]
    case LeftRelease => [ButtonStep(Left, Released, Passed(FromSendBtnEvent))]
    case RightPress => [ButtonStep(Right, Pressed, Passed(FromSendBtnEvent))]
    case RightRelease => [ButtonStep(Right, Released, Passed(FromSendBtnEvent))]
    case Close => [Invoke(CloseDeviceCall, Passed(FromCloseDevice), false)]
  }

  /** Performs one operation on an open touchpad. */
  function Perform(w: World, o: Oracle, a: Action): (r: Run)
    ensures w.trace <= r.world.trace
    ensures forall i :: |w.trace| <= i < |r.world.trace| && r.world.trace[i].Write? ==>
              r.world.trace[i].event.eventType == EvAbs && r.world.trace[i].event.time == ZeroTime
  {
    match a
    case MoveTo(x, y) => SendAbsEvent(w, o, x, y)
    case LeftClick => Click(w, o, Left)
    case RightClick => Click(w, o, Right)
    case LeftPress => PressOrRelease(w, o, Left, Pressed)
    case LeftRelease => PressOrRelease(w, o, Left, Released)
    case RightPress => PressOrRelease(w, o, Right, Pressed)
    case RightRelease => PressOrRelease(w, o, Right, Released)
    case Close => CloseDevice(w, o)
  }

  /** Every operation runs its intended steps, stopping at the first failure. */
  lemma PerformFollowsScript(w: World, o: Oracle, a: Action)
    ensures Perform(w, o, a) == Exec(w, o, ActionScript(a))
  {
    match a
    case MoveTo(x, y) => SendAbsEventFollowsScript(w, o, x, y);
    case _ =>
  }
}
