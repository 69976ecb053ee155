/**
  The virtual mouse: a device with two buttons and relative X and Y axes.
  Its setup registers relative axes; its moves write one relative-motion
  record and then sync.
 */
module Mouse {
  import opened Kernel
  import opened Errors
  import opened Trace
  import opened Buttons
  import opened Setup

  /** The operations of an open mouse, one per public method. */
  datatype Action =
    | MoveLeft(pixel: int32)
    | MoveRight(pixel: int32)
    | MoveUp(pixel: int32)
    | MoveDown(pixel: int32)
    | LeftClick
    | RightClick
    | LeftPress
    | LeftRelease
    | RightPress
    | RightRelease
    | Close

  /** The descriptor of a mouse: USB identity with the mouse's product ID and
      no absolute-axis bounds. */
  function Descriptor(name: seq<byte>): (d: UinputUserDev)
    ensures d.name == ToUinputName(name)
    ensures d.id == InputId(BusUsb, 0x4711, 0x0816, 1)
    ensures |d.absMin| == AbsSize && |d.absMax| == AbsSize
    ensures forall i :: 0 <= i < AbsSize ==> d.absMin[i] == 0 && d.absMax[i] == 0
  {
    UinputUserDev(ToUinputName(name), InputId(BusUsb, 0x4711, 0x0816, 1), ZeroBounds(), ZeroBounds())
  }

  /** The unexported `createMouse`, which creates the mouse's device file:
      open, then each registration in turn, closing the file and returning
      that stage's error as soon as one fails, then the descriptor submission. */
  function SetUpMouse(o: Oracle, path: string, name: seq<byte>): (r: Run)
    ensures |r.world.trace| > 0 && r.world.trace[0] == Open(path)
    ensures o(0) ==> r == Run(World([Open(path)], 1), Err(CouldNotCreate(Relative)))
  {
    var w0 := Unopened;
    var w1 := Attempt(w0, Open(path));
    if Fails(w0, o) then Run(w1, Err(CouldNotCreate(Relative))) else
    var w2 := Attempt(w1, RegisterType(EvKey));
    if Fails(w1, o) then Abort(w2, RegisterKeyDevice) else
    var w3 := Attempt(w2, SetBit(UiSetKeyBit, BtnLeft));
    if Fails(w2, o) then Abort(w3, RegisterLeftClick) else
    var w4 := Attempt(w3, SetBit(UiSetKeyBit, BtnRight));
    if Fails(w3, o) then Abort(w4, RegisterRightClick) else
    var w5 := Attempt(w4, RegisterType(EvRel));
    if Fails(w4, o) then Abort(w5, RegisterAxisDevice(Relative)) else
    var w6 := Attempt(w5, SetBit(UiSetRelBit, RelX));
    if Fails(w5, o) then Abort(w6, RegisterXAxis(Relative)) else
    var w7 := Attempt(w6, SetBit(UiSetRelBit, RelY));
    if Fails(w6, o) then Abort(w7, RegisterYAxis(Relative)) else
    CreateUsbDevice(w7, o, Descriptor(name))
  }

  /** Creating a mouse runs the mandated setup script for relative axes. */
  lemma SetUpMouseFollowsScript(o: Oracle, path: string, name: seq<byte>)
    ensures SetUpMouse(o, path, name) == Exec(Unopened, o, Script(path, Relative, Descriptor(name)))
  {
    var dev := Descriptor(name);
    var script, t := Script(path, Relative, dev), MandatedOrder(path, Relative, dev);
    var w1 := Attempt(Unopened, t[0]);
    var w2 := Attempt(w1, t[1]);
    var w3 := Attempt(w2, t[2]);
    var w4 := Attempt(w3, t[3]);
    var w5 := Attempt(w4, t[4]);
    var w6 := Attempt(w5, t[5]);
    var w7 := Attempt(w6, t[6]);
    assert script[0..] == script;
    SetupStep(o, path, Relative, dev, Unopened, 0);
    SetupStep(o, path, Relative, dev, w1, 1);
    SetupStep(o, path, Relative, dev, w2, 2);
    SetupStep(o, path, Relative, dev, w3, 3);
    SetupStep(o, path, Relative, dev, w4, 4);
    SetupStep(o, path, Relative, dev, w5, 5);
    SetupStep(o, path, Relative, dev, w6, 6);
    SetupStep(o, path, Relative, dev, w7, 7);
    assert script[SetupSteps..] == [];
  }

  /** The record a move writes: a relative-motion event with a zero timestamp. */
  function RelRecord(code: Code, value: int32): InputEvent
  {
    InputEvent(ZeroTime, EvRel, code, value)
  }

  /** Sending relative motion: encode one record, write it, then sync. */
  function RelScript(code: Code, value: int32): seq<Step>
  {
    [ Encode(EncodeEvent(Relative)),
      Invoke(Write(RelRecord(code, value)), WriteEvent(Relative), false),
      Invoke(Sync, Passed(FromSyncEvents), false) ]
  }

  /** Writes exactly one relative record and then syncs; an encode failure
      issues nothing and a write failure issues the write but never the sync. */
  function SendRelEvent(w: World, o: Oracle, code: Code, pixel: int32): (r: Run)
    ensures var ev, s := RelRecord(code, pixel), w.steps;
            && (o(s) ==> r == Run(World(w.trace, s + 1), Err(EncodeEvent(Relative))))
            && (!o(s) && o(s + 1) ==> r == Run(World(w.trace + [Write(ev)], s + 2), Err(WriteEvent(Relative))))
            && (!o(s) && !o(s + 1) ==> r.world == World(w.trace + [Write(ev), Sync], s + 3))
            && (r.status.Ok? <==> !o(s) && !o(s + 1) && !o(s + 2))
  {
    var iev := RelRecord(code, pixel);
    if Fails(w, o) then Run(Skip(w), Err(EncodeEvent(Relative))) else
    var w1 := Skip(w);
    if Fails(w1, o) then Run(Attempt(w1, Write(iev)), Err(WriteEvent(Relative))) else
    SyncEvents(Attempt(w1, Write(iev)), o)
  }

  lemma SendRelEventFollowsScript(w: World, o: Oracle, code: Code, pixel: int32)
    ensures SendRelEvent(w, o, code, pixel) == Exec(w, o, RelScript(code, pixel))
  {
    var script := RelScript(code, pixel);
    if !Fails(w, o) {
      var w1 := After(w, script[0]);
      ExecPastFirstStep(w, o, script);
      if !Fails(w1, o) {
        ExecPastFirstStep(w1, o, script[1..]);
        assert script[1..][1..] == [script[2]];
      }
    }
  }

  /** The intended steps of each operation. */
  function ActionScript(a: Action): seq<Step>
  {
    match a
    case MoveLeft(p) => RelScript(RelX, Neg32(p))
    case MoveRight(p) => RelScript(RelX, p)
    case MoveUp(p) => RelScript(RelY, Neg32(p))
    case MoveDown(p) => RelScript(RelY, p)
    case LeftClick => ClickScript(Left)
    case RightClick => ClickScript(Right)
    case LeftPress => [ButtonStep(Left, Pressed, Passed(FromSendBtnEvent))]
    case LeftRelease => [ButtonStep(Left, Released, Passed(FromSendBtnEvent))]
    case RightPress => [ButtonStep(Right, Pressed, Passed(FromSendBtnEvent))]
    case RightRelease => [ButtonStep(Right, Released, Passed(FromSendBtnEvent))]
    case Close => [Invoke(CloseDeviceCall, Passed(FromCloseDevice), false)]
  }

  /** Performs one operation on an open mouse. Every record it writes is a
      relative-motion record with a zero timestamp. */
  function Perform(w: World, o: Oracle, a: Action): (r: Run)
    ensures w.trace <= r.world.trace
    ensures forall i :: |w.trace| <= i < |r.world.trace| && r.world.trace[i].Write? ==>
              r.world.trace[i].event.eventType == EvRel && r.world.trace[i].event.time == ZeroTime
  {
    match a
    case MoveLeft(p) => SendRelEvent(w, o, RelX, Neg32(p))
    case MoveRight(p) => SendRelEvent(w, o, RelX, p)
    case MoveUp(p) => SendRelEvent(w, o, RelY, Neg32(p))
    case MoveDown(p) => SendRelEvent(w, o, RelY, p)
    case LeftClick => Click(w, o, Left)
    case RightClick => Click(w, o, Right)
    case LeftPress => PressOrRelease(w, o, Left, Pressed)
    case LeftRelease => PressOrRelease(w, o, Left, Released)
    case RightPress => PressOrRelease(w, o, Right, Pressed)
    case RightRelease => PressOrRelease(w, o, Right, Released)
    case Close => CloseDevice(w, o)
  }

  /** Every operation runs its intended steps, stopping at the first failure. */
  lemma PerformFollowsScript(w: World, o: Oracle, a: Action)
    ensures Perform(w, o, a) == Exec(w, o, ActionScript(a))
  {
    match a
    case MoveLeft(p) => SendRelEventFollowsScript(w, o, RelX, Neg32(p));
    case MoveRight(p) => SendRelEventFollowsScript(w, o, RelX, p);
    case MoveUp(p) => SendRelEventFollowsScript(w, o, RelY, Neg32(p));
    case MoveDown(p) => SendRelEventFollowsScript(w, o, RelY, p);
    case _ =>
  }

  /** Moving left by `p` is moving right by the wrapped negation of `p`, and
      the other way round; likewise up and down. */
  lemma OppositeMovesMirror(w: World, o: Oracle, p: int32)
    ensures Perform(w, o, MoveLeft(p)) == Perform(w, o, MoveRight(Neg32(p)))
    ensures Perform(w, o, MoveRight(p)) == Perform(w, o, MoveLeft(Neg32(p)))
    ensures Perform(w, o, MoveUp(p)) == Perform(w, o, MoveDown(Neg32(p)))
    ensures Perform(w, o, MoveDown(p)) == Perform(w, o, MoveUp(Neg32(p)))
  {
    Neg32Involutive(p);
  }

  /** The record a move writes: left and up negate the pixel count (with
      32-bit wrap-around, so the smallest value stays itself), right and
      down keep it; left and right move along X, up and down along Y. */
  lemma MoveSignConvention(w: World, o: Oracle, p: int32)
    requires !o(w.steps)
    ensures var i := |w.trace|;
            && Perform(w, o, MoveLeft(p)).world.trace[i] == Write(RelRecord(RelX, Neg32(p)))
            && Perform(w, o, MoveRight(p)).world.trace[i] == Write(RelRecord(RelX, p))
            && Perform(w, o, MoveUp(p)).world.trace[i] == Write(RelRecord(RelY, Neg32(p)))
            && Perform(w, o, MoveDown(p)).world.trace[i] == Write(RelRecord(RelY, p))
    ensures p != MinInt32 ==> Neg32(p) as int == -(p as int)
    ensures Perform(w, o, MoveLeft(MinInt32)).world.trace[|w.trace|] == Write(RelRecord(RelX, MinInt32))
  {
  }
}
