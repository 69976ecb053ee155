/**
  Creating a virtual input device: open the device file, register the key
  category and the two button codes, register the axis category and its X
  and Y codes, then submit the device descriptor. The mouse uses relative
  axes and the touchpad absolute ones; the order is otherwise the same.

  This module states that order once, as a script of fallible steps, and
  proves what running it does under every failure oracle.
 */
module Setup {
  import opened Kernel
  import opened Errors
  import opened Trace

  /** Closes the device file, ignoring any failure, and returns the error of
      the registration that failed. */
  function Abort(w: World, e: Error): (r: Run)
    ensures r.world.trace == w.trace + [CloseFile] && r.world.steps == w.steps
    ensures r.status == Err(e)
  {
    Run(Emit(w, CloseFile), Err(e))
  }

  /** Number of fallible steps of a setup: open, six registrations, submit. */
  const SetupSteps: nat := 8

  function AxisCategory(a: Axes): EventType
  {
    if a.Relative? then EvRel else EvAbs
  }

  function AxisRequest(a: Axes): (req: BitRequest)
    ensures Category(req) == AxisCategory(a)
  {
    if a.Relative? then UiSetRelBit else UiSetAbsBit
  }

  function XCode(a: Axes): Code
  {
    if a.Relative? then RelX else AbsX
  }

  function YCode(a: Axes): Code
  {
    if a.Relative? then RelY else AbsY
  }

  /** The kernel calls of a setup in which nothing fails, in the mandated order. */
  function MandatedOrder(path: string, a: Axes, dev: UinputUserDev): (t: seq<Op>)
    ensures |t| == SetupSteps
  {
    [ Open(path),
      RegisterType(EvKey), SetBit(UiSetKeyBit, BtnLeft), SetBit(UiSetKeyBit, BtnRight),
      RegisterType(AxisCategory(a)), SetBit(AxisRequest(a), XCode(a)), SetBit(AxisRequest(a), YCode(a)),
      CreateUsb(dev) ]
  }

  /** The error a setup returns when its step `k` fails. */
  function StageErrors(a: Axes): (e: seq<Error>)
    ensures |e| == SetupSteps
  {
    [ CouldNotCreate(a),
      RegisterKeyDevice, RegisterLeftClick, RegisterRightClick,
      RegisterAxisDevice(a), RegisterXAxis(a), RegisterYAxis(a),
      Passed(FromCreateUsbDevice) ]
  }

  /** Whether a failure of step `k` closes the device file: only the
      registrations between the open and the final submission do. */
  predicate ClosesOnFailure(k: nat)
  {
    1 <= k <= 6
  }

  function Script(path: string, a: Axes, dev: UinputUserDev): (script: seq<Step>)
    ensures |script| == SetupSteps
  {
    var calls, errors := MandatedOrder(path, a, dev), StageErrors(a);
    seq(SetupSteps, k requires 0 <= k < SetupSteps => Invoke(calls[k], errors[k], ClosesOnFailure(k)))
  }

  lemma CallsOfScript(path: string, a: Axes, dev: UinputUserDev, k: nat)
    requires k <= SetupSteps
    ensures Calls(Script(path, a, dev)[..k]) == MandatedOrder(path, a, dev)[..k]
  {
    var script := Script(path, a, dev)[..k];
    CallsOfInvokes(script);
  }

  /** One step of a setup: from the world after `k` successful steps, step
      `k` either fails, with its error and, for a registration, a close, or
      issues its call and the setup goes on with step `k + 1`. */
  lemma SetupStep(o: Oracle, path: string, a: Axes, dev: UinputUserDev, w: World, k: nat)
    requires k < SetupSteps && w.steps == k
    ensures var script, w' := Script(path, a, dev), Attempt(w, MandatedOrder(path, a, dev)[k]);
              Exec(w, o, script[k..])
              == (if o(k) then Run(if ClosesOnFailure(k) then Emit(w', CloseFile) else w', Err(StageErrors(a)[k]))
                  else Exec(w', o, script[k + 1..]))
  {
    var script := Script(path, a, dev);
    assert script[k..][0] == script[k];
    assert script[k..][1..] == script[k + 1..];
  }

  /** When nothing fails, a setup issues the mandated calls in order and succeeds. */
  lemma SetupIssuesMandatedOrder(o: Oracle, path: string, a: Axes, dev: UinputUserDev)
    requires SucceedsFrom(o, 0, SetupSteps)
    ensures Exec(Unopened, o, Script(path, a, dev)) == Run(World(MandatedOrder(path, a, dev), SetupSteps), Ok)
  {
    var script := Script(path, a, dev);
    ExecAllSucceed(Unopened, o, script);
    CallsOfScript(path, a, dev, SetupSteps);
    assert script[..SetupSteps] == script;
  }

  /** When step `k` is the first to fail, a setup issues the mandated calls up
      to and including step `k` and nothing later; it closes the device file
      exactly when the failing step is one of the registrations; and it
      returns the error naming that step. */
  lemma SetupStopsAtFailedStage(o: Oracle, path: string, a: Axes, dev: UinputUserDev, k: nat)
    requires k < SetupSteps
    requires SucceedsFrom(o, 0, k) && o(k)
    ensures Exec(Unopened, o, Script(path, a, dev))
         == Run(World(MandatedOrder(path, a, dev)[..k + 1] + (if ClosesOnFailure(k) then [CloseFile] else []), k + 1),
                Err(StageErrors(a)[k]))
  {
    var script := Script(path, a, dev);
    ExecFailsAt(Unopened, o, script, k);
    CallsOfScript(path, a, dev, k);
    CallsOfScript(path, a, dev, k + 1);
    assert script[..k + 1] == script[..k] + [script[k]];
    CallsAppend(script[..k], [script[k]]);
    CallsOfOne(script[k]);
  }

  /** Every setup succeeds exactly when none of its steps fails. */
  lemma SetupOkIffNoFailure(o: Oracle, path: string, a: Axes, dev: UinputUserDev)
    ensures Exec(Unopened, o, Script(path, a, dev)).status.Ok? <==> SucceedsFrom(o, 0, SetupSteps)
  {
    ExecOkIffNoFailure(Unopened, o, Script(path, a, dev));
  }

  lemma MandatedOrderCategoriesFirst(path: string, a: Axes, dev: UinputUserDev)
    ensures CategoriesFirst(MandatedOrder(path, a, dev))
  {
    var t := MandatedOrder(path, a, dev);
    assert t[1] == RegisterType(EvKey) && t[4] == RegisterType(AxisCategory(a));
    forall i | 0 <= i < |t| && t[i].SetBit?
      ensures RegisterType(Category(t[i].request)) in t[..i]
    {
      if i <= 3 {
        assert t[..i][1] == t[1];
      } else {
        assert t[..i][4] == t[4];
      }
    }
  }

  /** Whatever fails, a setup never registers a code before the category that owns it. */
  lemma SetupRegistersCategoriesFirst(o: Oracle, path: string, a: Axes, dev: UinputUserDev)
    ensures CategoriesFirst(Exec(Unopened, o, Script(path, a, dev)).world.trace)
  {
    var t := MandatedOrder(path, a, dev);
    MandatedOrderCategoriesFirst(path, a, dev);
    var k := FirstFailure(o, 0, SetupSteps);
    if k == SetupSteps {
      SetupIssuesMandatedOrder(o, path, a, dev);
    } else {
      SetupStopsAtFailedStage(o, path, a, dev, k);
      CategoriesFirstPrefix(t, k + 1);
      if ClosesOnFailure(k) {
        CategoriesFirstClose(t[..k + 1]);
      } else {
        assert t[..k + 1] + [] == t[..k + 1];
      }
    }
  }
}
