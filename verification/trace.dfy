/**
  The device file as a trace of kernel interactions.

  Every operation is a pure function from a world (the interactions issued
  so far) and a failure oracle to a new world and a status. The oracle says,
  for the n-th fallible step counted from the attempt to open the device
  file (index 0), whether that step fails; steps that cannot fail (closing the file after an
  aborted setup) take no oracle index.

  The helpers the operations call but whose code is outside this model
  (registering a category, the bit-setting control call, creating the USB
  device, sending a button event, syncing, closing the device, encoding
  a record) are each one fallible step.
 */
module Trace {
  import opened Kernel
  import opened Errors

  /** One interaction with the kernel. A call is recorded when it is issued,
      whether or not the kernel accepts it. */
  datatype Op =
    | Open(path: string)
    | RegisterType(eventType: EventType)
    | SetBit(request: BitRequest, code: Code)
    | CreateUsb(device: UinputUserDev)
    | Write(event: InputEvent)
    | SendBtn(code: Code, state: ButtonState)
    | Sync
    | CloseFile        // closing the device file itself, after an aborted setup
    | CloseDeviceCall  // the call into the `closeDevice` helper; what it does inside is not modelled

  datatype World = World(trace: seq<Op>, steps: nat)

  /** Whether the fallible step with a given index fails. */
  type Oracle = nat -> bool

  datatype Status = Ok | Err(error: Error)

  datatype Run = Run(world: World, status: Status)

  /** The world before the device file is opened. */
  const Unopened: World := World([], 0)

  /** Whether the next fallible step fails. */
  predicate Fails(w: World, o: Oracle)
  {
    o(w.steps)
  }

  /** Takes a fallible step that issues the kernel call `op`. */
  function Attempt(w: World, op: Op): World
  {
    World(w.trace + [op], w.steps + 1)
  }

  /** Takes a fallible step that issues no kernel call (encoding a record). */
  function Skip(w: World): World
  {
    World(w.trace, w.steps + 1)
  }

  /** Issues a kernel call whose failure is ignored. */
  function Emit(w: World, op: Op): World
  {
    World(w.trace + [op], w.steps)
  }

  /** Whether none of the `n` fallible steps from index `start` on fails. */
  ghost predicate SucceedsFrom(o: Oracle, start: nat, n: nat)
  {
    forall j :: start <= j < start + n ==> !o(j)
  }

  // The helpers outside this model, each a single fallible call.

  function SyncEvents(w: World, o: Oracle): Run
  {
    Run(Attempt(w, Sync), if Fails(w, o) then Err(Passed(FromSyncEvents)) else Ok)
  }

  function SendBtnEvent(w: World, o: Oracle, code: Code, state: ButtonState): Run
  {
    Run(Attempt(w, SendBtn(code, state)), if Fails(w, o) then Err(Passed(FromSendBtnEvent)) else Ok)
  }

  function CreateUsbDevice(w: World, o: Oracle, dev: UinputUserDev): Run
  {
    Run(Attempt(w, CreateUsb(dev)), if Fails(w, o) then Err(Passed(FromCreateUsbDevice)) else Ok)
  }

  function CloseDevice(w: World, o: Oracle): Run
  {
    Run(Attempt(w, CloseDeviceCall), if Fails(w, o) then Err(Passed(FromCloseDevice)) else Ok)
  }

  /*
    Reference semantics: an operation as the script of fallible steps it is
    meant to take. Running a script takes the steps in order and stops at the
    first one that fails, returning that step's error; a setup step marked
    `closeOnFailure` closes the device file before returning.
   */

  datatype Step =
    | Encode(error: Error)
    | Invoke(op: Op, error: Error, closeOnFailure: bool)

  function Exec(w: World, o: Oracle, script: seq<Step>): Run
    decreases |script|
  {
    if script == [] then Run(w, Ok)
    else
      var s := script[0];
      var w' := After(w, s);
      if Fails(w, o) then Run(if s.Invoke? && s.closeOnFailure then Emit(w', CloseFile) else w', Err(s.error))
      else Exec(w', o, script[1..])
  }

  /** The kernel calls of a script when none of its steps fails. */
  function Calls(script: seq<Step>): seq<Op>
  {
    if script == [] then [] else StepCalls(script[0]) + Calls(script[1..])
  }

  function StepCalls(s: Step): seq<Op>
  {
    if s.Invoke? then [s.op] else []
  }

  /** What a failing step leaves behind after its own call. */
  function Cleanup(s: Step): seq<Op>
  {
    if s.Invoke? && s.closeOnFailure then [CloseFile] else []
  }

  /** Index, relative to `start`, of the first of `n` steps that fails, or `n`. */
  function FirstFailure(o: Oracle, start: nat, n: nat): (k: nat)
    ensures k <= n
    ensures SucceedsFrom(o, start, k)
    ensures k < n ==> o(start + k)
    decreases n
  {
    if n == 0 || o(start) then 0 else 1 + FirstFailure(o, start + 1, n - 1)
  }

  lemma {:induction false} CallsAppend(a: seq<Step>, b: seq<Step>)
    ensures Calls(a + b) == Calls(a) + Calls(b)
    decreases |a|
  {
    if a == [] {
      assert a + b == b;
    } else {
      assert (a + b)[1..] == a[1..] + b;
      CallsAppend(a[1..], b);
    }
  }

  /** The world after a script's first step has been taken. */
  function After(w: World, s: Step): (w': World)
    ensures w'.trace == w.trace + StepCalls(s) && w'.steps == w.steps + 1
  {
    if s.Encode? then Skip(w) else Attempt(w, s.op)
  }

  lemma CallsOfOne(s: Step)
    ensures Calls([s]) == StepCalls(s)
  {
    assert [s][1..] == [];
  }

  /** Running a script whose first step succeeds is running the rest of it
      from the world after that step. */
  lemma ExecPastFirstStep(w: World, o: Oracle, script: seq<Step>)
    requires script != [] && !Fails(w, o)
    ensures Exec(w, o, script) == Exec(After(w, script[0]), o, script[1..])
  {
  }

  /** When no step of a script fails, running it issues every call of the
      script and succeeds. */
  lemma {:induction false} ExecAllSucceed(w: World, o: Oracle, script: seq<Step>)
    requires SucceedsFrom(o, w.steps, |script|)
    ensures Exec(w, o, script) == Run(World(w.trace + Calls(script), w.steps + |script|), Ok)
    decreases |script|
  {
    if script != [] {
      var s, rest := script[0], script[1..];
      var w' := After(w, s);
      ExecPastFirstStep(w, o, script);
      ExecAllSucceed(w', o, rest);
      TraceAssoc(w.trace, StepCalls(s), Calls(rest));
    }
  }

  lemma TraceAssoc(a: seq<Op>, b: seq<Op>, c: seq<Op>)
    ensures a + b + c == a + (b + c)
  {
  }

  /** When step `k` is the first of a script to fail, running it issues the
      calls of the steps before `k`, then the call of step `k` itself and its
      cleanup, and returns the error of step `k`. */
  lemma {:induction false} ExecFailsAt(w: World, o: Oracle, script: seq<Step>, k: nat)
    requires k < |script|
    requires SucceedsFrom(o, w.steps, k) && o(w.steps + k)
    ensures Exec(w, o, script)
         == Run(World(w.trace + Calls(script[..k]) + StepCalls(script[k]) + Cleanup(script[k]), w.steps + k + 1),
                Err(script[k].error))
    decreases k
  {
    var s, rest := script[0], script[1..];
    if k == 0 {
      assert script[..0] == [];
    } else {
      var w' := After(w, s);
      ExecPastFirstStep(w, o, script);
      ExecFailsAt(w', o, rest, k - 1);
      assert script[..k] == [s] + rest[..k - 1];
      CallsAppend([s], rest[..k - 1]);
      CallsOfOne(s);
      assert rest[k - 1] == script[k];
      TraceAssoc(w.trace, StepCalls(s), Calls(rest[..k - 1]));
    }
  }

  /** Running two scripts one after the other is running their concatenation. */
  lemma {:induction false} ExecAppend(w: World, o: Oracle, a: seq<Step>, b: seq<Step>)
    ensures Exec(w, o, a + b) == (var r := Exec(w, o, a); if r.status.Err? then r else Exec(r.world, o, b))
    decreases |a|
  {
    if a == [] {
      assert a + b == b;
    } else if !Fails(w, o) {
      assert (a + b)[1..] == a[1..] + b;
      ExecPastFirstStep(w, o, a + b);
      ExecPastFirstStep(w, o, a);
      ExecAppend(After(w, a[0]), o, a[1..], b);
    }
  }

  /** A script made only of kernel calls issues exactly those calls, one per step. */
  lemma {:induction false} CallsOfInvokes(script: seq<Step>)
    requires forall i :: 0 <= i < |script| ==> script[i].Invoke?
    ensures |Calls(script)| == |script|
    ensures forall i :: 0 <= i < |script| ==> Calls(script)[i] == script[i].op
    decreases |script|
  {
    if script != [] {
      CallsOfInvokes(script[1..]);
      assert Calls(script) == [script[0].op] + Calls(script[1..]);
    }
  }

  /** A script succeeds exactly when none of its steps fails. */
  lemma ExecOkIffNoFailure(w: World, o: Oracle, script: seq<Step>)
    ensures Exec(w, o, script).status.Ok? <==> SucceedsFrom(o, w.steps, |script|)
  {
    var k := FirstFailure(o, w.steps, |script|);
    if k < |script| {
      ExecFailsAt(w, o, script, k);
    } else {
      ExecAllSucceed(w, o, script);
    }
  }

  /*
    The registration-order invariant: a code is registered only after the
    category that owns it.
   */

  ghost predicate CategoriesFirst(t: seq<Op>)
  {
    forall i :: 0 <= i < |t| && t[i].SetBit? ==> RegisterType(Category(t[i].request)) in t[..i]
  }

  lemma CategoriesFirstPrefix(t: seq<Op>, n: nat)
    requires CategoriesFirst(t)
    requires n <= |t|
    ensures CategoriesFirst(t[..n])
  {
    forall i | 0 <= i < n && t[..n][i].SetBit?
      ensures RegisterType(Category(t[..n][i].request)) in t[..n][..i]
    {
      assert t[..n][..i] == t[..i];
    }
  }

  lemma CategoriesFirstClose(t: seq<Op>)
    requires CategoriesFirst(t)
    ensures CategoriesFirst(t + [CloseFile])
  {
    forall i | 0 <= i < |t + [CloseFile]| && (t + [CloseFile])[i].SetBit?
      ensures RegisterType(Category((t + [CloseFile])[i].request)) in (t + [CloseFile])[..i]
    {
      assert (t + [CloseFile])[..i] == t[..i];
    }
  }
}
