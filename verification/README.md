# uinput mouse and touchpad: a Dafny model

This project models how the Go package `uinput` turns high-level device
operations into an ordered trace of kernel interactions on the virtual input
device file: open, category registration, code registration (the bit-setting
control calls), submission of the USB device descriptor, event-record writes,
syncs and closes.

Two devices are covered:

- the **mouse**: two buttons and relative X/Y axes; moves write one
  relative-motion record and then sync;
- the **touchpad**: two buttons and absolute X/Y axes whose bounds go into
  the descriptor; `MoveTo` writes the X record, then the Y record, then syncs.

## How the model is built

- `kernel.dfy` (`Kernel`): 32-bit integers with Go's wrapping negation,
  symbolic event types and codes, event records and the device descriptor.
  The descriptor's bound arrays have 64 slots (ABS_CNT), with ABS_X in slot 0
  and ABS_Y in slot 1, as in the Linux input event-codes document.
- `errors.dfy` (`Errors`): one error per failing stage, and the text put in
  front of the underlying cause. `PrefixAsWritten` is the text as the source
  builds it; `Prefix` is the corrected text, which differs only for the
  relative encode failure (see "## Findings").
- `trace.dfy` (`Trace`): the device file is a `World`, meaning the kernel
  calls issued so far plus a count of fallible steps taken. Failure is
  injected by an oracle `nat -> bool`, which says whether the fallible step
  with a given index fails. Every helper whose code is outside this model is
  one fallible step. A failed call is still recorded, since it was issued.
  Encoding a record is a fallible step that records nothing. The close after
  an aborted setup takes no oracle index, because the source ignores its
  error. The module also holds a reference semantics: an operation as a script of steps,
  run by `Exec` until the first failure. It proves the closed form of running
  any script.
- `setup.dfy` (`Setup`): the registration order both devices share, as one
  script parameterised by the axis kind, with its properties proved for
  every oracle.
- `buttons.dfy` (`Buttons`): press, release and click, identical on both devices.
- `mouse.dfy` (`Mouse`) and `touchpad.dfy` (`TouchPad`): `SetUpMouse` and
  `SetUpTouchPad` model the unexported `createMouse` and `createTouchPad`;
  they follow the source step by step and are proved equal to the
  setup script. `SendRelEvent`, the `WriteEvents` loop and `SendAbsEvent` are
  also proved against their scripts. Each device's public methods are the
  arms of `Perform` over an `Action` datatype, one arm per method.
- `findings.dfy` (`Findings`): the encode-failure text collision, stated on
  the two devices' move operations.

Setup starts from `Unopened` (no calls, step index 0). Oracle index `k` is
therefore the k-th fallible setup step: 0 is the open, 1–6 are the
registrations and 7 is the descriptor submission.

## Model

| member | source | states |
|---|---|---|
| Kernel.Neg32 | mouse.go:68-70 | Go's unary minus on int32: the mathematical negation for every value except the smallest, which wraps around to itself |
| Kernel.Neg32Involutive | mouse.go:67-85 | negating twice gives the original value back, also at the wrap-around point |
| Errors.StageOfPrefix | mouse.go:134-173 | with the corrected encode-failure text, every error text names its stage: the stage can be read back from the text |
| Errors.StageOfAsWritten | mouse.go:134-200 | as the source writes them, every error text except the relative encode failure's names its stage |
| Errors.PrefixNamesStage | touchpad.go:106-145 | with the corrected texts, distinct failing stages give distinct error texts |
| Errors.AsWrittenEncodeTextsCollide | mouse.go:192-195 | as written, an encode failure in the relative sender has the same text as one in the absolute sender |
| Findings.MoveEncodeFailuresLookAlike | mouse.go:192-195 | when the first encode fails, a mouse move and a touchpad move return different errors whose texts, as written, are equal |
| Trace.ExecAllSucceed | touchpad.go:177-189 | when no step of an operation fails, it issues all its calls in order and succeeds |
| Trace.ExecFailsAt | mouse.go:140-173 | when step k fails first, the operation issues the calls of steps 0..k and nothing later, then the step's cleanup (close), and returns step k's error |
| Trace.ExecOkIffNoFailure | mouse.go:185-203 | an operation succeeds exactly when none of its steps fails |
| Trace.ExecAppend | touchpad.go:177-189 | running the write loop and then the sync is running the two scripts concatenated; the sync is skipped when the loop failed |
| Setup.SetupIssuesMandatedOrder | mouse.go:134-182 | with no failure, setup issues exactly: open, register key category, left and right button codes, axis category, X and Y codes, then the descriptor, and succeeds |
| Setup.SetupStopsAtFailedStage | mouse.go:135-173 | at the first failing stage, setup stops there. An open failure issues no control call and no close. A registration failure closes the file. Nothing later is issued, and the error names the stage |
| Setup.SetupOkIffNoFailure | touchpad.go:106-165 | setup succeeds exactly when none of its eight steps fails |
| Setup.SetupRegistersCategoriesFirst | touchpad.go:112-145 | whatever fails, no code is ever registered before the category that owns it |
| Mouse.Descriptor | mouse.go:175-182 | the mouse descriptor is bus USB, vendor 0x4711, product 0x0816, version 1, with the converted name; every absolute-bound slot is 0 |
| Mouse.SetUpMouse | mouse.go:134-138 | the open is the first call; if it fails, the trace is only the open and the "could not create relative axis" error is returned |
| Mouse.SetUpMouseFollowsScript | mouse.go:134-183 | creating a mouse runs the mandated setup script for relative axes, under every oracle |
| Mouse.SendRelEvent | mouse.go:185-203 | one record (type relative, given code and value, zero timestamp) is written, then a sync. An encode failure writes nothing. A write failure leaves the write but sends no sync. Success needs all three steps to succeed |
| Mouse.SendRelEventFollowsScript | mouse.go:185-203 | sending a relative event runs encode, write, sync and stops at the first failure |
| Mouse.Perform | mouse.go:67-132 | no mouse operation rewrites earlier calls; every record it writes is a relative record with a zero timestamp |
| Mouse.PerformFollowsScript | mouse.go:67-132 | each mouse method runs its intended steps and stops at the first failure |
| Mouse.OppositeMovesMirror | mouse.go:67-85 | MoveLeft(p) behaves exactly as MoveRight(-p) and MoveUp(p) as MoveDown(-p), with wrapping negation; the converse holds as well |
| Mouse.MoveSignConvention | mouse.go:67-85 | left/up write the wrapped negation of the pixel count on X/Y, right/down write it unchanged; MoveLeft(MinInt32) writes MinInt32 |
| Buttons.PressOrRelease | mouse.go:107-127 | a press or release issues exactly one button event with the matching button and state and nothing else; it fails only with the sender's own error |
| Buttons.Click | mouse.go:87-105 | a click is press then release of the same button. A failed press sends no release and returns the wrapped "Failed to issue the click" error. A failed release returns the sender's error unwrapped |
| TouchPad.Descriptor | touchpad.go:147-164 | the touchpad descriptor is bus USB, vendor 0x4711, product 0x0817, version 1. The X and Y slots hold exactly the given min/max and every other slot is 0 |
| TouchPad.SetUpTouchPad | touchpad.go:106-110 | the open is the first call; if it fails, the trace is only the open and the "could not create absolute axis" error is returned |
| TouchPad.SetUpTouchPadFollowsScript | touchpad.go:106-165 | creating a touchpad runs the mandated setup script for absolute axes, under every oracle |
| TouchPad.BoundsNotChecked | touchpad.go:46-56 | the bounds are not checked: setups differing only in bounds have the same status, steps and calls up to the descriptor |
| TouchPad.WriteEvents | touchpad.go:177-187 | the loop encodes and writes each record in order and stops at the first encode or write failure. It issues only writes of the given records |
| TouchPad.SendAbsEvent | touchpad.go:167-190 | a move issues only the X write, the Y write and the sync, appended after the earlier calls |
| TouchPad.SendAbsEventFollowsScript | touchpad.go:167-190 | sending an absolute position runs the write loop's script followed by the sync |
| TouchPad.MoveToOrder | touchpad.go:167-190 | MoveTo(x, y) writes [X=x, Y=y] unchanged, with zero timestamps, then one sync. An X failure sends neither Y nor the sync. A Y failure leaves X written and sends no sync |
| TouchPad.Perform | touchpad.go:58-104 | no touchpad operation rewrites earlier calls; every record it writes is an absolute record with a zero timestamp |
| TouchPad.PerformFollowsScript | touchpad.go:58-104 | each touchpad method runs its intended steps and stops at the first failure |

## Left out

- `validateDevicePath` and `validateUinputName` are not modelled. The
  constructors ignore their results (mouse.go:56-57, touchpad.go:47-48).
- The exported Go constructors `CreateMouse`/`CreateTouchPad` (mouse.go:55,
  touchpad.go:46) only call the unexported `createMouse`/`createTouchPad`,
  which `SetUpMouse`/`SetUpTouchPad` model, and pack the file and the name
  into a struct. That struct is not modelled beyond the `World`.
- The helpers `createDeviceFile`, `registerDevice`, `ioctl`,
  `createUsbDevice`, `sendBtnEvent`, `syncEvents`, `closeDevice`,
  `inputEventToBuffer` and `toUinputName` are not part of this model. Each is
  one opaque step that may fail, and no event sequence is claimed for their
  insides. The same applies to the numeric control-request values.
- The binary layout of an event record is not modelled, and neither is its
  decoding or an encode/decode round trip. It depends on the platform's
  native width and byte order, and the encoder is not part of this model.
- Behaviour after `Close`, such as a "device closed" error or a double
  close, is not modelled. Nothing in mouse.go or touchpad.go implements it.
- When `createUsbDevice` fails, `createMouse` and `createTouchPad` return its error without
  closing the file. The model records no close there. Whatever the helper
  does internally is not modelled. This is narrower than a "never left half
  registered" promise.
- The wrapped cause after ": " in each error text is not modelled. Only the
  core's own prefix is.
- Descriptor fields that the source leaves at their zero value are not
  modelled. The name, identity and the two bound arrays are.
- Timestamps are unbounded integers. The records always carry 0/0.
- Concurrency and the kernel's interpretation of events are not modelled.

## Findings

| source | as written | input that shows it | evidently intended | confidence | as-written member | corrected member |
|---|---|---|---|---|---|---|
| mouse.go:192-195 | when encoding a relative-motion record fails, `sendRelEvent` returns "writing abs event failed", the text of the absolute sender (touchpad.go:180) | `MoveLeft(1)` with the encode step failing returns the same text as `MoveTo(0, 0)` with its first encode failing | "writing rel event failed", in line with the write-failure text at mouse.go:199 | medium, not executed | Findings.MoveEncodeFailuresLookAlike | Errors.PrefixNamesStage |

`Errors.PrefixAsWritten` keeps the source's text, and
`Errors.AsWrittenEncodeTextsCollide` shows the two encode failures sharing it.
`Errors.Prefix` is the corrected text: it names the kind of event being
encoded, and `Errors.PrefixNamesStage` proves that every stage then has its
own text.
