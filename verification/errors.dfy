/**
  The errors the devices return. Every error value the core builds itself
  names the stage that failed; errors produced by helpers outside the core
  are passed through unchanged. As written, every error text names its
  stage too, except the relative encode failure's (see `PrefixAsWritten`);
  the corrected texts (`Prefix`) all do.
 */
module Errors {
  import opened Kernel

  datatype Option<T> = None | Some(value: T)

  /** Which kind of axis device an error comes from: the mouse has relative
      axes, the touchpad absolute ones. */
  datatype Axes = Relative | Absolute

  /** Helpers outside the core whose own errors are returned unwrapped. */
  datatype Helper = FromCreateUsbDevice | FromSyncEvents | FromSendBtnEvent | FromCloseDevice

  datatype Error =
    | CouldNotCreate(axes: Axes)
    | RegisterKeyDevice
    | RegisterLeftClick
    | RegisterRightClick
    | RegisterAxisDevice(axes: Axes)
    | RegisterXAxis(axes: Axes)
    | RegisterYAxis(axes: Axes)
    | EncodeEvent(axes: Axes)
    | WriteEvent(axes: Axes)
    | IssueClick(button: Button)
    | Passed(helper: Helper)

  /** The corrected text put in front of the underlying cause (": %v"): the
      source's text, except that the encode-failure text names the event
      kind it was encoding. */
  function Prefix(e: Error): string
    requires !e.Passed?
  {
    match e
    case CouldNotCreate(Relative) => "could not create relative axis input device"
    case CouldNotCreate(Absolute) => "could not create absolute axis input device"
    case RegisterKeyDevice => "failed to register key device"
    case RegisterLeftClick => "failed to register left click event"
    case RegisterRightClick => "failed to register right click event"
    case RegisterAxisDevice(Relative) => "failed to register relative axis input device"
    case RegisterAxisDevice(Absolute) => "failed to register absolute axis input device"
    case RegisterXAxis(Relative) => "failed to register relative x axis events"
    case RegisterXAxis(Absolute) => "failed to register absolute x axis events"
    case RegisterYAxis(Relative) => "failed to register relative y axis events"
    case RegisterYAxis(Absolute) => "failed to register absolute y axis events"
    case EncodeEvent(Relative) => "writing rel event failed"
    case EncodeEvent(Absolute) => "writing abs event failed"
    case WriteEvent(Relative) => "failed to write rel event to device file"
    case WriteEvent(Absolute) => "failed to write abs event to device file"
    case IssueClick(Left) => "Failed to issue the LeftClick event"
    case IssueClick(Right) => "Failed to issue the RightClick event"
  }

  /** The text as the source writes it: the relative-event sender reuses the
      absolute-event sender's encode-failure text. */
  function PrefixAsWritten(e: Error): string
    requires !e.Passed?
  {
    if e.EncodeEvent? then "writing abs event failed" else Prefix(e)
  }

  /** As written, an encode failure while sending a relative event cannot be
      told apart from one while sending an absolute event. */
  lemma AsWrittenEncodeTextsCollide()
    ensures EncodeEvent(Relative) != EncodeEvent(Absolute)
    ensures PrefixAsWritten(EncodeEvent(Relative)) == PrefixAsWritten(EncodeEvent(Absolute))
  {
  }

  function AxesAt(s: string, i: nat): Axes
  {
    if i < |s| && s[i] == 'r' then Relative else Absolute
  }

  /** Recovers the failing stage from one of the core's texts. The texts have
      eight distinct lengths; texts of equal length differ only in the axis
      word ("relative"/"absolute", "rel"/"abs"), in the x/y of an axis
      registration, or in whether the text is a registration or a click
      ("failed to register …" or "Failed to issue …"). The decoder reads
      exactly those characters. */
  function StageOf(s: string): Option<Error>
  {
    if |s| == 24 then Some(EncodeEvent(AxesAt(s, 8)))
    else if |s| == 29 then Some(RegisterKeyDevice)
    else if |s| == 35 then Some(if s[0] == 'F' then IssueClick(Left) else RegisterLeftClick)
    else if |s| == 36 then Some(if s[0] == 'F' then IssueClick(Right) else RegisterRightClick)
    else if |s| == 40 then Some(WriteEvent(AxesAt(s, 16)))
    else if |s| == 41 then Some(if s[28] == 'x' then RegisterXAxis(AxesAt(s, 19)) else RegisterYAxis(AxesAt(s, 19)))
    else if |s| == 43 then Some(CouldNotCreate(AxesAt(s, 17)))
    else if |s| == 45 then Some(RegisterAxisDevice(AxesAt(s, 19)))
    else None
  }

  /** Every corrected text names its stage: reading the stage back from the
      text gives the error it was built for. The texts are read back a
      pair at a time, in the lemmas below. */
  lemma StageOfPrefix(e: Error)
    requires !e.Passed?
    ensures StageOf(Prefix(e)) == Some(e)
  {
    match e
    case CouldNotCreate(Relative) | CouldNotCreate(Absolute) => CreateTextsReadBack();
    case RegisterKeyDevice | RegisterLeftClick | RegisterRightClick => KeyTextsReadBack();
    case RegisterAxisDevice(Relative) | RegisterAxisDevice(Absolute) => AxisDeviceTextsReadBack();
    case RegisterXAxis(Relative) | RegisterXAxis(Absolute) => XAxisTextsReadBack();
    case RegisterYAxis(Relative) | RegisterYAxis(Absolute) => YAxisTextsReadBack();
    case EncodeEvent(Relative) | EncodeEvent(Absolute) => EncodeTextsReadBack();
    case WriteEvent(Relative) | WriteEvent(Absolute) => WriteTextsReadBack();
    case IssueClick(Left) | IssueClick(Right) => ClickTextsReadBack();
  }

  // The read-back of each kind of stage, for both axis kinds or both buttons.

  lemma CreateTextsReadBack()
    ensures StageOf(Prefix(CouldNotCreate(Relative))) == Some(CouldNotCreate(Relative))
    ensures StageOf(Prefix(CouldNotCreate(Absolute))) == Some(CouldNotCreate(Absolute))
  {
  }

  lemma KeyTextsReadBack()
    ensures StageOf(Prefix(RegisterKeyDevice)) == Some(RegisterKeyDevice)
    ensures StageOf(Prefix(RegisterLeftClick)) == Some(RegisterLeftClick)
    ensures StageOf(Prefix(RegisterRightClick)) == Some(RegisterRightClick)
  {
  }

  lemma AxisDeviceTextsReadBack()
    ensures StageOf(Prefix(RegisterAxisDevice(Relative))) == Some(RegisterAxisDevice(Relative))
    ensures StageOf(Prefix(RegisterAxisDevice(Absolute))) == Some(RegisterAxisDevice(Absolute))
  {
  }

  lemma XAxisTextsReadBack()
    ensures StageOf(Prefix(RegisterXAxis(Relative))) == Some(RegisterXAxis(Relative))
    ensures StageOf(Prefix(RegisterXAxis(Absolute))) == Some(RegisterXAxis(Absolute))
  {
  }

  lemma YAxisTextsReadBack()
    ensures StageOf(Prefix(RegisterYAxis(Relative))) == Some(RegisterYAxis(Relative))
    ensures StageOf(Prefix(RegisterYAxis(Absolute))) == Some(RegisterYAxis(Absolute))
  {
  }

  lemma EncodeTextsReadBack()
    ensures StageOf(Prefix(EncodeEvent(Relative))) == Some(EncodeEvent(Relative))
    ensures StageOf(Prefix(EncodeEvent(Absolute))) == Some(EncodeEvent(Absolute))
  {
  }

  lemma WriteTextsReadBack()
    ensures StageOf(Prefix(WriteEvent(Relative))) == Some(WriteEvent(Relative))
    ensures StageOf(Prefix(WriteEvent(Absolute))) == Some(WriteEvent(Absolute))
  {
  }

  lemma ClickTextsReadBack()
    ensures StageOf(Prefix(IssueClick(Left))) == Some(IssueClick(Left))
    ensures StageOf(Prefix(IssueClick(Right))) == Some(IssueClick(Right))
  {
  }

  /** As written, every text but the relative encode failure still names its
      stage. */
  lemma StageOfAsWritten(e: Error)
    requires !e.Passed? && e != EncodeEvent(Relative)
    ensures StageOf(PrefixAsWritten(e)) == Some(e)
  {
    StageOfPrefix(e);
  }

  /** With the corrected texts, distinct failing stages give distinct texts,
      so a caller can tell from the text alone which stage failed. */
  lemma PrefixNamesStage(e1: Error, e2: Error)
    requires !e1.Passed? && !e2.Passed?
    requires Prefix(e1) == Prefix(e2)
    ensures e1 == e2
  {
    StageOfPrefix(e1);
    StageOfPrefix(e2);
  }
}
