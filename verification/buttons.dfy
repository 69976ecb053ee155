/**
  Button handling shared by the mouse and the touchpad: both devices press,
  release and click their left and right buttons in the same way.
 */
module Buttons {
  import opened Kernel
  import opened Errors
  import opened Trace

  /** One button event, whose failure is the sending helper's own error. */
  function ButtonStep(b: Button, state: ButtonState, error: Error): Step
  {
    Invoke(SendBtn(ButtonCode(b), state), error, false)
  }

  /** The intended steps of a click: press, then release, of the same button;
      a failed press is reported as a failure to issue the click. */
  function ClickScript(b: Button): seq<Step>
  {
    [ButtonStep(b, Pressed, IssueClick(b)), ButtonStep(b, Released, Passed(FromSendBtnEvent))]
  }

  /** Pressing or releasing a button: exactly one button event for that
      button and state, and nothing else. */
  function PressOrRelease(w: World, o: Oracle, b: Button, state: ButtonState): (r: Run)
    ensures r.world.trace == w.trace + [SendBtn(ButtonCode(b), state)]
    ensures r.status.Ok? <==> !Fails(w, o)
    ensures r.status.Err? ==> r.status.error == Passed(FromSendBtnEvent)
  {
    SendBtnEvent(w, o, ButtonCode(b), state)
  }

  /** A click: press then release of the same button. A failed press stops
      the click before the release and is wrapped; a failed release is
      returned as it is. */
  function Click(w: World, o: Oracle, b: Button): (r: Run)
    ensures r == Exec(w, o, ClickScript(b))
    ensures var c, s := ButtonCode(b), w.steps;
            && (!o(s) && !o(s + 1) ==> r == Run(World(w.trace + [SendBtn(c, Pressed), SendBtn(c, Released)], s + 2), Ok))
            && (o(s) ==> r == Run(World(w.trace + [SendBtn(c, Pressed)], s + 1), Err(IssueClick(b))))
            && (!o(s) && o(s + 1) ==> r == Run(World(w.trace + [SendBtn(c, Pressed), SendBtn(c, Released)], s + 2),
                                               Err(Passed(FromSendBtnEvent))))
  {
    var press := SendBtnEvent(w, o, ButtonCode(b), Pressed);
    if press.status.Err? then
      Run(press.world, Err(IssueClick(b)))
    else
      SendBtnEvent(press.world, o, ButtonCode(b), Released)
  }
}
