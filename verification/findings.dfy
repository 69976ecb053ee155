/**
  The encode-failure text of the mouse's relative sender, at the level of the
  device operations: a mouse move and a touchpad move whose first encode
  fails return errors whose texts, as written, are equal.
 */
module Findings {
  import opened Kernel
  import opened Errors
  import opened Trace
  import Mouse
  import TouchPad

  /** When the first encode fails, every mouse move reports a relative encode
      failure and a touchpad move an absolute one, and the texts the source
      builds for the two are the same. */
  lemma MoveEncodeFailuresLookAlike(w: World, o: Oracle, p: int32, x: int32, y: int32)
    requires o(w.steps)
    ensures var rm := Mouse.Perform(w, o, Mouse.MoveLeft(p));
            var rt := TouchPad.Perform(w, o, TouchPad.MoveTo(x, y));
            && rm.status == Err(EncodeEvent(Relative))
            && rt.status == Err(EncodeEvent(Absolute))
            && rm.status.error != rt.status.error
            && PrefixAsWritten(rm.status.error) == PrefixAsWritten(rt.status.error)
  {
    TouchPad.MoveToOrder(w, o, x, y);
  }
}
