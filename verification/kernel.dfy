/**
  Values of the Linux virtual input (uinput) protocol that the mouse and
  touchpad devices exchange with the kernel: fixed-width integers, event
  types and codes, event records and the device descriptor submitted when
  the virtual device is created.

  Event types and codes are kept symbolic; where a numeric value matters
  (the slot of an axis in the descriptor's bound arrays) it follows the
  Linux input event-codes document.
 */
module Kernel {

  newtype int32 = x: int | -0x8000_0000 <= x < 0x8000_0000
  newtype uint16 = x: int | 0 <= x < 0x1_0000
  newtype byte = x: int | 0 <= x < 0x100

  const MinInt32: int32 := -0x8000_0000

  /** Unary minus on a 32-bit two's-complement integer: the mathematical
      negation reduced modulo 2^32 into the signed range. */
  function Neg32(x: int32): (r: int32)
    ensures x != MinInt32 ==> r as int == -(x as int)
    ensures x == MinInt32 ==> r == MinInt32
  {
    var m := (0x8000_0000 - x as int) % 0x1_0000_0000;
    (m - 0x8000_0000) as int32
  }

  /** Negating twice gives the value back, including at the wrap-around point. */
  lemma Neg32Involutive(x: int32)
    ensures Neg32(Neg32(x)) == x
  {
  }

  /** Event categories a device registers before it may emit events of them. */
  datatype EventType = EvKey | EvRel | EvAbs

  /** Event codes the two devices use: two buttons and two axes of each kind. */
  datatype Code = BtnLeft | BtnRight | RelX | RelY | AbsX | AbsY

  /** The control requests that register one code of a category. */
  datatype BitRequest = UiSetKeyBit | UiSetRelBit | UiSetAbsBit

  /** The event category whose codes a bit request registers. */
  function Category(req: BitRequest): EventType
  {
    match req
    case UiSetKeyBit => EvKey
    case UiSetRelBit => EvRel
    case UiSetAbsBit => EvAbs
  }

  datatype Button = Left | Right

  function ButtonCode(b: Button): Code
  {
    match b
    case Left => BtnLeft
    case Right => BtnRight
  }

  datatype ButtonState = Pressed | Released

  datatype BusType = BusUsb

  datatype Timeval = Timeval(sec: int, usec: int)

  const ZeroTime: Timeval := Timeval(0, 0)

  /** One record of the event protocol. */
  datatype InputEvent = InputEvent(time: Timeval, eventType: EventType, code: Code, value: int32)

  datatype InputId = InputId(bustype: BusType, vendor: uint16, product: uint16, version: uint16)

  /** The fixed-size name field derived from the caller's name bytes; how the
      bytes are truncated or padded is not part of this model. */
  datatype UinputName = ToUinputName(source: seq<byte>)

  /** The descriptor submitted to create the device; the bound arrays have
      one slot per absolute axis code. */
  datatype UinputUserDev = UinputUserDev(name: UinputName, id: InputId, absMin: seq<int32>, absMax: seq<int32>)

  /** Number of absolute axis codes (ABS_CNT). */
  const AbsSize: nat := 64

  /** Slot of an absolute axis code in the descriptor's bound arrays. */
  function AbsSlot(c: Code): (i: nat)
    requires c.AbsX? || c.AbsY?
    ensures i < AbsSize
  {
    if c.AbsX? then 0 else 1
  }

  /** A bound array with every slot zero, as Go's zero value of the array. */
  function ZeroBounds(): (a: seq<int32>)
    ensures |a| == AbsSize
    ensures forall i :: 0 <= i < |a| ==> a[i] == 0
  {
    seq(AbsSize, _ => 0)
  }
}
