/** Fixed-width C integer arithmetic used by the firmware (uint8_t, int8_t, int16_t, uint32_t),
  * written out explicitly because Dafny integers are unbounded. */
module IntWidth {

  predicate IsUint8(x: int) { 0 <= x < 0x100 }
  predicate IsUint16(x: int) { 0 <= x < 0x1_0000 }
  predicate IsInt16(x: int) { -0x8000 <= x < 0x8000 }
  predicate IsUint32(x: int) { 0 <= x < 0x1_0000_0000 }

  /** Conversion of an integer to int8_t (two's complement wrap-around, as on the ARM target). */
  function WrapInt8(x: int): (r: int)
    ensures -0x80 <= r < 0x80
    ensures (r - x) % 0x100 == 0
    ensures -0x80 <= x < 0x80 ==> r == x
  {
    var m := x % 0x100;
    if m < 0x80 then m else m - 0x100
  }

  /** Conversion of an integer to int16_t (two's complement wrap-around, as on the ARM target). */
  function WrapInt16(x: int): (r: int)
    ensures IsInt16(r)
    ensures (r - x) % 0x1_0000 == 0
    ensures IsInt16(x) ==> r == x
  {
    var m := x % 0x1_0000;
    if m < 0x8000 then m else m - 0x1_0000
  }

  /** Conversion of an integer to uint8_t. */
  function WrapUint8(x: int): (r: int)
    ensures IsUint8(r)
    ensures (r - x) % 0x100 == 0
    ensures IsUint8(x) ==> r == x
  {
    x % 0x100
  }

  /** `now - since` computed in uint32_t, i.e. the milliseconds elapsed across a millis() roll-over. */
  function ElapsedMs(now: int, since: int): (r: int)
    requires IsUint32(now) && IsUint32(since)
    ensures IsUint32(r)
    ensures since <= now ==> r == now - since
    ensures now < since ==> r == now - since + 0x1_0000_0000
  {
    (now - since) % 0x1_0000_0000
  }

  /** Arduino `constrain(x, lo, hi)`. */
  function Constrain(x: int, lo: int, hi: int): (r: int)
    requires lo <= hi
    ensures lo <= r <= hi
    ensures lo <= x <= hi ==> r == x
    ensures x < lo ==> r == lo
    ensures hi < x ==> r == hi
  {
    if x < lo then lo else if x > hi then hi else x
  }

  lemma ConstrainMonotone(x: int, y: int, lo: int, hi: int)
    requires lo <= hi && x <= y
    ensures Constrain(x, lo, hi) <= Constrain(y, lo, hi)
  {
  }
}
