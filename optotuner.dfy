/** src/Class_OptoTuner.h: an optotune lens driver holding one clamped power value.
  * MAX_OPTOTUNE_POWER is not defined in the sources modelled here, so it is a constructor parameter. */
module OptoTuner {
  import opened IntWidth

  class OptoTune {
    const maxPower: nat
    var pinPower: nat
    var power: int
    ghost var pinLog: seq<int>

    /** The power held is always within [0, MAX_OPTOTUNE_POWER], and the bound fits the uint16_t
      * power it clamps. */
    ghost predicate Valid()
      reads this
    {
      IsUint16(maxPower) && 0 <= power <= maxPower
    }

    /** `defaultPower = MAX_OPTOTUNE_POWER >> 1`, the middle of the range. */
    function DefaultPower(): (p: int)
      ensures 0 <= p <= maxPower && 2 * p <= maxPower < 2 * p + 2
    {
      maxPower / 2
    }

    /** `OptoTune(pin)`: runs `init(pin)`. */
    constructor (maxOptotunePower: nat, pin: nat)
      requires IsUint16(maxOptotunePower)
      ensures Valid() && maxPower == maxOptotunePower
      ensures pinPower == pin && power == DefaultPower() && pinLog == [DefaultPower()]
    {
      maxPower := maxOptotunePower;
      pinPower := pin;
      power := maxOptotunePower / 2;
      pinLog := [maxOptotunePower / 2];
    }

    /** `init`: sets the pin and stores the default power. */
    method Init(pin: nat)
      requires IsUint16(maxPower)
      modifies this
      ensures Valid()
      ensures pinPower == pin && power == DefaultPower() && pinLog == old(pinLog) + [DefaultPower()]
    {
      pinPower := pin;
      SetStatePower(DefaultPower());
    }

    /** `setStatePower(uint16_t)`: stores the clamped power and writes it to the pin. */
    method SetStatePower(p: int)
      requires IsUint16(maxPower) && IsUint16(p)
      modifies this`power, this`pinLog
      ensures Valid()
      ensures power == Constrain(p, 0, maxPower)
      ensures pinLog == old(pinLog) + [power]
    {
      power := Constrain(p, 0, maxPower);
      pinLog := pinLog + [power];
    }

    /** `setPower(uint16_t)`: writes the clamped value to the pin and keeps the stored power. */
    method SetPower(p: int)
      requires IsUint16(p)
      modifies this`pinLog
      ensures pinLog == old(pinLog) + [Constrain(p, 0, maxPower)]
    {
      pinLog := pinLog + [Constrain(p, 0, maxPower)];
    }

    /** `setToCurrentState`: re-writes the stored power; the state does not change. */
    method SetToCurrentState()
      requires Valid()
      modifies this`power, this`pinLog
      ensures Valid()
      ensures power == old(power)
      ensures pinLog == old(pinLog) + [power]
    {
      SetStatePower(power);
    }
  }

  /** setToCurrentState is idempotent: a second call leaves the power as the first left it. */
  method SetToCurrentStateTwice(o: OptoTune)
    requires o.Valid()
    modifies o
    ensures o.Valid() && o.power == old(o.power)
    ensures o.pinLog == old(o.pinLog) + [o.power, o.power]
  {
    o.SetToCurrentState();
    o.SetToCurrentState();
  }
}
