/** src/Class_Laser.cpp: a laser's state (power, switch, carrier, blanking) with a push/pop stack.
  * Pin writes are kept as a ghost log of hardware outputs. */
module Laser {
  import opened IntWidth

  const MAX_LASER_POWER := 4095
  /** `0.58 * 2048` converted to the integer duty value of `analogWrite`. */
  const CARRIER_DUTY := 1187

  datatype LaserState = LaserState(power: int, stateSwitch: bool, stateCarrier: bool, stateBlanking: bool)

  /** The default state: power 2000, switched off, carrier off, blanking off. */
  const DefaultState := LaserState(2000, false, false, false)

  datatype PinOp = DigitalWrite(pin: nat, level: bool) | AnalogWrite(pin: nat, value: int) | PinModeOutput(pin: nat)

  predicate PowerInRange(s: LaserState) { 0 <= s.power <= MAX_LASER_POWER }

  /** The state `myState` holds after `setState(s)`: `setToCurrentState` stores the power clamped. */
  function Applied(s: LaserState): (r: LaserState)
    ensures PowerInRange(r)
    ensures r.stateSwitch == s.stateSwitch && r.stateCarrier == s.stateCarrier && r.stateBlanking == s.stateBlanking
    ensures PowerInRange(s) ==> r == s
  {
    s.(power := Constrain(s.power, 0, MAX_LASER_POWER))
  }

  lemma AppliedIdempotent(s: LaserState)
    ensures Applied(Applied(s)) == Applied(s)
  {
  }

  /** The pin operations `setSwitch(level)` performs for a given carrier mode. */
  function SwitchOps(carrier: bool, level: bool, pinSwitch: nat): (ops: seq<PinOp>)
    ensures !carrier ==> ops == [DigitalWrite(pinSwitch, level)]
    ensures carrier && !level ==> ops == [PinModeOutput(pinSwitch), DigitalWrite(pinSwitch, false)]
    ensures carrier && level ==> ops == [AnalogWrite(pinSwitch, CARRIER_DUTY)]
  {
    if carrier then
      (if !level then [PinModeOutput(pinSwitch), DigitalWrite(pinSwitch, false)]
       else [AnalogWrite(pinSwitch, CARRIER_DUTY)])
    else [DigitalWrite(pinSwitch, level)]
  }

  class Laser {
    var pinPower: nat
    var pinSwitch: nat
    var myState: LaserState
    var stateStack: seq<LaserState>
    ghost var pinLog: seq<PinOp>

    /** Every stored state has its power in range: all writes to `myState.power` go through `constrain`. */
    ghost predicate Valid()
      reads this
    {
      PowerInRange(myState) && forall i :: 0 <= i < |stateStack| ==> PowerInRange(stateStack[i])
    }

    /** `Laser(pinPower, pinSwitch)`: the member initialiser sets the default state, then `init`. */
    constructor (pPower: nat, pSwitch: nat)
      ensures Valid()
      ensures pinPower == pPower && pinSwitch == pSwitch
      ensures myState == DefaultState && stateStack == [] && pinLog == []
    {
      pinPower, pinSwitch := pPower, pSwitch;
      myState := DefaultState;
      stateStack := [];
      pinLog := [];
    }

    /** `init`: sets the pins and empties the state stack; the state itself is kept. */
    method Init(pPower: nat, pSwitch: nat)
      requires Valid()
      modifies this
      ensures Valid()
      ensures pinPower == pPower && pinSwitch == pSwitch
      ensures myState == old(myState) && stateStack == [] && pinLog == old(pinLog)
    {
      pinPower, pinSwitch := pPower, pSwitch;
      ClearStateStack();
    }

    /** `setSwitch`: drives the switch pin only. */
    method SetSwitch(level: bool)
      modifies this`pinLog
      ensures pinLog == old(pinLog) + SwitchOps(myState.stateCarrier, level, pinSwitch)
    {
      if myState.stateCarrier {
        if !level {
          pinLog := pinLog + [PinModeOutput(pinSwitch), DigitalWrite(pinSwitch, false)];
        } else {
          pinLog := pinLog + [AnalogWrite(pinSwitch, CARRIER_DUTY)];
        }
      } else {
        pinLog := pinLog + [DigitalWrite(pinSwitch, level)];
      }
    }

    /** `setPower`: writes the clamped power to the pin without touching the state. */
    method SetPower(power: int)
      requires IsUint16(power)
      modifies this`pinLog
      ensures pinLog == old(pinLog) + [AnalogWrite(pinPower, Constrain(power, 0, MAX_LASER_POWER))]
    {
      pinLog := pinLog + [AnalogWrite(pinPower, Constrain(power, 0, MAX_LASER_POWER))];
    }

    /** `setStateSwitch`: stores the switch state and drives the pin, only when it changes. */
    method SetStateSwitch(s: bool)
      modifies this`myState, this`pinLog
      ensures myState == old(myState).(stateSwitch := s)
      ensures old(myState.stateSwitch) == s ==> pinLog == old(pinLog)
      ensures old(myState.stateSwitch) != s ==> pinLog == old(pinLog) + SwitchOps(myState.stateCarrier, s, pinSwitch)
    {
      if myState.stateSwitch != s {
        myState := myState.(stateSwitch := s);
        SetSwitch(s);
      }
    }

    /** `toggleStateSwitch`: negates the switch state and drives the pin. */
    method ToggleStateSwitch()
      modifies this`myState, this`pinLog
      ensures myState == old(myState).(stateSwitch := !old(myState.stateSwitch))
      ensures pinLog == old(pinLog) + SwitchOps(myState.stateCarrier, myState.stateSwitch, pinSwitch)
    {
      myState := myState.(stateSwitch := !myState.stateSwitch);
      SetSwitch(myState.stateSwitch);
    }

    /** `setStatePower`: stores the clamped power; the pin receives the value as given. */
    method SetStatePower(power: int)
      requires IsUint16(power)
      modifies this`myState, this`pinLog
      ensures PowerInRange(myState)
      ensures myState == old(myState).(power := Constrain(power, 0, MAX_LASER_POWER))
      ensures pinLog == old(pinLog) + [AnalogWrite(pinPower, power)]
    {
      myState := myState.(power := Constrain(power, 0, MAX_LASER_POWER));
      pinLog := pinLog + [AnalogWrite(pinPower, power)];
    }

    /** `setStateCarrier`: stores the carrier mode and re-drives the switch pin in that mode. */
    method SetStateCarrier(c: bool)
      modifies this`myState, this`pinLog
      ensures myState == old(myState).(stateCarrier := c)
      ensures pinLog == old(pinLog) + SwitchOps(c, myState.stateSwitch, pinSwitch)
    {
      myState := myState.(stateCarrier := c);
      SetSwitch(myState.stateSwitch);
    }

    method SetStateBlanking(b: bool)
      modifies this`myState
      ensures myState == old(myState).(stateBlanking := b)
    {
      myState := myState.(stateBlanking := b);
    }

    /** `updateBlank`: switches the laser off when blanking is on, without changing the state. */
    method UpdateBlank()
      modifies this`pinLog
      ensures myState.stateBlanking ==> pinLog == old(pinLog) + SwitchOps(myState.stateCarrier, false, pinSwitch)
      ensures !myState.stateBlanking ==> pinLog == old(pinLog)
    {
      if myState.stateBlanking {
        SetSwitch(false);
      }
    }

    /** `setToCurrentState`: re-applies every field; only the power can change (it is clamped). */
    method SetToCurrentState()
      requires IsUint16(myState.power)
      modifies this`myState, this`pinLog
      ensures myState == Applied(old(myState))
      ensures PowerInRange(old(myState)) ==> myState == old(myState)
    {
      SetStateSwitch(myState.stateSwitch);
      SetStateCarrier(myState.stateCarrier);
      SetStatePower(myState.power);
      SetStateBlanking(myState.stateBlanking);
    }

    /** `setState`: stores `s`, then `setToCurrentState` (which clamps the power). */
    method SetState(s: LaserState)
      requires Valid() && IsUint16(s.power)
      modifies this`myState, this`pinLog
      ensures Valid()
      ensures myState == Applied(s)
      ensures PowerInRange(s) ==> GetCurrentState() == s
    {
      myState := s;
      SetToCurrentState();
    }

    /** `resetState`: back to the default state; the stack is untouched. */
    method ResetState()
      requires Valid()
      modifies this`myState, this`pinLog
      ensures Valid()
      ensures myState == DefaultState && stateStack == old(stateStack)
    {
      SetState(DefaultState);
    }

    function GetCurrentState(): (s: LaserState)
      reads this
      ensures s == myState
    {
      myState
    }

    method PushState()
      requires Valid()
      modifies this`stateStack
      ensures Valid()
      ensures stateStack == old(stateStack) + [myState]
    {
      stateStack := stateStack + [myState];
    }

    /** `popState`: `setState(back())` then `pop_back()`; `back()` of an empty vector is undefined. */
    method PopState()
      requires Valid() && |stateStack| > 0
      modifies this`myState, this`pinLog, this`stateStack
      ensures Valid()
      ensures myState == old(stateStack[|stateStack| - 1])
      ensures stateStack == old(stateStack[..|stateStack| - 1])
    {
      SetState(stateStack[|stateStack| - 1]);
      stateStack := stateStack[..|stateStack| - 1];
    }

    method ClearStateStack()
      modifies this`stateStack
      ensures stateStack == []
    {
      stateStack := [];
    }
  }

  /** pushState followed by popState restores the state and the stack depth. */
  method PushThenPop(l: Laser)
    requires l.Valid()
    modifies l
    ensures l.Valid()
    ensures l.myState == old(l.myState) && l.stateStack == old(l.stateStack)
  {
    l.PushState();
    l.PopState();
  }

  /** toggleStateSwitch applied twice leaves the state as it was. */
  method ToggleTwice(l: Laser)
    requires l.Valid()
    modifies l
    ensures l.Valid()
    ensures l.myState == old(l.myState) && l.stateStack == old(l.stateStack)
  {
    l.ToggleStateSwitch();
    l.ToggleStateSwitch();
  }
}
