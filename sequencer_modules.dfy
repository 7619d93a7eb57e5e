/** src/Class_Sequencer.h: the dataflow modules of the sequencer. Every module follows the
  * two-phase protocol: `update` computes `nextState` from the linked module's current state,
  * `refresh` then commits it and calls `action` on a change. The six module classes are one
  * Dafny class with a constant `kind`; each virtual method dispatches on it. The step semantics
  * are pure functions on `Params` (what the setters change) and `Vars` (what a step changes), and
  * every method is proved against them. `millis()` is the parameter `now`, `digitalRead` the
  * parameter `pins`. */
module SequencerModules {
  import opened IntWidth

  datatype Kind = ClockKind | InputKind | OutputKind | LaserKind | PulsarKind | TriggerKind

  /** `TriggerProcessor::StateMachine`. */
  datatype Phase = BurstPhase | SkipPhase

  /** The configuration of a module. `pin` is the trigger pin of an input or output trigger. */
  datatype Params = Params(kind: Kind, pin: nat, periodMs: nat, mode: nat, burstLength: nat,
                           skipLength: nat, offsetEvents: nat, tOffMs: nat, tOnMs: nat)

  /** The state a sequencer step changes. `clockTimer` belongs to a clock, `counterEvents` and
    * `stateMachine` to a trigger processor, `timerPulsar` to a pulsar. */
  datatype Vars = Vars(active: bool, state: bool, nextState: bool, firstTime: bool, clockTimer: nat,
                       counterEvents: int, stateMachine: Phase, timerPulsar: nat)

  /** The C widths of the fields: uint8_t pin and mode, uint16_t burst, skip and offset, uint32_t
    * periods and timers. */
  predicate ParamsOk(p: Params)
  {
    IsUint8(p.pin) && IsUint32(p.periodMs) && IsUint8(p.mode) && IsUint16(p.burstLength)
    && IsUint16(p.skipLength) && IsUint16(p.offsetEvents) && IsUint32(p.tOffMs) && IsUint32(p.tOnMs)
  }

  predicate VarsOk(v: Vars)
  {
    IsUint32(v.clockTimer) && IsUint32(v.timerPulsar)
  }

  /** The field initialisers and `init` of each class: clocks start inactive with a 1000 ms
    * period, trigger processors start with state true, mode RISE, burst 1, skip 0, offset 0; a
    * pulsar is off for 0 ms and on for 50 ms. */
  function InitialParams(k: Kind, pin: nat): Params
  {
    Params(k, pin, 1000, 0, 1, 0, 0, 0, 50)
  }

  function InitialVars(k: Kind, now: nat): Vars
  {
    Vars(k != ClockKind, k == TriggerKind, false, true, now, 0, BurstPhase, now)
  }

  /** `TriggerProcessor::reset`: the counter restarts at -offset in the burst phase. */
  function TrgReset(v: Vars, offset: nat): Vars
  {
    v.(counterEvents := -(offset as int), stateMachine := BurstPhase)
  }

  /** `reset()` as each class overrides it. Only the base version touches state, nextState and
    * firstTime; a clock and a pulsar only restart their timer. */
  function ResetVars(p: Params, v: Vars, now: nat): Vars
  {
    match p.kind
    case ClockKind => v.(clockTimer := now)
    case PulsarKind => v.(timerPulsar := now)
    case TriggerKind => TrgReset(v, p.offsetEvents)
    case _ => v.(state := false, nextState := false, firstTime := true)
  }

  /** Resetting twice at the same instant is resetting once. */
  lemma ResetIdempotent(p: Params, v: Vars, now: nat)
    ensures ResetVars(p, ResetVars(p, v, now), now) == ResetVars(p, v, now)
  {
  }

  /** `Clock::update`. A linked clock copies the linked state into `active`; an unlinked one
    * toggles its state, and restarts its timer, exactly when it is active and more than a period
    * has passed. */
  function ClockUpdate(p: Params, v: Vars, linked: bool, linkedState: bool, now: nat): (r: Vars)
    requires VarsOk(v) && IsUint32(now)
    ensures VarsOk(r)
    ensures linked ==> r == v.(active := linkedState)
    ensures !linked ==> (r.state != v.state <==> v.active && ElapsedMs(now, v.clockTimer) > p.periodMs)
    ensures !linked && r.state != v.state ==> r == v.(state := !v.state, clockTimer := now)
    ensures !linked && r.state == v.state ==> r == v
  {
    if linked then v.(active := linkedState)
    else if v.active && ElapsedMs(now, v.clockTimer) > p.periodMs then v.(state := !v.state, clockTimer := now)
    else v
  }

  /** A clock read twice at the same instant toggles at most once: the second read sees 0 ms. */
  lemma ClockTogglesOncePerInstant(p: Params, v: Vars, now: nat)
    requires VarsOk(v) && IsUint32(now)
    ensures ClockUpdate(p, ClockUpdate(p, v, false, false, now), false, false, now) == ClockUpdate(p, v, false, false, now)
  {
    var w := ClockUpdate(p, v, false, false, now);
    if w.state != v.state {
      assert ElapsedMs(now, w.clockTimer) == 0;
    }
  }

  /** The event detector of `TriggerProcessor::computeNextState`, comparing the module's own
    * `state` with the input: RISE, FALL, CHANGE for modes 0, 1, 2, and no event for other modes. */
  predicate IsEvent(mode: nat, previous: bool, input: bool)
  {
    if mode == 0 then !previous && input
    else if mode == 1 then previous && !input
    else if mode == 2 then previous != input
    else false
  }

  /** One detected event: the counter is incremented, then the burst phase outputs true while
    * `counter <= burst` and switches to skip (counter 0) on the first event past it; the skip phase
    * outputs true and returns to burst (counter 0) on the first event past `skip`. */
  function OnEvent(burst: nat, skip: nat, counter: int, phase: Phase): (bool, int, Phase)
  {
    var c := counter + 1;
    match phase
    case BurstPhase => if c <= burst then (true, c, BurstPhase) else (false, 0, SkipPhase)
    case SkipPhase => if c > skip then (true, 0, BurstPhase) else (false, c, SkipPhase)
  }

  /** `TriggerProcessor::computeNextState`: the output, and the module state afterwards. The state
    * always becomes the input; without an event the output is false and the counter and phase stay. */
  function TrgCompute(p: Params, v: Vars, input: bool): (r: (Vars, bool))
    ensures r.0.state == input
    ensures !IsEvent(p.mode, v.state, input) ==> r == (v.(state := input), false)
    ensures IsEvent(p.mode, v.state, input) ==>
              (r.1, r.0.counterEvents, r.0.stateMachine) == OnEvent(p.burstLength, p.skipLength, v.counterEvents, v.stateMachine)
    ensures r.0.(counterEvents := v.counterEvents, stateMachine := v.stateMachine) == v.(state := input)
  {
    if IsEvent(p.mode, v.state, input) then
      var (o, c, ph) := OnEvent(p.burstLength, p.skipLength, v.counterEvents, v.stateMachine);
      (v.(state := input, counterEvents := c, stateMachine := ph), o)
    else
      (v.(state := input), false)
  }

  /** The outputs of n consecutive events. */
  function EventRun(burst: nat, skip: nat, counter: int, phase: Phase, n: nat): (outs: seq<bool>)
    ensures |outs| == n
    decreases n
  {
    if n == 0 then []
    else
      var (o, c, ph) := OnEvent(burst, skip, counter, phase);
      [o] + EventRun(burst, skip, c, ph, n - 1)
  }

  /** The counter and phase after n consecutive events. */
  function EventRunEnd(burst: nat, skip: nat, counter: int, phase: Phase, n: nat): (int, Phase)
    decreases n
  {
    if n == 0 then (counter, phase)
    else
      var (o, c, ph) := OnEvent(burst, skip, counter, phase);
      EventRunEnd(burst, skip, c, ph, n - 1)
  }

  function Trues(n: nat): seq<bool> { seq(n, _ => true) }
  function Falses(n: nat): seq<bool> { seq(n, _ => false) }

  /** A run of a + b events is a run of a events followed by a run of b from where it ended. */
  lemma {:induction false} EventRunAppend(burst: nat, skip: nat, counter: int, phase: Phase, a: nat, b: nat)
    ensures EventRun(burst, skip, counter, phase, a + b)
            == EventRun(burst, skip, counter, phase, a)
               + EventRun(burst, skip, EventRunEnd(burst, skip, counter, phase, a).0, EventRunEnd(burst, skip, counter, phase, a).1, b)
    ensures EventRunEnd(burst, skip, counter, phase, a + b)
            == EventRunEnd(burst, skip, EventRunEnd(burst, skip, counter, phase, a).0, EventRunEnd(burst, skip, counter, phase, a).1, b)
    decreases a
  {
    if a > 0 {
      var (o, c, ph) := OnEvent(burst, skip, counter, phase);
      EventRunAppend(burst, skip, c, ph, a - 1, b);
      assert a + b - 1 == (a - 1) + b;
    }
  }

  /** In the burst phase, every event up to counter `burst` outputs true. */
  lemma {:induction false} BurstEvents(burst: nat, skip: nat, counter: int, k: nat)
    requires counter + k <= burst
    ensures EventRun(burst, skip, counter, BurstPhase, k) == Trues(k)
    ensures EventRunEnd(burst, skip, counter, BurstPhase, k) == (counter + k, BurstPhase)
    decreases k
  {
    if k > 0 {
      BurstEvents(burst, skip, counter + 1, k - 1);
      assert [true] + Trues(k - 1) == Trues(k);
    }
  }

  /** In the skip phase, every event up to counter `skip` outputs false. */
  lemma {:induction false} SkipEvents(burst: nat, skip: nat, counter: int, k: nat)
    requires counter + k <= skip
    ensures EventRun(burst, skip, counter, SkipPhase, k) == Falses(k)
    ensures EventRunEnd(burst, skip, counter, SkipPhase, k) == (counter + k, SkipPhase)
    decreases k
  {
    if k > 0 {
      SkipEvents(burst, skip, counter + 1, k - 1);
      assert [false] + Falses(k - 1) == Falses(k);
    }
  }

  /** After `reset`, the first offset + burst events all output true (the offset lengthens the
    * first burst rather than delaying it); the next one outputs false and enters the skip phase. */
  lemma FirstBurstAfterReset(burst: nat, skip: nat, offset: nat)
    ensures EventRun(burst, skip, -(offset as int), BurstPhase, offset + burst + 1) == Trues(offset + burst) + [false]
    ensures EventRunEnd(burst, skip, -(offset as int), BurstPhase, offset + burst + 1) == (0, SkipPhase)
  {
    BurstEvents(burst, skip, -(offset as int), offset + burst);
    EventRunAppend(burst, skip, -(offset as int), BurstPhase, offset + burst, 1);
  }

  /** The steady cycle, from the start of a skip phase: skip events output false, then burst + 1
    * events output true (the event that ends the skip phase counts as one), then the event past
    * the burst outputs false and the cycle starts again. One cycle is burst + skip + 2 events. */
  lemma SteadyCycle(burst: nat, skip: nat)
    ensures EventRun(burst, skip, 0, SkipPhase, skip + burst + 2) == Falses(skip) + Trues(burst + 1) + [false]
    ensures EventRunEnd(burst, skip, 0, SkipPhase, skip + burst + 2) == (0, SkipPhase)
  {
    SkipEvents(burst, skip, 0, skip);
    EventRunAppend(burst, skip, 0, SkipPhase, skip, 1);
    BurstEvents(burst, skip, 0, burst);
    EventRunAppend(burst, skip, 0, BurstPhase, burst, 1);
    EventRunAppend(burst, skip, 0, SkipPhase, skip + 1, burst + 1);
    assert [true] + Trues(burst) == Trues(burst + 1);
    assert EventRun(burst, skip, 0, SkipPhase, skip + 1) == Falses(skip) + [true];
  }

  /** With burst 1, skip 0 and offset 0 (the settings `init` describes as continuous) the second
    * of three events outputs false. */
  lemma DefaultSettingsDropEverySecondEvent()
    ensures EventRun(1, 0, 0, BurstPhase, 3) == [true, false, true]
  {
  }

  /** `Pulsar::computeNextState`'s window test. `t_off_ms + t_on_ms` is a uint32_t sum. */
  function PulsarOutput(elapsed: nat, tOff: nat, tOn: nat): bool
  {
    elapsed > tOff && elapsed <= (tOff + tOn) % 0x1_0000_0000
  }

  /** Without wrap-around of the sum, a pulsar outputs true exactly inside (t_off, t_off + t_on]. */
  lemma PulsarWindow(elapsed: nat, tOff: nat, tOn: nat)
    requires tOff + tOn < 0x1_0000_0000
    ensures PulsarOutput(elapsed, tOff, tOn) <==> tOff < elapsed <= tOff + tOn
  {
  }

  /** `Pulsar::computeNextState`: a true input restarts the timer; the output is the window test
    * on the time since the last restart. */
  function PulsarCompute(p: Params, v: Vars, input: bool, now: nat): (r: (Vars, bool))
    requires VarsOk(v) && IsUint32(now)
    ensures VarsOk(r.0)
    ensures r.0 == (if input then v.(timerPulsar := now) else v)
    ensures r.1 == PulsarOutput(ElapsedMs(now, r.0.timerPulsar), p.tOffMs, p.tOnMs)
  {
    var w := if input then v.(timerPulsar := now) else v;
    (w, PulsarOutput(ElapsedMs(now, w.timerPulsar), p.tOffMs, p.tOnMs))
  }

  /** While its input is true a pulsar outputs false: the timer has just restarted. */
  lemma PulsarQuietWhileTriggered(p: Params, v: Vars, now: nat)
    requires VarsOk(v) && IsUint32(now)
    ensures !PulsarCompute(p, v, true, now).1
  {
  }

  /** `computeNextState` as each class overrides it; the default passes the input through. */
  function Compute(p: Params, v: Vars, input: bool, now: nat): (r: (Vars, bool))
    requires VarsOk(v) && IsUint32(now)
    ensures VarsOk(r.0)
    ensures p.kind == TriggerKind ==> r == TrgCompute(p, v, input)
    ensures p.kind == PulsarKind ==> r == PulsarCompute(p, v, input, now)
    ensures p.kind !in {TriggerKind, PulsarKind} ==> r == (v, input)
  {
    match p.kind
    case TriggerKind => TrgCompute(p, v, input)
    case PulsarKind => PulsarCompute(p, v, input, now)
    case _ => (v, input)
  }

  /** `Module::update`: `nextState` (and whatever `computeNextState` changes) moves only when the
    * module is active and linked, and then to the computed output. */
  function UpdateVars(p: Params, v: Vars, linked: bool, linkValue: bool, now: nat): (r: Vars)
    requires VarsOk(v) && IsUint32(now)
    ensures VarsOk(r)
    ensures !(v.active && linked) ==> r == v
    ensures v.active && linked ==> r == Compute(p, v, linkValue, now).0.(nextState := Compute(p, v, linkValue, now).1)
  {
    if v.active && linked then
      var (w, o) := Compute(p, v, linkValue, now);
      w.(nextState := o)
    else v
  }

  /** `Module::refresh`: the new state, and whether `action()` was called. The first call forces a
    * difference so the action always runs; afterwards it runs exactly on a change. */
  function RefreshVars(v: Vars): (r: (Vars, bool))
    ensures r.0 == v.(state := v.nextState, firstTime := false)
    ensures r.1 <==> v.firstTime || v.state != v.nextState
  {
    var s := if v.firstTime then !v.nextState else v.state;
    var w := v.(firstTime := false, state := s);
    if w.state != w.nextState then (w.(state := w.nextState), true) else (w, false)
  }

  /** A second refresh with nothing in between calls no action and changes nothing. */
  lemma RefreshIdempotent(v: Vars)
    ensures RefreshVars(RefreshVars(v).0) == (RefreshVars(v).0, false)
  {
  }

  /** A trigger processor compares its input with its own `state`, which `refresh` then overwrites
    * with the output. So under RISE a held-high input is detected again every second step. */
  lemma HeldHighInputRetriggers(p: Params, v: Vars, now: nat)
    requires VarsOk(v) && IsUint32(now)
    requires p.kind == TriggerKind && p.mode == 0 && v.active && !v.firstTime
    requires !v.state && !v.nextState && v.stateMachine == BurstPhase && v.counterEvents + 2 <= p.burstLength
    ensures var v1 := RefreshVars(UpdateVars(p, v, true, true, now)).0;
            var v2 := RefreshVars(UpdateVars(p, v1, true, true, now)).0;
            var v3 := RefreshVars(UpdateVars(p, v2, true, true, now)).0;
            v1.state && !v2.state && v3.state
  {
  }

  class Module {
    const kind: Kind
    var pin: nat
    var periodMs: nat
    var mode: nat
    var burstLength: nat
    var skipLength: nat
    var offsetEvents: nat
    var tOffMs: nat
    var tOnMs: nat
    var active: bool
    var state: bool
    var nextState: bool
    var firstTime: bool
    var clockTimer: nat
    var counterEvents: int
    var stateMachine: Phase
    var timerPulsar: nat
    /** `ptr_fromModule`. */
    var input: Module?
    /** The `state` each `action()` call saw; for an output trigger, the levels written to its pin. */
    ghost var actionLog: seq<bool>

    ghost function P(): Params
      reads this`pin, this`periodMs, this`mode, this`burstLength, this`skipLength, this`offsetEvents,
            this`tOffMs, this`tOnMs
    {
      Params(kind, pin, periodMs, mode, burstLength, skipLength, offsetEvents, tOffMs, tOnMs)
    }

    ghost function V(): Vars
      reads this`active, this`state, this`nextState, this`firstTime, this`clockTimer, this`counterEvents,
            this`stateMachine, this`timerPulsar
    {
      Vars(active, state, nextState, firstTime, clockTimer, counterEvents, stateMachine, timerPulsar)
    }

    /** The widths of the C++ fields; it reads only the fields it constrains, so a step that
      * changes the other fields keeps it for free. */
    ghost predicate Valid()
      reads this`pin, this`periodMs, this`mode, this`burstLength, this`skipLength, this`offsetEvents,
            this`tOffMs, this`tOnMs, this`clockTimer, this`timerPulsar
    {
      IsUint8(pin) && IsUint32(periodMs) && IsUint8(mode) && IsUint16(burstLength)
      && IsUint16(skipLength) && IsUint16(offsetEvents) && IsUint32(tOffMs) && IsUint32(tOnMs)
      && IsUint32(clockTimer) && IsUint32(timerPulsar)
    }

    /** The links a step can follow: a clock is not linked to a clock, so `Clock::getState`, which
      * updates the clock and reads its link, never recurses. */
    ghost predicate LinksOk()
      reads this`input, Link()`input
    {
      (kind == ClockKind ==> input == null || input.kind != ClockKind)
      && (input != null && input.kind == ClockKind ==> input.input == null || input.input.kind != ClockKind)
    }

    function Link(): set<Module>
      reads this`input
    {
      if input == null then {} else {input}
    }

    /** A module as its class constructor and `init` leave it. */
    constructor (k: Kind, pinNumber: nat, now: nat)
      requires IsUint8(pinNumber) && IsUint32(now)
      ensures Valid() && kind == k && input == null && actionLog == []
      ensures P() == InitialParams(k, pinNumber) && V() == InitialVars(k, now)
    {
      kind := k;
      pin := pinNumber;
      periodMs, mode, burstLength, skipLength, offsetEvents, tOffMs, tOnMs := 1000, 0, 1, 0, 0, 0, 50;
      clockTimer, counterEvents, stateMachine, timerPulsar := 0, 0, BurstPhase, 0;
      actionLog := [];
      // baseInit
      input := null;
      active, state, nextState, firstTime := true, false, false, true;
      // the class's own init; its reset restarts the timer or the counter
      if k == ClockKind {
        active := false;
      } else if k == TriggerKind {
        state := true;
      }
      clockTimer, timerPulsar := now, now;
    }

    /** `baseInit`: no link, active, state and nextState false, first refresh pending. */
    method BaseInit()
      modifies this`input, this`active, this`state, this`nextState, this`firstTime
      ensures input == null && active && !state && !nextState && firstTime
    {
      input := null;
      active := true;
      state, nextState := false, false;
      firstTime := true;
    }

    /** `Module::setState`: sets `active` (not `state`). */
    method SetState(a: bool)
      modifies this`active
      ensures active == a
    {
      active := a;
    }

    /** `Module::start`. */
    method Start()
      modifies this`active
      ensures active
    {
      active := true;
    }

    /** `Module::stop`. */
    method Stop()
      modifies this`active
      ensures !active
    {
      active := false;
    }

    /** `Module::toggleState`. */
    method ToggleState()
      modifies this`active
      ensures active == !old(active)
    {
      active := !active;
    }

    /** `InputTrigger::setInputPin` and `OutputTrigger::setOutputPin`; the `pinMode` call is I/O. */
    method SetPin(p: nat)
      requires (kind == InputKind || kind == OutputKind) && Valid() && IsUint8(p)
      modifies this`pin
      ensures Valid() && P() == old(P()).(pin := p)
    {
      pin := p;
    }

    function IsActive(): (a: bool)
      reads this
      ensures a == active
    {
      active
    }

    method SetInputLink(from: Module?)
      modifies this`input
      ensures input == from
    {
      input := from;
    }

    method Reset(now: nat)
      requires Valid() && IsUint32(now)
      modifies this`state, this`nextState, this`firstTime, this`clockTimer, this`counterEvents,
               this`stateMachine, this`timerPulsar
      ensures Valid()
      ensures V() == ResetVars(P(), old(V()), now)
    {
      match kind
      case ClockKind => clockTimer := now;
      case PulsarKind => timerPulsar := now;
      case TriggerKind =>
        counterEvents := -(offsetEvents as int);
        stateMachine := BurstPhase;
      case _ =>
        state, nextState := false, false;
        firstTime := true;
    }

    /** What `getState` returns for every class but the clock: the input pin for an input
      * trigger, `state` otherwise. */
    function Output(pins: nat -> bool): bool
      reads this
    {
      if kind == InputKind then pins(pin) else state
    }

    function LinkedOutput(pins: nat -> bool): bool
      reads this, input
    {
      if input == null then false else input.Output(pins)
    }

    /** What `ptr_fromModule->getState()` returns now, a clock being updated first. */
    ghost function ReadLink(now: nat, pins: nat -> bool): bool
      reads this, input, if input != null then input.input else null
      requires input != null && input.Valid() && IsUint32(now)
    {
      if input.kind == ClockKind then
        ClockUpdate(input.P(), input.V(), input.input != null, input.LinkedOutput(pins), now).state
      else input.Output(pins)
    }

    /** `Clock::update`. */
    method ClockStep(now: nat, pins: nat -> bool)
      requires kind == ClockKind && Valid() && IsUint32(now)
      requires input == null || input.kind != ClockKind
      modifies this`active, this`state, this`clockTimer
      ensures Valid()
      ensures V() == ClockUpdate(P(), old(V()), input != null, old(LinkedOutput(pins)), now)
    {
      if input != null {
        active := input.Output(pins);
      } else if active && ElapsedMs(now, clockTimer) > periodMs {
        state := !state;
        clockTimer := now;
      }
    }

    /** `getState`: a clock updates itself first. */
    method GetState(now: nat, pins: nat -> bool) returns (b: bool)
      requires Valid() && IsUint32(now)
      requires kind == ClockKind ==> input == null || input.kind != ClockKind
      modifies this`active, this`state, this`clockTimer
      ensures Valid()
      ensures kind == ClockKind ==> V() == ClockUpdate(P(), old(V()), input != null, old(LinkedOutput(pins)), now) && b == state
      ensures kind != ClockKind ==> V() == old(V()) && b == Output(pins)
    {
      if kind == ClockKind {
        ClockStep(now, pins);
        b := state;
      } else {
        b := Output(pins);
      }
    }

    method ComputeNextState(stateFrom: bool, now: nat) returns (out: bool)
      requires Valid() && IsUint32(now)
      modifies this`state, this`counterEvents, this`stateMachine, this`timerPulsar
      ensures Valid()
      ensures (V(), out) == Compute(P(), old(V()), stateFrom, now)
    {
      match kind
      case TriggerKind => out := TrgComputeNextState(stateFrom);
      case PulsarKind => out := PulsarComputeNextState(stateFrom, now);
      case _ => out := stateFrom;
    }

    /** `TriggerProcessor::computeNextState`. */
    method TrgComputeNextState(stateFrom: bool) returns (out: bool)
      requires Valid()
      modifies this`state, this`counterEvents, this`stateMachine
      ensures Valid()
      ensures (V(), out) == TrgCompute(P(), old(V()), stateFrom)
    {
      var event := false;
      out := false;
      if mode == 0 {
        event := !state && stateFrom;
      } else if mode == 1 {
        event := state && !stateFrom;
      } else if mode == 2 {
        event := state != stateFrom;
      }
      state := stateFrom;
      if event {
        counterEvents := counterEvents + 1;
        match stateMachine
        case BurstPhase =>
          if counterEvents <= burstLength {
            out := true;
          } else {
            out := false;
            stateMachine := SkipPhase;
            counterEvents := 0;
          }
        case SkipPhase =>
          if counterEvents > skipLength {
            out := true;
            stateMachine := BurstPhase;
            counterEvents := 0;
          }
      }
    }

    /** `Pulsar::computeNextState`. */
    method PulsarComputeNextState(stateFrom: bool, now: nat) returns (out: bool)
      requires Valid() && IsUint32(now)
      modifies this`timerPulsar
      ensures Valid()
      ensures (V(), out) == PulsarCompute(P(), old(V()), stateFrom, now)
    {
      if stateFrom {
        timerPulsar := now;
      }
      var timePassed := ElapsedMs(now, timerPulsar);
      out := timePassed > tOffMs && timePassed <= (tOffMs + tOnMs) % 0x1_0000_0000;
    }

    /** `update`: the clock's own rule, or the base rule reading the linked module. */
    method Update(now: nat, pins: nat -> bool)
      requires Valid() && IsUint32(now) && (input != null ==> input.Valid()) && LinksOk()
      modifies this`active, this`state, this`nextState, this`clockTimer, this`counterEvents,
               this`stateMachine, this`timerPulsar, Link()`active, Link()`state, Link()`clockTimer
      ensures Valid() && (input != null ==> input.Valid())
      ensures kind == ClockKind ==> V() == ClockUpdate(P(), old(V()), input != null, old(LinkedOutput(pins)), now)
      ensures kind == ClockKind && input != null ==> input.V() == old(input.V())
      ensures kind != ClockKind && input == null ==> V() == old(V())
      ensures kind != ClockKind && input != null ==>
                V() == UpdateVars(P(), old(V()), true, old(ReadLink(now, pins)), now)
      ensures kind != ClockKind && input != null && input != this ==>
                input.V() == if old(active) && input.kind == ClockKind
                             then ClockUpdate(input.P(), old(input.V()), input.input != null, old(input.LinkedOutput(pins)), now)
                             else old(input.V())
    {
      if kind == ClockKind {
        ClockStep(now, pins);
      } else if input != null {
        BaseUpdate(now, pins);
      }
    }

    /** `Module::update`, for a linked module that is not a clock. */
    method BaseUpdate(now: nat, pins: nat -> bool)
      requires kind != ClockKind && input != null
      requires Valid() && IsUint32(now) && input.Valid() && LinksOk()
      modifies this`nextState, this`state, this`counterEvents, this`stateMachine, this`timerPulsar,
               input`active, input`state, input`clockTimer
      ensures Valid() && input.Valid()
      ensures V() == UpdateVars(P(), old(V()), true, old(ReadLink(now, pins)), now)
      ensures input != this ==>
                input.V() == if old(active) && input.kind == ClockKind
                             then ClockUpdate(input.P(), old(input.V()), input.input != null, old(input.LinkedOutput(pins)), now)
                             else old(input.V())
    {
      if active {
        if input == this {
          var stateFrom := Output(pins);
          nextState := ComputeNextState(stateFrom, now);
        } else {
          LinkedUpdate(now, pins);
        }
      }
    }

    /** `Module::update` for an active module linked to another module. */
    method LinkedUpdate(now: nat, pins: nat -> bool)
      requires kind != ClockKind && input != null && input != this && active
      requires Valid() && IsUint32(now) && input.Valid() && LinksOk()
      modifies this`nextState, this`state, this`counterEvents, this`stateMachine, this`timerPulsar,
               input`active, input`state, input`clockTimer
      ensures Valid() && input.Valid()
      ensures V() == UpdateVars(P(), old(V()), true, old(ReadLink(now, pins)), now)
      ensures input.V() == if input.kind == ClockKind
                           then ClockUpdate(input.P(), old(input.V()), input.input != null, old(input.LinkedOutput(pins)), now)
                           else old(input.V())
    {
      var stateFrom := PullLink(now, pins);
      nextState := ComputeNextState(stateFrom, now);
    }

    /** `ptr_fromModule->getState()` called from a module that is not its own input. */
    method PullLink(now: nat, pins: nat -> bool) returns (b: bool)
      requires input != null && input != this
      requires IsUint32(now) && input.Valid() && LinksOk()
      modifies input`active, input`state, input`clockTimer
      ensures input.Valid()
      ensures b == old(ReadLink(now, pins))
      ensures input.V() == if input.kind == ClockKind
                           then ClockUpdate(input.P(), old(input.V()), input.input != null, old(input.LinkedOutput(pins)), now)
                           else old(input.V())
    {
      b := input.GetState(now, pins);
    }

    /** `refresh`. */
    method Refresh()
      modifies this`state, this`firstTime, this`actionLog
      ensures V() == RefreshVars(old(V())).0
      ensures actionLog == old(actionLog) + if RefreshVars(old(V())).1 then [nextState] else []
    {
      if firstTime {
        firstTime := false;
        state := !nextState;
      }
      if state != nextState {
        state := nextState;
        Action();
      }
    }

    /** `action`: only the output trigger overrides it, writing `state` to its pin. */
    method Action()
      modifies this`actionLog
      ensures actionLog == old(actionLog) + [state]
    {
      actionLog := actionLog + [state];
    }

    /** `Clock::setPeriodMs`, which restarts the clock timer. */
    method SetPeriodMs(period: nat, now: nat)
      requires kind == ClockKind && Valid() && IsUint32(period) && IsUint32(now)
      modifies this`periodMs, this`clockTimer
      ensures Valid() && P() == old(P()).(periodMs := period) && V() == old(V()).(clockTimer := now)
    {
      periodMs := period;
      clockTimer := now;
    }

    /** `TriggerProcessor::setParam`; like every trigger-processor setter it ends with `reset`. */
    method SetTriggerParam(m: nat, burst: nat, skip: nat, offset: nat)
      requires kind == TriggerKind && Valid() && IsUint8(m) && IsUint16(burst) && IsUint16(skip) && IsUint16(offset)
      modifies this`mode, this`burstLength, this`skipLength, this`offsetEvents, this`counterEvents, this`stateMachine
      ensures Valid()
      ensures P() == old(P()).(mode := m, burstLength := burst, skipLength := skip, offsetEvents := offset)
      ensures V() == TrgReset(old(V()), offset)
    {
      mode, burstLength, skipLength, offsetEvents := m, burst, skip, offset;
      counterEvents := -(offsetEvents as int);
      stateMachine := BurstPhase;
    }

    method SetMode(m: nat)
      requires kind == TriggerKind && Valid() && IsUint8(m)
      modifies this`mode, this`counterEvents, this`stateMachine
      ensures Valid() && P() == old(P()).(mode := m) && V() == TrgReset(old(V()), offsetEvents)
    {
      mode := m;
      counterEvents := -(offsetEvents as int);
      stateMachine := BurstPhase;
    }

    method SetBurst(burst: nat)
      requires kind == TriggerKind && Valid() && IsUint16(burst)
      modifies this`burstLength, this`counterEvents, this`stateMachine
      ensures Valid() && P() == old(P()).(burstLength := burst) && V() == TrgReset(old(V()), offsetEvents)
    {
      burstLength := burst;
      counterEvents := -(offsetEvents as int);
      stateMachine := BurstPhase;
    }

    method SetSkip(skip: nat)
      requires kind == TriggerKind && Valid() && IsUint16(skip)
      modifies this`skipLength, this`counterEvents, this`stateMachine
      ensures Valid() && P() == old(P()).(skipLength := skip) && V() == TrgReset(old(V()), offsetEvents)
    {
      skipLength := skip;
      counterEvents := -(offsetEvents as int);
      stateMachine := BurstPhase;
    }

    method SetOffset(offset: nat)
      requires kind == TriggerKind && Valid() && IsUint16(offset)
      modifies this`offsetEvents, this`counterEvents, this`stateMachine
      ensures Valid() && P() == old(P()).(offsetEvents := offset) && V() == TrgReset(old(V()), offset)
    {
      offsetEvents := offset;
      counterEvents := -(offsetEvents as int);
      stateMachine := BurstPhase;
    }

    /** `Pulsar::setParam`, which restarts the pulsar timer. */
    method SetPulsarParam(tOff: nat, tOn: nat, now: nat)
      requires kind == PulsarKind && Valid() && IsUint32(tOff) && IsUint32(tOn) && IsUint32(now)
      modifies this`tOffMs, this`tOnMs, this`timerPulsar
      ensures Valid() && P() == old(P()).(tOffMs := tOff, tOnMs := tOn) && V() == old(V()).(timerPulsar := now)
    {
      tOffMs, tOnMs := tOff, tOn;
      timerPulsar := now;
    }
  }
}
