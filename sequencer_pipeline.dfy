/** src/hardware.cpp, namespaces Clocks and Sequencer: the global module arrays, the pipeline (an
  * ordered, duplicate-free vector of module pointers) and the sequencer step, which runs
  * `action`, then `update`, then `refresh` over the pipeline in three separate passes. The array
  * sizes `NUM_CLOCKS`, ... are the lengths of the arrays given to the constructor. */
module SequencerPipeline {
  import opened IntWidth
  import opened SequencerModules

  /** The class codes of `getModulePtr`: 0 clocks, 1 trigger inputs, 2 trigger outputs, 3 lasers,
    * 4 pulsars, 5 trigger processors. */
  function KindOfClass(c: nat): Kind
    requires c < 6
  {
    match c
    case 0 => ClockKind
    case 1 => InputKind
    case 2 => OutputKind
    case 3 => LaserKind
    case 4 => PulsarKind
    case _ => TriggerKind
  }

  predicate Distinct(s: seq<Module>)
  {
    forall i, j :: 0 <= i < j < |s| ==> s[i] != s[j]
  }

  predicate AllOfKind(s: seq<Module>, k: Kind)
  {
    forall i :: 0 <= i < |s| ==> s[i].kind == k
  }

  datatype Pass = ActionCall | UpdateCall | RefreshCall

  /** One virtual call made by `Sequencer::update`. */
  datatype Call = Call(pass: Pass, m: Module)

  /** One pass over the pipeline, in pipeline order. */
  function PassCalls(pass: Pass, s: seq<Module>): (calls: seq<Call>)
    ensures |calls| == |s|
    ensures forall i :: 0 <= i < |s| ==> calls[i] == Call(pass, s[i])
  {
    seq(|s|, i requires 0 <= i < |s| => Call(pass, s[i]))
  }

  lemma PassCallsSnoc(pass: Pass, s: seq<Module>, i: nat)
    requires i < |s|
    ensures PassCalls(pass, s[..i + 1]) == PassCalls(pass, s[..i]) + [Call(pass, s[i])]
  {
  }

  /** The part of a module an update pass does not change: its parameters and its input link. */
  datatype Wiring = Wiring(params: Params, input: Module?)

  /** World w gives every module of configuration c a state of the C widths, and the links of c
    * stay inside c. */
  predicate Fits(c: map<Module, Wiring>, w: map<Module, Vars>)
  {
    (forall m :: m in c ==> m in w && VarsOk(w[m]))
    && forall m :: m in c && c[m].input != null ==> c[m].input in c
  }

  /** What `x->getState()` returns when x is not a clock: its input pin for an input trigger, its
    * `state` otherwise. */
  function OutputIn(c: map<Module, Wiring>, w: map<Module, Vars>, x: Module, pins: nat -> bool): bool
    requires Fits(c, w) && x in c
  {
    if c[x].params.kind == InputKind then pins(c[x].params.pin) else w[x].state
  }

  /** The state of clock x after its `update()`. */
  function ClockIn(c: map<Module, Wiring>, w: map<Module, Vars>, x: Module, now: nat, pins: nat -> bool): (v: Vars)
    requires Fits(c, w) && x in c && IsUint32(now)
    ensures VarsOk(v)
  {
    var from := c[x].input;
    ClockUpdate(c[x].params, w[x], from != null, if from == null then false else OutputIn(c, w, from, pins), now)
  }

  /** One `update()` of module m. A clock applies its own rule. A linked module of another class
    * reads `ptr_fromModule->getState()`, which first updates a linked clock when m is active, and
    * then computes its nextState. An unlinked module is left as it is. Only m and its input change. */
  function UpdateStep(c: map<Module, Wiring>, w: map<Module, Vars>, m: Module, now: nat, pins: nat -> bool): (r: map<Module, Vars>)
    requires Fits(c, w) && m in c && IsUint32(now)
    ensures Fits(c, r)
    ensures forall x :: x in c && x != m && x != c[m].input ==> r[x] == w[x]
  {
    var from := c[m].input;
    if c[m].params.kind == ClockKind then
      w[m := ClockIn(c, w, m, now, pins)]
    else if from == null then
      w
    else
      var fromState := if c[from].params.kind == ClockKind then ClockIn(c, w, from, now, pins).state else OutputIn(c, w, from, pins);
      var w1 := w[m := UpdateVars(c[m].params, w[m], true, fromState, now)];
      if from != m && w[m].active && c[from].params.kind == ClockKind then w1[from := ClockIn(c, w, from, now, pins)] else w1
  }

  /** The update pass over the modules s, in order. */
  function UpdateFold(c: map<Module, Wiring>, w: map<Module, Vars>, s: seq<Module>, now: nat, pins: nat -> bool): (r: map<Module, Vars>)
    requires Fits(c, w) && IsUint32(now) && forall i :: 0 <= i < |s| ==> s[i] in c
    ensures Fits(c, r)
    decreases |s|
  {
    if s == [] then w else UpdateStep(c, UpdateFold(c, w, s[..|s| - 1], now, pins), s[|s| - 1], now, pins)
  }

  /** Folding one more module of the pipeline is one more `UpdateStep`. */
  lemma UpdateFoldSnoc(c: map<Module, Wiring>, w: map<Module, Vars>, s: seq<Module>, i: nat, now: nat, pins: nat -> bool)
    requires Fits(c, w) && IsUint32(now) && i < |s| && forall j :: 0 <= j < |s| ==> s[j] in c
    ensures UpdateFold(c, w, s[..i + 1], now, pins) == UpdateStep(c, UpdateFold(c, w, s[..i], now, pins), s[i], now, pins)
  {
    assert s[..i + 1][..i] == s[..i];
  }

  /** The update pass changes only the modules of the pass and the modules they are linked from. */
  lemma {:induction false} UpdateFoldFrame(c: map<Module, Wiring>, w: map<Module, Vars>, s: seq<Module>, now: nat, pins: nat -> bool, x: Module)
    requires Fits(c, w) && IsUint32(now) && forall i :: 0 <= i < |s| ==> s[i] in c
    requires x in c && forall i :: 0 <= i < |s| ==> s[i] != x && c[s[i]].input != x
    ensures UpdateFold(c, w, s, now, pins)[x] == w[x]
    decreases |s|
  {
    if s != [] {
      UpdateFoldFrame(c, w, s[..|s| - 1], now, pins, x);
    }
  }

  /** The refresh pass: every module of s commits its nextState; the others are kept. */
  function RefreshWorld(c: map<Module, Wiring>, w: map<Module, Vars>, s: seq<Module>): (r: map<Module, Vars>)
    requires Fits(c, w)
    ensures Fits(c, r)
    ensures forall x :: x in c && x !in s ==> r[x] == w[x]
    ensures forall i :: 0 <= i < |s| && s[i] in c ==> r[s[i]] == RefreshVars(w[s[i]]).0
  {
    map x | x in w :: if x in s then RefreshVars(w[x]).0 else w[x]
  }

  /** A sequencer step (the update pass, then the refresh pass) leaves unchanged every module that is
    * neither in the pipeline nor the input of a pipeline module. */
  lemma StepFrame(c: map<Module, Wiring>, w: map<Module, Vars>, s: seq<Module>, now: nat, pins: nat -> bool, x: Module)
    requires Fits(c, w) && IsUint32(now) && forall i :: 0 <= i < |s| ==> s[i] in c
    requires x in c && forall i :: 0 <= i < |s| ==> s[i] != x && c[s[i]].input != x
    ensures RefreshWorld(c, UpdateFold(c, w, s, now, pins), s)[x] == w[x]
  {
    UpdateFoldFrame(c, w, s, now, pins, x);
  }

  /** Refreshing one more module of a list of distinct modules updates that module only. */
  lemma RefreshWorldSnoc(c: map<Module, Wiring>, w: map<Module, Vars>, s: seq<Module>, i: nat)
    requires Fits(c, w) && i < |s| && Distinct(s) && s[i] in w
    ensures RefreshWorld(c, w, s[..i + 1]) == RefreshWorld(c, w, s[..i])[s[i] := RefreshVars(w[s[i]]).0]
  {
    assert s[i] !in s[..i];
    assert forall x :: x in s[..i + 1] <==> x in s[..i] || x == s[i];
  }

  class Sequencer {
    const clocks: seq<Module>
    const triggersIn: seq<Module>
    const triggersOut: seq<Module>
    const lasers: seq<Module>
    const pulsars: seq<Module>
    const triggerProcessors: seq<Module>
    /** `vectorPtrModules`. */
    var pipeline: seq<Module>
    var activeSequencer: bool
    /** The calls `update` has made so far, in order. */
    ghost var trace: seq<Call>
    /** Every module of the six arrays. */
    ghost const Repr: set<Module>

    function Registry(c: nat): seq<Module>
      requires c < 6
    {
      match c
      case 0 => clocks
      case 1 => triggersIn
      case 2 => triggersOut
      case 3 => lasers
      case 4 => pulsars
      case _ => triggerProcessors
    }

    /** The six arrays: non-empty, each of its own kind, without duplicates, and together `Repr`.
      * Only constants are read, so no change of state can break it. */
    ghost predicate RegistryOk()
    {
      |clocks| > 0 && |triggersIn| > 0 && |triggersOut| > 0 && |lasers| > 0 && |pulsars| > 0 && |triggerProcessors| > 0
      && AllOfKind(clocks, ClockKind) && AllOfKind(triggersIn, InputKind) && AllOfKind(triggersOut, OutputKind)
      && AllOfKind(lasers, LaserKind) && AllOfKind(pulsars, PulsarKind) && AllOfKind(triggerProcessors, TriggerKind)
      && Distinct(clocks) && Distinct(triggersIn) && Distinct(triggersOut)
      && Distinct(lasers) && Distinct(pulsars) && Distinct(triggerProcessors)
      && InRepr(clocks) && InRepr(triggersIn) && InRepr(triggersOut)
      && InRepr(lasers) && InRepr(pulsars) && InRepr(triggerProcessors)
    }

    ghost predicate InRepr(s: seq<Module>)
    {
      forall i :: 0 <= i < |s| ==> s[i] in Repr
    }

    /** Every module is well formed and linked inside the registry, and no clock is linked to a
      * clock. */
    ghost predicate ModulesOk()
      reads Repr`pin, Repr`periodMs, Repr`mode, Repr`burstLength, Repr`skipLength, Repr`offsetEvents,
            Repr`tOffMs, Repr`tOnMs, Repr`clockTimer, Repr`timerPulsar, Repr`input
    {
      forall m :: m in Repr ==> m.Valid() && (m.input != null ==> m.input in Repr) && m.LinksOk()
    }

    /** The pipeline holds registry modules without duplicates. */
    ghost predicate PipelineOk()
      reads this`pipeline
    {
      (forall i :: 0 <= i < |pipeline| ==> pipeline[i] in Repr) && Distinct(pipeline)
    }

    ghost predicate Valid()
      reads this`pipeline, Repr`pin, Repr`periodMs, Repr`mode, Repr`burstLength, Repr`skipLength, Repr`offsetEvents,
            Repr`tOffMs, Repr`tOnMs, Repr`clockTimer, Repr`timerPulsar, Repr`input
    {
      RegistryOk() && ModulesOk() && PipelineOk()
    }

    /** The configuration of every registered module: its parameters and its input link. */
    ghost function Wires(): (c: map<Module, Wiring>)
      reads Repr`pin, Repr`periodMs, Repr`mode, Repr`burstLength, Repr`skipLength, Repr`offsetEvents,
            Repr`tOffMs, Repr`tOnMs, Repr`input
      ensures c.Keys == Repr
      ensures forall m :: m in Repr ==> c[m] == Wiring(m.P(), m.input)
    {
      map m | m in Repr :: Wiring(m.P(), m.input)
    }

    /** c is the configuration of the registered modules; it reads only what `Wires` reads. */
    ghost predicate Configured(c: map<Module, Wiring>)
      reads Repr`pin, Repr`periodMs, Repr`mode, Repr`burstLength, Repr`skipLength, Repr`offsetEvents,
            Repr`tOffMs, Repr`tOnMs, Repr`input
    {
      forall m :: m in Repr ==> m in c && c[m] == Wiring(m.P(), m.input)
    }

    /** w holds the state of every registered module. */
    ghost predicate Agrees(w: map<Module, Vars>)
      reads Repr`active, Repr`state, Repr`nextState, Repr`firstTime, Repr`clockTimer, Repr`counterEvents,
            Repr`stateMachine, Repr`timerPulsar
    {
      forall m :: m in Repr ==> m in w && m.V() == w[m]
    }

    /** The state of every registered module. */
    ghost function World(): (w: map<Module, Vars>)
      reads Repr`active, Repr`state, Repr`nextState, Repr`firstTime, Repr`clockTimer, Repr`counterEvents,
            Repr`stateMachine, Repr`timerPulsar
      ensures w.Keys == Repr
      ensures forall m :: m in Repr ==> w[m] == m.V()
    {
      map m | m in Repr :: m.V()
    }

    /** The global arrays, an empty pipeline and an inactive sequencer. */
    constructor (cl: seq<Module>, tin: seq<Module>, tout: seq<Module>, ls: seq<Module>, ps: seq<Module>, tps: seq<Module>)
      requires |cl| > 0 && |tin| > 0 && |tout| > 0 && |ls| > 0 && |ps| > 0 && |tps| > 0
      requires AllOfKind(cl, ClockKind) && AllOfKind(tin, InputKind) && AllOfKind(tout, OutputKind)
      requires AllOfKind(ls, LaserKind) && AllOfKind(ps, PulsarKind) && AllOfKind(tps, TriggerKind)
      requires Distinct(cl) && Distinct(tin) && Distinct(tout) && Distinct(ls) && Distinct(ps) && Distinct(tps)
      requires forall m :: m in cl + tin + tout + ls + ps + tps ==> m.Valid() && m.input == null
      ensures Valid() && pipeline == [] && !activeSequencer && trace == []
      ensures Repr == (set m | m in cl + tin + tout + ls + ps + tps)
      ensures clocks == cl && triggersIn == tin && triggersOut == tout && lasers == ls && pulsars == ps && triggerProcessors == tps
    {
      clocks, triggersIn, triggersOut, lasers, pulsars, triggerProcessors := cl, tin, tout, ls, ps, tps;
      Repr := set m | m in cl + tin + tout + ls + ps + tps;
      pipeline := [];
      activeSequencer := false;
      trace := [];
    }

    method SetState(a: bool)
      modifies this`activeSequencer
      ensures activeSequencer == a
    {
      activeSequencer := a;
    }

    function GetState(): (a: bool)
      reads this
      ensures a == activeSequencer
    {
      activeSequencer
    }

    /** `getModulePtr(classID, index)`: element `index % NUM` of the class's array, NULL for an
      * unknown class. */
    function GetModulePtr(classID: nat, index: nat): (m: Module?)
      reads this
      requires RegistryOk() && IsUint8(classID) && IsUint8(index)
      ensures classID >= 6 ==> m == null
      ensures classID < 6 ==> m == Registry(classID)[index % |Registry(classID)|]
      ensures classID < 6 ==> m != null && m in Repr && m.kind == KindOfClass(classID)
    {
      if classID < 6 then Registry(classID)[index % |Registry(classID)|] else null
    }

    method ClearPipeline()
      requires Valid()
      modifies this`pipeline
      ensures Valid() && pipeline == []
    {
      pipeline := [];
    }

    /** `addModulePipeline`: NULL is ignored; a module is appended unless the same pointer is
      * already in the pipeline. */
    method AddModulePipeline(newModule: Module?)
      requires Valid() && (newModule != null ==> newModule in Repr)
      modifies this`pipeline
      ensures Valid()
      ensures newModule == null ==> pipeline == old(pipeline)
      ensures newModule != null && newModule in old(pipeline) ==> pipeline == old(pipeline)
      ensures newModule != null && newModule !in old(pipeline) ==> pipeline == old(pipeline) + [newModule]
    {
      if newModule != null {
        var isThere := false;
        var k := 0;
        while k < |pipeline|
          invariant k <= |pipeline|
          invariant isThere <==> newModule in pipeline[..k]
        {
          if pipeline[k] == newModule {
            isThere := true;
            break;
          }
          assert pipeline[..k + 1] == pipeline[..k] + [pipeline[k]];
          k := k + 1;
        }
        assert !isThere ==> pipeline[..k] == pipeline;
        if !isThere {
          pipeline := pipeline + [newModule];
        }
      }
    }

    /** `Sequencer::reset`: `reset()` on every pipeline module; the pipeline is kept. */
    method Reset(now: nat)
      requires Valid() && IsUint32(now)
      modifies Repr`state, Repr`nextState, Repr`firstTime, Repr`clockTimer, Repr`counterEvents,
               Repr`stateMachine, Repr`timerPulsar
      ensures Valid()
      ensures forall i :: 0 <= i < |pipeline| ==>
                pipeline[i].V() == ResetVars(pipeline[i].P(), old(pipeline[i].V()), now)
      ensures forall m :: m in Repr && m !in pipeline ==> m.V() == old(m.V())
    {
      for i := 0 to |pipeline|
        invariant Valid()
        invariant forall j :: 0 <= j < i ==> pipeline[j].V() == ResetVars(pipeline[j].P(), old(pipeline[j].V()), now)
        invariant forall j :: i <= j < |pipeline| ==> pipeline[j].V() == old(pipeline[j].V())
        invariant forall m :: m in Repr && m !in pipeline ==> m.V() == old(m.V())
      {
        ResetAt(pipeline, i, now);
      }
    }

    /** `Sequencer::update`: nothing while inactive; otherwise an action pass, an update pass and a
      * refresh pass over the pipeline. Every registered module ends in the state the update pass
      * followed by the refresh pass gives it, so every pipeline module has committed its nextState. */
    method Update(now: nat, pins: nat -> bool)
      requires Valid() && IsUint32(now)
      modifies this`trace, Repr`active, Repr`state, Repr`nextState, Repr`firstTime, Repr`clockTimer,
               Repr`counterEvents, Repr`stateMachine, Repr`timerPulsar, Repr`actionLog
      ensures Valid()
      ensures !old(activeSequencer) ==> trace == old(trace) && forall m :: m in Repr ==> m.V() == old(m.V())
      ensures old(activeSequencer) ==>
                trace == old(trace) + PassCalls(ActionCall, pipeline) + PassCalls(UpdateCall, pipeline) + PassCalls(RefreshCall, pipeline)
      ensures old(activeSequencer) ==>
                Fits(old(Wires()), old(World())) &&
                Agrees(RefreshWorld(old(Wires()), UpdateFold(old(Wires()), old(World()), pipeline, now, pins), pipeline))
      ensures old(activeSequencer) ==> forall i :: 0 <= i < |pipeline| ==> pipeline[i].state == pipeline[i].nextState && !pipeline[i].firstTime
    {
      if activeSequencer {
        Passes(now, pins);
      }
    }

    /** After `Update` from the configuration c and the states w0, a registered module that is
      * neither in the pipeline nor the input of a pipeline module is still in its state of w0. */
    lemma UpdateKeeps(c: map<Module, Wiring>, w0: map<Module, Vars>, now: nat, pins: nat -> bool, x: Module)
      requires Valid() && Fits(c, w0) && IsUint32(now) && forall i :: 0 <= i < |pipeline| ==> pipeline[i] in c
      requires Agrees(RefreshWorld(c, UpdateFold(c, w0, pipeline, now, pins), pipeline))
      requires x in Repr && x in c && forall i :: 0 <= i < |pipeline| ==> pipeline[i] != x && c[pipeline[i]].input != x
      ensures x.V() == w0[x]
    {
      StepFrame(c, w0, pipeline, now, pins, x);
    }

    /** The three passes of an active sequencer's `update`. */
    method Passes(now: nat, pins: nat -> bool)
      requires Valid() && IsUint32(now)
      modifies this`trace, Repr`active, Repr`state, Repr`nextState, Repr`firstTime, Repr`clockTimer,
               Repr`counterEvents, Repr`stateMachine, Repr`timerPulsar, Repr`actionLog
      ensures Valid()
      ensures trace == old(trace) + PassCalls(ActionCall, pipeline) + PassCalls(UpdateCall, pipeline) + PassCalls(RefreshCall, pipeline)
      ensures Fits(old(Wires()), old(World())) &&
              Agrees(RefreshWorld(old(Wires()), UpdateFold(old(Wires()), old(World()), pipeline, now, pins), pipeline))
      ensures forall i :: 0 <= i < |pipeline| ==> pipeline[i].state == pipeline[i].nextState && !pipeline[i].firstTime
    {
      ghost var c := Wires();
      ghost var w0 := World();
      ActionPass(c, w0);
      ghost var w1 := UpdatePass(now, pins, c, w0);
      RefreshPass(c, w1);
    }

    /** The action pass: `action()` on every pipeline module in order. It only writes output pins, so
      * every registered module keeps its configuration c and its state w. */
    method ActionPass(ghost c: map<Module, Wiring>, ghost w: map<Module, Vars>)
      requires Valid() && Configured(c) && Agrees(w)
      modifies this`trace, Repr`actionLog
      ensures Valid() && trace == old(trace) + PassCalls(ActionCall, pipeline)
      ensures Configured(c) && Agrees(w)
    {
      for i := 0 to |pipeline|
        invariant PipelineOk() && trace == old(trace) + PassCalls(ActionCall, pipeline[..i])
        invariant Configured(c) && Agrees(w)
      {
        pipeline[i].Action();
        trace := trace + [Call(ActionCall, pipeline[i])];
        PassCallsSnoc(ActionCall, pipeline, i);
      }
      assert pipeline[..|pipeline|] == pipeline;
    }

    /** The update pass: `update()` on every pipeline module in order. Started with the registered
      * modules configured as c and in the states w0, it leaves them in the states
      * `UpdateFold(c, w0, pipeline)`; their configuration is unchanged. */
    method UpdatePass(now: nat, pins: nat -> bool, ghost c: map<Module, Wiring>, ghost w0: map<Module, Vars>)
        returns (ghost w: map<Module, Vars>)
      requires Valid() && IsUint32(now) && Configured(c) && Fits(c, w0) && Agrees(w0)
      modifies this`trace, Repr`active, Repr`state, Repr`nextState, Repr`clockTimer, Repr`counterEvents,
               Repr`stateMachine, Repr`timerPulsar
      ensures Valid() && trace == old(trace) + PassCalls(UpdateCall, pipeline)
      ensures Configured(c) && Fits(c, w) && w == UpdateFold(c, w0, pipeline, now, pins) && Agrees(w)
    {
      trace := trace + PassCalls(UpdateCall, pipeline);
      w := w0;
      for i := 0 to |pipeline|
        invariant Valid() && trace == old(trace) + PassCalls(UpdateCall, pipeline)
        invariant Configured(c) && (forall j :: 0 <= j < |pipeline| ==> pipeline[j] in c)
        invariant w == UpdateFold(c, w0, pipeline[..i], now, pins)
        invariant Agrees(w)
      {
        w := UpdateAt(i, now, pins, c, w0, w);
      }
      assert pipeline[..|pipeline|] == pipeline;
    }

    /** The i-th call of the update pass takes the fold over the first i pipeline modules one step further. */
    method UpdateAt(i: nat, now: nat, pins: nat -> bool, ghost c: map<Module, Wiring>, ghost w0: map<Module, Vars>,
                    ghost w: map<Module, Vars>) returns (ghost r: map<Module, Vars>)
      requires Valid() && IsUint32(now) && i < |pipeline| && Configured(c) && Fits(c, w0)
      requires (forall j :: 0 <= j < |pipeline| ==> pipeline[j] in c)
      requires w == UpdateFold(c, w0, pipeline[..i], now, pins) && Agrees(w)
      modifies Repr`active, Repr`state, Repr`nextState, Repr`clockTimer, Repr`counterEvents, Repr`stateMachine,
               Repr`timerPulsar
      ensures Valid() && Configured(c) && r == UpdateFold(c, w0, pipeline[..i + 1], now, pins) && Agrees(r)
    {
      UpdateFoldSnoc(c, w0, pipeline, i, now, pins);
      r := UpdateOne(pipeline[i], now, pins, c, w);
    }

    /** One `update()` call of the update pass: the registered modules go from world w to
      * `UpdateStep(c, w, m)`. */
    method UpdateOne(m: Module, now: nat, pins: nat -> bool, ghost c: map<Module, Wiring>, ghost w: map<Module, Vars>)
        returns (ghost r: map<Module, Vars>)
      requires Valid() && IsUint32(now) && m in Repr && Configured(c)
      requires Fits(c, w) && Agrees(w)
      modifies Repr`active, Repr`state, Repr`nextState, Repr`clockTimer, Repr`counterEvents, Repr`stateMachine,
               Repr`timerPulsar
      ensures Valid() && r == UpdateStep(c, w, m, now, pins)
      ensures Configured(c) && Agrees(r)
    {
      r := UpdateStep(c, w, m, now, pins);
      UpdateStepAsCalls(m, now, pins, c, w);
      UpdateHeap(m, now, pins, r[m], if m.input == null then r[m] else r[m.input]);
      forall x | x in Repr
        ensures x.V() == r[x]
      {
        if x != m && x != m.input {
          assert x.V() == w[x];
        }
      }
    }

    /** `m.update()`, given what it computes for m and for m's input (newM and newIn), keeps every
      * module of the registry well formed and changes no other module. */
    method UpdateHeap(m: Module, now: nat, pins: nat -> bool, ghost newM: Vars, ghost newIn: Vars)
      requires Valid() && IsUint32(now) && m in Repr
      requires StepResults(m, now, pins, newM, newIn)
      modifies m`active, m`state, m`nextState, m`clockTimer, m`counterEvents, m`stateMachine, m`timerPulsar,
               m.Link()`active, m.Link()`state, m.Link()`clockTimer
      ensures Valid()
      ensures m.V() == newM && (m.input != null ==> m.input.V() == newIn)
      ensures forall x :: x in Repr && x != m && x != m.input ==> x.V() == old(x.V())
      ensures forall x :: x in Repr ==> x.P() == old(x.P()) && x.input == old(x.input)
    {
      UpdateCore(m, now, pins);
    }

    /** `m.update()` keeps every module of the registry well formed and changes no other module, and
      * leaves every configuration as it was. */
    method UpdateCore(m: Module, now: nat, pins: nat -> bool)
      requires Valid() && IsUint32(now) && m in Repr
      modifies m`active, m`state, m`nextState, m`clockTimer, m`counterEvents, m`stateMachine, m`timerPulsar,
               m.Link()`active, m.Link()`state, m.Link()`clockTimer
      ensures Valid()
      ensures m.kind == ClockKind ==> m.V() == ClockUpdate(m.P(), old(m.V()), m.input != null, old(m.LinkedOutput(pins)), now)
      ensures m.kind == ClockKind && m.input != null ==> m.input.V() == old(m.input.V())
      ensures m.kind != ClockKind && m.input == null ==> m.V() == old(m.V())
      ensures m.kind != ClockKind && m.input != null ==>
                m.V() == UpdateVars(m.P(), old(m.V()), true, old(m.ReadLink(now, pins)), now)
      ensures m.kind != ClockKind && m.input != null && m.input != m ==>
                m.input.V() == if old(m.active) && m.input.kind == ClockKind
                               then ClockUpdate(m.input.P(), old(m.input.V()), m.input.input != null, old(m.input.LinkedOutput(pins)), now)
                               else old(m.input.V())
      ensures forall x :: x in Repr && x != m && x != m.input ==> x.V() == old(x.V())
      ensures forall x :: x in Repr ==> x.P() == old(x.P()) && x.input == old(x.input)
    {
      UpdateValid(m, now, pins);
    }

    /** `m.update()` keeps every module of the registry well formed. */
    method UpdateValid(m: Module, now: nat, pins: nat -> bool)
      requires Valid() && IsUint32(now) && m in Repr
      modifies m`active, m`state, m`nextState, m`clockTimer, m`counterEvents, m`stateMachine, m`timerPulsar,
               m.Link()`active, m.Link()`state, m.Link()`clockTimer
      ensures Valid()
      ensures m.kind == ClockKind ==> m.V() == ClockUpdate(m.P(), old(m.V()), m.input != null, old(m.LinkedOutput(pins)), now)
      ensures m.kind == ClockKind && m.input != null ==> m.input.V() == old(m.input.V())
      ensures m.kind != ClockKind && m.input == null ==> m.V() == old(m.V())
      ensures m.kind != ClockKind && m.input != null ==>
                m.V() == UpdateVars(m.P(), old(m.V()), true, old(m.ReadLink(now, pins)), now)
      ensures m.kind != ClockKind && m.input != null && m.input != m ==>
                m.input.V() == if old(m.active) && m.input.kind == ClockKind
                               then ClockUpdate(m.input.P(), old(m.input.V()), m.input.input != null, old(m.input.LinkedOutput(pins)), now)
                               else old(m.input.V())
    {
      m.Update(now, pins);
      forall m' | m' in Repr
        ensures m'.Valid() && (m'.input != null ==> m'.input in Repr) && m'.LinksOk()
      {
        if m' != m {
          assert old(m'.Valid());
        }
      }
    }

    /** newM and newIn are what `m.update()` leaves in m and in m's input, by `Module.Update`'s contract. */
    ghost predicate StepResults(m: Module, now: nat, pins: nat -> bool, newM: Vars, newIn: Vars)
      reads this, Repr
      requires Valid() && IsUint32(now) && m in Repr
    {
      (m.kind == ClockKind ==>
         newM == ClockUpdate(m.P(), m.V(), m.input != null, m.LinkedOutput(pins), now)
         && (m.input != null ==> newIn == m.input.V()))
      && (m.kind != ClockKind && m.input == null ==> newM == m.V())
      && (m.kind != ClockKind && m.input != null ==>
            newM == UpdateVars(m.P(), m.V(), true, m.ReadLink(now, pins), now)
            && newIn == if m.input == m then newM
                        else if m.active && m.input.kind == ClockKind
                        then ClockUpdate(m.input.P(), m.input.V(), m.input.input != null, m.input.LinkedOutput(pins), now)
                        else m.input.V())
    }

    /** `UpdateStep` gives m and m's input the states `Module.Update`'s contract gives them. */
    lemma UpdateStepAsCalls(m: Module, now: nat, pins: nat -> bool, c: map<Module, Wiring>, w: map<Module, Vars>)
      requires Valid() && IsUint32(now) && m in Repr && Configured(c)
      requires Fits(c, w) && Agrees(w)
      ensures c[m].input == m.input
      ensures var r := UpdateStep(c, w, m, now, pins);
              StepResults(m, now, pins, r[m], if m.input == null then r[m] else r[m.input])
    {
      if m.input != null && m.input.input != null {
        assert m.input.input in Repr;
      }
    }

    /** The refresh pass: `refresh()` on every pipeline module in order. Started with the registered
      * modules in the states w, it leaves them in the states `RefreshWorld(c, w, pipeline)`: every
      * pipeline module has committed its nextState and the others are unchanged. */
    method RefreshPass(ghost c: map<Module, Wiring>, ghost w: map<Module, Vars>)
      requires Valid() && Fits(c, w) && Agrees(w)
      modifies this`trace, Repr`state, Repr`firstTime, Repr`actionLog
      ensures Valid() && trace == old(trace) + PassCalls(RefreshCall, pipeline)
      ensures Agrees(RefreshWorld(c, w, pipeline))
      ensures forall i :: 0 <= i < |pipeline| ==> pipeline[i].state == pipeline[i].nextState && !pipeline[i].firstTime
    {
      trace := trace + PassCalls(RefreshCall, pipeline);
      ghost var r := w;
      for i := 0 to |pipeline|
        invariant Valid() && trace == old(trace) + PassCalls(RefreshCall, pipeline)
        invariant (forall j :: 0 <= j < |pipeline| ==> pipeline[j] in w)
        invariant r == RefreshWorld(c, w, pipeline[..i]) && Agrees(r)
      {
        r := RefreshAt(i, c, w, r);
      }
      assert pipeline[..|pipeline|] == pipeline;
      forall i | 0 <= i < |pipeline|
        ensures pipeline[i].state == pipeline[i].nextState && !pipeline[i].firstTime
      {
        assert pipeline[i].V() == r[pipeline[i]];
      }
    }

    /** The i-th call of the refresh pass takes the refresh of the first i pipeline modules one step further. */
    method RefreshAt(i: nat, ghost c: map<Module, Wiring>, ghost w: map<Module, Vars>, ghost r: map<Module, Vars>)
        returns (ghost r': map<Module, Vars>)
      requires Valid() && i < |pipeline| && Fits(c, w) && pipeline[i] in w
      requires r == RefreshWorld(c, w, pipeline[..i]) && Agrees(r)
      modifies Repr`state, Repr`firstTime, Repr`actionLog
      ensures Valid() && r' == RefreshWorld(c, w, pipeline[..i + 1]) && Agrees(r')
    {
      RefreshWorldSnoc(c, w, pipeline, i);
      r' := RefreshOne(pipeline[i], r);
    }

    /** One `refresh()` of the refresh pass: m commits its nextState; no other module changes. */
    method RefreshOne(m: Module, ghost w: map<Module, Vars>) returns (ghost r: map<Module, Vars>)
      requires Valid() && m in Repr && Agrees(w)
      modifies Repr`state, Repr`firstTime, Repr`actionLog
      ensures Valid() && r == w[m := RefreshVars(w[m]).0] && Agrees(r)
    {
      r := w[m := RefreshVars(w[m]).0];
      m.Refresh();
      forall x | x in Repr
        ensures x in r && x.V() == r[x]
      {
        if x != m {
          assert x.V() == old(x.V());
        }
      }
    }

    /** `Clocks::setStateAllClocks`: the loop starts at k = 1, so clock 0 keeps its `active`.
      * Its uint8_t counter needs NUM_CLOCKS <= 255 to terminate. */
    method SetStateAllClocks(startStop: bool)
      requires Valid() && |clocks| <= 255
      modifies Repr`active
      ensures Valid()
      ensures clocks[0].active == old(clocks[0].active)
      ensures forall k :: 1 <= k < |clocks| ==> clocks[k].active == startStop
      ensures forall m :: m in Repr && m !in clocks[1..] ==> m.active == old(m.active)
    {
      assert clocks == Registry(0);
      for k := 1 to |clocks|
        invariant Valid()
        invariant forall j :: 1 <= j < k ==> clocks[j].active == startStop
        invariant forall m :: m in Repr && m !in clocks[1..k] ==> m.active == old(m.active)
      {
        clocks[k].SetState(startStop);
        assert clocks[1..k + 1] == clocks[1..k] + [clocks[k]];
      }
    }

    /** `Clocks::resetAllClocks`: `reset()` on clocks 1 .. NUM_CLOCKS-1, which restarts their
      * timers; clock 0 and every other module are unchanged. */
    method ResetAllClocks(now: nat)
      requires Valid() && |clocks| <= 255 && IsUint32(now)
      modifies Repr`state, Repr`nextState, Repr`firstTime, Repr`clockTimer, Repr`counterEvents,
               Repr`stateMachine, Repr`timerPulsar
      ensures Valid()
      ensures clocks[0].V() == old(clocks[0].V())
      ensures forall k :: 1 <= k < |clocks| ==> clocks[k].V() == old(clocks[k].V()).(clockTimer := now)
      ensures forall m :: m in Repr && m !in clocks ==> m.V() == old(m.V())
    {
      assert clocks == Registry(0);
      ghost var w0 := World();
      for k := 1 to |clocks|
        invariant Valid() && ClocksResetBelow(k, now, w0)
      {
        ResetClockAt(k, now, w0);
      }
    }

    /** Clocks 1..k-1 have restarted their timers from the states w0; every other module is as in w0. */
    ghost predicate ClocksResetBelow(k: nat, now: nat, w0: map<Module, Vars>)
      requires Valid()
      reads this, Repr
    {
      && (forall m :: m in Repr ==> m in w0)
      && (forall j :: 1 <= j < k && j < |clocks| ==> clocks[j].V() == w0[clocks[j]].(clockTimer := now))
      && (forall j :: k <= j < |clocks| ==> clocks[j].V() == w0[clocks[j]])
      && clocks[0].V() == w0[clocks[0]]
      && (forall m :: m in Repr && m !in clocks ==> m.V() == w0[m])
    }

    /** One turn of `resetAllClocks`: clock k restarts its timer. */
    method ResetClockAt(k: nat, now: nat, ghost w0: map<Module, Vars>)
      requires Valid() && |clocks| <= 255 && IsUint32(now) && 1 <= k < |clocks|
      requires ClocksResetBelow(k, now, w0)
      modifies Repr`state, Repr`nextState, Repr`firstTime, Repr`clockTimer, Repr`counterEvents,
               Repr`stateMachine, Repr`timerPulsar
      ensures Valid() && ClocksResetBelow(k + 1, now, w0)
    {
      ResetAt(clocks, k, now);
    }

    /** `reset()` on the i-th of a list of distinct registered modules: the others keep their state. */
    method ResetAt(s: seq<Module>, i: nat, now: nat)
      requires Valid() && IsUint32(now) && i < |s| && Distinct(s)
      requires forall j :: 0 <= j < |s| ==> s[j] in Repr
      modifies {s[i]}`state, {s[i]}`nextState, {s[i]}`firstTime, {s[i]}`clockTimer, {s[i]}`counterEvents,
               {s[i]}`stateMachine, {s[i]}`timerPulsar
      ensures Valid() && s[i].V() == ResetVars(s[i].P(), old(s[i].V()), now)
      ensures forall j :: 0 <= j < |s| && j != i ==> s[j].V() == old(s[j].V())
      ensures forall m :: m in Repr && m !in s ==> m.V() == old(m.V())
    {
      ResetOne(s[i], now);
    }

    /** One module's `reset()` keeps every module of the registry well formed. */
    method ResetOne(m: Module, now: nat)
      requires Valid() && IsUint32(now) && m in Repr
      modifies m`state, m`nextState, m`firstTime, m`clockTimer, m`counterEvents, m`stateMachine, m`timerPulsar
      ensures Valid() && m.V() == ResetVars(m.P(), old(m.V()), now)
      ensures forall m' :: m' in Repr && m' != m ==> m'.V() == old(m'.V())
    {
      m.Reset(now);
      forall m' | m' in Repr
        ensures m'.Valid() && (m'.input != null ==> m'.input in Repr) && m'.LinksOk()
      {
        if m' != m {
          assert old(m'.Valid());
        }
      }
    }
  }
}
