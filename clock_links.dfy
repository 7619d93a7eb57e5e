/** src/Class_Sequencer.h:320-343 and src/messageParser.cpp:753-767: which `getState` calls a
  * `getState` makes. Only `Clock::getState` calls further: it runs the clock's `update`, which for a
  * linked clock reads the linked module's `getState`. Every other module's `getState` returns at
  * once. `SET_LNK_SEQ` writes a link with `setInputLink` and checks nothing.
  *
  * Modules are numbered; `clocks` are the numbers of the clocks and `from[m]` is the module that m
  * reads through `ptr_fromModule` (absent for NULL). */
module ClockLinks {

  /** How a `getState` ends: it returns after `calls` nested calls (itself included), or it has
    * not returned within the call budget. */
  datatype Depth = Returns(calls: nat) | OutOfFuel

  /** The `getState` calls that a `getState` on module m makes, within a budget of fuel calls. */
  function GetStateCalls(clocks: set<nat>, from: map<nat, nat>, m: nat, fuel: nat): (d: Depth)
    ensures d.Returns? ==> 1 <= d.calls <= fuel
    ensures fuel >= 1 && (m !in clocks || m !in from) ==> d == Returns(1)
    decreases fuel
  {
    if fuel == 0 then OutOfFuel
    else if m in clocks && m in from then
      match GetStateCalls(clocks, from, from[m], fuel - 1)
      case Returns(n) => Returns(n + 1)
      case OutOfFuel => OutOfFuel
    else Returns(1)
  }

  /** A larger budget changes nothing once a `getState` has returned: the fuel is only a bound. */
  lemma {:induction false} MoreFuelSameCalls(clocks: set<nat>, from: map<nat, nat>, m: nat, fuel: nat, more: nat)
    requires fuel <= more && GetStateCalls(clocks, from, m, fuel).Returns?
    ensures GetStateCalls(clocks, from, m, more) == GetStateCalls(clocks, from, m, fuel)
    decreases fuel
  {
    if m in clocks && m in from {
      MoreFuelSameCalls(clocks, from, from[m], fuel - 1, more - 1);
    }
  }

  /** `SET_LNK_SEQ` as written: the target module reads the source module, whatever it read before
    * and whatever the source reads. */
  function SetInputLink(from: map<nat, nat>, to: nat, source: nat): (r: map<nat, nat>)
    ensures r.Keys == from.Keys + {to} && r[to] == source
    ensures forall x :: x in from && x != to ==> r[x] == from[x]
  {
    from[to := source]
  }

  /** As written, linking clock a to clock b and clock b to clock a leaves a `getState` on either
    * of them recursing without end: no budget of calls is enough. */
  lemma {:induction false} AsWrittenMutualClocksNeverReturn(clocks: set<nat>, from: map<nat, nat>, a: nat, b: nat, fuel: nat)
    requires a in clocks && b in clocks && a != b
    ensures GetStateCalls(clocks, SetInputLink(SetInputLink(from, a, b), b, a), a, fuel) == OutOfFuel
    ensures GetStateCalls(clocks, SetInputLink(SetInputLink(from, a, b), b, a), b, fuel) == OutOfFuel
    decreases fuel
  {
    if fuel > 0 {
      AsWrittenMutualClocksNeverReturn(clocks, from, a, b, fuel - 1);
    }
  }

  /** A rank for every clock that strictly decreases along each clock-to-clock link: the links
    * form no cycle of clocks, so every chain of clocks is finite. */
  ghost predicate RankedBy(clocks: set<nat>, from: map<nat, nat>, rank: map<nat, nat>)
  {
    && clocks <= rank.Keys
    && forall m :: m in clocks && m in from && from[m] in clocks ==> rank[from[m]] < rank[m]
  }

  /** A finite chain of clocks terminates: with ranked links, a `getState` on a clock of rank r
    * returns within r + 2 calls. */
  lemma {:induction false} RankedGetStateReturns(clocks: set<nat>, from: map<nat, nat>, rank: map<nat, nat>, m: nat)
    requires RankedBy(clocks, from, rank) && m in clocks
    ensures GetStateCalls(clocks, from, m, rank[m] + 2).Returns?
    decreases rank[m]
  {
    if m in from && from[m] in clocks {
      RankedGetStateReturns(clocks, from, rank, from[m]);
      MoreFuelSameCalls(clocks, from, from[m], rank[from[m]] + 2, rank[m] + 1);
    }
  }

  /** The chain of clocks that starts at clock x passes through clock t. */
  ghost predicate Reaches(clocks: set<nat>, from: map<nat, nat>, rank: map<nat, nat>, x: nat, t: nat)
    requires RankedBy(clocks, from, rank) && x in clocks
    decreases rank[x]
  {
    x == t || (x in from && from[x] in clocks && Reaches(clocks, from, rank, from[x], t))
  }

  /** `SET_LNK_SEQ` as intended: a link from clock `source` to clock `to` is refused when the chain
    * from `source` already passes through `to`, since it would close a cycle of clocks. */
  ghost function SetInputLinkChecked(clocks: set<nat>, from: map<nat, nat>, rank: map<nat, nat>, to: nat, source: nat): (r: map<nat, nat>)
    requires RankedBy(clocks, from, rank)
    ensures r == from || r == SetInputLink(from, to, source)
    ensures (to !in clocks || source !in clocks) ==> r == SetInputLink(from, to, source)
  {
    if to in clocks && source in clocks && Reaches(clocks, from, rank, source, to) then from
    else SetInputLink(from, to, source)
  }

  /** The rank after a clock-to-clock link from `source` to `to` is accepted: every clock whose chain
    * passes through `to` moves above `source`. */
  ghost function LinkedRank(clocks: set<nat>, from: map<nat, nat>, rank: map<nat, nat>, to: nat, source: nat): map<nat, nat>
    requires RankedBy(clocks, from, rank) && source in clocks
  {
    map x | x in clocks :: if Reaches(clocks, from, rank, x, to) then rank[x] + rank[source] + 1 else rank[x]
  }

  /** The checked link keeps the clock links free of cycles: the new links are ranked again. */
  lemma CheckedLinkKeepsRanking(clocks: set<nat>, from: map<nat, nat>, rank: map<nat, nat>, to: nat, source: nat)
    returns (rank': map<nat, nat>)
    requires RankedBy(clocks, from, rank)
    ensures RankedBy(clocks, SetInputLinkChecked(clocks, from, rank, to, source), rank')
  {
    var r := SetInputLinkChecked(clocks, from, rank, to, source);
    if r == from || to !in clocks || source !in clocks {
      rank' := rank;
    } else {
      rank' := LinkedRank(clocks, from, rank, to, source);
      assert !Reaches(clocks, from, rank, source, to);
      forall m | m in clocks && m in r && r[m] in clocks
        ensures rank'[r[m]] < rank'[m]
      {
        if m != to {
          assert Reaches(clocks, from, rank, m, to) == Reaches(clocks, from, rank, from[m], to);
        } else {
          assert Reaches(clocks, from, rank, m, to);
        }
      }
    }
  }

  /** After a checked link every clock's `getState` returns, whatever the links were before, as long
    * as they held no cycle of clocks. */
  lemma CheckedLinkGetStateReturns(clocks: set<nat>, from: map<nat, nat>, rank: map<nat, nat>, to: nat, source: nat, m: nat)
    returns (fuel: nat)
    requires RankedBy(clocks, from, rank) && m in clocks
    ensures GetStateCalls(clocks, SetInputLinkChecked(clocks, from, rank, to, source), m, fuel).Returns?
  {
    var rank' := CheckedLinkKeepsRanking(clocks, from, rank, to, source);
    RankedGetStateReturns(clocks, SetInputLinkChecked(clocks, from, rank, to, source), rank', m);
    fuel := rank'[m] + 2;
  }
}
