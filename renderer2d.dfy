/** src/renderer2D.cpp, namespace Renderer2D: the blueprint (a bounded, append-only array of
  * points), the global pose, and the rendering of the blueprint into the display's hidden buffer.
  * The float transformation (scale, rotate, translate) is an abstract function of the pose. */
module Renderer2D {
  import opened Points
  import opened ScannerDisplay

  /** The global pose: centre, angle and scale factor. */
  datatype Pose = Pose(center: P2, angle: real, scaleFactor: real)

  /** The blueprint after one `addToBlueprint(p)`: `p` is kept only while there is room. */
  function Push(bp: seq<P2>, p: P2): (r: seq<P2>)
    ensures |bp| < MAX_NUM_POINTS ==> r == bp + [p]
    ensures |bp| >= MAX_NUM_POINTS ==> r == bp
  {
    if |bp| < MAX_NUM_POINTS then bp + [p] else bp
  }

  /** The blueprint after `addToBlueprint` of each point of `pts` in turn. */
  function AppendAll(bp: seq<P2>, pts: seq<P2>): (r: seq<P2>)
    ensures |bp| <= |r|
    ensures |bp| <= MAX_NUM_POINTS ==> |r| == Min(|bp| + |pts|, MAX_NUM_POINTS)
  {
    if pts == [] then bp else Push(AppendAll(bp, pts[..|pts| - 1]), pts[|pts| - 1])
  }

  /** Appending point by point keeps the points up to the capacity and drops the rest. */
  lemma {:induction false} AppendAllCapped(bp: seq<P2>, pts: seq<P2>)
    requires |bp| <= MAX_NUM_POINTS
    ensures AppendAll(bp, pts) == (bp + pts)[..Min(|bp| + |pts|, MAX_NUM_POINTS)]
  {
    if pts != [] {
      var init := pts[..|pts| - 1];
      AppendAllCapped(bp, init);
      assert bp + init == (bp + pts)[..|bp| + |init|];
    }
  }

  /** The blueprint rendered with a pose: each point is transformed on its own. */
  function Transformed(bp: seq<P2>, pose: Pose, transform: (Pose, P2) -> P2): (r: seq<P2>)
    ensures |r| == |bp|
    ensures forall i :: 0 <= i < |bp| ==> r[i] == transform(pose, bp[i])
  {
    seq(|bp|, i requires 0 <= i < |bp| => transform(pose, bp[i]))
  }

  class Renderer {
    const display: Display
    const bluePrintArray: array<P2>
    var sizeBlueprint: nat
    var center: P2
    var angle: real
    var scaleFactor: real

    ghost predicate Valid()
      reads this, display
    {
      display.Valid()
      && bluePrintArray.Length == MAX_NUM_POINTS && sizeBlueprint <= MAX_NUM_POINTS
      && bluePrintArray != display.displayBuffer1 && bluePrintArray != display.displayBuffer2
    }

    /** The points of the current figure: the first `sizeBlueprint` slots. */
    ghost function Blueprint(): (bp: seq<P2>)
      reads this, bluePrintArray
      requires sizeBlueprint <= bluePrintArray.Length
      ensures |bp| == sizeBlueprint
    {
      bluePrintArray[..sizeBlueprint]
    }

    function CurrentPose(): (pose: Pose)
      reads this
      ensures pose.center == center && pose.angle == angle && pose.scaleFactor == scaleFactor
    {
      Pose(center, angle, scaleFactor)
    }

    /** The global definitions: pose (0,0), angle 0, scale 1 and an empty blueprint. */
    constructor (d: Display)
      requires d.Valid()
      ensures Valid() && display == d && fresh(bluePrintArray)
      ensures sizeBlueprint == 0 && center == ORIGIN && angle == 0.0 && scaleFactor == 1.0
    {
      display := d;
      bluePrintArray := new P2[MAX_NUM_POINTS](_ => ORIGIN);
      sizeBlueprint := 0;
      center, angle, scaleFactor := ORIGIN, 0.0, 1.0;
    }

    /** `getLastPoint`: `bluePrintArray[sizeBlueprint - 1]`, which needs a non-empty blueprint. */
    function GetLastPoint(): (p: P2)
      reads this, bluePrintArray
      requires sizeBlueprint <= bluePrintArray.Length && sizeBlueprint > 0
      ensures p == Blueprint()[|Blueprint()| - 1]
    {
      bluePrintArray[sizeBlueprint - 1]
    }

    /** `addToBlueprint`: stores at index `sizeBlueprint` and increments it while there is room. */
    method AddToBlueprint(p: P2)
      requires Valid()
      modifies this`sizeBlueprint, bluePrintArray
      ensures Valid()
      ensures Blueprint() == Push(old(Blueprint()), p)
      ensures old(sizeBlueprint) < MAX_NUM_POINTS ==>
                sizeBlueprint == old(sizeBlueprint) + 1 && bluePrintArray[..] == old(bluePrintArray[..])[old(sizeBlueprint) := p]
      ensures old(sizeBlueprint) >= MAX_NUM_POINTS ==>
                sizeBlueprint == old(sizeBlueprint) && bluePrintArray[..] == old(bluePrintArray[..])
    {
      if sizeBlueprint < MAX_NUM_POINTS {
        bluePrintArray[sizeBlueprint] := p;
        sizeBlueprint := sizeBlueprint + 1;
        assert Blueprint() == old(Blueprint()) + [p];
      }
    }

    /** `writeInBluePrintArray`: overwrites one slot when the index is in range; the size is kept. */
    method WriteInBluePrintArray(index: nat, p: P2)
      requires Valid()
      modifies bluePrintArray
      ensures Valid()
      ensures index < MAX_NUM_POINTS ==> bluePrintArray[..] == old(bluePrintArray[..])[index := p]
      ensures index >= MAX_NUM_POINTS ==> bluePrintArray[..] == old(bluePrintArray[..])
    {
      if index < MAX_NUM_POINTS {
        bluePrintArray[index] := p;
      }
    }

    /** `renderFigure`: writes the transformed blueprint into the hidden buffer, then requests a
      * resize to the blueprint size and a swap. The blueprint and the displayed buffer are kept. */
    method RenderFigure(transform: (Pose, P2) -> P2)
      requires Valid()
      modifies display`newSizeBufferDisplay, display`needSwapFlag, display.hidden
      ensures Valid()
      ensures display.hidden[..sizeBlueprint] == Transformed(Blueprint(), CurrentPose(), transform)
      ensures display.hidden[sizeBlueprint..] == old(display.hidden[sizeBlueprint..])
      ensures display.current[..] == old(display.current[..])
      ensures display.newSizeBufferDisplay == sizeBlueprint && display.needSwapFlag
      ensures bluePrintArray[..] == old(bluePrintArray[..])
    {
      ghost var target := Transformed(Blueprint(), CurrentPose(), transform);
      ghost var hidden0 := display.hidden[..];
      var i := 0;
      while i < sizeBlueprint
        invariant Valid() && i <= sizeBlueprint
        invariant forall k :: 0 <= k < i ==> display.hidden[k] == target[k]
        invariant forall k :: i <= k < display.hidden.Length ==> display.hidden[k] == hidden0[k]
        invariant display.current[..] == old(display.current[..])
        invariant bluePrintArray[..] == old(bluePrintArray[..])
      {
        var point := transform(CurrentPose(), bluePrintArray[i]);
        display.WriteOnHiddenBuffer(i, point);
        i := i + 1;
      }
      assert display.hidden[..sizeBlueprint] == target;
      display.ResizeBuffer(sizeBlueprint);
      display.RequestBufferSwap();
    }

    /** `clearBlueprint`: empties the blueprint, then requests a resize to 0 and a swap. */
    method ClearBlueprint()
      requires Valid()
      modifies this`sizeBlueprint, display`newSizeBufferDisplay, display`needSwapFlag
      ensures Valid()
      ensures sizeBlueprint == 0 && display.newSizeBufferDisplay == 0 && display.needSwapFlag
    {
      sizeBlueprint := 0;
      display.ResizeBuffer(sizeBlueprint);
      display.RequestBufferSwap();
    }
  }
}
