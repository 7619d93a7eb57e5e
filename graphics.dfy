/** src/graphics.cpp, namespace Graphics: the clear mode, the global pose setters and the figure
  * builders, which append vertices to the blueprint. Vertex positions are exact reals; circle
  * coordinates come from an abstract `unit(n, i)` standing for (cos phi_i, sin phi_i). */
module Graphics {
  import opened IntWidth
  import opened Points
  import opened ScannerDisplay
  import opened Renderer2D

  /** The vertices `drawLine(from, lenX, lenY, n)` appends: `n` evenly spaced points from `from`,
    * the last one at `from + (lenX, lenY)`. With fewer than two points the step is never used. */
  function LinePoints(from: P2, lenX: real, lenY: real, n: nat): (pts: seq<P2>)
    ensures |pts| == n
    ensures forall i :: 0 <= i < n ==> pts[i] == StepPoint(from, LineStep(lenX, n), LineStep(lenY, n), i)
  {
    seq(n, i requires 0 <= i < n => StepPoint(from, LineStep(lenX, n), LineStep(lenY, n), i))
  }

  /** `len / (n - 1)`, the distance between two neighbouring points of an n-point line. */
  function LineStep(len: real, n: nat): real
  {
    if n >= 2 then len / ((n - 1) as real) else 0.0
  }

  /** The i-th point of a line: `from` moved i steps. */
  function StepPoint(from: P2, dx: real, dy: real, i: nat): P2
  {
    P2(from.x + (i as real) * dx, from.y + (i as real) * dy)
  }

  lemma StepPointNext(from: P2, dx: real, dy: real, i: nat)
    ensures StepPoint(from, dx, dy, i + 1) == P2(StepPoint(from, dx, dy, i).x + dx, StepPoint(from, dx, dy, i).y + dy)
  {
    assert (i as real + 1.0) * dx == (i as real) * dx + dx;
    assert (i as real + 1.0) * dy == (i as real) * dy + dy;
  }

  /** A line starts at `from` and, with at least two points, ends exactly at `from + (lenX, lenY)`. */
  lemma LineEndpoints(from: P2, lenX: real, lenY: real, n: nat)
    ensures n > 0 ==> LinePoints(from, lenX, lenY, n)[0] == from
    ensures n >= 2 ==> LinePoints(from, lenX, lenY, n)[n - 1] == P2(from.x + lenX, from.y + lenY)
  {
    if n >= 2 {
      var k := (n - 1) as real;
      assert k * (lenX / k) == lenX;
      assert k * (lenY / k) == lenY;
    }
  }

  /** The vertices `drawCircle(c, r, n)` appends: the loop runs `i <= n`, so there are n+1. */
  function CirclePoints(c: P2, radius: real, n: nat, unit: (nat, nat) -> P2): (pts: seq<P2>)
    ensures |pts| == n + 1
    ensures forall i :: 0 <= i <= n ==> pts[i] == OnCircle(c, radius, unit(n, i))
  {
    seq(n + 1, i requires 0 <= i <= n => OnCircle(c, radius, unit(n, i)))
  }

  /** The point at `unit` on the circle of centre c: `radius * unit + c`. */
  function OnCircle(c: P2, radius: real, unit: P2): P2
  {
    P2(radius * unit.x + c.x, radius * unit.y + c.y)
  }

  function Last(s: seq<P2>): P2
    requires |s| > 0
  {
    s[|s| - 1]
  }

  /** `drawLine(getLastPoint(), lx, ly, n)`: a line continuing from the last vertex. */
  function Side(s: seq<P2>, lx: real, ly: real, n: nat): seq<P2>
    requires |s| > 0
  {
    AppendAll(s, LinePoints(Last(s), lx, ly, n))
  }

  /** The blueprint after `drawRectangle`: one side from the corner, then three sides each
    * continuing from the last vertex. */
  function RectangleAfter(bp: seq<P2>, corner: P2, lenX: real, lenY: real, nx: nat, ny: nat): seq<P2>
    requires |bp| <= MAX_NUM_POINTS && |bp| + nx > 0
  {
    var s1 := AppendAll(bp, LinePoints(corner, lenX, 0.0, nx));
    Side(Side(Side(s1, 0.0, lenY, ny), -lenX, 0.0, nx), 0.0, -lenY, ny)
  }

  /** A rectangle adds 2nx + 2ny vertices, capacity permitting, and keeps the earlier ones. */
  lemma RectangleAfterCount(bp: seq<P2>, corner: P2, lenX: real, lenY: real, nx: nat, ny: nat)
    requires |bp| <= MAX_NUM_POINTS && |bp| + nx > 0
    ensures |RectangleAfter(bp, corner, lenX, lenY, nx, ny)| == Min(|bp| + 2 * nx + 2 * ny, MAX_NUM_POINTS)
    ensures RectangleAfter(bp, corner, lenX, lenY, nx, ny)[..|bp|] == bp
  {
    var s1 := AppendAll(bp, LinePoints(corner, lenX, 0.0, nx));
    var s2 := Side(s1, 0.0, lenY, ny);
    var s3 := Side(s2, -lenX, 0.0, nx);
    var s4 := Side(s3, 0.0, -lenY, ny);
    AppendAllKeepsPrefix(bp, LinePoints(corner, lenX, 0.0, nx));
    AppendAllKeepsPrefix(s1, LinePoints(Last(s1), 0.0, lenY, ny));
    AppendAllKeepsPrefix(s2, LinePoints(Last(s2), -lenX, 0.0, nx));
    AppendAllKeepsPrefix(s3, LinePoints(Last(s3), 0.0, -lenY, ny));
    assert RectangleAfter(bp, corner, lenX, lenY, nx, ny) == s4;
    PrefixOfPrefix(s2, s1, |bp|);
    PrefixOfPrefix(s3, s2, |bp|);
    PrefixOfPrefix(s4, s3, |bp|);
  }

  /** A prefix of a prefix is a prefix. */
  lemma PrefixOfPrefix<T>(a: seq<T>, b: seq<T>, n: nat)
    requires |b| <= |a| && a[..|b|] == b && n <= |b|
    ensures a[..n] == b[..n]
  {
    assert a[..n] == a[..|b|][..n];
  }

  /** Appending never disturbs the vertices already in the blueprint. */
  lemma AppendAllKeepsPrefix(bp: seq<P2>, pts: seq<P2>)
    requires |bp| <= MAX_NUM_POINTS
    ensures AppendAll(bp, pts)[..|bp|] == bp
  {
    AppendAllCapped(bp, pts);
  }

  /** `uint8_t lines = ny / 2 / (1 + mode)`: the number of zig-zag rows, truncated to 8 bits. */
  function ZigZagLines(ny: nat, mode: bool): (lines: nat)
    ensures lines < 0x100
    ensures ny / 2 / (if mode then 2 else 1) < 0x100 ==> lines == ny / 2 / (if mode then 2 else 1)
  {
    WrapUint8(ny / 2 / (if mode then 2 else 1))
  }

  /** Points of one step line and repeated start points, per mode. */
  function ZigZagStepPoints(mode: bool): nat { if mode then 5 else 3 }
  function ZigZagRepeats(mode: bool): nat { if mode then 5 else 0 }

  /** Vertices appended by one row: two horizontal lines, two step lines, four repeated points. */
  function ZigZagRowPoints(nx: nat, mode: bool): (k: nat)
    ensures !mode ==> k == 2 * nx + 6
    ensures mode ==> k == 2 * nx + 30
  {
    2 * nx + 2 * ZigZagStepPoints(mode) + 4 * ZigZagRepeats(mode)
  }

  /** Total vertices `drawZigZag` asks for: mode 1 draws every row again on the interlaced return. */
  function ZigZagPoints(nx: nat, ny: nat, mode: bool): (k: nat)
    ensures !mode ==> k == ZigZagLines(ny, false) * (2 * nx + 6)
    ensures mode ==> k == 2 * ZigZagLines(ny, true) * (2 * nx + 30)
  {
    (if mode then 2 else 1) * ZigZagLines(ny, mode) * ZigZagRowPoints(nx, mode)
  }

  lemma ZigZagMode0Count(nx: nat, ny: nat)
    requires ny < 512
    ensures ZigZagPoints(nx, ny, false) == (ny / 2) * (2 * nx + 6)
  {
  }

  class Scene {
    const renderer: Renderer
    var clearModeFlag: bool

    ghost predicate Valid()
      reads this, renderer, renderer.display
    {
      renderer.Valid()
    }

    /** `clearModeFlag` starts true. */
    constructor (r: Renderer)
      requires r.Valid()
      ensures Valid() && renderer == r && clearModeFlag
    {
      renderer := r;
      clearModeFlag := true;
    }

    method SetClearMode(flag: bool)
      modifies this`clearModeFlag
      ensures clearModeFlag == flag
    {
      clearModeFlag := flag;
    }

    function GetClearMode(): (flag: bool)
      reads this
      ensures flag == clearModeFlag
    {
      clearModeFlag
    }

    /** `resetGlobalPose`: centre (0,0), angle 0, scale 1; nothing is rendered. */
    method ResetGlobalPose()
      requires Valid()
      modifies renderer`center, renderer`angle, renderer`scaleFactor
      ensures Valid()
      ensures renderer.CurrentPose() == Pose(ORIGIN, 0.0, 1.0)
    {
      renderer.center := P2(0.0, 0.0);
      renderer.angle := 0.0;
      renderer.scaleFactor := 1.0;
    }

    /** `clearScene`: clears the blueprint (which requests an empty swap) and stops the display. */
    method ClearScene()
      requires Valid()
      modifies renderer`sizeBlueprint, renderer.display`newSizeBufferDisplay,
               renderer.display`needSwapFlag, renderer.display`running
      ensures Valid()
      ensures renderer.sizeBlueprint == 0 && renderer.display.newSizeBufferDisplay == 0
      ensures renderer.display.needSwapFlag && !renderer.display.running
    {
      renderer.ClearBlueprint();
      renderer.display.StopDisplay();
    }

    /** `updateScene`: clears the scene exactly when the clear mode is on. */
    method UpdateScene()
      requires Valid()
      modifies renderer`sizeBlueprint, renderer.display`newSizeBufferDisplay,
               renderer.display`needSwapFlag, renderer.display`running
      ensures Valid()
      ensures clearModeFlag ==> renderer.sizeBlueprint == 0 && renderer.display.newSizeBufferDisplay == 0
                                && renderer.display.needSwapFlag && !renderer.display.running
      ensures !clearModeFlag ==> renderer.sizeBlueprint == old(renderer.sizeBlueprint)
                                 && renderer.display.newSizeBufferDisplay == old(renderer.display.newSizeBufferDisplay)
                                 && renderer.display.needSwapFlag == old(renderer.display.needSwapFlag)
                                 && renderer.display.running == old(renderer.display.running)
    {
      if clearModeFlag {
        ClearScene();
      }
    }

    method AddVertex(p: P2)
      requires Valid()
      modifies renderer`sizeBlueprint, renderer.bluePrintArray
      ensures Valid()
      ensures renderer.Blueprint() == Push(old(renderer.Blueprint()), p)
    {
      renderer.AddToBlueprint(p);
    }

    /** `addVertex(p, k)` appends k copies of p. Its uint8_t counter never reaches k > 255, so the
      * loop only terminates for k <= 255. */
    method AddVertexTimes(p: P2, manyTimes: nat)
      requires Valid() && manyTimes <= 255
      modifies renderer`sizeBlueprint, renderer.bluePrintArray
      ensures Valid()
      ensures renderer.Blueprint() == AppendAll(old(renderer.Blueprint()), seq(manyTimes, _ => p))
    {
      var k := 0;
      while k < manyTimes
        invariant Valid() && k <= manyTimes
        invariant renderer.Blueprint() == AppendAll(old(renderer.Blueprint()), seq(k, _ => p))
      {
        AddVertex(p);
        assert seq(k + 1, _ => p)[..k] == seq(k, _ => p);
        k := k + 1;
      }
    }

    /** `drawLine(from, lenX, lenY, n)`: appends the n points of the line, capacity permitting. */
    method DrawLine(from: P2, lenX: real, lenY: real, numPoints: nat)
      requires Valid() && IsUint16(numPoints)
      modifies renderer`sizeBlueprint, renderer.bluePrintArray
      ensures Valid()
      ensures renderer.Blueprint() == AppendAll(old(renderer.Blueprint()), LinePoints(from, lenX, lenY, numPoints))
    {
      var dx := if numPoints >= 2 then lenX / ((numPoints - 1) as real) else 0.0;
      var dy := if numPoints >= 2 then lenY / ((numPoints - 1) as real) else 0.0;
      assert dx == LineStep(lenX, numPoints) && dy == LineStep(lenY, numPoints);
      ghost var pts := LinePoints(from, lenX, lenY, numPoints);
      var newPoint := from;
      var i := 0;
      while i < numPoints
        invariant Valid() && i <= numPoints
        invariant newPoint == StepPoint(from, dx, dy, i)
        invariant renderer.Blueprint() == AppendAll(old(renderer.Blueprint()), pts[..i])
      {
        assert pts[i] == newPoint;
        AddVertex(newPoint);
        assert pts[..i + 1][..i] == pts[..i];
        StepPointNext(from, dx, dy, i);
        newPoint := P2(newPoint.x + dx, newPoint.y + dy);
        i := i + 1;
      }
      assert pts[..i] == pts;
    }

    /** `drawLine(lenX, lenY, n)`: the same line from the origin. */
    method DrawLineFromOrigin(lenX: real, lenY: real, numPoints: nat)
      requires Valid() && IsUint16(numPoints)
      modifies renderer`sizeBlueprint, renderer.bluePrintArray
      ensures Valid()
      ensures renderer.Blueprint() == AppendAll(old(renderer.Blueprint()), LinePoints(ORIGIN, lenX, lenY, numPoints))
    {
      DrawLine(P2(0.0, 0.0), lenX, lenY, numPoints);
    }

    /** `drawCircle(c, r, n)`: appends n+1 points (`i <= n`). With n = 65535 the uint16_t counter
      * never exceeds n and the loop does not terminate. */
    method DrawCircle(c: P2, radius: real, numPoints: nat, unit: (nat, nat) -> P2)
      requires Valid() && numPoints < 0xFFFF
      modifies renderer`sizeBlueprint, renderer.bluePrintArray
      ensures Valid()
      ensures renderer.Blueprint() == AppendAll(old(renderer.Blueprint()), CirclePoints(c, radius, numPoints, unit))
      ensures renderer.sizeBlueprint == Min(old(renderer.sizeBlueprint) + numPoints + 1, MAX_NUM_POINTS)
    {
      ghost var pts := CirclePoints(c, radius, numPoints, unit);
      var i := 0;
      while i <= numPoints
        invariant Valid() && i <= numPoints + 1
        invariant renderer.Blueprint() == AppendAll(old(renderer.Blueprint()), pts[..i])
      {
        var u := unit(numPoints, i);
        var auxPoint := P2(radius * u.x, radius * u.y);
        auxPoint := P2(auxPoint.x + c.x, auxPoint.y + c.y);
        assert pts[i] == auxPoint;
        AddVertex(auxPoint);
        assert pts[..i + 1][..i] == pts[..i];
        i := i + 1;
      }
      assert pts[..i] == pts;
    }

    method DrawCircleCentered(radius: real, numPoints: nat, unit: (nat, nat) -> P2)
      requires Valid() && numPoints < 0xFFFF
      modifies renderer`sizeBlueprint, renderer.bluePrintArray
      ensures Valid()
      ensures renderer.Blueprint() == AppendAll(old(renderer.Blueprint()), CirclePoints(ORIGIN, radius, numPoints, unit))
    {
      DrawCircle(P2(0.0, 0.0), radius, numPoints, unit);
    }

    /** `drawRectangle`: four sides of nx, ny, nx and ny points, each side starting at the last
      * point of the blueprint. Reading that point needs a non-empty blueprint after the first side. */
    /** `drawLine(getLastPoint(), lx, ly, n)`, as the sides of `drawRectangle` do. */
    method DrawSide(lx: real, ly: real, n: nat)
      requires Valid() && IsUint16(n) && renderer.sizeBlueprint > 0
      modifies renderer`sizeBlueprint, renderer.bluePrintArray
      ensures Valid()
      ensures renderer.Blueprint() == Side(old(renderer.Blueprint()), lx, ly, n)
    {
      var p := renderer.GetLastPoint();
      DrawLine(p, lx, ly, n);
    }

    /** `drawRectangle`: four sides of nx, ny, nx and ny points, each side after the first starting
      * at the last vertex. Reading that vertex needs a non-empty blueprint after the first side. */
    method DrawRectangle(corner: P2, lenX: real, lenY: real, nx: nat, ny: nat)
      requires Valid() && IsUint16(nx) && IsUint16(ny)
      requires renderer.sizeBlueprint + nx > 0
      modifies renderer`sizeBlueprint, renderer.bluePrintArray
      ensures Valid()
      ensures renderer.Blueprint() == RectangleAfter(old(renderer.Blueprint()), corner, lenX, lenY, nx, ny)
      ensures renderer.sizeBlueprint == Min(old(renderer.sizeBlueprint) + 2 * nx + 2 * ny, MAX_NUM_POINTS)
    {
      ghost var bp := renderer.Blueprint();
      DrawLine(corner, lenX, 0.0, nx);
      DrawSide(0.0, lenY, ny);
      DrawSide(-lenX, 0.0, nx);
      DrawSide(0.0, -lenY, ny);
      RectangleAfterCount(bp, corner, lenX, lenY, nx, ny);
    }

    method DrawRectangleCentered(lenX: real, lenY: real, nx: nat, ny: nat)
      requires Valid() && IsUint16(nx) && IsUint16(ny)
      requires renderer.sizeBlueprint + nx > 0
      modifies renderer`sizeBlueprint, renderer.bluePrintArray
      ensures Valid()
      ensures renderer.Blueprint() == RectangleAfter(old(renderer.Blueprint()), P2(-lenX / 2.0, -lenY / 2.0), lenX, lenY, nx, ny)
    {
      DrawRectangle(P2(-lenX / 2.0, -lenY / 2.0), lenX, lenY, nx, ny);
    }

    /** `drawSquare`: a rectangle with equal sides and points per side. */
    method DrawSquare(corner: P2, sideLength: real, numPointsSide: nat)
      requires Valid() && IsUint16(numPointsSide)
      requires renderer.sizeBlueprint + numPointsSide > 0
      modifies renderer`sizeBlueprint, renderer.bluePrintArray
      ensures Valid()
      ensures renderer.Blueprint() == RectangleAfter(old(renderer.Blueprint()), corner, sideLength, sideLength, numPointsSide, numPointsSide)
      ensures renderer.sizeBlueprint == Min(old(renderer.sizeBlueprint) + 4 * numPointsSide, MAX_NUM_POINTS)
    {
      DrawRectangle(corner, sideLength, sideLength, numPointsSide, numPointsSide);
    }

    method DrawSquareCentered(sideLength: real, numPointsSide: nat)
      requires Valid() && IsUint16(numPointsSide)
      requires renderer.sizeBlueprint + numPointsSide > 0
      modifies renderer`sizeBlueprint, renderer.bluePrintArray
      ensures Valid()
      ensures renderer.Blueprint() == RectangleAfter(old(renderer.Blueprint()), P2(-sideLength / 2.0, -sideLength / 2.0),
                                                     sideLength, sideLength, numPointsSide, numPointsSide)
    {
      DrawSquare(P2(-sideLength / 2.0, -sideLength / 2.0), sideLength, numPointsSide);
    }

    /** One `addVertex(point, repeats); drawLine(point, lx, ly, n); point = getLastPoint();` group
      * of `drawZigZag`. */
    method ZigZagSegment(point: P2, lx: real, ly: real, n: nat, repeats: nat) returns (last: P2)
      requires Valid() && IsUint16(n) && repeats <= 255
      requires renderer.sizeBlueprint + repeats + n > 0
      modifies renderer`sizeBlueprint, renderer.bluePrintArray
      ensures Valid()
      ensures renderer.sizeBlueprint == Min(old(renderer.sizeBlueprint) + repeats + n, MAX_NUM_POINTS)
      ensures old(renderer.sizeBlueprint) <= renderer.sizeBlueprint
      ensures renderer.Blueprint()[..old(renderer.sizeBlueprint)] == old(renderer.Blueprint())
    {
      ghost var bp := renderer.Blueprint();
      AddVertexTimes(point, repeats);
      AppendAllKeepsPrefix(bp, seq(repeats, _ => point));
      ghost var s1 := renderer.Blueprint();
      DrawLine(point, lx, ly, n);
      AppendAllKeepsPrefix(s1, LinePoints(point, lx, ly, n));
      last := renderer.GetLastPoint();
    }

    /** One row of `drawZigZag`: right (or back) along x, a step in y, back along x, a step in y. */
    method ZigZagRow(point: P2, lenX: real, stepY: real, nx: nat, mode: bool) returns (last: P2)
      requires Valid() && IsUint16(nx)
      requires renderer.sizeBlueprint + ZigZagRepeats(mode) + nx > 0
      modifies renderer`sizeBlueprint, renderer.bluePrintArray
      ensures Valid()
      ensures renderer.sizeBlueprint == Min(old(renderer.sizeBlueprint) + ZigZagRowPoints(nx, mode), MAX_NUM_POINTS)
      ensures renderer.sizeBlueprint > 0
      ensures renderer.Blueprint()[..old(renderer.sizeBlueprint)] == old(renderer.Blueprint())
    {
      var steps := ZigZagStepPoints(mode);
      var repeats := ZigZagRepeats(mode);
      ghost var s0 := renderer.sizeBlueprint;
      ghost var bp := renderer.Blueprint();
      last := ZigZagSegment(point, lenX, 0.0, nx, repeats);
      ghost var b1 := renderer.Blueprint();
      last := ZigZagSegment(last, 0.0, stepY, steps, repeats);
      ghost var b2 := renderer.Blueprint();
      PrefixOfPrefix(b2, b1, s0);
      last := ZigZagSegment(last, -lenX, 0.0, nx, repeats);
      ghost var b3 := renderer.Blueprint();
      PrefixOfPrefix(b3, b2, s0);
      last := ZigZagSegment(last, 0.0, stepY, steps, repeats);
      PrefixOfPrefix(renderer.Blueprint(), b3, s0);
    }

    /** `drawZigZag`: `lines` rows of (line along x, step up, line back, step up); mode 1 adds
      * repeated start points and an interlaced return of as many rows going down. Only the number
      * of vertices is stated: `ZigZagPoints(nx, ny, mode)`, capacity permitting. */
    method DrawZigZag(from: P2, lenX: real, lenY: real, nx: nat, ny: nat, mode: bool)
      requires Valid() && IsUint16(nx) && IsUint16(ny)
      requires ZigZagLines(ny, mode) == 0 || renderer.sizeBlueprint + ZigZagRepeats(mode) + nx > 0
      modifies renderer`sizeBlueprint, renderer.bluePrintArray
      ensures Valid()
      ensures renderer.sizeBlueprint == Min(old(renderer.sizeBlueprint) + ZigZagPoints(nx, ny, mode), MAX_NUM_POINTS)
      ensures renderer.Blueprint()[..old(renderer.sizeBlueprint)] == old(renderer.Blueprint())
    {
      var point := from;
      var stepY := if ny == 0 then 0.0 else lenY / (ny as real) * (if mode then 2.0 else 1.0);
      var lines := WrapUint8(ny / 2 / (if mode then 2 else 1));
      ghost var s0 := renderer.sizeBlueprint;
      ghost var per := ZigZagRowPoints(nx, mode);
      assert lines == ZigZagLines(ny, mode);
      ZigZagPointsSplit(nx, ny, mode);
      point := ZigZagRows(point, lenX, stepY, nx, mode, lines);
      if mode {
        ghost var s1 := renderer.sizeBlueprint;
        ghost var b1 := renderer.Blueprint();
        point := P2(point.x, point.y - stepY / 2.0);
        point := ZigZagRows(point, lenX, -stepY, nx, mode, lines);
        PrefixOfPrefix(renderer.Blueprint(), b1, s0);
        MinAdd(s0, lines * per, lines * per);
      }
    }

    /** The row loop of `drawZigZag`: `for (i = 0; i < lines; i++)`, one row per turn. */
    method ZigZagRows(from: P2, lenX: real, stepY: real, nx: nat, mode: bool, lines: nat) returns (point: P2)
      requires Valid() && IsUint16(nx)
      requires lines == 0 || renderer.sizeBlueprint + ZigZagRepeats(mode) + nx > 0
      modifies renderer`sizeBlueprint, renderer.bluePrintArray
      ensures Valid()
      ensures renderer.sizeBlueprint == Min(old(renderer.sizeBlueprint) + lines * ZigZagRowPoints(nx, mode), MAX_NUM_POINTS)
      ensures lines > 0 ==> renderer.sizeBlueprint > 0
      ensures renderer.Blueprint()[..old(renderer.sizeBlueprint)] == old(renderer.Blueprint())
    {
      point := from;
      ghost var s0 := renderer.sizeBlueprint;
      ghost var bp := renderer.Blueprint();
      ghost var per := ZigZagRowPoints(nx, mode);
      var i := 0;
      while i < lines
        invariant Valid() && i <= lines
        invariant renderer.sizeBlueprint == Min(s0 + i * per, MAX_NUM_POINTS)
        invariant i > 0 ==> renderer.sizeBlueprint > 0
        invariant s0 <= renderer.sizeBlueprint && renderer.Blueprint()[..s0] == bp
      {
        ghost var before := renderer.Blueprint();
        point := ZigZagRow(point, lenX, stepY, nx, mode);
        PrefixOfPrefix(renderer.Blueprint(), before, s0);
        MinAdd(s0, i * per, per);
        assert i * per + per == (i + 1) * per;
        i := i + 1;
      }
    }

    method DrawZigZagCentered(lenX: real, lenY: real, nx: nat, ny: nat, mode: bool)
      requires Valid() && IsUint16(nx) && IsUint16(ny)
      requires ZigZagLines(ny, mode) == 0 || renderer.sizeBlueprint + ZigZagRepeats(mode) + nx > 0
      modifies renderer`sizeBlueprint, renderer.bluePrintArray
      ensures Valid()
      ensures renderer.sizeBlueprint == Min(old(renderer.sizeBlueprint) + ZigZagPoints(nx, ny, mode), MAX_NUM_POINTS)
    {
      DrawZigZag(P2(-lenX / 2.0, -lenY / 2.0), lenX, lenY, nx, ny, mode);
    }
  }

  /** The zig-zag total is one pass of rows, or two passes in mode 1. */
  lemma ZigZagPointsSplit(nx: nat, ny: nat, mode: bool)
    ensures var pass := ZigZagLines(ny, mode) * ZigZagRowPoints(nx, mode);
            ZigZagPoints(nx, ny, mode) == if mode then pass + pass else pass
  {
  }

  /** Appending b vertices after a capped append of a is one capped append of a + b. */
  lemma MinAdd(s0: nat, a: nat, b: nat)
    ensures Min(Min(s0 + a, MAX_NUM_POINTS) + b, MAX_NUM_POINTS) == Min(s0 + a + b, MAX_NUM_POINTS)
  {
  }
}
