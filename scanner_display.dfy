/** src/scannerDisplay.cpp, namespace DisplayScan: the double-buffered display engine.
  * The main program writes the hidden buffer and requests a swap; the timer interrupt shows one
  * point of the current buffer per call and swaps the buffers at the start of a round.
  * `displayISR` is modelled as one atomic step that can be interleaved with the main-side calls. */
module ScannerDisplay {
  import opened Points

  /** `DEFAULT_RENDERING_INTERVAL` (microseconds between two interrupt calls). */
  const DEFAULT_RENDERING_INTERVAL := 100

  /** What one interrupt call sends to the mirrors: a buffered point, or the recentring of an
    * empty display. */
  datatype IsrOutput = MirrorsTo(p: P2) | Recentered

  class Display {
    const displayBuffer1: array<P2>
    const displayBuffer2: array<P2>
    /** `ptrCurrentDisplayBuffer` and `ptrHiddenDisplayBuffer`. */
    var current: array<P2>
    var hidden: array<P2>
    var readingHead: nat
    var newSizeBufferDisplay: nat
    var sizeBufferDisplay: nat
    var needSwapFlag: bool
    var blankingFlag: bool
    var dt: nat
    var running: bool

    /** The invariant kept by every interleaving of interrupt steps and main-side calls: the two
      * pointers name the two distinct buffers, and the reading head is inside the displayed size
      * (or 0 while nothing is displayed). */
    ghost predicate Valid()
      reads this
    {
      displayBuffer1.Length == MAX_NUM_POINTS && displayBuffer2.Length == MAX_NUM_POINTS
      && displayBuffer1 != displayBuffer2
      && ((current == displayBuffer1 && hidden == displayBuffer2)
          || (current == displayBuffer2 && hidden == displayBuffer1))
      && sizeBufferDisplay <= MAX_NUM_POINTS && newSizeBufferDisplay <= MAX_NUM_POINTS
      && (if sizeBufferDisplay == 0 then readingHead == 0 else readingHead < sizeBufferDisplay)
    }

    /** The state `init` leaves, buffer contents included. */
    ghost predicate Initialised()
      reads this, displayBuffer1, displayBuffer2
    {
      (forall i :: 0 <= i < displayBuffer1.Length ==> displayBuffer1[i] == CENTER_POINT)
      && (forall i :: 0 <= i < displayBuffer2.Length ==> displayBuffer2[i] == CENTER_POINT)
      && sizeBufferDisplay == 0 && newSizeBufferDisplay == 0 && readingHead == 0
      && current == displayBuffer1 && hidden == displayBuffer2 && !needSwapFlag
      && blankingFlag && dt == DEFAULT_RENDERING_INTERVAL && !running
    }

    /** The two global buffers, in the state `init` gives them. */
    constructor ()
      ensures Valid() && Initialised()
      ensures fresh(displayBuffer1) && fresh(displayBuffer2)
    {
      displayBuffer1 := new P2[MAX_NUM_POINTS](_ => CENTER_POINT);
      displayBuffer2 := new P2[MAX_NUM_POINTS](_ => CENTER_POINT);
      current := displayBuffer1;
      hidden := displayBuffer2;
      readingHead := 0;
      newSizeBufferDisplay := 0;
      sizeBufferDisplay := 0;
      needSwapFlag := false;
      blankingFlag := true;
      dt := DEFAULT_RENDERING_INTERVAL;
      running := false;
    }

    /** `init`: fills both buffers with the centre point and resets the engine, stopped. */
    method Init()
      requires Valid()
      modifies this, displayBuffer1, displayBuffer2
      ensures Valid() && Initialised()
    {
      for i := 0 to MAX_NUM_POINTS
        invariant forall k :: 0 <= k < i ==> displayBuffer1[k] == CENTER_POINT
        invariant forall k :: 0 <= k < i ==> displayBuffer2[k] == CENTER_POINT
      {
        displayBuffer1[i] := CENTER_POINT;
        displayBuffer2[i] := CENTER_POINT;
      }
      sizeBufferDisplay, newSizeBufferDisplay := 0, 0;
      current := displayBuffer1;
      hidden := displayBuffer2;
      readingHead := 0;
      needSwapFlag := false;
      blankingFlag := true;
      dt := DEFAULT_RENDERING_INTERVAL;
      running := false;
    }

    /** `startDisplay`: runs only if it was stopped and the interval timer could be started. */
    method StartDisplay(timerStarts: bool)
      requires Valid()
      modifies this`running
      ensures Valid()
      ensures running == (old(running) || timerStarts)
    {
      if !running && timerStarts {
        running := true;
      }
    }

    method StopDisplay()
      requires Valid()
      modifies this`running
      ensures Valid() && !running
    {
      running := false;
    }

    /** `writeOnHiddenBuffer`: only slot `index` of the hidden buffer changes. */
    method WriteOnHiddenBuffer(index: nat, p: P2)
      requires Valid() && index < MAX_NUM_POINTS
      modifies hidden
      ensures Valid()
      ensures hidden[..] == old(hidden[..])[index := p]
      ensures current[..] == old(current[..])
    {
      hidden[index] := p;
    }

    method RequestBufferSwap()
      requires Valid()
      modifies this`needSwapFlag
      ensures Valid() && needSwapFlag
    {
      needSwapFlag := true;
    }

    /** `resizeBuffer`: records the size the next swap will display. The interrupt reads
      * `current[readingHead]` below that size, so it must not exceed the buffer capacity. */
    method ResizeBuffer(newSize: nat)
      requires Valid() && newSize <= MAX_NUM_POINTS
      modifies this`newSizeBufferDisplay
      ensures Valid() && newSizeBufferDisplay == newSize
    {
      newSizeBufferDisplay := newSize;
    }

    /** `displayISR`: swap when a swap is pending and the head is at the start, then show the point
      * under the head and advance it round-robin; with nothing to show, recentre the mirrors. */
    method DisplayIsr() returns (out: IsrOutput)
      requires Valid()
      modifies this`sizeBufferDisplay, this`current, this`hidden, this`needSwapFlag, this`readingHead
      ensures Valid()
      ensures old(needSwapFlag) && old(readingHead) == 0 ==>
                sizeBufferDisplay == old(newSizeBufferDisplay) && current == old(hidden)
                && hidden == old(current) && !needSwapFlag
      ensures !(old(needSwapFlag) && old(readingHead) == 0) ==>
                sizeBufferDisplay == old(sizeBufferDisplay) && current == old(current)
                && hidden == old(hidden) && needSwapFlag == old(needSwapFlag)
      ensures sizeBufferDisplay > 0 ==>
                out == MirrorsTo(current[old(readingHead)])
                && readingHead == (old(readingHead) + 1) % sizeBufferDisplay
      ensures sizeBufferDisplay == 0 ==> out == Recentered && readingHead == old(readingHead)
    {
      if needSwapFlag && readingHead == 0 {
        sizeBufferDisplay := newSizeBufferDisplay;
        current, hidden := hidden, current;
        needSwapFlag := false;
      }
      if sizeBufferDisplay > 0 {
        out := MirrorsTo(current[readingHead]);
        readingHead := (readingHead + 1) % sizeBufferDisplay;
      } else {
        out := Recentered;
      }
    }
  }
}
