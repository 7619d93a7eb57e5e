/** src/hardware.h, namespace Hardware::Scanner: the galvo mirror position written to the two DACs.
  * (0,0) is the middle of the mirror range; each axis is offset by its centre and clamped. */
module ScannerMirrors {
  import opened IntWidth

  const MAX_MIRRORS_ADX := 4095
  const MIN_MIRRORS_ADX := 0
  const MAX_MIRRORS_ADY := 4095
  const MIN_MIRRORS_ADY := 0
  const CENTER_MIRROR_ADX := 2047
  const CENTER_MIRROR_ADY := 2047

  /** The pair of values written to the X and Y DAC pins. */
  datatype DacWrite = DacWrite(x: int, y: int)

  /** One axis as the code is written: `_pos += CENTER` is evaluated in int16_t and wraps. */
  function ClampAxisAsWritten(pos: int, center: int, lo: int, hi: int): (r: int)
    requires IsInt16(pos) && lo <= hi
    ensures lo <= r <= hi
  {
    var p := WrapInt16(pos + center);
    if p > hi then hi else if p < lo then lo else p
  }

  function SetMirrorsToAsWritten(posX: int, posY: int): (w: DacWrite)
    requires IsInt16(posX) && IsInt16(posY)
    ensures MIN_MIRRORS_ADX <= w.x <= MAX_MIRRORS_ADX && MIN_MIRRORS_ADY <= w.y <= MAX_MIRRORS_ADY
  {
    DacWrite(ClampAxisAsWritten(posX, CENTER_MIRROR_ADX, MIN_MIRRORS_ADX, MAX_MIRRORS_ADX),
             ClampAxisAsWritten(posY, CENTER_MIRROR_ADY, MIN_MIRRORS_ADY, MAX_MIRRORS_ADY))
  }

  /** The int16_t sum wraps for inputs above 32767 - 2047 = 30720: a far-right point is sent to the
    * far-left end of the range, which breaks monotonicity. */
  lemma AsWrittenWrapsAround()
    ensures SetMirrorsToAsWritten(30720, 0).x == MAX_MIRRORS_ADX
    ensures SetMirrorsToAsWritten(30721, 0).x == MIN_MIRRORS_ADX
    ensures SetMirrorsTo(30721, 0).x == MAX_MIRRORS_ADX
  {
  }

  /** Offset-and-clamp of one axis with the sum computed without overflow. */
  function ClampAxis(pos: int, center: int, lo: int, hi: int): (r: int)
    requires lo <= hi
    ensures lo <= r <= hi
    ensures lo <= pos + center <= hi ==> r == pos + center
    ensures pos + center > hi ==> r == hi
    ensures pos + center < lo ==> r == lo
  {
    var p := pos + center;
    if p > hi then hi else if p < lo then lo else p
  }

  /** `setMirrorsTo`: each axis is offset by its centre and clamped into its DAC range. */
  function SetMirrorsTo(posX: int, posY: int): (w: DacWrite)
    requires IsInt16(posX) && IsInt16(posY)
    ensures MIN_MIRRORS_ADX <= w.x <= MAX_MIRRORS_ADX && MIN_MIRRORS_ADY <= w.y <= MAX_MIRRORS_ADY
    ensures MIN_MIRRORS_ADX <= posX + CENTER_MIRROR_ADX <= MAX_MIRRORS_ADX ==> w.x == posX + CENTER_MIRROR_ADX
    ensures MIN_MIRRORS_ADY <= posY + CENTER_MIRROR_ADY <= MAX_MIRRORS_ADY ==> w.y == posY + CENTER_MIRROR_ADY
    ensures posX + CENTER_MIRROR_ADX > MAX_MIRRORS_ADX ==> w.x == MAX_MIRRORS_ADX
    ensures posX + CENTER_MIRROR_ADX < MIN_MIRRORS_ADX ==> w.x == MIN_MIRRORS_ADX
    ensures posY + CENTER_MIRROR_ADY > MAX_MIRRORS_ADY ==> w.y == MAX_MIRRORS_ADY
    ensures posY + CENTER_MIRROR_ADY < MIN_MIRRORS_ADY ==> w.y == MIN_MIRRORS_ADY
  {
    DacWrite(ClampAxis(posX, CENTER_MIRROR_ADX, MIN_MIRRORS_ADX, MAX_MIRRORS_ADX),
             ClampAxis(posY, CENTER_MIRROR_ADY, MIN_MIRRORS_ADY, MAX_MIRRORS_ADY))
  }

  /** The two models agree wherever the int16_t sum does not overflow. */
  lemma AsWrittenAgreesBelowOverflow(posX: int, posY: int)
    requires IsInt16(posX) && IsInt16(posY)
    requires posX + CENTER_MIRROR_ADX < 0x8000 && posY + CENTER_MIRROR_ADY < 0x8000
    ensures SetMirrorsToAsWritten(posX, posY) == SetMirrorsTo(posX, posY)
  {
  }

  /** `recenterMirrors` is `setMirrorsTo(0, 0)`, which writes the centre values. */
  function RecenterMirrors(): (w: DacWrite)
    ensures w == DacWrite(CENTER_MIRROR_ADX, CENTER_MIRROR_ADY)
  {
    SetMirrorsTo(0, 0)
  }

  /** The axes are clamped independently, and each is monotone in its own input. */
  lemma SetMirrorsToMonotone(x1: int, y1: int, x2: int, y2: int)
    requires IsInt16(x1) && IsInt16(y1) && IsInt16(x2) && IsInt16(y2)
    ensures SetMirrorsTo(x1, y1).x == SetMirrorsTo(x1, y2).x
    ensures SetMirrorsTo(x1, y1).y == SetMirrorsTo(x2, y1).y
    ensures x1 <= x2 ==> SetMirrorsTo(x1, y1).x <= SetMirrorsTo(x2, y2).x
    ensures y1 <= y2 ==> SetMirrorsTo(x1, y1).y <= SetMirrorsTo(x2, y2).y
  {
  }
}
