/** src/Class_P2.h and src/Definitions.h: the 2D point type shared by the renderer and the display
  * engine, and the capacity of their point arrays. Coordinates are exact reals: the float
  * arithmetic of Class_P2.h is not part of this model. */
module Points {
  import ScannerMirrors

  /** `MAX_NUM_POINTS`: capacity of the blueprint and of each display buffer. */
  const MAX_NUM_POINTS := 1000

  datatype P2 = P2(x: real, y: real)

  /** `P2(CENTER_MIRROR_ADX, CENTER_MIRROR_ADY)`, the value the display buffers are filled with. */
  const CENTER_POINT := P2(ScannerMirrors.CENTER_MIRROR_ADX as real, ScannerMirrors.CENTER_MIRROR_ADY as real)

  const ORIGIN := P2(0.0, 0.0)

  function Min(a: int, b: int): (m: int)
    ensures m <= a && m <= b && (m == a || m == b)
  {
    if a <= b then a else b
  }
}
