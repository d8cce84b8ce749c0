/**
 * Values shared by every game object: positions, sprite dimensions, the two
 * rectangle shapes the game computes, and the rounding the game applies to
 * diagonal speeds.
 *
 * Loading the images is asynchronous I/O and is not modelled; what the rest of
 * the game consumes from it is the width and height of every loaded asset,
 * which is given here as a total function from asset name to size.
 */
module Assets {

  /** A position, in world or in screen coordinates. */
  datatype Point = Point(x: real, y: real)

  /** Width and height of a loaded image (already halved at load time). */
  datatype Size = Size(width: real, height: real)

  /** The loaded-assets table: the dimensions of every asset, by name. */
  type SpriteSizes = string -> Size

  /** A rectangle given by its corner and its extent ({x, y, width, height}). */
  datatype Box = Box(x: real, y: real, width: real, height: real)

  /** A rectangle given by its four edges ({left, right, top, bottom}). */
  datatype Bounds = Bounds(left: real, right: real, top: real, bottom: real)

  /** Both a rectangle's horizontal and vertical extents are ordered. */
  predicate WellFormed(r: Bounds) {
    r.left <= r.right && r.top <= r.bottom
  }

  /** The closed rectangle `r` contains the point (x, y). */
  predicate Contains(r: Bounds, x: real, y: real) {
    r.left <= x <= r.right && r.top <= y <= r.bottom
  }

  /**
   * Math.round(v / 1.4142), the per-axis step of a diagonal move at speed v:
   * the nearest integer, halves rounded up.
   */
  function RoundDiagonal(v: int): (r: int)
    ensures (r as real) - 0.5 <= (v as real) / 1.4142 < (r as real) + 0.5
  {
    var q := (20000 * v + 14142) / 28284;
    assert 28284 * q <= 20000 * v + 14142 < 28284 * q + 28284;
    q
  }

  /** The two diagonal steps the game uses: speed 8 (skier) and speed 3 (rhino). */
  lemma DiagonalSteps()
    ensures RoundDiagonal(8) == 6 && RoundDiagonal(3) == 2
  {
  }

  /** Where a uniform draw `u` in [0, 1] lands in the range between `lo` and `hi`. */
  function Lerp(lo: real, hi: real, u: real): real {
    lo + u * (hi - lo)
  }

  /** `z` lies between `lo` and `hi`, whichever of the two is larger. */
  predicate Between(lo: real, hi: real, z: real) {
    if lo <= hi then lo <= z <= hi else hi <= z <= lo
  }

  /** A fraction of a length lies between zero and that length. */
  lemma FractionOfLength(u: real, d: real)
    requires 0.0 <= u <= 1.0
    ensures if 0.0 <= d then 0.0 <= u * d <= d else d <= u * d <= 0.0
  {
    if 0.0 <= d {
      assert u * d <= 1.0 * d;
    } else {
      assert 1.0 * d <= u * d;
    }
  }

  /** Every draw `u` in [0, 1] lands between the bounds of the range. */
  lemma LerpBetween(lo: real, hi: real, u: real)
    requires 0.0 <= u <= 1.0
    ensures Between(lo, hi, Lerp(lo, hi, u))
  {
    var d := hi - lo;
    FractionOfLength(u, d);
    assert Lerp(lo, hi, u) == lo + u * d;
  }

  /** Math.ceil(a / b) for a positive divisor. */
  function CeilDiv(a: int, b: int): (r: int)
    requires b > 0
    ensures (r - 1) * b < a <= r * b
  {
    -((-a) / b)
  }
}
