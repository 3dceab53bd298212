/** Axis-aligned boxes as the pipeline passes them around: the float boxes
    produced by the tracker and the plate detector, and the integer boxes
    obtained from them with Python's `int` (truncation toward zero). */
module Boxes {

  /** A box with float corners (x1, y1) top-left and (x2, y2) bottom-right. */
  datatype RealBox = RealBox(x1: real, y1: real, x2: real, y2: real)

  /** A box with integer corners, as produced by `map(int, bbox)`. */
  datatype Box = Box(x1: int, y1: int, x2: int, y2: int)

  /** Python's `int(x)` on a float: the integer part, rounding toward zero. */
  function TruncateToInt(x: real): (n: int)
    ensures x >= 0.0 ==> 0 <= n && n as real <= x < n as real + 1.0
    ensures x < 0.0 ==> n <= 0 && n as real - 1.0 < x <= n as real
  {
    if x >= 0.0 then x.Floor else -((-x).Floor)
  }

  /** `map(int, bbox)` on a four-tuple of floats. */
  function ToIntBox(b: RealBox): Box {
    Box(TruncateToInt(b.x1), TruncateToInt(b.y1), TruncateToInt(b.x2), TruncateToInt(b.y2))
  }

  /** An integer box seen as a tuple of Python numbers again. */
  function AsReal(b: Box): RealBox {
    RealBox(b.x1 as real, b.y1 as real, b.x2 as real, b.y2 as real)
  }

  /** `int` leaves an integer unchanged. */
  lemma TruncateIntegral(n: int)
    ensures TruncateToInt(n as real) == n
  {
  }

  /** Converting a box that already has integer corners is the identity, so
      converting twice (main.py, then utils.py) is the same as converting once. */
  lemma ToIntBoxOfIntegral(b: Box)
    ensures ToIntBox(AsReal(b)) == b
  {
    TruncateIntegral(b.x1);
    TruncateIntegral(b.y1);
    TruncateIntegral(b.x2);
    TruncateIntegral(b.y2);
  }
}
