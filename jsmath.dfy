/** The numeric environment the surface code runs in: the browser's `Math` object. */
module JsMath {

  /** `Math.PI`: the shortest decimal that reads back as the double nearest π, taken as an exact real. */
  const PI: real := 3.141592653589793

  /**
   * The `Math` functions the surface code calls. Their values are not modelled:
   * each is an arbitrary total function, and only `SquareRoot` below says
   * anything about `sqrt`.
   */
  datatype Math = Math(cos: real -> real, sin: real -> real, sqrt: real -> real)

  /** The one fact about `Math.sqrt` the proofs use: it squares back to its argument. */
  ghost predicate SquareRoot(sqrt: real -> real)
  {
    forall x: real :: 0.0 <= x ==> sqrt(x) * sqrt(x) == x
  }

  /** `deg2rad`: degrees to radians, `angle * Math.PI / 180`. */
  function Deg2Rad(angle: real): (rad: real)
    ensures rad * 180.0 == angle * PI
    ensures angle == 180.0 ==> rad == PI
    ensures 0.0 <= angle ==> 0.0 <= rad
  {
    angle * PI / 180.0
  }
}
