/**
 * `handleKeyPress`: the keys w/s move the user point along r, a/d move it
 * along θ, each wrapping around at the end of its range, and any other key
 * is ignored.
 */
module Keyboard {
  import opened JsMath
  import opened Surface

  /** `stepSize`: how far one key press moves the point. */
  const KEY_STEP: real := 0.05

  /** `userPoint`: the marked point (r, θ) of the parameter domain. */
  datatype UserPoint = UserPoint(r: real, theta: real)

  /** What a key press does: nothing, or move the point and rebuild the scene (`updateSurface()`). */
  datatype KeyResult = Ignored | Moved(point: UserPoint)

  predicate IsRadialKey(key: string)
  {
    key == "w" || key == "W" || key == "s" || key == "S"
  }

  predicate IsAngularKey(key: string)
  {
    key == "a" || key == "A" || key == "d" || key == "D"
  }

  /** The point lies in the parameter domain r ∈ [0.25, maxR], θ ∈ [0, 2π]. */
  predicate InRange(p: UserPoint, maxR: real)
  {
    R_MIN <= p.r <= maxR && 0.0 <= p.theta <= 2.0 * PI
  }

  /** The effect of one key press on the user point, for outer radius `maxR`. */
  function PressKey(p: UserPoint, key: string, maxR: real): (res: KeyResult)
    ensures res.Moved? <==> IsRadialKey(key) || IsAngularKey(key)
    ensures res.Moved? && IsRadialKey(key) ==> res.point.theta == p.theta
    ensures res.Moved? && IsAngularKey(key) ==> res.point.r == p.r
    ensures res.Moved? && R_MIN <= maxR && InRange(p, maxR) ==> InRange(res.point, maxR)
    ensures (key == "w" || key == "W") && p.r + KEY_STEP <= maxR ==> res.point.r == p.r + KEY_STEP
    ensures (key == "s" || key == "S") && R_MIN <= p.r - KEY_STEP ==> res.point.r == p.r - KEY_STEP
    ensures (key == "a" || key == "A") && 0.0 <= p.theta - KEY_STEP ==> res.point.theta == p.theta - KEY_STEP
    ensures (key == "d" || key == "D") && p.theta + KEY_STEP <= 2.0 * PI ==> res.point.theta == p.theta + KEY_STEP
  {
    if key == "w" || key == "W" then
      var r := p.r + KEY_STEP;
      Moved(UserPoint(if r > maxR then R_MIN else r, p.theta))
    else if key == "s" || key == "S" then
      var r := p.r - KEY_STEP;
      Moved(UserPoint(if r < R_MIN then maxR else r, p.theta))
    else if key == "a" || key == "A" then
      var theta := p.theta - KEY_STEP;
      Moved(UserPoint(p.r, if theta < 0.0 then 2.0 * PI else theta))
    else if key == "d" || key == "D" then
      var theta := p.theta + KEY_STEP;
      Moved(UserPoint(p.r, if theta > 2.0 * PI then 0.0 else theta))
    else
      Ignored
  }

  /**
   * Each key keeps its own bound whatever the starting point: w never leaves
   * r above maxR, s never below 0.25, a never leaves θ below 0, d never above 2π.
   */
  lemma KeysKeepTheirBound(p: UserPoint, maxR: real)
    requires R_MIN <= maxR
    ensures PressKey(p, "w", maxR).point.r <= maxR
    ensures PressKey(p, "s", maxR).point.r >= R_MIN
    ensures PressKey(p, "a", maxR).point.theta >= 0.0
    ensures PressKey(p, "d", maxR).point.theta <= 2.0 * PI
  {
  }

  /** Away from the wrap-around, s undoes w and w undoes s. */
  lemma RadialKeysUndo(p: UserPoint, maxR: real)
    requires InRange(p, maxR)
    ensures p.r + KEY_STEP <= maxR ==> PressKey(PressKey(p, "w", maxR).point, "s", maxR) == Moved(p)
    ensures R_MIN <= p.r - KEY_STEP ==> PressKey(PressKey(p, "s", maxR).point, "w", maxR) == Moved(p)
  {
  }

  /** Away from the wrap-around, a undoes d and d undoes a. */
  lemma AngularKeysUndo(p: UserPoint, maxR: real)
    requires InRange(p, maxR)
    ensures p.theta + KEY_STEP <= 2.0 * PI ==> PressKey(PressKey(p, "d", maxR).point, "a", maxR) == Moved(p)
    ensures 0.0 <= p.theta - KEY_STEP ==> PressKey(PressKey(p, "a", maxR).point, "d", maxR) == Moved(p)
  {
  }

  /** At the edges the point wraps to the opposite end of its range. */
  lemma KeysWrapAround(p: UserPoint, maxR: real)
    requires InRange(p, maxR)
    ensures maxR < p.r + KEY_STEP ==> PressKey(p, "w", maxR).point.r == R_MIN
    ensures p.r - KEY_STEP < R_MIN ==> PressKey(p, "s", maxR).point.r == maxR
    ensures p.theta - KEY_STEP < 0.0 ==> PressKey(p, "a", maxR).point.theta == 2.0 * PI
    ensures 2.0 * PI < p.theta + KEY_STEP ==> PressKey(p, "d", maxR).point.theta == 0.0
  {
  }

  /** The page state the handler reads and writes: `maxR` and the two-element array `userPoint`. */
  class Scene {
    var maxR: real
    const userPoint: array<real>

    ghost predicate Valid()
      reads this
    {
      userPoint.Length == 2
    }

    function Point(): UserPoint
      reads this, userPoint
      requires Valid()
    {
      UserPoint(userPoint[0], userPoint[1])
    }

    /** The initial values `maxR = 1` and `userPoint = [0.25, 0.0]`. */
    constructor()
      ensures Valid() && fresh(userPoint)
      ensures maxR == 1.0 && Point() == UserPoint(0.25, 0.0)
      ensures InRange(Point(), maxR)
    {
      maxR := 1.0;
      userPoint := new real[2] [0.25, 0.0];
    }

    /**
     * `handleKeyPress(event)` with `event.key == key`: updates `userPoint`
     * in place and reports whether it goes on to call `updateSurface()`.
     */
    method HandleKeyPress(key: string) returns (refresh: bool)
      requires Valid()
      modifies userPoint
      ensures Valid()
      ensures refresh <==> PressKey(old(Point()), key, maxR).Moved?
      ensures refresh ==> Point() == PressKey(old(Point()), key, maxR).point
      ensures !refresh ==> Point() == old(Point())
    {
      var stepSize := 0.05;
      if key == "w" || key == "W" {
        userPoint[0] := userPoint[0] + stepSize;
        if userPoint[0] > maxR {
          userPoint[0] := 0.25;
        }
      } else if key == "s" || key == "S" {
        userPoint[0] := userPoint[0] - stepSize;
        if userPoint[0] < 0.25 {
          userPoint[0] := maxR;
        }
      } else if key == "a" || key == "A" {
        userPoint[1] := userPoint[1] - stepSize;
        if userPoint[1] < 0.0 {
          userPoint[1] := 2.0 * PI;
        }
      } else if key == "d" || key == "D" {
        userPoint[1] := userPoint[1] + stepSize;
        if userPoint[1] > 2.0 * PI {
          userPoint[1] := 0.0;
        }
      } else {
        return false;
      }
      refresh := true;
    }
  }
}
