/*
 * The `Car` object of the native game (include/car.h, car.cpp): its state,
 * the constructor's initial values, the control setters the input handler
 * drives and the `const` getters. `float` fields are `real`; the raylib
 * `Model` handle is left out.
 */
module Cars {
  datatype Vector2 = Vector2(x: real, y: real)

  /** `signum`: the sign of `x` as an `int`, written as the difference of two comparisons. */
  function Signum(x: real): (s: int)
    ensures s == 1 <==> x > 0.0
    ensures s == -1 <==> x < 0.0
    ensures s == 0 <==> x == 0.0
  {
    (if x > 0.0 then 1 else 0) - (if x < 0.0 then 1 else 0)
  }

  /** Negating the argument negates the sign. */
  lemma SignumOdd(x: real)
    ensures Signum(-x) == -Signum(x)
  {
  }

  /** A positive factor keeps the sign. */
  lemma SignumOfProduct(x: real, k: real)
    requires k > 0.0
    ensures Signum(k * x) == Signum(x)
  {
    if x > 0.0 {
      assert k * x > 0.0;
    } else if x < 0.0 {
      assert k * (-x) > 0.0;
    }
  }

  class Car {
    var length: real
    var width: real
    var height: real
    var mass: real
    var inertia: real
    var wheelLength: real
    var wheelWidth: real

    /** Distance from the centre of gravity to the front axle. */
    var b: real
    /** Distance from the centre of gravity to the rear axle. */
    var c: real
    var wheelbase: real
    /** Height of the centre of mass above the ground. */
    var h: real

    var positionWC: Vector2
    var velocityWC: Vector2

    var angle: real
    var angularVelocity: real

    var steerAngle: real
    var throttle: real
    var brake: real

    /** `Car::Car`: a 3 m × 1.5 m × 1.2 m, 1500 kg body at rest at the origin, controls released. */
    constructor()
      ensures length == 3.0 && width == 1.5 && height == 1.2
      ensures mass == 1500.0 && inertia == 1500.0
      ensures wheelLength == 0.7 && wheelWidth == 0.3
      ensures b == 1.0 && c == 1.0 && wheelbase == b + c && h == 1.0
      ensures positionWC == Vector2(0.0, 0.0) && velocityWC == Vector2(0.0, 0.0)
      ensures angle == 0.0 && angularVelocity == 0.0
      ensures steerAngle == 0.0 && throttle == 0.0 && brake == 0.0
    {
      length := 3.0;
      width := 1.5;
      height := 1.2;
      mass := 1500.0;
      inertia := 1500.0;
      wheelLength := 0.7;
      wheelWidth := 0.3;
      var front, rear := 1.0, 1.0;
      b := front;
      c := rear;
      wheelbase := front + rear;
      h := 1.0;
      positionWC := Vector2(0.0, 0.0);
      velocityWC := Vector2(0.0, 0.0);
      angle := 0.0;
      angularVelocity := 0.0;
      steerAngle := 0.0;
      throttle := 0.0;
      brake := 0.0;
    }

    /** `addThrottle`: the throttle moves by `delta`; the frame lets nothing else change. */
    method AddThrottle(delta: real)
      modifies this`throttle
      ensures throttle == old(throttle) + delta
    {
      throttle := throttle + delta;
    }

    /** `setThrottle`. */
    method SetThrottle(t: real)
      modifies this`throttle
      ensures throttle == t
    {
      throttle := t;
    }

    /** `setBrake`. */
    method SetBrake(x: real)
      modifies this`brake
      ensures brake == x
    {
      brake := x;
    }

    /** `setSteerAngle`. */
    method SetSteerAngle(a: real)
      modifies this`steerAngle
      ensures steerAngle == a
    {
      steerAngle := a;
    }

    /** `getThrottle`: a `const` member, so it changes nothing. */
    method GetThrottle() returns (t: real)
      ensures t == throttle
    {
      t := throttle;
    }

    method GetAngle() returns (a: real)
      ensures a == angle
    {
      a := angle;
    }

    method GetSteerAngle() returns (a: real)
      ensures a == steerAngle
    {
      a := steerAngle;
    }

    method GetPositionWC() returns (p: Vector2)
      ensures p == positionWC
    {
      p := positionWC;
    }

    method GetVelocityWC() returns (v: Vector2)
      ensures v == velocityWC
    {
      v := velocityWC;
    }
  }
}
