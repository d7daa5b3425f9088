/*
 * `processInput` of the native game (main.cpp): the gear shifter, the
 * throttle ceiling that the gear selects, the throttle ramp with its clamps
 * and the brake. The globals `gear` and `maxThrottle` become the fields of
 * a `Driver`; the raylib key queries become the fields of `Keys`, and the
 * mouse-derived steering angle is a parameter.
 */
module Input {
  import opened Cars

  /** One frame's key state: D and A as pressed this frame, W, S and Space as held. */
  datatype Keys = Keys(shiftUp: bool, shiftDown: bool, throttleUp: bool, throttleDown: bool, handbrake: bool)

  /** The gear after the D and A tests: each moves one gear, never past 4 or below 1. */
  function NextGear(gear: int, keys: Keys): (g: int)
  {
    var up := if keys.shiftUp && gear < 4 then gear + 1 else gear;
    if keys.shiftDown && up > 1 then up - 1 else up
  }

  /** The gear never leaves 1..4, and moves by at most one step towards the keys pressed. */
  lemma NextGearInRange(gear: int, keys: Keys)
    requires 1 <= gear <= 4
    ensures 1 <= NextGear(gear, keys) <= 4
    ensures NextGear(gear, keys) - gear in {-1, 0, 1}
    ensures keys.shiftUp == keys.shiftDown && 1 < gear < 4 ==> NextGear(gear, keys) == gear
    ensures keys.shiftUp && !keys.shiftDown && gear < 4 ==> NextGear(gear, keys) == gear + 1
    ensures keys.shiftDown && !keys.shiftUp && gear > 1 ==> NextGear(gear, keys) == gear - 1
  {
  }

  /** The `switch (gear)` table: the throttle ceiling of gears 1 to 4. */
  function MaxThrottleFor(gear: int): (m: real)
    requires 1 <= gear <= 4
    ensures m > 0.0
  {
    if gear == 1 then 100.0 else if gear == 2 then 500.0 else if gear == 3 then 1000.0 else 2000.0
  }

  /** A higher gear always has a higher ceiling. */
  lemma MaxThrottleIncreasing(g: int, g': int)
    requires 1 <= g < g' <= 4
    ensures MaxThrottleFor(g) < MaxThrottleFor(g')
  {
  }

  /** `if (car.getThrottle() < 0) car.setThrottle(0)`. */
  function NotBelowZero(t: real): real
  {
    if t < 0.0 then 0.0 else t
  }

  /** The throttle after the W/no-W ramp and the S brake-down, before the handbrake. */
  function Ramped(throttle: real, ceiling: real, keys: Keys): (t: real)
  {
    var ramped :=
      if keys.throttleUp then (if throttle + 20.0 > ceiling then ceiling else throttle + 20.0)
      else NotBelowZero(throttle - 5.0);
    if keys.throttleDown then NotBelowZero(ramped - 20.0) else ramped
  }

  /** The throttle at the end of the frame. */
  function NextThrottle(throttle: real, ceiling: real, keys: Keys): (t: real)
  {
    if keys.handbrake then 0.0 else Ramped(throttle, ceiling, keys)
  }

  /** A throttle that starts non-negative stays non-negative, whatever is pressed. */
  lemma ThrottleStaysNonNegative(throttle: real, ceiling: real, keys: Keys)
    requires throttle >= 0.0 && ceiling >= 0.0
    ensures NextThrottle(throttle, ceiling, keys) >= 0.0
  {
  }

  /** Holding W caps the throttle at the gear's ceiling. */
  lemma ThrottleCappedWhileAccelerating(throttle: real, ceiling: real, keys: Keys)
    requires keys.throttleUp && ceiling >= 0.0
    ensures NextThrottle(throttle, ceiling, keys) <= ceiling
  {
  }

  /** Holding W alone, below the ceiling, adds 20 up to the ceiling. */
  lemma AcceleratingRamp(throttle: real, ceiling: real, keys: Keys)
    requires keys.throttleUp && !keys.throttleDown && !keys.handbrake
    ensures NextThrottle(throttle, ceiling, keys) == (if throttle + 20.0 > ceiling then ceiling else throttle + 20.0)
  {
  }

  /** Without W the throttle decays by 5 but not below 0 (before S and Space). */
  lemma CoastingDecay(throttle: real, ceiling: real, keys: Keys)
    requires !keys.throttleUp && !keys.throttleDown && !keys.handbrake
    ensures throttle >= 5.0 ==> NextThrottle(throttle, ceiling, keys) == throttle - 5.0
    ensures throttle < 5.0 ==> NextThrottle(throttle, ceiling, keys) == 0.0
  {
  }

  /** The handbrake wins over every throttle key. */
  lemma HandbrakeCutsThrottle(throttle: real, ceiling: real, keys: Keys)
    requires keys.handbrake
    ensures NextThrottle(throttle, ceiling, keys) == 0.0
  {
  }

  /** The ceiling is enforced only while W is held: after a shift down with W released the throttle can stay above it. */
  lemma DownshiftCanExceedCeiling()
    ensures var keys := Keys(false, true, false, false, false);
      var gear := NextGear(2, keys);
      gear == 1 && NextThrottle(500.0, MaxThrottleFor(gear), keys) == 495.0 > MaxThrottleFor(gear)
  {
  }

  /** The main loop's input state: the globals `gear` and `maxThrottle` of main.cpp. */
  class Driver {
    var gear: int
    var maxThrottle: real

    /** The globals' initial values: first gear, and a ceiling of 20 until the first frame sets it. */
    constructor()
      ensures gear == 1 && maxThrottle == 20.0
    {
      gear := 1;
      maxThrottle := 20.0;
    }

    /** `processInput`, one frame. */
    method ProcessInput(car: Car, keys: Keys, steer: real)
      modifies this, car`throttle, car`brake, car`steerAngle
      ensures gear == NextGear(old(gear), keys)
      ensures 1 <= gear <= 4 ==> maxThrottle == MaxThrottleFor(gear)
      ensures !(1 <= gear <= 4) ==> maxThrottle == old(maxThrottle)
      ensures car.throttle == NextThrottle(old(car.throttle), maxThrottle, keys)
      ensures car.brake == (if keys.handbrake then 1000.0 else 0.0)
      ensures car.steerAngle == steer
    {
      ShiftGear(keys);
      SelectCeiling();
      RampThrottle(car, keys);

      // Brake
      if keys.handbrake {
        car.SetBrake(1000.0);
        car.SetThrottle(0.0);
      } else {
        car.SetBrake(0.0);
      }

      car.SetSteerAngle(steer);
    }

    /** The D and A tests at the head of `processInput`. */
    method ShiftGear(keys: Keys)
      modifies this`gear
      ensures gear == NextGear(old(gear), keys)
    {
      if keys.shiftUp {
        if gear < 4 {
          gear := gear + 1;
        }
      }
      if keys.shiftDown {
        if gear > 1 {
          gear := gear - 1;
        }
      }
    }

    /** The `switch (gear)`: cases 1 to 4 set the ceiling, any other gear leaves it. */
    method SelectCeiling()
      modifies this`maxThrottle
      ensures 1 <= gear <= 4 ==> maxThrottle == MaxThrottleFor(gear)
      ensures !(1 <= gear <= 4) ==> maxThrottle == old(maxThrottle)
    {
      if gear == 1 {
        maxThrottle := 100.0;
      } else if gear == 2 {
        maxThrottle := 500.0;
      } else if gear == 3 {
        maxThrottle := 1000.0;
      } else if gear == 4 {
        maxThrottle := 2000.0;
      }
    }

    /** The W ramp with its ceiling, or the decay with its floor, then the S brake-down. */
    method RampThrottle(car: Car, keys: Keys)
      modifies car`throttle
      ensures car.throttle == Ramped(old(car.throttle), maxThrottle, keys)
    {
      // Throttle up
      if keys.throttleUp {
        car.AddThrottle(20.0);
        var t := car.GetThrottle();
        if t > maxThrottle {
          car.SetThrottle(maxThrottle);
        }
      } else {
        car.AddThrottle(-5.0);
        var t := car.GetThrottle();
        if t < 0.0 {
          car.SetThrottle(0.0);
        }
      }

      // Throttle down
      if keys.throttleDown {
        car.AddThrottle(-20.0);
        var t := car.GetThrottle();
        if t < 0.0 {
          car.SetThrottle(0.0);
        }
      }
    }
  }

  /** From a fresh car and driver, any run of frames keeps the gear in 1..4 and the throttle non-negative, and holding W keeps it under the ceiling. */
  method Drive(frames: seq<(Keys, real)>) returns (driver: Driver, car: Car)
    ensures 1 <= driver.gear <= 4
    ensures car.throttle >= 0.0
    ensures frames != [] && frames[|frames| - 1].0.throttleUp ==> car.throttle <= driver.maxThrottle
    ensures frames != [] ==> car.brake == (if frames[|frames| - 1].0.handbrake then 1000.0 else 0.0)
  {
    driver := new Driver();
    car := new Car();
    for i := 0 to |frames|
      invariant 1 <= driver.gear <= 4
      invariant driver.maxThrottle > 0.0
      invariant car.throttle >= 0.0
      invariant i > 0 && frames[i - 1].0.throttleUp ==> car.throttle <= driver.maxThrottle
      invariant i > 0 ==> car.brake == (if frames[i - 1].0.handbrake then 1000.0 else 0.0)
    {
      var (keys, steer) := frames[i];
      ghost var gear, throttle := driver.gear, car.throttle;
      NextGearInRange(gear, keys);
      driver.ProcessInput(car, keys, steer);
      ThrottleStaysNonNegative(throttle, driver.maxThrottle, keys);
      if keys.throttleUp {
        ThrottleCappedWhileAccelerating(throttle, driver.maxThrottle, keys);
      }
    }
  }
}
