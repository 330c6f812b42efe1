/** The DRV8833 motor driver of src/MotorController.cpp.  The PWM hardware
    is abstracted as a map from GPIO pin to the last level written with
    `pwm_set_gpio_level`. */
module Motors {
  import opened Numeric

  /** The system clock the divider is computed against, in Hz. */
  const SYSTEM_CLOCK_HZ: nat := 125000000
  /** The PWM wrap value: levels run 0 .. 65535. */
  const PWM_WRAP: nat := 65535

  datatype Motor = Left | Right

  datatype MotorConfig = MotorConfig(
    leftPin1: u8, leftPin2: u8, rightPin1: u8, rightPin2: u8, pwmFrequency: u32)

  // ---------------------------------------------------------------------
  // PWM clock divider
  // ---------------------------------------------------------------------

  /** `config_.pwmFrequency * 65536` in `uint32_t` arithmetic (it wraps). */
  function DividerDenominator(pwmFrequency: u32): (r: u32)
    ensures r % 65536 == 0
    ensures pwmFrequency < 65536 ==> r == pwmFrequency * 65536
    ensures pwmFrequency % 65536 == 0 ==> r == 0
  {
    (pwmFrequency * 65536) % 0x1_0000_0000
  }

  /** The integer PWM clock divider of `initialize`: the system clock over
      the wrapped denominator, clamped into [1, 255].  A denominator of 0
      (a frequency that is a multiple of 65536, or 0) is a division by zero
      in the source, so it is excluded. */
  function ClockDivider(pwmFrequency: u32): (d: nat)
    requires DividerDenominator(pwmFrequency) != 0
    ensures 1 <= d <= 255
  {
    var raw := SYSTEM_CLOCK_HZ / DividerDenominator(pwmFrequency);
    if raw < 1 then 1 else if raw > 255 then 255 else raw
  }

  /** Below 65536 Hz nothing wraps: the divider is the clamped exact
      quotient.  Every frequency of at least 954 Hz gets divider 1 (from
      1908 Hz the quotient is 0 and is clamped up), and 954 Hz is the
      least such frequency: 953 Hz gets 2. */
  lemma ClockDividerUnwrapped(pwmFrequency: u32)
    requires 0 < pwmFrequency < 65536
    ensures DividerDenominator(pwmFrequency) == pwmFrequency * 65536
    ensures ClockDivider(pwmFrequency) == Constrain(SYSTEM_CLOCK_HZ / (pwmFrequency * 65536), 1, 255)
    ensures pwmFrequency >= 954 ==> ClockDivider(pwmFrequency) == 1
    ensures pwmFrequency == 953 ==> ClockDivider(pwmFrequency) == 2
  {
    assert pwmFrequency * 65536 < 0x1_0000_0000;
    if pwmFrequency >= 954 {
      assert pwmFrequency * 65536 >= 954 * 65536;
      DivBelowTwo(SYSTEM_CLOCK_HZ, pwmFrequency * 65536);
    }
  }

  lemma DivBelowTwo(a: nat, b: nat)
    requires b > 0 && a < 2 * b
    ensures a / b <= 1
  {
  }

  /** The lowest frequencies saturate at the largest divider. */
  lemma ClockDividerSaturates()
    ensures ClockDivider(1) == 255 && ClockDivider(7) == 255 && ClockDivider(8) == 238
  {
  }

  // ---------------------------------------------------------------------
  // Duty cycle, direction and mixing
  // ---------------------------------------------------------------------

  /** `setPwmDutyCycle`: the duty cycle clamped to [0, 1], times 65535,
      truncated to a `uint16_t` level. */
  function DutyLevel(duty: real): (level: u16)
    ensures duty <= 0.0 ==> level == 0
    ensures duty >= 1.0 ==> level == PWM_WRAP
    ensures 0.0 <= duty <= 1.0 ==> level as real <= duty * 65535.0 < level as real + 1.0
  {
    var d := ConstrainReal(duty, 0.0, 1.0);
    assert 0.0 <= d * 65535.0 <= 65535.0;
    Trunc(d * 65535.0)
  }

  /** A higher duty cycle never gives a lower level. */
  lemma DutyLevelMonotone(a: real, b: real)
    requires a <= b
    ensures DutyLevel(a) <= DutyLevel(b)
  {
    var da := ConstrainReal(a, 0.0, 1.0);
    var db := ConstrainReal(b, 0.0, 1.0);
    assert da <= db;
    ScaleMonotone(da, db);
  }

  lemma ScaleMonotone(x: real, y: real)
    requires x <= y
    ensures x * 65535.0 <= y * 65535.0
  {
  }

  /** The duty cycles `setMotorSpeed` gives a motor's two pins for a speed:
      forward drives pin 1, reverse drives pin 2 with the magnitude, and
      zero brakes with both at 0. */
  function PinDuties(speed: real): (d: (real, real))
    ensures 0.0 <= d.0 && 0.0 <= d.1 && (d.0 == 0.0 || d.1 == 0.0)
    ensures d.0 - d.1 == ConstrainReal(speed, -1.0, 1.0)
  {
    var s := ConstrainReal(speed, -1.0, 1.0);
    if s > 0.0 then (s, 0.0) else if s < 0.0 then (0.0, -s) else (0.0, 0.0)
  }

  /** The two pins of a motor are never both driven, each duty lies in
      [0, 1], and the driven pin carries the clamped speed's magnitude. */
  lemma PinDutiesExclusive(speed: real)
    ensures var (d1, d2) := PinDuties(speed);
      && 0.0 <= d1 <= 1.0 && 0.0 <= d2 <= 1.0
      && (d1 == 0.0 || d2 == 0.0)
      && (DutyLevel(d1) == 0 || DutyLevel(d2) == 0)
      && d1 - d2 == ConstrainReal(speed, -1.0, 1.0)
  {
  }

  /** The normalisation of `setDifferentialDrive`: when the larger
      magnitude exceeds 1, both speeds are divided by it. */
  function Normalise(l: real, r: real): (lr: (real, real))
    ensures -1.0 <= lr.0 <= 1.0 && -1.0 <= lr.1 <= 1.0
  {
    var m := MaxReal(AbsReal(l), AbsReal(r));
    if m > 1.0 then Normalised(l, m); Normalised(r, m); (l / m, r / m) else (l, r)
  }

  /** The speeds `setDifferentialDrive` sends to the left and right motors:
      `forward - turn` and `forward + turn` of the clamped inputs,
      normalised. */
  function Mix(forward: real, turn: real): (lr: (real, real))
    ensures -1.0 <= lr.0 <= 1.0 && -1.0 <= lr.1 <= 1.0
  {
    var raw := RawMix(forward, turn);
    Normalise(raw.0, raw.1)
  }

  /** `forward - turn` and `forward + turn` of the clamped inputs. */
  function RawMix(forward: real, turn: real): (lr: (real, real))
    ensures lr.0 + lr.1 == 2.0 * ConstrainReal(forward, -1.0, 1.0)
    ensures lr.1 - lr.0 == 2.0 * ConstrainReal(turn, -1.0, 1.0)
    ensures -2.0 <= lr.0 <= 2.0 && -2.0 <= lr.1 <= 2.0
  {
    var f := ConstrainReal(forward, -1.0, 1.0);
    var t := ConstrainReal(turn, -1.0, 1.0);
    (f - t, f + t)
  }

  /** Both normalised speeds lie in [-1, 1]; speeds that fit are unchanged; otherwise both are divided by the
      larger magnitude, keeping their ratio and signs and putting the
      larger one at magnitude 1. */
  lemma NormaliseProperties(l0: real, r0: real)
    ensures var (l, r) := Normalise(l0, r0);
      && -1.0 <= l <= 1.0 && -1.0 <= r <= 1.0
      && (MaxReal(AbsReal(l0), AbsReal(r0)) <= 1.0 ==> l == l0 && r == r0)
      && l * r0 == r * l0
      && (l >= 0.0 <==> l0 >= 0.0) && (r >= 0.0 <==> r0 >= 0.0)
      && (MaxReal(AbsReal(l0), AbsReal(r0)) > 1.0 ==> MaxReal(AbsReal(l), AbsReal(r)) == 1.0)
  {
    NormaliseInRange(l0, r0);
    NormaliseKeepsRatio(l0, r0);
    NormaliseKeepsSigns(l0, r0);
    NormaliseReachesUnit(l0, r0);
  }

  lemma NormaliseInRange(l0: real, r0: real)
    ensures -1.0 <= Normalise(l0, r0).0 <= 1.0 && -1.0 <= Normalise(l0, r0).1 <= 1.0
  {
    var m := MaxReal(AbsReal(l0), AbsReal(r0));
    if m > 1.0 {
      Normalised(l0, m);
      Normalised(r0, m);
    }
  }

  lemma NormaliseKeepsRatio(l0: real, r0: real)
    ensures Normalise(l0, r0).0 * r0 == Normalise(l0, r0).1 * l0
  {
    var m := MaxReal(AbsReal(l0), AbsReal(r0));
    if m > 1.0 {
      CrossRatio(l0, r0, m);
    }
  }

  lemma NormaliseKeepsSigns(l0: real, r0: real)
    ensures Normalise(l0, r0).0 >= 0.0 <==> l0 >= 0.0
    ensures Normalise(l0, r0).1 >= 0.0 <==> r0 >= 0.0
  {
    var m := MaxReal(AbsReal(l0), AbsReal(r0));
    if m > 1.0 {
      Normalised(l0, m);
      Normalised(r0, m);
    }
  }

  lemma NormaliseReachesUnit(l0: real, r0: real)
    ensures MaxReal(AbsReal(l0), AbsReal(r0)) > 1.0 ==>
      MaxReal(AbsReal(Normalise(l0, r0).0), AbsReal(Normalise(l0, r0).1)) == 1.0
  {
    var m := MaxReal(AbsReal(l0), AbsReal(r0));
    if m > 1.0 {
      Normalised(l0, m);
      Normalised(r0, m);
      if AbsReal(l0) == m {
        UnitWhenEqual(l0, m);
      } else {
        UnitWhenEqual(r0, m);
      }
    }
  }

  /** The mixed speeds always lie in [-1, 1]; the raw mix of the clamped
      inputs lies in [-2, 2]. */
  lemma MixInRange(forward: real, turn: real)
    ensures -2.0 <= RawMix(forward, turn).0 <= 2.0 && -2.0 <= RawMix(forward, turn).1 <= 2.0
    ensures -1.0 <= Mix(forward, turn).0 <= 1.0 && -1.0 <= Mix(forward, turn).1 <= 1.0
  {
    var raw := RawMix(forward, turn);
    NormaliseInRange(raw.0, raw.1);
  }

  /** Without turning both motors get the clamped forward speed, and
      without forward speed the motors turn in opposite directions. */
  lemma MixStraightAndSpin(forward: real, turn: real)
    ensures Mix(forward, 0.0) == (ConstrainReal(forward, -1.0, 1.0), ConstrainReal(forward, -1.0, 1.0))
    ensures Mix(0.0, turn).0 == -Mix(0.0, turn).1
  {
  }

  /** Dividing by a magnitude at least as large keeps the sign and lands in
      [-1, 1]. */
  lemma Normalised(x: real, m: real)
    requires m > 0.0 && AbsReal(x) <= m
    ensures -1.0 <= x / m <= 1.0
    ensures AbsReal(x / m) == AbsReal(x) / m
    ensures x / m >= 0.0 <==> x >= 0.0
  {
    DivisionBounds(x, m);
  }

  lemma DivisionBounds(x: real, m: real)
    requires m > 0.0 && -m <= x <= m
    ensures -1.0 <= x / m <= 1.0
    ensures x / m >= 0.0 <==> x >= 0.0
    ensures (-x) / m == -(x / m)
  {
    assert x / m * m == x;
  }

  lemma CrossRatio(a: real, b: real, m: real)
    requires m != 0.0
    ensures (a / m) * b == (b / m) * a
  {
    assert (a / m) * b == (a * b) / m;
    assert (b / m) * a == (a * b) / m;
  }

  lemma UnitWhenEqual(x: real, m: real)
    requires m > 0.0 && AbsReal(x) == m
    ensures AbsReal(x / m) == 1.0
  {
    if x >= 0.0 {
      assert x == m;
      assert m / m == 1.0;
    } else {
      assert x == -m;
      assert (-m) / m == -1.0;
    }
  }

  // ---------------------------------------------------------------------
  // The controller
  // ---------------------------------------------------------------------

  class MotorController {
    const config: MotorConfig
    var initialized: bool
    /** The level last written to each GPIO pin. */
    var levels: map<nat, u16>
    var clockDivider: nat

    constructor (c: MotorConfig)
      ensures config == c && !initialized && levels == map[] && clockDivider == 0
    {
      config := c;
      initialized := false;
      levels := map[];
      clockDivider := 0;
    }

    function Pins(motor: Motor): (nat, nat)
      reads this
    {
      match motor
      case Left => (config.leftPin1 as nat, config.leftPin2 as nat)
      case Right => (config.rightPin1 as nat, config.rightPin2 as nat)
    }

    /** The levels after `setMotorSpeed(motor, speed)` on an initialised
        controller: pin 1 then pin 2 written with their duties. */
    function Driven(before: map<nat, u16>, motor: Motor, speed: real): map<nat, u16>
      reads this
    {
      var (p1, p2) := Pins(motor);
      var (d1, d2) := PinDuties(speed);
      before[p1 := DutyLevel(d1)][p2 := DutyLevel(d2)]
    }

    /** `initialize`: already initialised succeeds at once; otherwise the
        divider is computed and the controller becomes initialised.  Its
        `stopAllMotors` call runs while `initialized_` is still false, so it
        writes nothing and the levels are left as they were. */
    method Initialize() returns (ok: bool)
      requires DividerDenominator(config.pwmFrequency) != 0
      modifies this`initialized, this`clockDivider, this`levels
      ensures ok && initialized
      ensures old(initialized) ==> clockDivider == old(clockDivider)
      ensures !old(initialized) ==> clockDivider == ClockDivider(config.pwmFrequency)
      ensures levels == old(levels)
    {
      if initialized {
        return true;
      }
      clockDivider := ClockDivider(config.pwmFrequency);
      StopAllMotors();
      initialized := true;
      ok := true;
    }

    /** `setPwmDutyCycle`. */
    method SetPwmDutyCycle(pin: nat, duty: real)
      modifies this`levels
      ensures levels == old(levels)[pin := DutyLevel(duty)]
    {
      levels := levels[pin := DutyLevel(duty)];
    }

    /** `setMotorSpeed`: nothing when uninitialised; otherwise the clamped
        speed's direction and magnitude go to the motor's two pins. */
    method SetMotorSpeed(motor: Motor, speed: real)
      modifies this`levels
      ensures levels == if initialized then Driven(old(levels), motor, speed) else old(levels)
    {
      if !initialized {
        return;
      }
      var s := ConstrainReal(speed, -1.0, 1.0);
      var (pin1, pin2) := Pins(motor);
      if s > 0.0 {
        SetPwmDutyCycle(pin1, s);
        SetPwmDutyCycle(pin2, 0.0);
      } else if s < 0.0 {
        SetPwmDutyCycle(pin1, 0.0);
        SetPwmDutyCycle(pin2, -s);
      } else {
        SetPwmDutyCycle(pin1, 0.0);
        SetPwmDutyCycle(pin2, 0.0);
      }
    }

    /** `setDifferentialDrive`: nothing when uninitialised; otherwise the
        left, then the right motor gets its mixed speed. */
    method SetDifferentialDrive(forward: real, turn: real)
      modifies this`levels
      ensures levels == if initialized
        then Driven(Driven(old(levels), Left, Mix(forward, turn).0), Right, Mix(forward, turn).1)
        else old(levels)
    {
      if !initialized {
        return;
      }
      var (left, right) := Mix(forward, turn);
      SetMotorSpeed(Left, left);
      SetMotorSpeed(Right, right);
    }

    /** `stopAllMotors`: nothing when uninitialised; otherwise all four
        motor pins are at level 0 and no other pin changes. */
    method StopAllMotors()
      modifies this`levels
      ensures !initialized ==> levels == old(levels)
      ensures initialized ==>
        levels == old(levels)[config.leftPin1 as nat := 0][config.leftPin2 as nat := 0]
                             [config.rightPin1 as nat := 0][config.rightPin2 as nat := 0]
    {
      if !initialized {
        return;
      }
      SetMotorSpeed(Left, 0.0);
      SetMotorSpeed(Right, 0.0);
    }
  }
}
