/** The pure arithmetic of the LED controller (src/LEDController.cpp):
    audio-intensity smoothing, the four effect patterns, the brightness fade
    step and PWM polarity.  Floats are modelled as reals; `sin` is a
    parameter bounded to [-1, 1]. */
module LedEffects {
  import opened Numeric
  import opened LedConfig

  /** Number of LED slots the controller's arrays hold. */
  const MAX_LEDS: nat := 4

  /** Weight of the new sample in the exponential intensity filter. */
  const SMOOTHING: real := 0.15

  /** `M_PI`, as far as the model needs it: a positive constant phase offset. */
  const PI: real := 3.141592653589793

  /** A sine function as the effects rely on it: bounded to [-1, 1]. */
  ghost predicate SineBounded(sin: real -> real)
  {
    forall x :: -1.0 <= sin(x) <= 1.0
  }

  // ---------------------------------------------------------------------
  // Audio intensity smoothing (updateAudioIntensity)
  // ---------------------------------------------------------------------

  /** One step of the exponential filter: the raw sample is clamped to [0, 1]
      and mixed in with weight 0.15.  The result lies between the previous
      smoothed value and the clamped sample, so it stays in [0, 1]. */
  function SmoothIntensity(smoothed: real, raw: real): (r: real)
    ensures var c := ConstrainReal(raw, 0.0, 1.0);
      MinReal(smoothed, c) <= r <= MaxReal(smoothed, c)
    ensures 0.0 <= smoothed <= 1.0 ==> 0.0 <= r <= 1.0
    ensures 0.0 <= raw <= 1.0 && smoothed == raw ==> r == raw
  {
    smoothed * (1.0 - SMOOTHING) + ConstrainReal(raw, 0.0, 1.0) * SMOOTHING
  }

  /** The smoothed intensity after `k` silent samples. */
  function Decayed(smoothed: real, k: nat): real
  {
    if k == 0 then smoothed else SmoothIntensity(Decayed(smoothed, k - 1), 0.0)
  }

  /** Silence shrinks the smoothed intensity at least harmonically:
      after `k` silent samples it is at most `s / (1 + 0.15 k)`. */
  lemma {:induction false} DecayedHarmonicBound(smoothed: real, k: nat)
    requires smoothed >= 0.0
    ensures 0.0 <= Decayed(smoothed, k)
    ensures Decayed(smoothed, k) * (1.0 + SMOOTHING * k as real) <= smoothed
  {
    if k > 0 {
      DecayedHarmonicBound(smoothed, k - 1);
      HarmonicInduct(smoothed, k);
    }
  }

  /** The inductive step of `DecayedHarmonicBound`. */
  lemma HarmonicInduct(smoothed: real, k: nat)
    requires k > 0
    requires 0.0 <= Decayed(smoothed, k - 1)
    requires Decayed(smoothed, k - 1) * (1.0 + SMOOTHING * (k - 1) as real) <= smoothed
    ensures 0.0 <= Decayed(smoothed, k)
    ensures Decayed(smoothed, k) * (1.0 + SMOOTHING * k as real) <= smoothed
  {
    SilentStep(smoothed, k);
    HarmonicStep(Decayed(smoothed, k - 1), Decayed(smoothed, k), smoothed, k as real, (k - 1) as real);
  }

  /** A silent sample scales the smoothed intensity by 0.85. */
  lemma SilentStep(smoothed: real, k: nat)
    requires k > 0
    ensures Decayed(smoothed, k) == Decayed(smoothed, k - 1) * 0.85
  {
    var d := Decayed(smoothed, k - 1);
    assert ConstrainReal(0.0, 0.0, 1.0) == 0.0;
    assert SmoothIntensity(d, 0.0) == d * (1.0 - SMOOTHING) + 0.0 * SMOOTHING;
  }

  lemma HarmonicStep(d: real, x: real, s: real, kr: real, km: real)
    requires d >= 0.0 && kr >= 1.0 && km == kr - 1.0 && x == d * 0.85
    requires d * (1.0 + SMOOTHING * km) <= s
    ensures 0.0 <= x
    ensures x * (1.0 + SMOOTHING * kr) <= s
  {
    DecayStep(d, kr);
  }

  lemma DecayStep(d: real, kr: real)
    requires d >= 0.0 && kr >= 1.0
    ensures 0.0 <= d * 0.85
    ensures (d * 0.85) * (1.0 + 0.15 * kr) <= d * (1.0 + 0.15 * (kr - 1.0))
  {
    assert (d * 0.85) * (1.0 + 0.15 * kr) == d * (0.85 + 0.1275 * kr);
    assert d * (1.0 + 0.15 * (kr - 1.0)) == d * (0.85 + 0.15 * kr);
    MulMonotone(d, 0.85 + 0.1275 * kr, 0.85 + 0.15 * kr);
  }

  lemma MulMonotone(d: real, a: real, b: real)
    requires d >= 0.0 && a <= b
    ensures d * a <= d * b
  {
  }

  lemma MulCancel(f: real, a: real, b: real)
    requires f > 0.0
    ensures a * f < b * f ==> a < b
  {
    if a >= b {
      MulMonotone(f, b, a);
      assert b * f == f * b && a * f == f * a;
    }
  }

  lemma Separated(x: real, y: real)
    requires x <= 1.0 && y > 1.0
    ensures x < y
  {
  }

  lemma BelowFrom(d: real, f: real, eps: real)
    requires d >= 0.0 && f > 0.0 && d * f <= 1.0 && eps * f > 1.0
    ensures d < eps
  {
    Separated(d * f, eps * f);
    MulCancel(f, d, eps);
  }

  lemma Distribute(kr: real, eps: real)
    ensures eps * (1.0 + SMOOTHING * kr) == eps + SMOOTHING * (kr * eps)
  {
  }

  /** Once the audio stops, the LEDs' smoothed intensity falls below any
      `eps > 0` within `7 / eps` updates. */
  lemma DecayedBelow(smoothed: real, k: nat, eps: real)
    requires 0.0 <= smoothed <= 1.0
    requires eps > 0.0 && k as real * eps >= 7.0
    ensures Decayed(smoothed, k) < eps
  {
    DecayedHarmonicBound(smoothed, k);
    var kr := k as real;
    var f := 1.0 + SMOOTHING * kr;
    var d := Decayed(smoothed, k);
    AtMostOne(d * f, smoothed);
    Distribute(kr, eps);
    AboveOne(eps * f, eps, kr * eps);
    BelowFrom(d, f, eps);
  }

  lemma AtMostOne(x: real, s: real)
    requires x <= s <= 1.0
    ensures x <= 1.0
  {
  }

  lemma AboveOne(x: real, eps: real, y: real)
    requires eps > 0.0 && y >= 7.0 && x == eps + SMOOTHING * y
    ensures x > 1.0
  {
  }

  // ---------------------------------------------------------------------
  // Effect patterns (calculate*Effect)
  // ---------------------------------------------------------------------

  lemma UnitProduct(x: real, y: real)
    requires 0.0 <= x <= 1.0 && 0.0 <= y <= 1.0
    ensures 0.0 <= x * y <= y
  {
  }

  /** The float `min + (max - min) * m` the effects compute before the cast. */
  function Lerp(l: real, h: real, m: real): (r: real)
    ensures m == 0.0 ==> r == l
    ensures m == 1.0 ==> r == h
    ensures l <= h && 0.0 <= m <= 1.0 ==> l <= r <= h
  {
    BetweenBounds(l, h, m);
    l + (h - l) * m
  }

  lemma BetweenBounds(l: real, h: real, m: real)
    ensures l <= h && 0.0 <= m <= 1.0 ==> 0.0 <= (h - l) * m <= h - l
  {
    if l <= h && 0.0 <= m <= 1.0 {
      MulMonotone(h - l, 0.0, m);
      MulMonotone(h - l, m, 1.0);
    }
  }

  lemma AddMonotone(l: real, x: real, y: real)
    requires x <= y
    ensures l + x <= l + y
  {
  }

  lemma LerpMonotone(l: real, h: real, m1: real, m2: real)
    requires m1 <= m2 && l <= h
    ensures Lerp(l, h, m1) <= Lerp(l, h, m2)
  {
    var d := h - l;
    MulMonotone(d, m1, m2);
    AddMonotone(l, d * m1, d * m2);
  }

  /** The brightness a modulation `m` selects: the float
      `min + (max - min) * m`, cast to `uint16_t` (truncation toward zero)
      and clamped to [min, max].  `constrain` tests the lower bound first,
      so the result is always a 16-bit value, and with ordered bounds it
      lies between them. */
  function LevelFor(c: Config, m: real): (b: u16)
    ensures c.minBrightness <= c.maxBrightness ==> c.minBrightness <= b <= c.maxBrightness
    ensures c.minBrightness <= c.maxBrightness && m == 1.0 ==> b == c.maxBrightness
  {
    var lo := c.minBrightness;
    var hi := c.maxBrightness;
    assert Lerp(lo as real, hi as real, 1.0) == hi as real;
    Constrain(Trunc(Lerp(lo as real, hi as real, m)), lo, hi)
  }

  /** Every modulation the effects compute lies in [0.1, 1]. */
  function Modulation(c: Config, pattern: EffectPattern, led: nat, intensity: real,
                      phase: real, sin: real -> real): (m: real)
    requires 0.0 <= intensity <= 1.0
    requires SineBounded(sin)
    ensures 0.1 <= m <= 1.0
    ensures pattern == Pulse ==> m >= 0.2
  {
    match pattern
    case Pulse => intensity * 0.8 + 0.2
    case Alternate =>
      var x := phase * 2.0 + led as real * PI;
      assert -1.0 <= sin(x) <= 1.0;
      var s := (sin(x) + 1.0) * 0.5;
      UnitProduct(s, intensity);
      var p := s * intensity;
      assert 0.0 <= p <= intensity;
      assert p * 0.6 <= intensity * 0.6;
      p * 0.6 + intensity * 0.3 + 0.1
    case Wave =>
      var x := phase * 1.5 + led as real * PI * 0.5;
      assert -1.0 <= sin(x) <= 1.0;
      var w := (sin(x) + 1.0) * 0.5;
      UnitProduct(w, intensity);
      var p := w * intensity;
      assert 0.0 <= p <= intensity;
      assert p * 0.7 <= intensity * 0.7;
      p * 0.7 + intensity * 0.2 + 0.1
    case Breathe =>
      var br := (sin(phase * 0.5) + 1.0) * 0.5;
      br * 0.4 + intensity * 0.5 + 0.1
    case Off => 0.1
  }

  /** The target brightness `updateEffects` assigns to LED `led`: zero for
      `Off`, otherwise the pattern's level, which stays inside the
      configured brightness bounds.  (The `default` case of the switch is
      unreachable, because `Off` returns before it.) */
  function EffectTarget(c: Config, pattern: EffectPattern, led: nat, intensity: real,
                        phase: real, sin: real -> real): (b: u16)
    requires 0.0 <= intensity <= 1.0
    requires SineBounded(sin)
    ensures pattern == Off ==> b == 0
    ensures pattern != Off && c.minBrightness <= c.maxBrightness ==>
      c.minBrightness <= b <= c.maxBrightness
  {
    if pattern == Off then 0
    else LevelFor(c, Modulation(c, pattern, led, intensity, phase, sin))
  }

  lemma TruncMonotone(x: real, y: real)
    requires x <= y
    ensures Trunc(x) <= Trunc(y)
  {
  }

  /** A larger modulation never selects a dimmer level. */
  lemma LevelMonotone(c: Config, m1: real, m2: real)
    requires m1 <= m2
    requires c.minBrightness <= c.maxBrightness
    ensures LevelFor(c, m1) <= LevelFor(c, m2)
  {
    var l := c.minBrightness as real;
    var h := c.maxBrightness as real;
    LerpMonotone(l, h, m1, m2);
    TruncMonotone(Lerp(l, h, m1), Lerp(l, h, m2));
    ConstrainMonotone(Trunc(Lerp(l, h, m1)), Trunc(Lerp(l, h, m2)), c.minBrightness, c.maxBrightness);
  }

  /** Louder audio never dims a pulsing LED: the pulse level is monotone in
      the smoothed intensity. */
  lemma PulseMonotone(c: Config, i1: real, i2: real, phase: real, sin: real -> real)
    requires 0.0 <= i1 <= i2 <= 1.0
    requires SineBounded(sin)
    requires c.minBrightness <= c.maxBrightness
    ensures EffectTarget(c, Pulse, 0, i1, phase, sin) <= EffectTarget(c, Pulse, 0, i2, phase, sin)
  {
    LevelMonotone(c, i1 * 0.8 + 0.2, i2 * 0.8 + 0.2);
  }

  /** Under the pulse pattern every active LED shows the same level. */
  lemma PulseIgnoresLed(c: Config, l1: nat, l2: nat, intensity: real, phase: real, sin: real -> real)
    requires 0.0 <= intensity <= 1.0
    requires SineBounded(sin)
    ensures EffectTarget(c, Pulse, l1, intensity, phase, sin) == EffectTarget(c, Pulse, l2, intensity, phase, sin)
  {
  }

  /** Full intensity pulses at full configured brightness. */
  lemma PulseFullIntensity(c: Config, phase: real, sin: real -> real)
    requires SineBounded(sin)
    requires c.minBrightness <= c.maxBrightness
    ensures EffectTarget(c, Pulse, 0, 1.0, phase, sin) == c.maxBrightness
  {
  }

  // ---------------------------------------------------------------------
  // Brightness fade (updateBrightnessSmoothing)
  // ---------------------------------------------------------------------

  /** The signed step the fade takes toward the target: the C++ integer
      quotient `diff * fadeSpeed / 256`, replaced by +1/-1 when it truncates
      to zero. */
  function FadeIncrement(diff: int, fadeSpeed: nat): (step: int)
    requires diff != 0
    ensures diff > 0 ==> step >= 1
    ensures diff < 0 ==> step <= -1
    ensures TruncDiv(diff * fadeSpeed, 256) != 0 ==> step == TruncDiv(diff * fadeSpeed, 256)
  {
    var s := TruncDiv(diff * fadeSpeed, 256);
    if s == 0 then (if diff > 0 then 1 else -1) else s
  }

  /** The product `diff * fadeSpeed` fits the `int32_t` the source computes
      it in. */
  predicate FadeProductFits(current: u16, target: u16, fadeSpeed: u16)
  {
    Abs(target - current) * fadeSpeed < 0x8000_0000
  }

  /** The largest fade speed for which `diff * fadeSpeed` fits the
      `int32_t` it is computed in, for every pair of 16-bit brightnesses:
      65535 * 32768 < 2^31 <= 65535 * 32769.  A larger speed overflows, which
      is undefined behaviour in C++. */
  const FADE_SPEED_LIMIT: u16 := 32768

  lemma FadeSpeedLimitFits(current: u16, target: u16, fadeSpeed: u16)
    requires fadeSpeed <= FADE_SPEED_LIMIT
    ensures FadeProductFits(current, target, fadeSpeed)
  {
    MulMonotoneInt(Abs(target - current), fadeSpeed, FADE_SPEED_LIMIT);
  }

  /** The limit is tight: one more overflows on a full-range fade. */
  lemma FadeSpeedLimitTight()
    ensures !FadeProductFits(0, 65535, FADE_SPEED_LIMIT + 1)
  {
  }

  /** The fade step as written: the step is added to the `uint16_t`
      brightness (wrapping modulo 2^16) BEFORE the overshoot test compares
      it with the target. */
  function FadeStepAsWritten(current: u16, target: u16, fadeSpeed: u16): (r: u16)
    requires FadeProductFits(current, target, fadeSpeed)
    ensures current == target ==> r == current
  {
    var diff := target - current;
    if diff == 0 then current
    else
      var step := FadeIncrement(diff, fadeSpeed);
      var stored := (current + step) % 0x1_0000;
      if (step > 0 && stored > target) || (step < 0 && stored < target) then target
      else stored
  }

  /** With a fade speed above 256 the step overshoots the 16-bit range and
      the wrapped value slips past the overshoot test: a LED fading from
      65000 up to 65535 with fade speed 1000 drops to 1553. */
  lemma FadeStepAsWrittenWraps()
    ensures FadeProductFits(65000, 65535, 1000)
    ensures FadeStepAsWritten(65000, 65535, 1000) == 1553
    ensures FadeStep(65000, 65535, 1000) == 65535
  {
    assert FadeIncrement(535, 1000) == 2089;
  }

  /** The fade step as intended: the overshoot test is applied to the
      unwrapped sum, so the brightness always lands between where it was and
      the target, strictly closer unless already there. */
  function FadeStep(current: u16, target: u16, fadeSpeed: u16): (r: u16)
    ensures current == target ==> r == current
    ensures Min(current, target) <= r <= Max(current, target)
    ensures current != target ==> Abs(target - r) < Abs(target - current)
  {
    var diff := target - current;
    if diff == 0 then current
    else
      var step := FadeIncrement(diff, fadeSpeed);
      var sum := current + step;
      if (step > 0 && sum > target) || (step < 0 && sum < target) then target
      else sum
  }

  lemma MulMonotoneInt(d: int, a: int, b: int)
    requires d >= 0 && a <= b
    ensures d * a <= d * b
  {
  }

  /** With a fade speed up to 256 the increment never exceeds the distance
      to the target. */
  lemma IncrementWithin(diff: int, fadeSpeed: nat)
    requires diff != 0 && fadeSpeed <= 256
    ensures diff > 0 ==> 1 <= FadeIncrement(diff, fadeSpeed) <= diff
    ensures diff < 0 ==> diff <= FadeIncrement(diff, fadeSpeed) <= -1
  {
    var q := TruncDiv(diff * fadeSpeed, 256);
    if diff > 0 {
      MulMonotoneInt(diff, fadeSpeed, 256);
      assert q * 256 <= diff * 256;
    } else {
      MulMonotoneInt(-diff, fadeSpeed, 256);
      assert diff * fadeSpeed >= diff * 256;
    }
  }

  /** For every fade speed up to 256 (the default is 8) the step never
      leaves the 16-bit range, and the code as written is the intended fade. */
  lemma FadeStepAsWrittenAgrees(current: u16, target: u16, fadeSpeed: u16)
    requires fadeSpeed <= 256
    ensures FadeProductFits(current, target, fadeSpeed)
    ensures FadeStepAsWritten(current, target, fadeSpeed) == FadeStep(current, target, fadeSpeed)
  {
    var diff := target - current;
    MulMonotoneInt(Abs(diff), fadeSpeed, 256);
    if diff != 0 {
      IncrementWithin(diff, fadeSpeed);
      var step := FadeIncrement(diff, fadeSpeed);
      assert 0 <= current + step < 0x1_0000;
      assert (current + step) % 0x1_0000 == current + step;
    }
  }

  /** The brightness after `k` fade steps toward a fixed target. */
  function FadeIterate(current: u16, target: u16, fadeSpeed: u16, k: nat): u16
    decreases k
  {
    if k == 0 then current else FadeIterate(FadeStep(current, target, fadeSpeed), target, fadeSpeed, k - 1)
  }

  /** A LED reaches its target brightness within `|target - current|`
      updates, whatever the fade speed, and then stays there. */
  lemma {:induction false} FadeReachesTarget(current: u16, target: u16, fadeSpeed: u16, k: nat)
    requires k >= Abs(target - current)
    ensures FadeIterate(current, target, fadeSpeed, k) == target
    decreases k
  {
    if k > 0 {
      FadeReachesTarget(FadeStep(current, target, fadeSpeed), target, fadeSpeed, k - 1);
    }
  }

  // ---------------------------------------------------------------------
  // PWM polarity (applyBrightness)
  // ---------------------------------------------------------------------

  /** The channel level for a brightness: for common-anode LEDs it is the
      complement, so level and brightness sum to the full 16-bit range. */
  function PwmValue(brightness: u16, invert: bool): (level: u16)
    ensures invert ==> level + brightness == U16_MAX
    ensures !invert ==> level == brightness
  {
    if invert then U16_MAX - brightness else brightness
  }

  /** Converting a level back with the same polarity restores the
      brightness. */
  lemma PwmValueInvolution(brightness: u16, invert: bool)
    ensures PwmValue(PwmValue(brightness, invert), invert) == brightness
  {
  }
}
