/** The LED controller object (src/LEDController.cpp): per-LED current and
    target brightness, the PWM channel levels and enable bits it drives,
    and the audio-intensity filter feeding the effects.  PWM slices and
    channels are abstracted to one level and one enable bit per LED; the
    clock and `sin` are parameters. */
module LedEngine {
  import opened Numeric
  import opened LedConfig
  import opened LedEffects

  class LedController {
    const config: Config
    var currentPattern: EffectPattern
    var enabled: bool
    var initialized: bool
    var audioIntensity: real
    var smoothedIntensity: real
    var lastUpdateTime: u32
    var effectCounter: u32
    var effectPhase: real

    const currentBrightness: array<u16>
    const targetBrightness: array<u16>
    /** The level last written to each LED's PWM channel. */
    const pwmLevel: array<u16>
    /** Whether each LED's PWM slice is running. */
    const pwmEnabled: array<bool>

    ghost predicate Valid()
      reads this
    {
      |config.ledPins| == MAX_LEDS
      && currentBrightness.Length == MAX_LEDS && targetBrightness.Length == MAX_LEDS
      && pwmLevel.Length == MAX_LEDS && pwmEnabled.Length == MAX_LEDS
      && currentBrightness != targetBrightness && currentBrightness != pwmLevel
      && targetBrightness != pwmLevel
      && 0.0 <= audioIntensity <= 1.0
      && 0.0 <= smoothedIntensity <= 1.0
      && (initialized ==> LedCountAccepted(config))
      && (enabled ==> initialized)
    }

    /** Every active LED starts at the minimum brightness, with the Pulse
        pattern selected and the controller neither initialised nor enabled. */
    constructor (c: Config)
      requires |c.ledPins| == MAX_LEDS
      ensures Valid()
      ensures config == c && currentPattern == Pulse && !enabled && !initialized
      ensures audioIntensity == 0.0 && smoothedIntensity == 0.0
      ensures lastUpdateTime == 0 && effectCounter == 0 && effectPhase == 0.0
      ensures forall i :: 0 <= i < MAX_LEDS ==>
        currentBrightness[i] == c.minBrightness && targetBrightness[i] == c.minBrightness
        && pwmLevel[i] == 0 && !pwmEnabled[i]
      ensures fresh(currentBrightness) && fresh(targetBrightness) && fresh(pwmLevel) && fresh(pwmEnabled)
    {
      config := c;
      currentPattern := Pulse;
      enabled := false;
      initialized := false;
      audioIntensity := 0.0;
      smoothedIntensity := 0.0;
      lastUpdateTime := 0;
      effectCounter := 0;
      effectPhase := 0.0;
      currentBrightness := new u16[MAX_LEDS](_ => c.minBrightness);
      targetBrightness := new u16[MAX_LEDS](_ => c.minBrightness);
      pwmLevel := new u16[MAX_LEDS](_ => 0);
      pwmEnabled := new bool[MAX_LEDS](_ => false);
    }

    /** `initialize`: succeeds at once when already initialised; rejects a
        configuration with no LEDs or more than four; otherwise sets up each
        active LED's PWM channel stopped at level 0, turns the LEDs off (the
        PWM is not touched by that, as the controller is not initialised
        yet), records the time and becomes initialised and enabled. */
    method Initialize(nowMs: u32) returns (ok: bool)
      requires Valid()
      modifies this, currentBrightness, targetBrightness, pwmLevel, pwmEnabled
      ensures Valid()
      ensures old(initialized) ==>
        ok && unchanged(this)
        && unchanged(currentBrightness) && unchanged(targetBrightness)
        && unchanged(pwmLevel) && unchanged(pwmEnabled)
      ensures !old(initialized) && !LedCountAccepted(config) ==>
        !ok && unchanged(this)
        && unchanged(currentBrightness) && unchanged(targetBrightness)
        && unchanged(pwmLevel) && unchanged(pwmEnabled)
      ensures !old(initialized) && LedCountAccepted(config) ==>
        ok && initialized && enabled && lastUpdateTime == nowMs
        && currentPattern == old(currentPattern) && effectCounter == old(effectCounter)
        && effectPhase == old(effectPhase) && audioIntensity == old(audioIntensity)
        && smoothedIntensity == old(smoothedIntensity)
        && forall i :: 0 <= i < MAX_LEDS ==>
          if i < config.numLEDs then
            currentBrightness[i] == 0 && targetBrightness[i] == 0
            && pwmLevel[i] == 0 && !pwmEnabled[i]
          else
            currentBrightness[i] == old(currentBrightness[i])
            && targetBrightness[i] == old(targetBrightness[i])
            && pwmLevel[i] == old(pwmLevel[i]) && pwmEnabled[i] == old(pwmEnabled[i])
    {
      if initialized {
        return true;
      }
      if config.numLEDs == 0 || config.numLEDs > 4 {
        return false;
      }
      var i := 0;
      while i < config.numLEDs
        invariant 0 <= i <= config.numLEDs
        invariant forall j :: 0 <= j < MAX_LEDS ==>
          if j < i then pwmLevel[j] == 0 && !pwmEnabled[j]
          else pwmLevel[j] == old(pwmLevel[j]) && pwmEnabled[j] == old(pwmEnabled[j])
        invariant unchanged(this) && unchanged(currentBrightness) && unchanged(targetBrightness)
      {
        InitializeLedPwm(i);
        i := i + 1;
      }
      TurnOff();
      lastUpdateTime := nowMs;
      initialized := true;
      enabled := true;
      ok := true;
    }

    /** `initializeLEDPWM` for one active LED: its channel is set to level 0
        with the slice left stopped. */
    method InitializeLedPwm(led: nat)
      requires Valid() && led < config.numLEDs <= MAX_LEDS
      modifies pwmLevel, pwmEnabled
      ensures forall j :: 0 <= j < MAX_LEDS ==>
        pwmLevel[j] == (if j == led then 0 else old(pwmLevel[j]))
        && pwmEnabled[j] == (if j == led then false else old(pwmEnabled[j]))
    {
      pwmEnabled[led] := false;
      pwmLevel[led] := 0;
    }

    /** `updateAudioIntensity`: records the clamped sample and advances the
        smoothing filter by one step. */
    method UpdateAudioIntensity(raw: real)
      requires Valid()
      modifies this`audioIntensity, this`smoothedIntensity
      ensures Valid()
      ensures audioIntensity == ConstrainReal(raw, 0.0, 1.0)
      ensures smoothedIntensity == SmoothIntensity(old(smoothedIntensity), raw)
    {
      ConstrainRealInRange(raw, 0.0, 1.0);
      audioIntensity := ConstrainReal(raw, 0.0, 1.0);
      smoothedIntensity := SmoothIntensity(smoothedIntensity, raw);
    }

    /** `setEffectPattern`: selects the pattern and restarts its clock;
        selecting `Off` also turns the LEDs off. */
    method SetEffectPattern(pattern: EffectPattern)
      requires Valid() && config.numLEDs <= MAX_LEDS
      modifies this, currentBrightness, targetBrightness, pwmLevel, pwmEnabled
      ensures Valid()
      ensures currentPattern == pattern && effectCounter == 0 && effectPhase == 0.0
      ensures initialized == old(initialized) && lastUpdateTime == old(lastUpdateTime)
      ensures audioIntensity == old(audioIntensity) && smoothedIntensity == old(smoothedIntensity)
      ensures pattern != Off ==>
        enabled == old(enabled)
        && unchanged(currentBrightness) && unchanged(targetBrightness)
        && unchanged(pwmLevel) && unchanged(pwmEnabled)
      ensures pattern == Off ==> !enabled && TurnedOff(old(currentBrightness[..]), old(targetBrightness[..]),
                                                  old(pwmLevel[..]), old(pwmEnabled[..]))
    {
      currentPattern := pattern;
      effectCounter := 0;
      effectPhase := 0.0;
      if pattern == Off {
        TurnOff();
      }
    }

    /** `setBrightness`: every active LED's target becomes the brightness
        clamped to [0, maxBrightness]. */
    method SetBrightness(brightness: u16)
      requires Valid() && config.numLEDs <= MAX_LEDS
      modifies targetBrightness
      ensures forall i :: 0 <= i < MAX_LEDS ==>
        targetBrightness[i] == (if i < config.numLEDs then Constrain(brightness, 0, config.maxBrightness)
                                else old(targetBrightness[i]))
    {
      var b: u16 := Constrain(brightness, 0, config.maxBrightness);
      var i := 0;
      while i < config.numLEDs
        invariant 0 <= i <= config.numLEDs
        invariant forall j :: 0 <= j < MAX_LEDS ==>
          targetBrightness[j] == (if j < i then b else old(targetBrightness[j]))
      {
        targetBrightness[i] := b;
        i := i + 1;
      }
    }

    /** `setLEDBrightness`: an index beyond the active LEDs is ignored;
        otherwise that LED's target becomes the clamped brightness. */
    method SetLedBrightness(led: u8, brightness: u16)
      requires Valid() && config.numLEDs <= MAX_LEDS
      modifies targetBrightness
      ensures led >= config.numLEDs ==> unchanged(targetBrightness)
      ensures led < config.numLEDs ==> forall i :: 0 <= i < MAX_LEDS ==>
        targetBrightness[i] == (if i == led then Constrain(brightness, 0, config.maxBrightness)
                                else old(targetBrightness[i]))
    {
      if led >= config.numLEDs {
        return;
      }
      targetBrightness[led] := Constrain(brightness, 0, config.maxBrightness);
    }

    /** The state `turnOff` leaves behind, given the arrays before it: the
        active LEDs at brightness and target 0 and, once initialised, their
        channels at the "off" level and stopped; the other slots untouched. */
    ghost predicate TurnedOff(cur0: seq<u16>, tgt0: seq<u16>, lvl0: seq<u16>, en0: seq<bool>)
      requires Valid()
      requires |cur0| == |tgt0| == |lvl0| == |en0| == MAX_LEDS
      reads this, currentBrightness, targetBrightness, pwmLevel, pwmEnabled
    {
      forall i :: 0 <= i < MAX_LEDS ==>
        if i < config.numLEDs then
          currentBrightness[i] == 0 && targetBrightness[i] == 0
          && pwmLevel[i] == (if initialized then PwmValue(0, config.invertOutput) else lvl0[i])
          && pwmEnabled[i] == (if initialized then false else en0[i])
        else
          currentBrightness[i] == cur0[i] && targetBrightness[i] == tgt0[i]
          && pwmLevel[i] == lvl0[i] && pwmEnabled[i] == en0[i]
    }

    /** `turnOff`: disables the controller and zeroes the active LEDs; the
        PWM channels are written only once the controller is initialised. */
    method TurnOff()
      requires Valid() && config.numLEDs <= MAX_LEDS
      modifies this`enabled, currentBrightness, targetBrightness, pwmLevel, pwmEnabled
      ensures Valid() && !enabled
      ensures TurnedOff(old(currentBrightness[..]), old(targetBrightness[..]),
                        old(pwmLevel[..]), old(pwmEnabled[..]))
    {
      enabled := false;
      var i := 0;
      while i < config.numLEDs
        invariant 0 <= i <= config.numLEDs
        invariant !enabled
        invariant forall j :: 0 <= j < MAX_LEDS ==>
          if j < i then
            currentBrightness[j] == 0 && targetBrightness[j] == 0
            && pwmLevel[j] == (if initialized then PwmValue(0, config.invertOutput) else old(pwmLevel[j]))
            && pwmEnabled[j] == (if initialized then false else old(pwmEnabled[j]))
          else
            currentBrightness[j] == old(currentBrightness[j]) && targetBrightness[j] == old(targetBrightness[j])
            && pwmLevel[j] == old(pwmLevel[j]) && pwmEnabled[j] == old(pwmEnabled[j])
      {
        currentBrightness[i] := 0;
        targetBrightness[i] := 0;
        if initialized {
          pwmLevel[i] := PwmValue(0, config.invertOutput);
          pwmEnabled[i] := false;
        }
        i := i + 1;
      }
    }

    /** `turnOn`: ignored before initialisation; otherwise enables the
        controller and starts every active LED's PWM slice. */
    method TurnOn()
      requires Valid()
      modifies this`enabled, pwmEnabled
      ensures Valid()
      ensures !old(initialized) ==> enabled == old(enabled) && unchanged(pwmEnabled)
      ensures old(initialized) ==> enabled && forall i :: 0 <= i < MAX_LEDS ==>
        pwmEnabled[i] == (if i < config.numLEDs then true else old(pwmEnabled[i]))
    {
      if !initialized {
        return;
      }
      enabled := true;
      var i := 0;
      while i < config.numLEDs
        invariant 0 <= i <= config.numLEDs
        invariant enabled
        invariant forall j :: 0 <= j < MAX_LEDS ==>
          pwmEnabled[j] == (if j < i then true else old(pwmEnabled[j]))
      {
        pwmEnabled[i] := true;
        i := i + 1;
      }
    }

    /** `update`: ignored unless initialised and enabled; otherwise advances
        the effect clock by the elapsed milliseconds (32-bit wrap-around),
        recomputes every active LED's target from the pattern, moves its
        brightness one fade step toward it (the fade of
        `UpdateBrightnessSmoothing`) and writes the channel level. */
    method Update(nowMs: u32, sin: real -> real)
      requires Valid() && SineBounded(sin) && config.fadeSpeed <= FADE_SPEED_LIMIT
      modifies this, currentBrightness, targetBrightness, pwmLevel
      ensures Valid()
      ensures !(old(initialized) && old(enabled)) ==>
        unchanged(this)
        && unchanged(currentBrightness) && unchanged(targetBrightness) && unchanged(pwmLevel)
      ensures old(initialized) && old(enabled) ==>
        var delta := (nowMs - old(lastUpdateTime)) % 0x1_0000_0000;
        lastUpdateTime == nowMs
        && effectCounter == (old(effectCounter) + delta) % 0x1_0000_0000
        && effectPhase == old(effectPhase) + delta as real * 0.001
        && initialized && enabled && currentPattern == old(currentPattern)
        && audioIntensity == old(audioIntensity) && smoothedIntensity == old(smoothedIntensity)
        && forall i :: 0 <= i < MAX_LEDS ==>
          if i < config.numLEDs then
            targetBrightness[i] == EffectTarget(config, currentPattern, i, smoothedIntensity, effectPhase, sin)
            && currentBrightness[i] == FadeStep(old(currentBrightness[i]), targetBrightness[i], config.fadeSpeed)
            && pwmLevel[i] == PwmValue(currentBrightness[i], config.invertOutput)
          else
            targetBrightness[i] == old(targetBrightness[i])
            && currentBrightness[i] == old(currentBrightness[i])
            && pwmLevel[i] == old(pwmLevel[i])
    {
      if !initialized || !enabled {
        return;
      }
      var delta := (nowMs - lastUpdateTime) % 0x1_0000_0000;
      lastUpdateTime := nowMs;
      effectCounter := (effectCounter + delta) % 0x1_0000_0000;
      effectPhase := effectPhase + delta as real * 0.001;
      UpdateEffects(sin);
      UpdateBrightnessSmoothing();
      ApplyBrightness();
    }

    /** `updateEffects`: each active LED's target becomes the pattern's
        level for it (zero under `Off`). */
    method UpdateEffects(sin: real -> real)
      requires Valid() && config.numLEDs <= MAX_LEDS && SineBounded(sin)
      modifies targetBrightness
      ensures forall i :: 0 <= i < MAX_LEDS ==>
        targetBrightness[i] == (if i < config.numLEDs
                                then EffectTarget(config, currentPattern, i, smoothedIntensity, effectPhase, sin)
                                else old(targetBrightness[i]))
    {
      var i := 0;
      while i < config.numLEDs
        invariant 0 <= i <= config.numLEDs
        invariant forall j :: 0 <= j < MAX_LEDS ==>
          targetBrightness[j] == (if j < i
                                  then EffectTarget(config, currentPattern, j, smoothedIntensity, effectPhase, sin)
                                  else old(targetBrightness[j]))
      {
        targetBrightness[i] := EffectTarget(config, currentPattern, i, smoothedIntensity, effectPhase, sin);
        i := i + 1;
      }
    }

    /** `updateBrightnessSmoothing`: each active LED's brightness takes one
        fade step toward its target.  The fade speed must keep
        `diff * fadeSpeed` within `int32_t`.  The step is the intended
        `FadeStep`, which for fade speeds up to 256 (the default is 8) is
        the code as written (`FadeStepAsWrittenAgrees`); above 256 the
        source's 16-bit wrap-around is not followed. */
    method UpdateBrightnessSmoothing()
      requires Valid() && config.numLEDs <= MAX_LEDS && config.fadeSpeed <= FADE_SPEED_LIMIT
      modifies currentBrightness
      ensures forall i :: 0 <= i < MAX_LEDS ==>
        currentBrightness[i] == (if i < config.numLEDs
                                 then FadeStep(old(currentBrightness[i]), targetBrightness[i], config.fadeSpeed)
                                 else old(currentBrightness[i]))
      ensures config.fadeSpeed <= 256 ==> forall i :: 0 <= i < config.numLEDs ==>
        FadeProductFits(old(currentBrightness[i]), targetBrightness[i], config.fadeSpeed)
        && currentBrightness[i] == FadeStepAsWritten(old(currentBrightness[i]), targetBrightness[i], config.fadeSpeed)
    {
      var i := 0;
      while i < config.numLEDs
        invariant 0 <= i <= config.numLEDs
        invariant forall j :: 0 <= j < MAX_LEDS ==>
          currentBrightness[j] == (if j < i
                                   then FadeStep(old(currentBrightness[j]), targetBrightness[j], config.fadeSpeed)
                                   else old(currentBrightness[j]))
      {
        currentBrightness[i] := FadeStep(currentBrightness[i], targetBrightness[i], config.fadeSpeed);
        i := i + 1;
      }
      if config.fadeSpeed <= 256 {
        forall j | 0 <= j < config.numLEDs
          ensures FadeProductFits(old(currentBrightness[j]), targetBrightness[j], config.fadeSpeed)
          ensures FadeStepAsWritten(old(currentBrightness[j]), targetBrightness[j], config.fadeSpeed)
                  == FadeStep(old(currentBrightness[j]), targetBrightness[j], config.fadeSpeed)
        {
          FadeStepAsWrittenAgrees(old(currentBrightness[j]), targetBrightness[j], config.fadeSpeed);
        }
      }
    }

    /** `applyBrightness`: each active LED's channel is set to its
        brightness, inverted for common-anode wiring. */
    method ApplyBrightness()
      requires Valid() && config.numLEDs <= MAX_LEDS
      modifies pwmLevel
      ensures forall i :: 0 <= i < MAX_LEDS ==>
        pwmLevel[i] == (if i < config.numLEDs
                        then PwmValue(currentBrightness[i], config.invertOutput)
                        else old(pwmLevel[i]))
    {
      var i := 0;
      while i < config.numLEDs
        invariant 0 <= i <= config.numLEDs
        invariant forall j :: 0 <= j < MAX_LEDS ==>
          pwmLevel[j] == (if j < i then PwmValue(currentBrightness[j], config.invertOutput)
                          else old(pwmLevel[j]))
      {
        pwmLevel[i] := PwmValue(currentBrightness[i], config.invertOutput);
        i := i + 1;
      }
    }
  }
}
