# Exterminate Dalek firmware: a Dafny model of its core

Exterminate is RP2040 firmware for a model Dalek. A Bluetooth gamepad drives two DC motors
through a DRV8833 H-bridge. Button A plays a sound effect over I2S, button Y switches a MOSFET
output, and up to four PWM LEDs pulse with the loudness of the sound. Sound assets are compiled
into the firmware as C++ headers generated by a Python tool.

This project models the parts of that firmware that decide behaviour and proves properties of
them:

- the playback session and buffer producer (`AudioController`);
- the LED effect engine (`LEDController`);
- the PIO/DMA I2S driver's clock plan, buffer layout, state-machine bookkeeping and refill
  handler (`I2S`);
- the motor driver (`MotorController`);
- the gamepad glue (`GamepadController`): connection state machine, status LED, device filter,
  tank steering, button edges;
- the asset header generator (`audio_to_pcm_header.py`).

Files and modules:

| file | module | models |
|---|---|---|
| numeric.dfy | `Numeric` | integer widths, C++ float-to-integer truncation and integer division, `constrain` |
| led_config.dfy | `LedConfig` | the LED `Config` record, its default, effect patterns |
| led_effects.dfy | `LedEffects` | intensity smoothing, effect brightness, fade step, PWM value |
| led_controller.dfy | `LedEngine` | the `LEDController` class over its brightness and PWM arrays |
| i2s_clocks.dfy | `I2sClocks` | PIO clock dividers, `calculateClocks`, `validateClockSync` |
| i2s_transport.dfy | `I2sTransport` | buffers, the audio processor, the `I2SController` class |
| audio_controller.dfy | `AudioPlayback` | the `AudioController` class and `fillAudioBuffer` |
| motor.dfy | `Motors` | PWM divider, duty levels, differential mixing, `MotorController` |
| gamepad.dfy | `Gamepad` | the `GamepadController` class and its pure decision functions |
| pcm_header.dfy | `PcmHeader` | identifier sanitiser, data-line writer, generated index lookups |

How the model represents the program:

- Classes whose fields change in place become Dafny classes.
- Fixed-size buffers become arrays, and loops become `while` loops with invariants.
- Pure arithmetic and mappings become functions with lemmas about them.
- Floating point is modelled as exact reals. Where a C++ cast truncates, the model truncates
  toward zero. Where the source wraps a `uint32_t` (the effect
  clock, the motor divider's denominator), the model wraps with an explicit modulus. The
  LED fade's `uint16_t` wrap is modelled by `FadeStepAsWritten` and reported under
  "## Findings"; the LED controller itself applies the corrected fade (see "## Left out").
- Hardware effects do not appear as register writes. Each becomes the state it leaves behind:
  - the level last written to each PWM pin;
  - the set of claimed and running PIO state machines;
  - the list of MOSFET `set` calls;
  - the last LED status pattern.
- The outcomes of library calls the model cannot see become method parameters:
  - `cyw43_arch_init`;
  - the DMA set-up;
  - the I2S format the audio library negotiates;
  - the success of creating and connecting the buffer pool.
- `sqrtf` and `sin` are parameters, constrained only as far as the proofs need. `sqrtf` is
  non-negative on non-negative arguments, and `sin` lies in [-1, 1].

## Model

| member | source | states |
|---|---|---|
| Numeric.Trunc | src/AudioController.cpp:306 | a float-to-integer cast rounds toward zero: the result is the integer part, below the value for positives and above it for negatives |
| Numeric.TruncDiv | src/LEDController.cpp:259 | C++ integer division truncates toward zero: quotient bounds for both signs of the dividend |
| Numeric.TruncDivIsTruncOfQuotient | src/LEDController.cpp:259 | truncating integer division equals truncating the exact quotient |
| Numeric.Constrain | include/LEDController.h:210-215 | `constrain` returns lo below the range, hi above it, and the value inside it |
| Numeric.ConstrainInRange | include/LEDController.h:210-215 | for ordered bounds the result lies in [lo, hi] |
| Numeric.ConstrainIdempotent | include/LEDController.h:210-215 | constraining twice is constraining once |
| Numeric.ConstrainMonotone | include/LEDController.h:210-215 | `constrain` is monotone in its value |
| Numeric.ConstrainIsMaxOfMin | include/LEDController.h:210-215 | `constrain` equals `max(lo, min(hi, v))`, the form the audio and gamepad code use |
| Numeric.ConstrainReal | src/MotorController.cpp:183-188 | the float `constrain`: lo below, hi above, the value inside |
| Numeric.ConstrainRealInRange | src/MotorController.cpp:183-188 | the float clamp lands in range, is idempotent, and equals `max(lo, min(hi, v))` |
| LedConfig.DefaultConfig | include/LEDController.h:43-53 | the default configuration has four LED pins |
| LedConfig.DefaultConfigAccepted | include/LEDController.h:43-53 | the default passes the LED-count check of `initialize`, has ordered brightness bounds, and a fade speed of at most 256 |
| LedEffects.SmoothIntensity | src/LEDController.cpp:118-127 | the smoothed intensity lies between the old value and the clamped input, stays in [0, 1], and is fixed at its input |
| LedEffects.DecayedHarmonicBound | src/LEDController.cpp:124-126 | after k silent updates the smoothed intensity is at most its start over 1 + 0.15k |
| LedEffects.DecayedBelow | src/LEDController.cpp:124-126 | silence drives the smoothed intensity below any positive threshold ε after 7/ε updates |
| LedEffects.LevelFor | src/LEDController.cpp:294-299 | an effect's brightness lies within [minBrightness, maxBrightness] and reaches the maximum at full modulation |
| LedEffects.Lerp | src/LEDController.cpp:295-296 | the interpolation gives min at modulation 0, max at 1, and stays between them for a modulation in [0, 1] |
| LedEffects.LerpMonotone | src/LEDController.cpp:295-296 | the brightness interpolation is monotone in the modulation |
| LedEffects.Modulation | src/LEDController.cpp:290-346 | every effect's modulation lies in [0.1, 1] for intensities in [0, 1], and Pulse's is at least 0.2 |
| LedEffects.EffectTarget | src/LEDController.cpp:212-249 | Off targets 0, and every other pattern targets a brightness within the configured bounds |
| LedEffects.LevelMonotone | src/LEDController.cpp:294-299 | brighter modulation never gives a dimmer LED |
| LedEffects.PulseMonotone | src/LEDController.cpp:290-300 | the Pulse brightness is monotone in the audio intensity |
| LedEffects.PulseIgnoresLed | src/LEDController.cpp:290-300 | all LEDs pulse together: Pulse does not depend on the LED index |
| LedEffects.PulseFullIntensity | src/LEDController.cpp:290-300 | Pulse at full intensity is the maximum brightness |
| LedEffects.FadeIncrement | src/LEDController.cpp:259-264 | the fade step has the sign of the difference, is at least 1 in magnitude, and is the truncated `diff * fadeSpeed / 256` when that is non-zero |
| LedEffects.FadeSpeedLimitFits | src/LEDController.cpp:259 | with a fade speed up to 32768, `diff * fadeSpeed` fits `int32_t` for all 16-bit brightnesses |
| LedEffects.FadeSpeedLimitTight | src/LEDController.cpp:259 | fade speed 32769 overflows `int32_t` on a full-range fade, so 32768 is the largest safe speed |
| LedEffects.IncrementWithin | src/LEDController.cpp:259-264 | for fade speeds up to 256 the step never exceeds the difference |
| LedEffects.FadeStepAsWritten | src/LEDController.cpp:255-272 | the fade as written, with the `uint16_t` addition wrapping: no change at the target |
| LedEffects.FadeStepAsWrittenWraps | src/LEDController.cpp:266-272 | from 65000 toward 65535 at fade speed 1000 the written code lands on 1553, while the corrected step reaches 65535 |
| LedEffects.FadeStep | src/LEDController.cpp:255-272 | the corrected fade stays between current and target and strictly approaches the target |
| LedEffects.FadeStepAsWrittenAgrees | src/LEDController.cpp:255-272 | for fade speeds up to 256 (the default is 8) the written fade equals the corrected one |
| LedEffects.FadeReachesTarget | src/LEDController.cpp:251-275 | repeated fading reaches the target after at most \|target − current\| updates |
| LedEffects.PwmValue | src/LEDController.cpp:283 | with inversion the level and the brightness sum to 65535; without it the level is the brightness |
| LedEffects.PwmValueInvolution | src/LEDController.cpp:283 | converting a level back with the same polarity restores the brightness |
| LedEngine.LedController.constructor | src/LEDController.cpp:20-36 | Pulse pattern, disabled, uninitialised, zero intensities and counters, all brightness at minBrightness |
| LedEngine.LedController.Initialize | src/LEDController.cpp:50-76 | already initialised changes nothing; a bad LED count fails unchanged; otherwise the active LEDs are off at level 0, the time is stamped, and the controller is initialised and enabled |
| LedEngine.LedController.InitializeLedPwm | src/LEDController.cpp:78-116 | the LED's PWM level starts at 0 with its slice not yet enabled; other LEDs are untouched |
| LedEngine.LedController.UpdateAudioIntensity | src/LEDController.cpp:118-127 | stores the clamped intensity and takes one smoothing step |
| LedEngine.LedController.SetEffectPattern | src/LEDController.cpp:129-138 | sets the pattern and resets counter and phase; Off also turns all LEDs off |
| LedEngine.LedController.SetBrightness | src/LEDController.cpp:140-147 | every active LED's target becomes the brightness clamped to maxBrightness; inactive ones are untouched |
| LedEngine.LedController.SetLedBrightness | src/LEDController.cpp:149-157 | an index past the active LEDs changes nothing; otherwise only that LED's target is set, clamped |
| LedEngine.LedController.TurnOff | src/LEDController.cpp:159-173 | disabled; active LEDs at brightness 0; when initialised their PWM shows the off level and is disabled |
| LedEngine.LedController.TurnOn | src/LEDController.cpp:175-186 | uninitialised does nothing; otherwise enabled with every active LED's PWM slice on |
| LedEngine.LedController.Update | src/LEDController.cpp:188-210 | for fade speeds whose product fits `int32_t`: does nothing unless initialised and enabled; otherwise the time step wraps in 32 bits, the counter and phase advance, and each active LED gets its effect target, one (corrected) fade step and its PWM value |
| LedEngine.LedController.UpdateEffects | src/LEDController.cpp:212-249 | each active LED's target is the pattern's effect brightness |
| LedEngine.LedController.UpdateBrightnessSmoothing | src/LEDController.cpp:251-275 | for fade speeds whose product fits `int32_t`, each active LED takes one corrected fade step toward its target and the others are unchanged; for fade speeds up to 256 that step is the code as written |
| LedEngine.LedController.ApplyBrightness | src/LEDController.cpp:277-288 | each active LED's PWM level is its brightness, inverted when configured |
| I2sClocks.DefaultI2sConfig | include/I2S.h:41-53 | the default configuration enables the system clock |
| I2sClocks.DefaultPinsDistinct | include/I2S.h:41-53 | the default configuration drives five distinct pins |
| I2sClocks.QuantizeRatio | src/I2S.cpp:36-42 | the divider (integer part plus fraction/256) never exceeds the ratio and falls short by less than 1/256 |
| I2sClocks.PioDivider | src/I2S.cpp:34-46 | the programmed divider is the system clock over the target, rounded down to a multiple of 1/256 |
| I2sClocks.Achieved | src/I2S.cpp:45 | the achieved frequency times the divider is the system clock, and it is positive |
| I2sClocks.AchievedAtLeastTarget | src/I2S.cpp:34-46 | rounding the divider down never lowers the frequency: the achieved frequency is at least the target |
| I2sClocks.DesiredSystemClock | src/I2S.cpp:54-56 | the requested system clock is positive for positive rates and multipliers |
| I2sClocks.ActualSampleRate | src/I2S.cpp:58-64 | the achieved sample rate is at least the configured one, and exceeds it by less than the factor ratio / (ratio − 1/256), where ratio is system clock / desired system clock |
| I2sClocks.ActualRateWithinTenthPercent | src/I2S.cpp:52-64 | whenever the system-clock divider ratio is at least 4, the achieved sample rate is within 0.1% above the requested one |
| I2sClocks.BitClockFor | src/I2S.cpp:67 | the bit clock is positive for a positive bit depth |
| I2sClocks.SystemClockFor | src/I2S.cpp:68 | the system clock is positive |
| I2sClocks.PlanClocks | src/I2S.cpp:52-77 | the plan's sample rate is at least the configured one and exceeds it by less than the factor ratio / (ratio − 1/256); both clocks are positive |
| I2sClocks.PlanClockRatio | src/I2S.cpp:63-74 | system clock / bit clock = systemClockMult / (2 · bitDepth), whatever the achieved rate |
| I2sClocks.RatioNearlyIntegral | src/I2S.cpp:84-90 | for a non-negative ratio, the `modf` tolerance test passes exactly when the ratio is within 0.001 of some integer |
| I2sClocks.ClockSyncOk | src/I2S.cpp:79-91 | a zero clock never passes the sync check |
| I2sClocks.IntegralRatioAccepted | src/I2S.cpp:84-90 | an integral clock ratio passes the tolerance test |
| I2sClocks.PlanSyncIffRatio | src/I2S.cpp:79-91 | planned clocks pass the sync check exactly when systemClockMult / (2 · bitDepth) is nearly integral |
| I2sClocks.DefaultConfigSyncs | src/I2S.cpp:79-91 | the default configuration (ratio 8) always passes the sync check |
| I2sClocks.ClockState.CalculateClocks | src/I2S.cpp:52-77 | always succeeds, stores the plan and records the inputs it was planned from |
| I2sClocks.ClockState.ValidateClockSync | src/I2S.cpp:79-91 | after `calculateClocks`, passes exactly when the configured `systemClockMult / (2 · bitDepth)` is within 0.001 of an integer, whatever the system clock and PIO factors |
| I2sTransport.I2sBuffers.constructor | include/I2S.h:74-80 | the control blocks point at the start and at the second half of each buffer |
| I2sTransport.BufferLayout | include/I2S.h:62-83 | 64 frames give 128 stereo samples per half; the two halves are disjoint and cover the buffer |
| I2sTransport.FillOffset | src/I2S.cpp:322-333 | the refilled half is the second one exactly when DMA reads below the middle |
| I2sTransport.FillAvoidsReader | src/I2S.cpp:322-333 | while DMA reads inside the buffer, the handler never refills the half being read |
| I2sTransport.HandlerInputUnreadable | src/I2S.cpp:337 | the handler's null input is not something the processor as written can read |
| I2sTransport.SimpleAudioProcessor.ProcessAudio | include/I2S.h:279-284 | as written: copies the `2 · frameCount` input samples to the output and touches nothing else; the input may be the output buffer itself when the copy starts at its beginning |
| I2sTransport.SimpleAudioProcessor.ProcessAudioOrSilence | include/I2S.h:279-284 | corrected: with no input it writes silence into those samples, otherwise it copies |
| I2sTransport.SmBitIsShift | src/I2S.cpp:262 | a state machine's mask bit is `1u << sm` |
| I2sTransport.LowestFree | src/I2S.cpp:261 | `pio_claim_unused_sm` picks the lowest unclaimed state machine |
| I2sTransport.MaskSetAddsBit | src/I2S.cpp:262 | or-ing a state machine's bit into the mask adds exactly that machine to the set the mask denotes |
| I2sTransport.I2sController.constructor | src/I2S.cpp:201-218 | no processor given means a fresh `SimpleAudioProcessor`; mask 0, state machines 0 |
| I2sTransport.I2sController.SetAudioProcessor | src/I2S.cpp:305-310 | installs the processor, or a fresh `SimpleAudioProcessor` when none is given |
| I2sTransport.I2sController.ClaimStateMachine | src/I2S.cpp:261-262 | claims the lowest free state machine and records exactly it in the mask |
| I2sTransport.I2sController.ClaimDataMachines | src/I2S.cpp:271-283 | claims the input and then the output state machine: two distinct, previously free machines, both added to the mask |
| I2sTransport.I2sController.InitializeStateMachines | src/I2S.cpp:256-293 | claims two or three distinct, previously free state machines, all recorded in the mask |
| I2sTransport.I2sController.Initialize | src/I2S.cpp:225-248 | a failed sync check with the system clock enabled fails before any claim; otherwise the state machines are claimed and success is the DMA outcome; success with the system clock enabled implies the configured ratio is nearly integral |
| I2sTransport.I2sController.Start | src/I2S.cpp:295-298 | the masked state machines start together; others are unaffected |
| I2sTransport.I2sController.Stop | src/I2S.cpp:300-303 | the masked state machines stop; others keep running |
| I2sTransport.I2sController.CleanupResources | src/I2S.cpp:343-355 | stops and releases exactly the masked state machines, then clears the mask |
| I2sTransport.I2sController.ReleaseMasked | src/I2S.cpp:347-352 | the release loop unclaims exactly the machines whose bit is set |
| I2sTransport.I2sController.DmaInterruptHandler | src/I2S.cpp:312-341 | the half DMA is not reading is refilled (silence, with the corrected processor); the other half is untouched |
| AudioPlayback.ClampVolume | src/AudioController.cpp:268-273 | the volume is clamped into [0, 1] and kept when already inside |
| AudioPlayback.ScaleSample | src/AudioController.cpp:302-306 | every scaled sample fits `int16_t` |
| AudioPlayback.ScaleSampleProperties | src/AudioController.cpp:302-306 | scaled samples fit `int16_t`; full volume passes a sample through; zero volume silences it |
| AudioPlayback.ScaledRun | src/AudioController.cpp:302-306 | one scaled sample per source sample, in order |
| AudioPlayback.SumSquares | src/AudioController.cpp:340-344 | the sum of squares is non-negative |
| AudioPlayback.FilteredIntensity | src/AudioController.cpp:346-353 | the audio term adds at most 0.3 to 0.7 × the current intensity |
| AudioPlayback.FilteredIntensityInRange | src/AudioController.cpp:346-353 | the low-pass filter keeps the intensity in [0, 1] |
| AudioPlayback.FirstChannel | src/AudioController.cpp:341-342 | one first-channel sample per frame |
| AudioPlayback.FirstChannelOfFrames | src/AudioController.cpp:309-311 | reading the first channel back from frames written by the fill loop gives the scaled run |
| AudioPlayback.SlotsOrdered | src/AudioController.cpp:310 | a frame's interleaved slots lie below every later frame's |
| AudioPlayback.SlotCovers | src/AudioController.cpp:310 | every buffer index is the slot of exactly one (frame, channel) pair |
| AudioPlayback.AudioController.constructor | src/AudioController.cpp:16-32 | Stopped, volume 1, intensity 0, no data, not initialised |
| AudioPlayback.AudioController.Initialize | src/AudioController.cpp:40-156 | already initialised succeeds unchanged; otherwise success needs every set-up step in order, and records the negotiated format and the pool |
| AudioPlayback.AudioController.Shutdown | src/AudioController.cpp:158-177 | uninitialised changes nothing; otherwise the session ends as `stopAudio` leaves it (no data, size and cursor 0, intensity 0, unless it was already Stopped), the pool is dropped, and it ends uninitialised; volume and format are kept |
| AudioPlayback.AudioController.StopAudio | src/AudioController.cpp:231-246 | always true; Stopped with no data, size and cursor 0 and no intensity; no change when already Stopped |
| AudioPlayback.AudioController.PauseAudio | src/AudioController.cpp:248-256 | succeeds exactly from Playing, moving to Paused; otherwise nothing changes |
| AudioPlayback.AudioController.ResumeAudio | src/AudioController.cpp:258-266 | succeeds exactly from Paused, moving to Playing; otherwise nothing changes |
| AudioPlayback.AudioController.SetVolume | src/AudioController.cpp:268-273 | stores the clamped volume |
| AudioPlayback.AudioController.StartStreaming | src/AudioController.cpp:374-386 | Playing is entered only when initialised, with a pool, and with non-empty data loaded |
| AudioPlayback.AudioController.PlayAudio | src/AudioController.cpp:179-215 | uninitialised or a bad index fails with the session untouched; otherwise the file is loaded at cursor 0 with intensity 0.9, and Playing exactly when it has samples |
| AudioPlayback.AudioController.PlayRandomAudio | src/AudioController.cpp:217-229 | uninitialised fails unchanged; otherwise plays the asset at the index of `AudioIndex::AUDIO_00001`, failing unchanged when that index is past the registry |
| AudioPlayback.AudioController.UpdateAudioIntensity | src/AudioController.cpp:332-354 | no samples or no negotiated format give intensity 0; otherwise one low-pass step over the first channel's RMS |
| AudioPlayback.AudioController.FillAudioBuffer | src/AudioController.cpp:275-330 | not Playing: silence and 0. No samples left: silence, Stopped, 0. Otherwise min(remaining, max) scaled samples in every channel, silent tail, cursor advanced, intensity filtered over them. Always sample_count = max |
| AudioPlayback.AudioController.StreamFrames | src/AudioController.cpp:284-329 | min(remaining, max) scaled samples in every channel, silent tail, cursor advanced by that count, intensity filtered over them |
| AudioPlayback.ConvertFrames | src/AudioController.cpp:302-319 | the first frames hold the scaled source samples in every channel, the remaining frames are silence, later samples are untouched, and the first channel reads back as the scaled run |
| AudioPlayback.WriteScaledFrames | src/AudioController.cpp:302-312 | frame i holds scaled sample i in every channel; later samples are untouched |
| AudioPlayback.WriteFrame | src/AudioController.cpp:309-311 | every channel of one frame gets the same sample |
| AudioPlayback.ZeroRange | src/AudioController.cpp:314-319 | the `memset` zeroes exactly the given range |
| Motors.DividerDenominator | src/MotorController.cpp:62 | the `uint32_t` product `pwmFrequency * 65536`: a multiple of 65536, exact below 65536 Hz, and 0 for multiples of 65536 |
| Motors.ClockDivider | src/MotorController.cpp:62-64 | the PWM divider is clamped into [1, 255] |
| Motors.ClockDividerUnwrapped | src/MotorController.cpp:62-64 | below 65536 Hz nothing wraps, the divider is the clamped exact quotient, and from 954 Hz up it is 1, while 953 Hz gives 2 |
| Motors.ClockDividerSaturates | src/MotorController.cpp:62-64 | 1 Hz and 7 Hz saturate at 255; 8 Hz gives 238 |
| Motors.DutyLevel | src/MotorController.cpp:171-181 | the level is 0 at or below 0, 65535 at or above 1, and the truncated duty · 65535 between |
| Motors.DutyLevelMonotone | src/MotorController.cpp:171-181 | a larger duty cycle never gives a lower level |
| Motors.PinDuties | src/MotorController.cpp:107-119 | both duties are non-negative, at most one is non-zero, and pin 1 minus pin 2 is the clamped speed |
| Motors.PinDutiesExclusive | src/MotorController.cpp:94-119 | the two pins of a motor are never both driven, and pin 1 minus pin 2 is the clamped speed |
| Motors.Normalise | src/MotorController.cpp:140-145 | both normalised speeds lie in [-1, 1] |
| Motors.NormaliseProperties | src/MotorController.cpp:140-145 | normalised speeds lie in [-1, 1]; speeds that fit are unchanged; otherwise ratio and signs are kept and the larger magnitude becomes 1 |
| Motors.NormaliseInRange | src/MotorController.cpp:140-145 | both normalised speeds lie in [-1, 1] |
| Motors.NormaliseKeepsRatio | src/MotorController.cpp:140-145 | normalising keeps the ratio of the two speeds |
| Motors.NormaliseKeepsSigns | src/MotorController.cpp:140-145 | normalising keeps each speed's sign |
| Motors.NormaliseReachesUnit | src/MotorController.cpp:140-145 | an oversized pair is scaled so that its larger magnitude is exactly 1 |
| Motors.RawMix | src/MotorController.cpp:128-138 | the two raw speeds sum to twice the clamped throttle, differ by twice the clamped turn, and lie in [-2, 2] |
| Motors.Mix | src/MotorController.cpp:128-145 | the speeds sent to the two motors lie in [-1, 1] |
| Motors.MixInRange | src/MotorController.cpp:128-145 | the raw mix lies in [-2, 2] and the mixed speeds in [-1, 1] |
| Motors.MixStraightAndSpin | src/MotorController.cpp:128-145 | no turn drives both motors at the clamped forward speed; no forward speed spins them in opposite directions |
| Motors.MotorController.constructor | src/MotorController.cpp:7-18 | uninitialised, no levels written |
| Motors.MotorController.Initialize | src/MotorController.cpp:42-86 | already initialised succeeds unchanged; otherwise the divider is computed and it becomes initialised; the early `stopAllMotors` writes nothing |
| Motors.MotorController.SetPwmDutyCycle | src/MotorController.cpp:171-181 | writes the duty level to exactly that pin |
| Motors.MotorController.SetMotorSpeed | src/MotorController.cpp:88-120 | uninitialised does nothing; otherwise the motor's two pins get their direction duties |
| Motors.MotorController.SetDifferentialDrive | src/MotorController.cpp:122-150 | uninitialised does nothing; otherwise left then right get the mixed speeds |
| Motors.MotorController.StopAllMotors | src/MotorController.cpp:152-160 | uninitialised does nothing; otherwise the four motor pins are at level 0 |
| Gamepad.StatusFor | src/GamepadController.cpp:117-137 | the LED is solid exactly when PAIRED, blinks fast exactly on ERROR, and breathes exactly while PAIRING |
| Gamepad.StatusForDistinguishes | src/GamepadController.cpp:117-137 | no state switches the LED off, and the pattern tells states apart except INITIALIZING and CONNECTED |
| Gamepad.Discovery | src/GamepadController.cpp:186-191 | only a device whose class of device has every keyboard bit is ignored |
| Gamepad.DiscoveryIgnoresKeyboards | src/GamepadController.cpp:181-192 | when the keyboard bits are minor-class bits, a device is ignored exactly when it has all keyboard bits |
| Gamepad.DiscoveryMonotone | src/GamepadController.cpp:186 | adding class-of-device bits never un-ignores a device |
| Gamepad.DiscoveryAcceptsNonKeyboards | src/GamepadController.cpp:186-191 | a device lacking a keyboard bit is accepted |
| Gamepad.Deadzone | src/GamepadController.cpp:393-394 | a raw axis is kept or set to 0, and it is 0 exactly when its magnitude is within the deadzone of 50 |
| Gamepad.AxisValue | src/GamepadController.cpp:392-406 | an axis value lies in [-1, 1] and is 0 inside the deadzone |
| Gamepad.SteeringInputs | src/GamepadController.cpp:383-409 | throttle and steering lie in [-1, 1], and a stick inside the deadzone on both axes gives (0, 0) |
| Gamepad.AxisValueProperties | src/GamepadController.cpp:392-406 | an axis value lies in [-1, 1]; it is 0 inside the deadzone (\|v\| ≤ 50), the scaled (negated for throttle) axis up to 512, and ±1 beyond; it has the sign of the deflection |
| Gamepad.SteeringMonotone | src/GamepadController.cpp:392-406 | more stick right never lowers steering; more stick down never raises throttle |
| Gamepad.SteeringCentredAndFull | src/GamepadController.cpp:392-409 | a centred stick gives (0, 0); full up gives throttle 1 and both motors full forward |
| Gamepad.MosfetCommand | src/GamepadController.cpp:461-467 | no call exactly when Y is unchanged; otherwise the call sets the new Y state |
| Gamepad.MosfetFollowsButton | src/GamepadController.cpp:455-470 | over any sequence of reports the MOSFET ends in the last Y state, and the first call changes the output |
| Gamepad.MosfetAlternates | src/GamepadController.cpp:455-470 | successive MOSFET calls alternate: the same state is never sent twice in a row |
| Gamepad.RisingEdge | src/GamepadController.cpp:435 | playback triggers only on a press, never while A stays the same, and always when A goes from released to pressed |
| Gamepad.Triggers | src/GamepadController.cpp:429-452 | over a run of reports there are never more triggers than reports |
| Gamepad.HeldButtonTriggersOnce | src/GamepadController.cpp:429-452 | holding A over any number of reports triggers playback once |
| Gamepad.TriggersBounded | src/GamepadController.cpp:429-452 | triggers never outnumber reports, and never happen without A pressed |
| Gamepad.GamepadController.constructor | include/GamepadController.h:98-103 | uninitialised, INITIALIZING, no peripherals attached |
| Gamepad.GamepadController.Initialize | src/GamepadController.cpp:39-72 | already initialised: true, unchanged; CYW43 failure: ERROR and false; otherwise initialised, wireless LED on |
| Gamepad.GamepadController.UpdateLedStatus | src/GamepadController.cpp:117-137 | with an LED controller the LED shows the state's pattern; without one nothing changes |
| Gamepad.GamepadController.SetLedController | src/GamepadController.cpp:87-90 | attaching refreshes the LED at once |
| Gamepad.GamepadController.SetMotorController | src/GamepadController.cpp:92-99 | stores the motor controller |
| Gamepad.GamepadController.SetAudioController | src/GamepadController.cpp:101-108 | stores the audio controller |
| Gamepad.GamepadController.SetMosfetDriver | src/GamepadController.cpp:110-115 | records whether a MOSFET driver is attached |
| Gamepad.GamepadController.EnterState | src/GamepadController.cpp:174-175 | sets the state, then the LED shows its pattern |
| Gamepad.GamepadController.OnInitComplete | src/GamepadController.cpp:161-179 | wireless LED off, PAIRING, LED refreshed |
| Gamepad.GamepadController.OnDeviceConnected | src/GamepadController.cpp:194-201 | CONNECTED, LED refreshed |
| Gamepad.GamepadController.OnDeviceDisconnected | src/GamepadController.cpp:203-210 | PAIRING, LED refreshed |
| Gamepad.GamepadController.OnDeviceReady | src/GamepadController.cpp:212-222 | PAIRED, LED refreshed, device accepted |
| Gamepad.GamepadController.ProcessTankSteering | src/GamepadController.cpp:362-416 | the motor controller is left wholly unchanged when it was not initialised; otherwise only its pin levels change, to the differential drive of the normalised stick |
| Gamepad.GamepadController.ProcessAudioControls | src/GamepadController.cpp:418-453 | an uninitialised audio controller is left wholly unchanged, and A is not remembered; otherwise playback is triggered exactly on a rising edge of A and A is remembered; a trigger loads the `AUDIO_00001` asset at position 0 with Playing iff it is non-empty; without a trigger (or past the registry) the playback state is unchanged; volume, format, pool and initialisation never change |
| Gamepad.GamepadController.ProcessMosfetControls | src/GamepadController.cpp:455-470 | nothing without a driver; otherwise the Y edge's call (if any) is made and Y is remembered |
| Gamepad.GamepadController.OnControllerData | src/GamepadController.cpp:224-247 | non-gamepad reports change nothing, the audio and motor controllers included; for a gamepad report each handler's whole effect: uninitialised audio and motors are unchanged and A is then not remembered; audio volume, format, pool and initialisation are kept; playback changes only on a rising edge of A, to the `AUDIO_00001` asset; initialised motors get the stick's differential drive; the Y edge goes to an attached driver, and without one the commands and Y are kept |
| PcmHeader.Upper | tools/audio_to_pcm_header.py:45 | upper-cases ASCII lower-case letters and leaves every other character |
| PcmHeader.ReplaceInvalid | tools/audio_to_pcm_header.py:41 | each non-alphanumeric character becomes exactly one `_`; the length is kept |
| PcmHeader.Sanitize | tools/audio_to_pcm_header.py:36-45 | the name is non-empty and never starts with a digit |
| PcmHeader.SanitizeProperties | tools/audio_to_pcm_header.py:36-45 | the result has only upper-case letters, digits and `_`; it never starts with a digit; its length is the stem's plus 6 exactly when the stem starts with a digit; each stem character maps to its upper-case form or `_` |
| PcmHeader.SanitizeKeepsIdentifiers | tools/audio_to_pcm_header.py:36-45 | an upper-case identifier stem is left as it is |
| PcmHeader.NatToStringRoundTrip | tools/audio_to_pcm_header.py:164 | a value's decimal text reads back as the value |
| PcmHeader.IntToStringRoundTrip | tools/audio_to_pcm_header.py:164 | signed sample values round-trip through their decimal text |
| PcmHeader.JoinValues | tools/audio_to_pcm_header.py:164 | the joined text is empty exactly when there are no values, and otherwise ends in a digit |
| PcmHeader.Render | tools/audio_to_pcm_header.py:164-168 | a line is four spaces of indentation, the values, a comma exactly when the line is marked for one, and a newline |
| PcmHeader.EmitDataLines | tools/audio_to_pcm_header.py:161-168 | ⌈n/8⌉ lines of one to eight values that read back as `flat_data`, a comma after each line but the last |
| PcmHeader.ByteSizeAsWritten | tools/audio_to_pcm_header.py:125-126 | the written `BYTE_SIZE`: 2 or 4 bytes for each entry of the first dimension of `pcm_data` |
| PcmHeader.ByteSize | tools/audio_to_pcm_header.py:161-172 | the corrected size: 2 or 4 bytes for each emitted value of `flat_data` |
| PcmHeader.ByteSizeOfFrames | tools/audio_to_pcm_header.py:126 | for frames of k values each, the corrected size is k times the written one, so a stereo array declares half its bytes |
| PcmHeader.ByteSizeAgreesOnMono | tools/audio_to_pcm_header.py:124-126 | for one-dimensional data the written and corrected byte sizes agree |
| PcmHeader.ByteSizeAsWrittenUndercounts | tools/audio_to_pcm_header.py:126 | one stereo frame of 16-bit data is four bytes, but the written formula declares two |
| PcmHeader.PcmToHeader | tools/audio_to_pcm_header.py:99-187 | the header's data lines are well split, `SAMPLE_COUNT` is the number of values emitted, and `BYTE_SIZE` is that count times the bytes per sample |
| PcmHeader.AudioIndexEnum | tools/audio_to_pcm_header.py:239-244 | one enum entry per file, in order, named by the sanitiser and numbered by position; `COUNT` is the file count |
| PcmHeader.EnumValuesArePositions | tools/audio_to_pcm_header.py:240-244 | the enum values are exactly 0 .. COUNT−1 |
| PcmHeader.Audio00001Position | tools/audio_to_pcm_header.py:240-242 | the enum entry of the file with stem `00001` is named `AUDIO_00001` and its value is that file's position in the sorted list |
| PcmHeader.GetAudioFile | tools/audio_to_pcm_header.py:273-278 | null exactly when the index is at least `AUDIO_FILE_COUNT`, otherwise that entry |
| PcmHeader.FirstNamed | tools/audio_to_pcm_header.py:280-287 | the first position with an equal name, or none when no entry has it |
| PcmHeader.FindAudioFile | tools/audio_to_pcm_header.py:280-287 | the lookup loop returns the first entry whose name is equal, or null |

## Left out

- PIO programs, PWM and DMA register programming, GPIO set-up, `printf` logging, the Bluetooth
  stack (`uni_*`, btstack timers, `startEventLoop`, `ledUpdateTimerCallback`,
  `logControllerData`) and the audio library's producer pool and repeating timer: these are
  hardware or libraries this model cannot see. Their outcomes are parameters or recorded state.
- DMA channel claiming and release in `I2SDMA`, and the interrupt acknowledgement
  `dma_hw->ints0`: DMA set-up is one success parameter of `I2SController::initialize`.
- Concurrency: the atomics of `AudioController` and the interrupt context of the I2S handler
  are modelled as sequential calls.
- Floating point: all `float` arithmetic is exact real arithmetic. Rounding error is not
  modelled; only the explicit casts (truncation toward zero) are.
- `sqrtf`, `sin` and the `pio_mult` constants of the unseen `i2s.pio.h` are parameters.
- The Bluepad32 constants `UNI_BT_COD_MINOR_MASK` and `UNI_BT_COD_MINOR_KEYBOARD` are
  parameters. The button bits `BUTTON_A`/`BUTTON_Y` and the `klass` field are given already
  decoded, as booleans.
- `AudioPlayback.AudioController.FillAudioBuffer`:
  - requires the negotiated format to be present and the buffer to be non-null. In the source,
    the silence branch dereferences both even when they are null.
  - does not model the `uint32_t`/`size_t` widths of the buffer arithmetic.
- `AudioPlayback.AudioController.Initialize`: says nothing of the stored format when the pool
  step fails after `audio_i2s_setup` succeeded.
- `Gamepad.GamepadController.Initialize`: the status LED is not refreshed when `initialize`
  sets INITIALIZING or ERROR, as in the source.
- `LedEngine.LedController`: requires `numLEDs ≤ 4` of its methods. The source would index
  past its four-element arrays for larger counts.
- `LedEngine.LedController.UpdateBrightnessSmoothing`: applies the corrected fade `FadeStep`, so
  above fade speed 256 it does not follow the source's `uint16_t` wrap-around (Findings row 3;
  up to 256 it is the code as written). It requires a fade speed of at most 32768, because a
  larger one can overflow the `int32_t` product `diff * fadeSpeed`, undefined behaviour in C++.
- `LedEngine.LedController.Update`: the same corrected fade and fade-speed bound, through
  `UpdateBrightnessSmoothing`.
- The LED controller's PWM slice and channel numbers (`pwmSlices_`, `pwmChannels_`) are not
  modelled. Each LED's PWM state is modelled by its own level and enabled flag.
- The motor slice numbers and `pwm_set_wrap`/`pwm_set_enabled` calls are not modelled. The
  LED `initializeLEDPWM` float clock divider is not modelled.
- `Motors.ClockDivider`: requires a non-zero wrapped denominator, because frequencies that
  are multiples of 65536 divide by zero in the source.
- `I2sClocks.PlanClocks`: requires the divider ratios to be in the range where the source's
  casts are defined (below 65536). It also requires the system-clock ratio
  `systemClock / desiredSystemClock` to be at least 1/256. Below that, both casts give 0, so
  `calculatePIODivider` divides by zero (src/I2S.cpp:45) and returns an infinite frequency.
- `I2sTransport.I2sController.InitializeStateMachines`: requires enough free state machines,
  because `pio_claim_unused_sm(pio, true)` panics otherwise.
- `I2sTransport.SimpleAudioProcessor.ProcessAudio`: requires the input buffer to be a different
  array from the output, unless the copy starts at the output's beginning. A shifted copy within
  one buffer would read samples it has already overwritten. No caller in the source passes one
  buffer as both input and output.
- The `IAudioProcessor` interface is modelled by its one implementation,
  `SimpleAudioProcessor`.
- `audio_to_pcm`: librosa loading, resampling and the float-to-integer conversion are outside
  the model, which starts from the decoded PCM array. `Path.stem`/`Path.name` are given as
  strings. `str.isalnum` is taken over ASCII only.
- The file writing of `pcm_to_header` and `generate_audio_index`, and the `#include` and
  registry text, are not modelled. The model keeps the registry entries, the data lines and
  the enum.
- `PcmHeader.Sanitize`: requires a non-empty stem, because the source raises at
  `sanitized[0]` on an empty one.

## Findings

| source | as written | input that shows it | evidently intended | confidence | as-written member | corrected member |
|---|---|---|---|---|---|---|
| src/I2S.cpp:337 | the DMA handler passes `nullptr` as input to `SimpleAudioProcessor::processAudio`, which reads `input[i]` (include/I2S.h:279-284) | any DMA interrupt with the default processor | in output-only mode the processor writes silence (or its own output) without reading input | not executed | I2sTransport.HandlerInputUnreadable | I2sTransport.SimpleAudioProcessor.ProcessAudioOrSilence |
| tools/audio_to_pcm_header.py:126 | `BYTE_SIZE` is `len(pcm_data) * bytes_per_sample`, counting the rows of a two-dimensional (stereo) array | channels = 2, one frame of 16-bit data: two values, four bytes, declared 2 | `BYTE_SIZE` = `SAMPLE_COUNT` × bytes per sample, the size of the emitted array | not executed | PcmHeader.ByteSizeAsWrittenUndercounts | PcmHeader.PcmToHeader |
| src/LEDController.cpp:266-272 | `currentBrightness_[i] += step` wraps in `uint16_t` before the overshoot check, when `fadeSpeed > 256` | current 65000, target 65535, fadeSpeed 1000: result 1553 | the step stops at the target | not executed | LedEffects.FadeStepAsWrittenWraps | LedEffects.FadeStep |
