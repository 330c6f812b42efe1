/** The LED controller's configuration record and effect patterns
    (include/LEDController.h). */
module LedConfig {
  import opened Numeric

  /** Effect patterns, in declaration order. */
  datatype EffectPattern = Pulse | Alternate | Wave | Breathe | Off

  /** Up to four PWM-driven LEDs; `numLEDs` of the four pins are active. */
  datatype Config = Config(
    ledPins: seq<u8>,
    numLEDs: u8,
    pwmFrequency: nat,
    maxBrightness: u16,
    minBrightness: u16,
    fadeSpeed: u16,
    invertOutput: bool)

  /** `Config::getDefaultConfig`: two LEDs on GPIO 11..14, 1 kHz PWM,
      brightness 1000..65535, fade speed 8, normal polarity. */
  function DefaultConfig(): (c: Config)
    ensures |c.ledPins| == 4
  {
    Config([11, 12, 13, 14], 2, 1000, 65535, 1000, 8, false)
  }

  /** The configuration check `initialize` performs before touching PWM. */
  predicate LedCountAccepted(c: Config)
  {
    !(c.numLEDs == 0 || c.numLEDs > 4)
  }

  /** The default configuration is accepted by `initialize`, has its brightness
      bounds ordered, and keeps the fade product within 32-bit range. */
  lemma DefaultConfigAccepted()
    ensures LedCountAccepted(DefaultConfig())
    ensures 1 <= DefaultConfig().numLEDs <= 4
    ensures DefaultConfig().minBrightness <= DefaultConfig().maxBrightness
    ensures DefaultConfig().fadeSpeed <= 256
  {
  }
}
