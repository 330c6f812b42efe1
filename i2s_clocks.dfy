/** Clock planning for the I2S transport (src/I2S.cpp, include/I2S.h):
    Q8 fixed-point PIO clock dividers, the rates derived from them and the
    system-clock/bit-clock synchronisation check.  Rates are exact reals;
    the PIO programs' cycles-per-bit factors live in `i2s.pio.h`, which is
    not part of this model, and are parameters here. */
module I2sClocks {
  import opened Numeric

  /** `I2SConfig`. */
  datatype I2sConfig = I2sConfig(
    sampleRate: u32,
    systemClockMult: u32,
    bitDepth: u8,
    systemClockPin: u8,
    dataOutPin: u8,
    dataInPin: u8,
    clockPinBase: u8,
    enableSystemClock: bool)

  /** `I2SConfig::getDefaultConfig`: 22.05 kHz, 256x system clock, 16-bit,
      system clock on GPIO 10, data out on 6, data in on 7, BCK/LRCK on 8/9. */
  function DefaultI2sConfig(): (c: I2sConfig)
    ensures c.enableSystemClock
  {
    I2sConfig(22050, 256, 16, 10, 6, 7, 8, true)
  }

  /** The pins a configuration drives: system clock, data out, data in, and
      the consecutive BCK and LRCK pins. */
  predicate PinsDistinct(c: I2sConfig)
  {
    var pins := [c.systemClockPin, c.dataOutPin, c.dataInPin, c.clockPinBase, c.clockPinBase + 1];
    forall i, j :: 0 <= i < j < |pins| ==> pins[i] != pins[j]
  }

  lemma DefaultPinsDistinct()
    ensures PinsDistinct(DefaultI2sConfig())
  {
    var c := DefaultI2sConfig();
    var pins := [c.systemClockPin, c.dataOutPin, c.dataInPin, c.clockPinBase, c.clockPinBase + 1];
    assert pins == [10, 6, 7, 8, 9];
  }

  // ---------------------------------------------------------------------
  // calculatePIODivider
  // ---------------------------------------------------------------------

  /** A PIO clock divider: a 16-bit integer part and an 8-bit fraction in
      units of 1/256. */
  datatype Divider = Divider(integer: u16, fraction: u8)

  /** The divisor a divider stands for. */
  function DividerValue(d: Divider): real
  {
    d.integer as real + d.fraction as real / 256.0
  }

  /** The casts `static_cast<uint16_t>(whole)` and `static_cast<uint8_t>(frac * 256)`
      are defined only when the ratio's integer part fits 16 bits. */
  predicate RatioFits(ratio: real)
  {
    0.0 <= ratio < 65536.0
  }

  /** The divider for a clock ratio: `modf` splits off the integer part, and
      the fractional part is scaled by 256 and truncated.  The divider never
      exceeds the ratio and falls short of it by less than 1/256. */
  function QuantizeRatio(ratio: real): (d: Divider)
    requires RatioFits(ratio)
    ensures DividerValue(d) <= ratio < DividerValue(d) + 1.0 / 256.0
  {
    var whole := Trunc(ratio);
    var frac := ratio - whole as real;
    var q := Trunc(frac * 256.0);
    Divider(whole, q)
  }

  /** The divider `calculatePIODivider` programs for a target frequency. */
  function PioDivider(systemClock: real, target: real): (d: Divider)
    requires systemClock > 0.0 && target > 0.0
    requires RatioFits(systemClock / target)
    ensures DividerValue(d) <= systemClock / target < DividerValue(d) + 1.0 / 256.0
  {
    QuantizeRatio(systemClock / target)
  }

  /** The frequency a divider yields: `systemClock / (divider + fraction/256)`.
      A divider of zero has no finite frequency, so it is excluded. */
  function Achieved(systemClock: real, d: Divider): (r: real)
    requires DividerValue(d) > 0.0
    ensures r * DividerValue(d) == systemClock
    ensures systemClock > 0.0 ==> r > 0.0
  {
    systemClock / DividerValue(d)
  }

  lemma DividerPositive(ratio: real)
    requires RatioFits(ratio) && ratio >= 1.0 / 256.0
    ensures DividerValue(QuantizeRatio(ratio)) > 0.0
  {
    var d := QuantizeRatio(ratio);
    if d.integer == 0 {
      assert ratio < 1.0;
      assert Trunc(ratio * 256.0) >= 1;
    }
  }

  /** Rounding the divider down never slows the clock: the achieved
      frequency is at least the target, for every ratio from 1/256 up. */
  lemma AchievedAtLeastTarget(systemClock: real, target: real)
    requires systemClock > 0.0 && target > 0.0
    requires RatioFits(systemClock / target) && systemClock / target >= 1.0 / 256.0
    ensures DividerValue(PioDivider(systemClock, target)) > 0.0
    ensures Achieved(systemClock, PioDivider(systemClock, target)) >= target
  {
    var ratio := systemClock / target;
    DividerPositive(ratio);
    var q := DividerValue(QuantizeRatio(ratio));
    QuotientTimesDivisor(systemClock, target);
    MulMonotoneReal(target, q, ratio);
    DivLower(systemClock, q, target);
  }

  lemma QuotientTimesDivisor(x: real, y: real)
    requires y > 0.0
    ensures y * (x / y) == x
  {
  }

  lemma MulMonotoneReal(d: real, a: real, b: real)
    requires d >= 0.0 && a <= b
    ensures d * a <= d * b
  {
  }

  lemma PositiveQuotient(x: real, y: real)
    requires x > 0.0 && y > 0.0
    ensures x / y > 0.0
  {
  }

  lemma PositiveProduct(x: real, y: real)
    ensures x > 0.0 && y > 0.0 ==> x * y > 0.0
  {
  }

  // ---------------------------------------------------------------------
  // I2SClocks::calculateClocks
  // ---------------------------------------------------------------------

  /** The system clock `calculateClocks` asks for: sample rate times the
      system-clock multiplier times the system-clock program's cycles per
      output cycle. */
  function DesiredSystemClock(c: I2sConfig, sckPioMult: real): (r: real)
    ensures c.sampleRate > 0 && c.systemClockMult > 0 && sckPioMult > 0.0 ==> r > 0.0
  {
    PositiveProduct(c.sampleRate as real, c.systemClockMult as real);
    PositiveProduct(c.sampleRate as real * c.systemClockMult as real, sckPioMult);
    c.sampleRate as real * c.systemClockMult as real * sckPioMult
  }

  /** What `calculateClocks` needs of its inputs for every conversion it
      performs to be defined: positive rates, multipliers and bit depth, and
      both divider ratios within the PIO divider's range (at least 1/256, so
      the achieved frequency is finite, and below 65536). */
  predicate PlanFeasible(c: I2sConfig, systemClock: real, sckPioMult: real, outPioMult: real)
  {
    systemClock > 0.0 && sckPioMult > 0.0 && outPioMult > 0.0
    && c.sampleRate > 0 && c.systemClockMult > 0 && c.bitDepth > 0
    && var desired := DesiredSystemClock(c, sckPioMult);
    RatioFits(systemClock / desired) && systemClock / desired >= 1.0 / 256.0
    && BitTarget(c, systemClock, sckPioMult, outPioMult) > 0.0
    && RatioFits(systemClock / BitTarget(c, systemClock, sckPioMult, outPioMult))
  }

  /** The frequency the output program's divider is planned for. */
  function BitTarget(c: I2sConfig, systemClock: real, sckPioMult: real, outPioMult: real): real
    requires systemClock > 0.0 && sckPioMult > 0.0 && c.sampleRate > 0 && c.systemClockMult > 0
    requires RatioFits(systemClock / DesiredSystemClock(c, sckPioMult))
    requires systemClock / DesiredSystemClock(c, sckPioMult) >= 1.0 / 256.0
  {
    BitClockFor(c, systemClock, sckPioMult) * outPioMult
  }

  /** The sample rate the quantised system-clock divider actually yields. */
  function ActualSampleRate(c: I2sConfig, systemClock: real, sckPioMult: real): (r: real)
    requires systemClock > 0.0 && sckPioMult > 0.0 && c.sampleRate > 0 && c.systemClockMult > 0
    requires RatioFits(systemClock / DesiredSystemClock(c, sckPioMult))
    requires systemClock / DesiredSystemClock(c, sckPioMult) >= 1.0 / 256.0
    ensures r >= c.sampleRate as real
    ensures var ratio := systemClock / DesiredSystemClock(c, sckPioMult);
      r * (ratio - 1.0 / 256.0) < c.sampleRate as real * ratio
  {
    var desired := DesiredSystemClock(c, sckPioMult);
    AchievedAtLeastTarget(systemClock, desired);
    var achieved := Achieved(systemClock, PioDivider(systemClock, desired));
    var denom := c.systemClockMult as real * sckPioMult;
    PositiveProduct(c.systemClockMult as real, sckPioMult);
    Associate(c.sampleRate as real, c.systemClockMult as real, sckPioMult);
    DivLower(achieved, denom, c.sampleRate as real);
    RateBracket(systemClock, desired, c.sampleRate as real, denom,
                DividerValue(PioDivider(systemClock, desired)));
    achieved / denom
  }

  /** The divider falls short of the ratio by less than 1/256, so the rate
      it yields exceeds the requested one by at most the factor
      `ratio / (ratio - 1/256)`. */
  lemma RateBracket(sys: real, desired: real, rate: real, denom: real, q: real)
    requires sys > 0.0 && rate > 0.0 && denom > 0.0 && desired == rate * denom
    requires q > 0.0 && q <= sys / desired < q + 1.0 / 256.0
    ensures sys / q / denom * (sys / desired - 1.0 / 256.0) < rate * (sys / desired)
  {
    var ratio := sys / desired;
    var a := sys / q / denom;
    assert a * denom * q == sys;
    assert ratio * rate * denom == sys;
    assert a * q == ratio * rate by {
      CancelFactor(a * q, ratio * rate, denom);
    }
    assert a > 0.0;
    MulStrict(a, ratio - 1.0 / 256.0, q);
  }

  lemma CancelFactor(x: real, y: real, k: real)
    requires k > 0.0 && x * k == y * k
    ensures x == y
  {
  }

  lemma MulStrict(d: real, a: real, b: real)
    requires d > 0.0 && a < b
    ensures d * a < d * b
  {
  }

  /** The design's accuracy promise: whenever the system-clock divider
      ratio is at least 4, the achieved sample rate is within 0.1% above
      the requested one. */
  lemma ActualRateWithinTenthPercent(c: I2sConfig, systemClock: real, sckPioMult: real)
    requires systemClock > 0.0 && sckPioMult > 0.0 && c.sampleRate > 0 && c.systemClockMult > 0
    requires RatioFits(systemClock / DesiredSystemClock(c, sckPioMult))
    requires systemClock / DesiredSystemClock(c, sckPioMult) >= 4.0
    ensures c.sampleRate as real <= ActualSampleRate(c, systemClock, sckPioMult) < 1.001 * c.sampleRate as real
  {
    TenthPercent(ActualSampleRate(c, systemClock, sckPioMult), c.sampleRate as real,
                 systemClock / DesiredSystemClock(c, sckPioMult));
  }

  /** `r * (ratio - 1/256) < s * ratio` with `ratio >= 4` leaves `r` less
      than 0.1% above `s`, since 4 exceeds `1.001 / 0.256`. */
  lemma TenthPercent(r: real, s: real, ratio: real)
    requires s > 0.0 && ratio >= 4.0 && r * (ratio - 1.0 / 256.0) < s * ratio
    ensures r < 1.001 * s
  {
    var k := ratio - 1.0 / 256.0;
    assert ratio <= 1.001 * k;
    MulMonotoneReal(s, ratio, 1.001 * k);
    assert r * k < (1.001 * s) * k;
    DivideOut(r, 1.001 * s, k);
  }

  lemma DivideOut(x: real, y: real, k: real)
    requires k > 0.0 && x * k < y * k
    ensures x < y
  {
  }

  lemma Associate(a: real, b: real, c: real)
    ensures a * b * c == a * (b * c)
  {
  }

  /** The bit clock derived from the actual sample rate: two channels of
      `bitDepth` bits per frame. */
  function BitClockFor(c: I2sConfig, systemClock: real, sckPioMult: real): (r: real)
    requires systemClock > 0.0 && sckPioMult > 0.0 && c.sampleRate > 0 && c.systemClockMult > 0
    requires RatioFits(systemClock / DesiredSystemClock(c, sckPioMult))
    requires systemClock / DesiredSystemClock(c, sckPioMult) >= 1.0 / 256.0
    ensures c.bitDepth > 0 ==> r > 0.0
  {
    var actual := ActualSampleRate(c, systemClock, sckPioMult);
    PositiveProduct(actual, c.bitDepth as real);
    actual * c.bitDepth as real * 2.0
  }

  /** The system clock derived from the actual sample rate. */
  function SystemClockFor(c: I2sConfig, systemClock: real, sckPioMult: real): (r: real)
    requires systemClock > 0.0 && sckPioMult > 0.0 && c.sampleRate > 0 && c.systemClockMult > 0
    requires RatioFits(systemClock / DesiredSystemClock(c, sckPioMult))
    requires systemClock / DesiredSystemClock(c, sckPioMult) >= 1.0 / 256.0
    ensures r > 0.0
  {
    var actual := ActualSampleRate(c, systemClock, sckPioMult);
    PositiveProduct(actual, c.systemClockMult as real);
    actual * c.systemClockMult as real
  }

  /** The result of clock planning. */
  datatype ClockPlan = ClockPlan(
    systemDivider: Divider,
    bitDivider: Divider,
    actualSampleRate: real,
    systemClockHz: real,
    bitClockHz: real)

  /** `calculateClocks`: the system-clock divider for the desired system
      clock, the sample rate it actually yields, the system and bit clocks
      derived from that rate, and the bit-clock divider for the output
      program. */
  function PlanClocks(c: I2sConfig, systemClock: real, sckPioMult: real, outPioMult: real): (p: ClockPlan)
    requires PlanFeasible(c, systemClock, sckPioMult, outPioMult)
    ensures p.actualSampleRate >= c.sampleRate as real
    ensures var ratio := systemClock / DesiredSystemClock(c, sckPioMult);
      p.actualSampleRate * (ratio - 1.0 / 256.0) < c.sampleRate as real * ratio
    ensures p.systemClockHz > 0.0 && p.bitClockHz > 0.0
  {
    var bitClock := BitClockFor(c, systemClock, sckPioMult);
    ClockPlan(
      PioDivider(systemClock, DesiredSystemClock(c, sckPioMult)),
      PioDivider(systemClock, BitTarget(c, systemClock, sckPioMult, outPioMult)),
      ActualSampleRate(c, systemClock, sckPioMult),
      SystemClockFor(c, systemClock, sckPioMult),
      bitClock)
  }

  /** The system clock runs at `systemClockMult / (2 * bitDepth)` bit clocks,
      whatever the achieved sample rate. */
  lemma PlanClockRatio(c: I2sConfig, systemClock: real, sckPioMult: real, outPioMult: real)
    requires PlanFeasible(c, systemClock, sckPioMult, outPioMult)
    ensures var p := PlanClocks(c, systemClock, sckPioMult, outPioMult);
      p.systemClockHz / p.bitClockHz == c.systemClockMult as real / (2.0 * c.bitDepth as real)
  {
    var p := PlanClocks(c, systemClock, sckPioMult, outPioMult);
    PlanFields(c, systemClock, sckPioMult, outPioMult);
    RatioFromCross(p.systemClockHz, p.bitClockHz, c.systemClockMult as real, 2.0 * c.bitDepth as real);
  }

  /** Both planned clocks are multiples of the achieved sample rate, so they
      stand in the ratio `systemClockMult : 2 * bitDepth`. */
  lemma PlanFields(c: I2sConfig, systemClock: real, sckPioMult: real, outPioMult: real)
    requires PlanFeasible(c, systemClock, sckPioMult, outPioMult)
    ensures var p := PlanClocks(c, systemClock, sckPioMult, outPioMult);
      p.systemClockHz * (2.0 * c.bitDepth as real) == p.bitClockHz * c.systemClockMult as real
  {
    var a := ActualSampleRate(c, systemClock, sckPioMult);
    CrossProducts(a, c.systemClockMult as real, c.bitDepth as real);
  }

  lemma CrossProducts(a: real, m: real, b: real)
    ensures (a * m) * (2.0 * b) == (a * b * 2.0) * m
  {
  }

  lemma RatioFromCross(x: real, y: real, m: real, d: real)
    requires y != 0.0 && d != 0.0 && x * d == y * m
    ensures x / y == m / d
  {
    assert x / y == (x * d) / (y * d);
    assert (y * m) / (y * d) == m / d;
  }

  // ---------------------------------------------------------------------
  // I2SClocks::validateClockSync
  // ---------------------------------------------------------------------

  /** The tolerance test on a clock ratio: `modf`'s fractional part (which
      keeps the ratio's sign) lies within 0.001 of 0 or of 1. */
  predicate RatioNearlyIntegral(ratio: real): (ok: bool)
    ensures ratio >= 0.0 ==> (ok <==> exists k: int :: NearInteger(ratio, k))
  {
    NearestIntegers(ratio);
    var frac := ratio - Trunc(ratio) as real;
    AbsReal(frac) < 0.001 || AbsReal(frac - 1.0) < 0.001
  }

  /** The ratio is less than 0.001 away from the integer `k`. */
  predicate NearInteger(ratio: real, k: int)
  {
    AbsReal(ratio - k as real) < 0.001
  }

  /** A non-negative ratio can only be near its integer part or the next
      integer up. */
  lemma NearestIntegers(ratio: real)
    ensures ratio >= 0.0 ==>
      ((exists k: int :: NearInteger(ratio, k))
       <==> NearInteger(ratio, Trunc(ratio)) || NearInteger(ratio, Trunc(ratio) + 1))
  {
    if ratio >= 0.0 {
      var t := Trunc(ratio);
      forall k: int | NearInteger(ratio, k)
        ensures k == t || k == t + 1
      {
        assert t - 1 < k < t + 2;
      }
    }
  }

  /** `validateClockSync`: a zero clock fails; otherwise the system clock
      must be (nearly) an integer multiple of the bit clock. */
  predicate ClockSyncOk(systemClockHz: real, bitClockHz: real): (ok: bool)
    ensures ok ==> systemClockHz != 0.0 && bitClockHz != 0.0
  {
    if systemClockHz == 0.0 || bitClockHz == 0.0 then false
    else RatioNearlyIntegral(systemClockHz / bitClockHz)
  }

  /** An integral ratio passes the tolerance test. */
  lemma IntegralRatioAccepted(k: int)
    ensures RatioNearlyIntegral(k as real)
  {
    assert Trunc(k as real) == k;
  }

  /** Whether planned clocks pass the sync check depends only on the
      configured multiplier and bit depth. */
  lemma PlanSyncIffRatio(c: I2sConfig, systemClock: real, sckPioMult: real, outPioMult: real)
    requires PlanFeasible(c, systemClock, sckPioMult, outPioMult)
    ensures var p := PlanClocks(c, systemClock, sckPioMult, outPioMult);
      ClockSyncOk(p.systemClockHz, p.bitClockHz)
      <==> RatioNearlyIntegral(c.systemClockMult as real / (2.0 * c.bitDepth as real))
  {
    PlanClockRatio(c, systemClock, sckPioMult, outPioMult);
  }

  /** The default configuration's ratio is 256 / (2 * 16) = 8, so its
      planned clocks always pass the sync check. */
  lemma DefaultConfigSyncs(systemClock: real, sckPioMult: real, outPioMult: real)
    requires PlanFeasible(DefaultI2sConfig(), systemClock, sckPioMult, outPioMult)
    ensures var p := PlanClocks(DefaultI2sConfig(), systemClock, sckPioMult, outPioMult);
      ClockSyncOk(p.systemClockHz, p.bitClockHz)
  {
    var c := DefaultI2sConfig();
    PlanSyncIffRatio(c, systemClock, sckPioMult, outPioMult);
    assert c.systemClockMult as real / (2.0 * c.bitDepth as real) == 8 as real;
    IntegralRatioAccepted(8);
  }

  /** The inputs a clock plan is computed from. */
  datatype PlanInputs = PlanInputs(config: I2sConfig, systemClock: real, sckPioMult: real, outPioMult: real)

  /** `I2SClocks`: the planned dividers and rates, assigned by
      `calculateClocks`. */
  class ClockState {
    var actualSampleRate: real
    var systemClockHz: real
    var bitClockHz: real
    var systemClockDivider: u16
    var systemClockFraction: u8
    var bitClockDivider: u16
    var bitClockFraction: u8
    /** The inputs of the last `calculateClocks`, none before the first. */
    ghost var plannedFrom: Option<PlanInputs>

    /** The stored clocks are the plan of the recorded, feasible inputs. */
    ghost predicate Planned()
      reads this
    {
      plannedFrom.Some?
      && var i := plannedFrom.value;
      PlanFeasible(i.config, i.systemClock, i.sckPioMult, i.outPioMult)
      && Plan() == PlanClocks(i.config, i.systemClock, i.sckPioMult, i.outPioMult)
    }

    constructor ()
      ensures systemClockHz == 0.0 && bitClockHz == 0.0 && actualSampleRate == 0.0
      ensures plannedFrom == None
    {
      actualSampleRate := 0.0;
      systemClockHz := 0.0;
      bitClockHz := 0.0;
      systemClockDivider := 0;
      systemClockFraction := 0;
      bitClockDivider := 0;
      bitClockFraction := 0;
      plannedFrom := None;
    }

    /** `calculateClocks` always succeeds and stores the plan. */
    method CalculateClocks(c: I2sConfig, systemClock: real, sckPioMult: real, outPioMult: real)
      returns (ok: bool)
      requires PlanFeasible(c, systemClock, sckPioMult, outPioMult)
      modifies this
      ensures ok
      ensures Plan() == PlanClocks(c, systemClock, sckPioMult, outPioMult)
      ensures plannedFrom == Some(PlanInputs(c, systemClock, sckPioMult, outPioMult)) && Planned()
    {
      var p := PlanClocks(c, systemClock, sckPioMult, outPioMult);
      systemClockDivider := p.systemDivider.integer;
      systemClockFraction := p.systemDivider.fraction;
      actualSampleRate := p.actualSampleRate;
      bitClockHz := p.bitClockHz;
      systemClockHz := p.systemClockHz;
      bitClockDivider := p.bitDivider.integer;
      bitClockFraction := p.bitDivider.fraction;
      plannedFrom := Some(PlanInputs(c, systemClock, sckPioMult, outPioMult));
      ok := true;
    }

    /** The stored fields, read back as a plan. */
    function Plan(): ClockPlan
      reads this
    {
      ClockPlan(Divider(systemClockDivider, systemClockFraction),
                Divider(bitClockDivider, bitClockFraction),
                actualSampleRate, systemClockHz, bitClockHz)
    }

    /** `validateClockSync` on the stored clocks: before any plan it fails
        (both clocks are 0); after `calculateClocks` it passes exactly when
        the configured `systemClockMult / (2 * bitDepth)` is within the
        tolerance of an integer, whatever the system clock and PIO
        factors. */
    method ValidateClockSync() returns (ok: bool)
      ensures ok <==> ClockSyncOk(systemClockHz, bitClockHz)
      ensures Planned() ==>
        var c := plannedFrom.value.config;
        ok <==> RatioNearlyIntegral(c.systemClockMult as real / (2.0 * c.bitDepth as real))
    {
      ok := ClockSyncOk(systemClockHz, bitClockHz);
      if Planned() {
        ghost var i := plannedFrom.value;
        PlanSyncIffRatio(i.config, i.systemClock, i.sckPioMult, i.outPioMult);
      }
    }
  }
}
