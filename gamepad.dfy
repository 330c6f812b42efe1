/** The Bluetooth gamepad glue of src/GamepadController.cpp: the connection
    state machine driven by the Bluepad32 platform callbacks, the status LED
    pattern for each state, the class-of-device filter, tank steering from
    the left stick, and the edge detectors on buttons A and Y.

    The Bluetooth stack is abstracted away: each callback is a method, the
    outcome of `cyw43_arch_init` is a parameter, and a gamepad report is
    given as its decoded inputs (button A, button Y, the two left-stick
    axes).  The LED status controller and the MOSFET driver have no
    implementation in the repository, so they are modelled by what is sent
    to them: the last status pattern and the list of `set` calls. */
module Gamepad {
  import opened Numeric
  import opened Motors
  import opened AudioPlayback

  datatype BluetoothState = Initializing | Pairing | Connected | Paired | Error

  /** The patterns of the LED status controller (include/SimpleLED.h). */
  datatype LedStatus = Off | On | Breathing | FastBlink | SlowBlink

  datatype DiscoveryResult = Success | IgnoreDevice

  // ---------------------------------------------------------------------
  // Status LED
  // ---------------------------------------------------------------------

  /** The pattern `updateLEDStatus` shows for a connection state. */
  function StatusFor(state: BluetoothState): (r: LedStatus)
    ensures r == On <==> state == Paired
    ensures r == FastBlink <==> state == Error
    ensures r == Breathing <==> state == Pairing
  {
    match state
    case Initializing => SlowBlink
    case Pairing => Breathing
    case Connected => SlowBlink
    case Paired => On
    case Error => FastBlink
  }

  /** The pattern tells the states apart, except that starting up and a
      connected-but-not-ready device both blink slowly; the LED is never
      switched off by a state. */
  lemma StatusForDistinguishes(s: BluetoothState, t: BluetoothState)
    ensures StatusFor(s) != Off
    ensures StatusFor(s) == StatusFor(t) <==>
      s == t || (s in {Initializing, Connected} && t in {Initializing, Connected})
  {
  }

  // ---------------------------------------------------------------------
  // Device discovery
  // ---------------------------------------------------------------------

  /** `platformOnDeviceDiscovered`: a device is ignored exactly when the
      minor-class bits of its class of device contain every keyboard bit.
      The two Bluepad32 constants (`UNI_BT_COD_MINOR_MASK`,
      `UNI_BT_COD_MINOR_KEYBOARD`) are parameters. */
  function Discovery(cod: bv16, minorMask: bv16, keyboard: bv16): (r: DiscoveryResult)
    ensures r == IgnoreDevice ==> cod & keyboard == keyboard
  {
    if (cod & minorMask) & keyboard == keyboard then IgnoreDevice else Success
  }

  /** When the keyboard bits are minor-class bits, the mask is redundant: a
      device is ignored iff its class of device has all keyboard bits. */
  lemma DiscoveryIgnoresKeyboards(cod: bv16, minorMask: bv16, keyboard: bv16)
    requires keyboard & minorMask == keyboard
    ensures Discovery(cod, minorMask, keyboard) == IgnoreDevice <==> cod & keyboard == keyboard
  {
    MaskRedundant(cod, minorMask, keyboard);
  }

  lemma MaskRedundant(cod: bv16, minorMask: bv16, keyboard: bv16)
    requires keyboard & minorMask == keyboard
    ensures (cod & minorMask) & keyboard == cod & keyboard
  {
  }

  /** Setting more bits in the class of device never turns an ignored
      device into an accepted one. */
  lemma DiscoveryMonotone(cod: bv16, extra: bv16, minorMask: bv16, keyboard: bv16)
    requires Discovery(cod, minorMask, keyboard) == IgnoreDevice
    ensures Discovery(cod | extra, minorMask, keyboard) == IgnoreDevice
  {
    assert ((cod | extra) & minorMask) & keyboard
        == ((cod & minorMask) & keyboard) | ((extra & minorMask) & keyboard);
  }

  /** A device lacking one of the keyboard bits is accepted. */
  lemma DiscoveryAcceptsNonKeyboards(cod: bv16, minorMask: bv16, keyboard: bv16)
    requires cod & keyboard != keyboard
    ensures Discovery(cod, minorMask, keyboard) == Success
  {
    assert ((cod & minorMask) & keyboard) & cod == (cod & minorMask) & keyboard;
  }

  // ---------------------------------------------------------------------
  // Tank steering
  // ---------------------------------------------------------------------

  /** The stick deadzone: axis values with magnitude at most 50 read as 0. */
  const DEADZONE: nat := 50
  /** Axis values are scaled by 1/512 (exact in single precision). */
  const AXIS_SCALE: real := 1.0 / 512.0

  function Deadzone(v: i16): (r: i16)
    ensures r == 0 || r == v
    ensures r == 0 <==> Abs(v) <= DEADZONE
  {
    if Abs(v) > DEADZONE then v else 0
  }

  /** One normalised stick axis: deadzone, scale, optional negation, clamp
      into [-1, 1].  The throttle is the negated Y axis. */
  function AxisValue(v: i16, negate: bool): (a: real)
    ensures -1.0 <= a <= 1.0
    ensures Abs(v) <= DEADZONE ==> a == 0.0
  {
    var scaled := Deadzone(v) as real * AXIS_SCALE;
    ConstrainReal(if negate then -scaled else scaled, -1.0, 1.0)
  }

  /** The (throttle, steering) pair `processTankSteering` passes to
      `setDifferentialDrive` for left-stick axes `axisX`, `axisY`. */
  function SteeringInputs(axisX: i16, axisY: i16): (ts: (real, real))
    ensures -1.0 <= ts.0 <= 1.0 && -1.0 <= ts.1 <= 1.0
    ensures Abs(axisX) <= DEADZONE && Abs(axisY) <= DEADZONE ==> ts == (0.0, 0.0)
  {
    (AxisValue(axisY, true), AxisValue(axisX, false))
  }

  /** Each axis value lies in [-1, 1]; is 0 inside the deadzone; is the
      scaled (and, for the throttle, negated) axis between the deadzone and
      full deflection; saturates beyond 512; and has the sign of the
      (negated) deflection. */
  lemma AxisValueProperties(v: i16, negate: bool)
    ensures var a := AxisValue(v, negate);
      && -1.0 <= a <= 1.0
      && (Abs(v) <= DEADZONE ==> a == 0.0)
      && (DEADZONE < Abs(v) <= 512 ==> a == (if negate then -(v as real) else v as real) / 512.0)
      && (v >= 512 ==> a == (if negate then -1.0 else 1.0))
      && (v <= -512 ==> a == (if negate then 1.0 else -1.0))
      && (a > 0.0 <==> (if negate then v < -(DEADZONE as int) else v > DEADZONE as int))
  {
  }

  /** Pushing the stick further right never lowers the steering, and pushing
      it further down never raises the throttle. */
  lemma SteeringMonotone(x1: i16, x2: i16, y1: i16, y2: i16)
    requires x1 <= x2 && y1 <= y2
    ensures SteeringInputs(x1, y1).1 <= SteeringInputs(x2, y2).1
    ensures SteeringInputs(x2, y2).0 <= SteeringInputs(x1, y1).0
  {
    DeadzoneMonotone(x1, x2);
    DeadzoneMonotone(y1, y2);
  }

  lemma DeadzoneMonotone(a: i16, b: i16)
    requires a <= b
    ensures Deadzone(a) <= Deadzone(b)
  {
  }

  /** A centred stick stops both motors; straight up drives both forward at
      full speed. */
  lemma SteeringCentredAndFull()
    ensures SteeringInputs(0, 0) == (0.0, 0.0)
    ensures SteeringInputs(0, -512) == (1.0, 0.0)
    ensures Mix(SteeringInputs(0, -512).0, SteeringInputs(0, -512).1) == (1.0, 1.0)
  {
    assert SteeringInputs(0, -512) == (1.0, 0.0);
    MixStraightAndSpin(1.0, 0.0);
  }

  // ---------------------------------------------------------------------
  // Button edges
  // ---------------------------------------------------------------------

  /** The command `processMosfetControls` sends for button Y going from
      `previous` to `current`: on when pressed, off when released, none
      while unchanged. */
  function MosfetCommand(previous: bool, current: bool): (c: Option<bool>)
    ensures c.None? <==> previous == current
    ensures c.Some? ==> c.value == current
  {
    if current && !previous then Some(true)
    else if !current && previous then Some(false)
    else None
  }

  /** The `set` calls a command makes: one or none. */
  function CommandList(c: Option<bool>): seq<bool>
  {
    if c.Some? then [c.value] else []
  }

  /** The `set` calls made for a sequence of Y readings starting from
      `previous`. */
  function MosfetTrace(previous: bool, ys: seq<bool>): seq<bool>
    decreases |ys|
  {
    if |ys| == 0 then []
    else
      var c := MosfetCommand(previous, ys[0]);
      CommandList(c) + MosfetTrace(ys[0], ys[1..])
  }

  /** The output state after a list of `set` calls. */
  function Settled(initial: bool, commands: seq<bool>): bool
  {
    if |commands| == 0 then initial else commands[|commands| - 1]
  }

  /** The MOSFET follows the button: starting from a driver whose output
      matches the remembered Y state, after any sequence of readings it
      matches the last reading, and the first command differs from the
      starting state. */
  lemma {:induction false} MosfetFollowsButton(previous: bool, ys: seq<bool>)
    ensures Settled(previous, MosfetTrace(previous, ys)) == (if |ys| == 0 then previous else ys[|ys| - 1])
    ensures var t := MosfetTrace(previous, ys);
      |t| > 0 ==> t[0] != previous
    decreases |ys|
  {
    if |ys| > 0 {
      MosfetFollowsButton(ys[0], ys[1..]);
      var head := CommandList(MosfetCommand(previous, ys[0]));
      var rest := MosfetTrace(ys[0], ys[1..]);
      assert MosfetTrace(previous, ys) == head + rest;
      if |ys| > 1 {
        assert ys[1..][|ys[1..]| - 1] == ys[|ys| - 1];
      }
    }
  }

  /** Successive `set` calls alternate: the driver is never told the same
      state twice in a row. */
  lemma {:induction false} MosfetAlternates(previous: bool, ys: seq<bool>)
    ensures var t := MosfetTrace(previous, ys);
      forall k :: 0 <= k < |t| - 1 ==> t[k] != t[k + 1]
    decreases |ys|
  {
    if |ys| > 0 {
      MosfetAlternates(ys[0], ys[1..]);
      MosfetFollowsButton(ys[0], ys[1..]);
      var head := CommandList(MosfetCommand(previous, ys[0]));
      var rest := MosfetTrace(ys[0], ys[1..]);
      var t := head + rest;
      assert MosfetTrace(previous, ys) == t;
      forall k | 0 <= k < |t| - 1
        ensures t[k] != t[k + 1]
      {
        if |head| == 1 && k == 0 {
          assert t[1] == rest[0];
        } else {
          assert t[k] == rest[k - |head|] && t[k + 1] == rest[k + 1 - |head|];
        }
      }
    }
  }

  /** Whether `processAudioControls` triggers playback for button A going
      from `previous` to `current`. */
  function RisingEdge(previous: bool, current: bool): (r: bool)
    ensures r ==> current
    ensures previous == current ==> !r
    ensures !previous && current ==> r
  {
    current && !previous
  }

  /** The number of playback triggers for a sequence of A readings. */
  function Triggers(previous: bool, readings: seq<bool>): (r: nat)
    ensures r <= |readings|
    decreases |readings|
  {
    if |readings| == 0 then 0
    else (if RisingEdge(previous, readings[0]) then 1 else 0) + Triggers(readings[0], readings[1..])
  }

  /** Holding A down triggers playback once, however many reports arrive
      while it is held. */
  lemma {:induction false} HeldButtonTriggersOnce(previous: bool, n: nat)
    ensures Triggers(previous, seq(n, _ => true)) == (if n > 0 && !previous then 1 else 0)
    decreases n
  {
    if n > 0 {
      var held := seq(n, _ => true);
      assert held[1..] == seq(n - 1, _ => true);
      HeldButtonTriggersOnce(true, n - 1);
    }
  }

  /** Each trigger needs a report with A pressed, so there are never more
      triggers than such reports. */
  lemma {:induction false} TriggersBounded(previous: bool, readings: seq<bool>)
    ensures Triggers(previous, readings) <= |readings|
    ensures (forall k :: 0 <= k < |readings| ==> !readings[k]) ==> Triggers(previous, readings) == 0
    decreases |readings|
  {
    if |readings| > 0 {
      TriggersBounded(readings[0], readings[1..]);
      assert forall k :: 0 <= k < |readings[1..]| ==> readings[1..][k] == readings[k + 1];
    }
  }

  // ---------------------------------------------------------------------
  // The controller
  // ---------------------------------------------------------------------

  class GamepadController {
    var initialized: bool
    var bluetoothState: BluetoothState
    /** Whether an LED status controller is attached, and the pattern last
        sent to it. */
    var hasLedController: bool
    var ledStatus: Option<LedStatus>
    /** The on-board wireless LED (`CYW43_WL_GPIO_LED_PIN`). */
    var wirelessLed: bool
    var motors: MotorController?
    var audio: AudioController?
    /** Whether a MOSFET driver is attached, and its `set` calls in order. */
    var hasMosfetDriver: bool
    var mosfetCommands: seq<bool>
    /** The function-local statics of `processAudioControls` and
        `processMosfetControls`. */
    var previousA: bool
    var previousY: bool

    ghost predicate Valid()
      reads this, audio
    {
      audio != null ==> audio.Valid()
    }

    /** The LED shows the pattern of the current state. */
    predicate LedInSync()
      reads this
    {
      hasLedController ==> ledStatus == Some(StatusFor(bluetoothState))
    }

    constructor ()
      ensures Valid()
      ensures !initialized && bluetoothState == Initializing && !wirelessLed
      ensures !hasLedController && ledStatus == None
      ensures motors == null && audio == null && !hasMosfetDriver && mosfetCommands == []
      ensures !previousA && !previousY
    {
      initialized := false;
      bluetoothState := Initializing;
      hasLedController := false;
      ledStatus := None;
      wirelessLed := false;
      motors := null;
      audio := null;
      hasMosfetDriver := false;
      mosfetCommands := [];
      previousA := false;
      previousY := false;
    }

    /** `initialize`: already initialised succeeds at once, changing
        nothing.  Otherwise the state becomes Initializing; a failing
        `cyw43_arch_init` sets Error and fails; success lights the wireless
        LED and marks the controller initialised.  The status LED is not
        refreshed here. */
    method Initialize(archInitFails: bool) returns (ok: bool)
      modifies this`initialized, this`bluetoothState, this`wirelessLed
      ensures old(initialized) ==>
        ok && initialized && bluetoothState == old(bluetoothState) && wirelessLed == old(wirelessLed)
      ensures !old(initialized) && archInitFails ==>
        !ok && !initialized && bluetoothState == Error && wirelessLed == old(wirelessLed)
      ensures !old(initialized) && !archInitFails ==>
        ok && initialized && bluetoothState == Initializing && wirelessLed
    {
      if initialized {
        return true;
      }
      bluetoothState := Initializing;
      if archInitFails {
        bluetoothState := Error;
        return false;
      }
      wirelessLed := true;
      initialized := true;
      ok := true;
    }

    /** `updateLEDStatus`: with an LED controller attached, it is sent the
        pattern of the current state; without one, nothing happens. */
    method UpdateLedStatus()
      modifies this`ledStatus
      ensures LedInSync()
      ensures !hasLedController ==> ledStatus == old(ledStatus)
    {
      if !hasLedController {
        return;
      }
      ledStatus := Some(StatusFor(bluetoothState));
    }

    /** `setLEDController`: attaching (or detaching) refreshes the LED. */
    method SetLedController(present: bool)
      modifies this`hasLedController, this`ledStatus
      ensures hasLedController == present && LedInSync()
      ensures !present ==> ledStatus == old(ledStatus)
    {
      hasLedController := present;
      UpdateLedStatus();
    }

    method SetMotorController(m: MotorController?)
      modifies this`motors
      ensures motors == m
    {
      motors := m;
    }

    method SetAudioController(a: AudioController?)
      requires a != null ==> a.Valid()
      modifies this`audio
      ensures audio == a && Valid()
    {
      audio := a;
    }

    method SetMosfetDriver(present: bool)
      modifies this`hasMosfetDriver
      ensures hasMosfetDriver == present
    {
      hasMosfetDriver := present;
    }

    /** Each state-setting callback sets its state and then refreshes the
        LED. */
    method EnterState(s: BluetoothState)
      modifies this`bluetoothState, this`ledStatus
      ensures bluetoothState == s && LedInSync()
      ensures !hasLedController ==> ledStatus == old(ledStatus)
    {
      bluetoothState := s;
      UpdateLedStatus();
    }

    /** `platformOnInitComplete`: scanning starts (not modelled), the
        wireless LED goes off, and the state becomes Pairing. */
    method OnInitComplete()
      modifies this`wirelessLed, this`bluetoothState, this`ledStatus
      ensures !wirelessLed && bluetoothState == Pairing && LedInSync()
      ensures !hasLedController ==> ledStatus == old(ledStatus)
    {
      wirelessLed := false;
      EnterState(Pairing);
    }

    /** `platformOnDeviceConnected`: connected but not yet ready. */
    method OnDeviceConnected()
      modifies this`bluetoothState, this`ledStatus
      ensures bluetoothState == Connected && LedInSync()
      ensures !hasLedController ==> ledStatus == old(ledStatus)
    {
      EnterState(Connected);
    }

    /** `platformOnDeviceDisconnected`: back to pairing mode. */
    method OnDeviceDisconnected()
      modifies this`bluetoothState, this`ledStatus
      ensures bluetoothState == Pairing && LedInSync()
      ensures !hasLedController ==> ledStatus == old(ledStatus)
    {
      EnterState(Pairing);
    }

    /** `platformOnDeviceReady`: fully paired; every ready device is
        accepted. */
    method OnDeviceReady() returns (r: DiscoveryResult)
      modifies this`bluetoothState, this`ledStatus
      ensures r == Success
      ensures bluetoothState == Paired && LedInSync()
      ensures !hasLedController ==> ledStatus == old(ledStatus)
    {
      EnterState(Paired);
      r := Success;
    }

    /** `processTankSteering`: nothing without an initialised motor
        controller; otherwise the normalised stick drives the motors through
        `setDifferentialDrive`. */
    method ProcessTankSteering(axisX: i16, axisY: i16)
      modifies motors
      ensures motors != null ==>
        motors.initialized == old(motors.initialized) && motors.clockDivider == old(motors.clockDivider)
      ensures motors != null && old(motors.initialized) ==>
        var (throttle, steering) := SteeringInputs(axisX, axisY);
        motors.levels == motors.Driven(motors.Driven(old(motors.levels), Left, Mix(throttle, steering).0),
                                       Right, Mix(throttle, steering).1)
      ensures motors != null && !old(motors.initialized) ==> unchanged(motors)
    {
      if motors == null || !motors.initialized {
        return;
      }
      var throttle := AxisValue(axisY, true);
      var steering := AxisValue(axisX, false);
      motors.SetDifferentialDrive(throttle, steering);
    }

    /** `processAudioControls`: nothing without an initialised audio
        controller (the remembered A state is then left as it is);
        otherwise a press of A that was not down at the previous report
        plays the `AUDIO_00001` asset, and A is remembered. */
    method ProcessAudioControls(aPressed: bool) returns (triggered: bool)
      requires Valid()
      modifies this`previousA, audio
      ensures Valid()
      ensures audio == null || !old(audio.initialized) ==>
        !triggered && previousA == old(previousA)
      ensures audio != null && !old(audio.initialized) ==> unchanged(audio)
      ensures audio != null && old(audio.initialized) ==>
        triggered == RisingEdge(old(previousA), aPressed) && previousA == aPressed
      ensures audio != null ==>
        audio.initialized == old(audio.initialized) && audio.hasPool == old(audio.hasPool)
        && audio.volume == old(audio.volume) && audio.format == old(audio.format)
      ensures audio != null && (!triggered || audio.randomIndex >= |audio.assets|) ==>
        audio.playbackState == old(audio.playbackState) && audio.currentData == old(audio.currentData)
        && audio.currentSize == old(audio.currentSize) && audio.currentPosition == old(audio.currentPosition)
        && audio.audioIntensity == old(audio.audioIntensity)
      ensures audio != null && triggered && audio.randomIndex < |audio.assets| ==>
        var file := audio.assets[audio.randomIndex];
        audio.currentData == Some(file.data) && audio.currentSize == file.sampleCount
        && audio.currentPosition == 0 && audio.audioIntensity == 0.9
        && audio.playbackState == (if file.sampleCount != 0 then Playing else Stopped)
    {
      triggered := false;
      if audio == null || !audio.initialized {
        return;
      }
      if aPressed && !previousA {
        triggered := true;
        var _ := audio.PlayRandomAudio();
      }
      previousA := aPressed;
    }

    /** `processMosfetControls`: nothing without a MOSFET driver; otherwise
        the edge of Y (if any) is sent to the driver and Y is
        remembered. */
    method ProcessMosfetControls(yPressed: bool)
      modifies this`mosfetCommands, this`previousY
      ensures !hasMosfetDriver ==> mosfetCommands == old(mosfetCommands) && previousY == old(previousY)
      ensures hasMosfetDriver ==> previousY == yPressed
      ensures hasMosfetDriver ==>
        mosfetCommands == old(mosfetCommands) + CommandList(MosfetCommand(old(previousY), yPressed))
    {
      if !hasMosfetDriver {
        return;
      }
      if yPressed && !previousY {
        mosfetCommands := mosfetCommands + [true];
      } else if !yPressed && previousY {
        mosfetCommands := mosfetCommands + [false];
      }
      previousY := yPressed;
    }

    /** `platformOnControllerData`: a gamepad report goes to the audio
        controls, then tank steering, then the MOSFET controls, each only
        when its peripheral is attached; other controller classes are only
        logged. */
    method OnControllerData(isGamepad: bool, aPressed: bool, yPressed: bool, axisX: i16, axisY: i16)
      requires Valid()
      modifies this`previousA, this`previousY, this`mosfetCommands, audio, motors
      ensures Valid()
      ensures !isGamepad ==>
        previousA == old(previousA) && previousY == old(previousY) && mosfetCommands == old(mosfetCommands)
        && (audio != null ==> unchanged(audio)) && (motors != null ==> unchanged(motors))
      // A gamepad report: the audio handler.
      ensures isGamepad && (audio == null || !old(audio.initialized)) ==> previousA == old(previousA)
      ensures isGamepad && audio != null && !old(audio.initialized) ==> unchanged(audio)
      ensures isGamepad && audio != null && old(audio.initialized) ==> previousA == aPressed
      ensures isGamepad && audio != null ==>
        audio.initialized == old(audio.initialized) && audio.hasPool == old(audio.hasPool)
        && audio.volume == old(audio.volume) && audio.format == old(audio.format)
      ensures isGamepad && audio != null ==>
        (!old(audio.initialized) || !RisingEdge(old(previousA), aPressed) || audio.randomIndex >= |audio.assets|) ==>
        audio.playbackState == old(audio.playbackState) && audio.currentData == old(audio.currentData)
        && audio.currentSize == old(audio.currentSize) && audio.currentPosition == old(audio.currentPosition)
        && audio.audioIntensity == old(audio.audioIntensity)
      ensures isGamepad && audio != null && old(audio.initialized) ==>
        RisingEdge(old(previousA), aPressed) && audio.randomIndex < |audio.assets| ==>
        var file := audio.assets[audio.randomIndex];
        audio.currentData == Some(file.data) && audio.currentSize == file.sampleCount
        && audio.currentPosition == 0 && audio.audioIntensity == 0.9
        && audio.playbackState == (if file.sampleCount != 0 then Playing else Stopped)
      // The steering handler.
      ensures isGamepad && motors != null ==>
        motors.initialized == old(motors.initialized) && motors.clockDivider == old(motors.clockDivider)
      ensures isGamepad && motors != null && !old(motors.initialized) ==> unchanged(motors)
      ensures isGamepad && motors != null && old(motors.initialized) ==>
        var (throttle, steering) := SteeringInputs(axisX, axisY);
        motors.levels == motors.Driven(motors.Driven(old(motors.levels), Left, Mix(throttle, steering).0),
                                       Right, Mix(throttle, steering).1)
      // The MOSFET handler.
      ensures isGamepad && !hasMosfetDriver ==>
        mosfetCommands == old(mosfetCommands) && previousY == old(previousY)
      ensures isGamepad && hasMosfetDriver ==> previousY == yPressed
      ensures isGamepad && hasMosfetDriver ==>
        mosfetCommands == old(mosfetCommands) + CommandList(MosfetCommand(old(previousY), yPressed))
    {
      if !isGamepad {
        return;
      }
      if audio != null {
        var _ := ProcessAudioControls(aPressed);
      }
      if motors != null {
        ProcessTankSteering(axisX, axisY);
      }
      if hasMosfetDriver {
        ProcessMosfetControls(yPressed);
      }
    }
  }
}
