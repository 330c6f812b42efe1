/** The I2S transport's buffers, audio processor and controller
    (include/I2S.h, src/I2S.cpp).  DMA and PIO register programming are
    abstracted: the PIO block's claimed state machines are a set, the
    running state machines a bit mask, and the DMA read address a parameter
    of the interrupt handler. */
module I2sTransport {
  import opened Numeric
  import opened I2sClocks

  /** `AUDIO_BUFFER_FRAMES`: frames per buffer half. */
  const AUDIO_BUFFER_FRAMES: nat := 64
  /** `STEREO_BUFFER_SIZE`: interleaved left and right samples per half. */
  const STEREO_BUFFER_SIZE: nat := AUDIO_BUFFER_FRAMES * 2
  /** Bytes per `int32_t` sample. */
  const SAMPLE_BYTES: nat := 4

  /** `I2SBuffers`: double-buffered input and output sample arrays and the
      control blocks that point DMA at the start of each half. */
  class I2sBuffers {
    const inputBuffer: array<i32>
    const outputBuffer: array<i32>
    /** Offsets (in samples) the two input control blocks point at. */
    var inputControlBlocks: seq<nat>
    /** Offsets (in samples) the two output control blocks point at. */
    var outputControlBlocks: seq<nat>

    ghost predicate Valid()
      reads this
    {
      inputBuffer.Length == 2 * STEREO_BUFFER_SIZE
      && outputBuffer.Length == 2 * STEREO_BUFFER_SIZE
      && inputBuffer != outputBuffer
    }

    /** Each buffer holds two halves of `STEREO_BUFFER_SIZE` samples; the
        control blocks point at offset 0 and at the second half. */
    constructor ()
      ensures Valid() && fresh(inputBuffer) && fresh(outputBuffer)
      ensures inputControlBlocks == [0, STEREO_BUFFER_SIZE]
      ensures outputControlBlocks == [0, STEREO_BUFFER_SIZE]
    {
      inputBuffer := new i32[2 * STEREO_BUFFER_SIZE](_ => 0);
      outputBuffer := new i32[2 * STEREO_BUFFER_SIZE](_ => 0);
      inputControlBlocks := [0, STEREO_BUFFER_SIZE];
      outputControlBlocks := [0, STEREO_BUFFER_SIZE];
    }

    /** `getFrameCount`. */
    function FrameCount(): nat
    {
      AUDIO_BUFFER_FRAMES
    }

    /** `getStereoBufferSize`. */
    function StereoBufferSize(): nat
    {
      STEREO_BUFFER_SIZE
    }
  }

  /** The two stereo halves of a buffer are the sizes the getters report,
      are disjoint, and together cover every sample of the buffer; the
      control blocks start exactly the two halves. */
  lemma BufferLayout(b: I2sBuffers, k: int)
    requires 0 <= k < 2 * STEREO_BUFFER_SIZE
    ensures b.FrameCount() == 64 && b.StereoBufferSize() == 2 * b.FrameCount() == 128
    ensures (k < STEREO_BUFFER_SIZE) != (STEREO_BUFFER_SIZE <= k < 2 * STEREO_BUFFER_SIZE)
  {
  }

  /** The offset (in samples) of the half the interrupt handler refills:
      the second half while DMA reads below the middle of the buffer, the
      first half otherwise. */
  function FillOffset(readAddr: int, bufferStart: int): (offset: nat)
    ensures offset == 0 || offset == STEREO_BUFFER_SIZE
    ensures offset == STEREO_BUFFER_SIZE <==> readAddr < bufferStart + STEREO_BUFFER_SIZE * SAMPLE_BYTES
  {
    if readAddr < bufferStart + STEREO_BUFFER_SIZE * SAMPLE_BYTES then STEREO_BUFFER_SIZE else 0
  }

  /** Whether a byte address lies inside the half starting at `offset`. */
  predicate InHalf(addr: int, bufferStart: int, offset: nat)
  {
    bufferStart + offset * SAMPLE_BYTES <= addr < bufferStart + (offset + STEREO_BUFFER_SIZE) * SAMPLE_BYTES
  }

  /** While DMA reads anywhere inside the output buffer, the handler never
      refills the half it is reading, and the half it refills is always the
      other one. */
  lemma FillAvoidsReader(readAddr: int, bufferStart: int)
    requires bufferStart <= readAddr < bufferStart + 2 * STEREO_BUFFER_SIZE * SAMPLE_BYTES
    ensures !InHalf(readAddr, bufferStart, FillOffset(readAddr, bufferStart))
    ensures InHalf(readAddr, bufferStart, STEREO_BUFFER_SIZE - FillOffset(readAddr, bufferStart))
  {
  }

  /** The input `SimpleAudioProcessor::processAudio` dereferences: a
      non-null array holding `2 * frameCount` samples. */
  predicate InputReadable(input: array?<i32>, frameCount: nat)
    reads input
  {
    input != null && 2 * frameCount <= input.Length
  }

  /** The interrupt handler runs in output-only mode and hands the processor
      no input at all, which the processor as written cannot accept. */
  lemma HandlerInputUnreadable()
    ensures !InputReadable(null, AUDIO_BUFFER_FRAMES)
  {
  }

  /** `SimpleAudioProcessor`: copies input samples to output. */
  class SimpleAudioProcessor {
    constructor ()
    {
    }

    /** `processAudio` as written: `output[i] = input[i]` for the
        `2 * frameCount` interleaved samples, nothing else written.  The
        output pointer is modelled as an array and an offset into it. */
    method ProcessAudio(input: array?<i32>, output: array<i32>, offset: nat, frameCount: nat)
      requires InputReadable(input, frameCount)
      requires input != output || offset == 0
      requires offset + 2 * frameCount <= output.Length
      modifies output
      ensures forall i :: 0 <= i < output.Length ==>
        output[i] == (if offset <= i < offset + 2 * frameCount then input[i - offset] else old(output[i]))
    {
      var i := 0;
      while i < 2 * frameCount
        invariant 0 <= i <= 2 * frameCount
        invariant forall j :: 0 <= j < output.Length ==>
          output[j] == (if offset <= j < offset + i then input[j - offset] else old(output[j]))
      {
        output[offset + i] := input[i];
        i := i + 1;
      }
    }

    /** The processor as output-only mode needs it: with no input it writes
        silence into the `2 * frameCount` samples, otherwise it copies. */
    method ProcessAudioOrSilence(input: array?<i32>, output: array<i32>, offset: nat, frameCount: nat)
      requires input != null ==> InputReadable(input, frameCount) && (input != output || offset == 0)
      requires offset + 2 * frameCount <= output.Length
      modifies output
      ensures forall i :: 0 <= i < output.Length ==>
        output[i] == (if offset <= i < offset + 2 * frameCount
                      then (if input == null then 0 else input[i - offset])
                      else old(output[i]))
    {
      if input != null {
        ProcessAudio(input, output, offset, frameCount);
        return;
      }
      var i := 0;
      while i < 2 * frameCount
        invariant 0 <= i <= 2 * frameCount
        invariant forall j :: 0 <= j < output.Length ==>
          output[j] == (if offset <= j < offset + i then 0 else old(output[j]))
      {
        output[offset + i] := 0;
        i := i + 1;
      }
    }
  }

  /** The bit of a state machine in `stateMachineMask`. */
  function SmBit(sm: nat): bv32
    requires sm < 4
  {
    if sm == 0 then 0x1 else if sm == 1 then 0x2 else if sm == 2 then 0x4 else 0x8
  }

  lemma SmBitIsShift(sm: nat)
    requires sm < 4
    ensures SmBit(sm) == (1 as bv32) << sm
  {
  }

  /** The state machines 0..3 whose bit is set in a mask. */
  function MaskSet(mask: bv32): set<nat>
  {
    MaskPrefix(mask, 4)
  }

  /** The state machines below `n` whose bit is set in a mask. */
  function MaskPrefix(mask: bv32, n: nat): set<nat>
    requires n <= 4
  {
    set sm: nat | sm < n && mask & SmBit(sm) != 0
  }

  lemma MaskPrefixStep(mask: bv32, n: nat)
    requires n < 4
    ensures MaskPrefix(mask, n + 1) == MaskPrefix(mask, n) + (if mask & SmBit(n) != 0 then {n} else {})
  {
  }

  /** The lowest state machine of the four that is not yet claimed, as
      `pio_claim_unused_sm` picks it. */
  function LowestFree(claimed: set<nat>, from: nat): (sm: nat)
    requires from <= 4
    requires exists k :: from <= k < 4 && k !in claimed
    ensures from <= sm < 4 && sm !in claimed
    ensures forall k :: from <= k < sm ==> k in claimed
    decreases 4 - from
  {
    if from !in claimed then from else LowestFree(claimed, from + 1)
  }

  /** There are at least `n` unclaimed state machines among the four. */
  predicate FreeAtLeast(claimed: set<nat>, n: nat)
  {
    |set k: nat | k < 4 && k !in claimed| >= n
  }

  /** `I2SController`. */
  class I2sController {
    const config: I2sConfig
    const clocks: ClockState
    const buffers: I2sBuffers
    var audioProcessor: SimpleAudioProcessor
    var systemClockSM: nat
    var outputSM: nat
    var inputSM: nat
    var stateMachineMask: bv32
    /** The state machines of the PIO block that are claimed, by this
        controller or anyone else. */
    var claimed: set<nat>
    /** The state machines of the PIO block that are running. */
    var running: set<nat>
    var dmaReady: bool

    ghost predicate Valid()
      reads this, buffers
    {
      buffers.Valid()
      && (forall k :: k in claimed ==> k < 4)
      && MaskSet(stateMachineMask) <= claimed
      && stateMachineMask & !0xF == 0
    }

    /** A missing processor is replaced by a `SimpleAudioProcessor`, so the
        controller always holds one. */
    constructor (c: I2sConfig, processor: SimpleAudioProcessor?, claimedElsewhere: set<nat>)
      requires forall k :: k in claimedElsewhere ==> k < 4
      ensures Valid() && config == c && fresh(clocks) && fresh(buffers)
      ensures processor != null ==> audioProcessor == processor
      ensures processor == null ==> fresh(audioProcessor)
      ensures stateMachineMask == 0 && claimed == claimedElsewhere && running == {}
      ensures systemClockSM == 0 && outputSM == 0 && inputSM == 0 && !dmaReady
    {
      config := c;
      clocks := new ClockState();
      buffers := new I2sBuffers();
      systemClockSM := 0;
      outputSM := 0;
      inputSM := 0;
      stateMachineMask := 0;
      claimed := claimedElsewhere;
      running := {};
      dmaReady := false;
      if processor == null {
        audioProcessor := new SimpleAudioProcessor();
      } else {
        audioProcessor := processor;
      }
    }

    /** `setAudioProcessor`: installs the given processor, or a fresh
        `SimpleAudioProcessor` when none is given. */
    method SetAudioProcessor(processor: SimpleAudioProcessor?)
      modifies this`audioProcessor
      ensures processor != null ==> audioProcessor == processor
      ensures processor == null ==> fresh(audioProcessor)
    {
      if processor == null {
        audioProcessor := new SimpleAudioProcessor();
      } else {
        audioProcessor := processor;
      }
    }

    /** The state machines this controller claimed for itself. */
    function Own(): set<nat>
      reads this
    {
      (if config.enableSystemClock then {systemClockSM} else {}) + {inputSM, outputSM}
    }

    /** Relative to the claims and mask before: the controller's own state
        machines are distinct, were all free, are now claimed and recorded in
        the mask, and nothing else changed. */
    ghost predicate ClaimedOwn(claimed0: set<nat>, mask0: bv32)
      reads this
    {
      inputSM != outputSM
      && (config.enableSystemClock ==> systemClockSM != inputSM && systemClockSM != outputSM)
      && Own() !! claimed0
      && claimed == claimed0 + Own()
      && MaskSet(stateMachineMask) == MaskSet(mask0) + Own()
    }

    /** Claims the lowest free state machine and records it in the mask. */
    method ClaimStateMachine() returns (sm: nat)
      requires Valid() && exists k :: 0 <= k < 4 && k !in claimed
      modifies this`claimed, this`stateMachineMask
      ensures Valid()
      ensures sm == LowestFree(old(claimed), 0)
      ensures claimed == old(claimed) + {sm}
      ensures stateMachineMask == old(stateMachineMask) | SmBit(sm)
      ensures MaskSet(stateMachineMask) == MaskSet(old(stateMachineMask)) + {sm}
    {
      sm := LowestFree(claimed, 0);
      claimed := claimed + {sm};
      MaskSetAddsBit(stateMachineMask, sm);
      stateMachineMask := stateMachineMask | SmBit(sm);
    }

    /** `initializeStateMachines`: claims the system-clock machine (when
        enabled), then the input and the output machine, each the lowest
        one still free, and sets their bits in the mask. */
    method InitializeStateMachines()
      requires Valid()
      requires FreeAtLeast(claimed, if config.enableSystemClock then 3 else 2)
      modifies this`claimed, this`stateMachineMask, this`systemClockSM, this`inputSM, this`outputSM
      ensures Valid()
      ensures ClaimedOwn(old(claimed), old(stateMachineMask))
      ensures !config.enableSystemClock ==> systemClockSM == old(systemClockSM)
    {
      if config.enableSystemClock {
        FreeWitness(claimed, 3);
        var before := claimed;
        systemClockSM := ClaimStateMachine();
        FreeAfterClaim(before, systemClockSM, 3);
      }
      ClaimDataMachines();
    }

    /** The input and then the output state machine, each the lowest one
        still free: two distinct, previously free machines, both recorded
        in the mask. */
    method ClaimDataMachines()
      requires Valid() && FreeAtLeast(claimed, 2)
      modifies this`claimed, this`stateMachineMask, this`inputSM, this`outputSM
      ensures Valid()
      ensures inputSM != outputSM && {inputSM, outputSM} !! old(claimed)
      ensures claimed == old(claimed) + {inputSM, outputSM}
      ensures MaskSet(stateMachineMask) == MaskSet(old(stateMachineMask)) + {inputSM, outputSM}
    {
      FreeWitness(claimed, 2);
      var beforeInput := claimed;
      inputSM := ClaimStateMachine();
      FreeAfterClaim(beforeInput, inputSM, 2);
      FreeWitness(claimed, 1);
      outputSM := ClaimStateMachine();
    }

    /** `initialize`: plans the clocks, and when the system clock is enabled
        rejects a plan that fails the sync check before any state machine
        is claimed; otherwise claims the state machines and succeeds exactly
        when DMA set-up (`dmaOk`, its outcome) succeeds. */
    method Initialize(systemClock: real, sckPioMult: real, outPioMult: real, dmaOk: bool)
      returns (ok: bool)
      requires Valid()
      requires PlanFeasible(config, systemClock, sckPioMult, outPioMult)
      requires FreeAtLeast(claimed, if config.enableSystemClock then 3 else 2)
      modifies this, clocks
      ensures Valid()
      ensures clocks.Plan() == PlanClocks(config, systemClock, sckPioMult, outPioMult)
      ensures var p := PlanClocks(config, systemClock, sckPioMult, outPioMult);
        config.enableSystemClock && !ClockSyncOk(p.systemClockHz, p.bitClockHz) ==>
          !ok && claimed == old(claimed) && stateMachineMask == old(stateMachineMask)
          && dmaReady == old(dmaReady) && systemClockSM == old(systemClockSM)
          && inputSM == old(inputSM) && outputSM == old(outputSM)
      ensures var p := PlanClocks(config, systemClock, sckPioMult, outPioMult);
        (config.enableSystemClock ==> ClockSyncOk(p.systemClockHz, p.bitClockHz)) ==>
          ok == dmaOk && dmaReady == dmaOk && ClaimedOwn(old(claimed), old(stateMachineMask))
      ensures config.enableSystemClock && ok ==>
        RatioNearlyIntegral(config.systemClockMult as real / (2.0 * config.bitDepth as real))
      ensures audioProcessor == old(audioProcessor) && running == old(running)
    {
      // Under `PlanFeasible` the plan always succeeds.
      var _ := clocks.CalculateClocks(config, systemClock, sckPioMult, outPioMult);
      if config.enableSystemClock {
        var synced := clocks.ValidateClockSync();
        if !synced {
          return false;
        }
      }
      InitializeStateMachines();
      dmaReady := dmaOk;
      ok := dmaOk;
    }

    /** `start`: the controller's state machines start together. */
    method Start()
      modifies this`running
      ensures running == old(running) + MaskSet(stateMachineMask)
    {
      running := running + MaskSet(stateMachineMask);
    }

    /** `stop`: the controller's state machines stop; others keep running. */
    method Stop()
      modifies this`running
      ensures running == old(running) - MaskSet(stateMachineMask)
    {
      running := running - MaskSet(stateMachineMask);
    }

    /** `cleanupResources`: stops the state machines, releases exactly the
        ones whose bit is set in the mask, and clears the mask. */
    method CleanupResources()
      requires Valid()
      modifies this`running, this`claimed, this`stateMachineMask
      ensures Valid()
      ensures running == old(running) - MaskSet(old(stateMachineMask))
      ensures claimed == old(claimed) - MaskSet(old(stateMachineMask))
      ensures stateMachineMask == 0
    {
      Stop();
      if stateMachineMask != 0 {
        ReleaseMasked();
        stateMachineMask := 0;
      }
      MaskSetOfZero();
    }

    /** The release loop of `cleanupResources`: unclaims state machines 0..3
        whose bit is set in the mask. */
    method ReleaseMasked()
      modifies this`claimed
      ensures claimed == old(claimed) - MaskSet(stateMachineMask)
    {
      var sm := 0;
      while sm < 4
        invariant 0 <= sm <= 4
        invariant claimed == old(claimed) - MaskPrefix(stateMachineMask, sm)
      {
        MaskPrefixStep(stateMachineMask, sm);
        if stateMachineMask & SmBit(sm) != 0 {
          claimed := claimed - {sm};
        }
        sm := sm + 1;
      }
    }

    /** `dmaInterruptHandler`: refills the half of the output buffer that DMA
        is not reading.  The handler has no input to offer, so the processor
        writes silence there (see `ProcessAudioOrSilence`). */
    method DmaInterruptHandler(readAddr: int, bufferStart: int)
      requires Valid()
      modifies buffers.outputBuffer
      ensures var offset := FillOffset(readAddr, bufferStart);
        forall i :: 0 <= i < buffers.outputBuffer.Length ==>
          buffers.outputBuffer[i] == (if offset <= i < offset + STEREO_BUFFER_SIZE then 0
                                      else old(buffers.outputBuffer[i]))
    {
      var offset := FillOffset(readAddr, bufferStart);
      audioProcessor.ProcessAudioOrSilence(null, buffers.outputBuffer, offset, buffers.FrameCount());
    }
  }

  lemma FreeWitness(claimed: set<nat>, n: nat)
    requires n >= 1 && FreeAtLeast(claimed, n)
    ensures exists k :: 0 <= k < 4 && k !in claimed
  {
    var free := set k: nat | k < 4 && k !in claimed;
    assert |free| >= 1;
    var k :| k in free;
  }

  lemma FreeAfterClaim(before: set<nat>, sm: nat, n: nat)
    requires n >= 1 && FreeAtLeast(before, n) && sm < 4 && sm !in before
    ensures FreeAtLeast(before + {sm}, n - 1)
  {
    var free := set k: nat | k < 4 && k !in before;
    var free' := set k: nat | k < 4 && k !in before + {sm};
    assert free' == free - {sm};
  }

  lemma MaskSetAddsBit(mask: bv32, sm: nat)
    requires sm < 4
    ensures MaskSet(mask | SmBit(sm)) == MaskSet(mask) + {sm}
  {
    forall k: nat | k < 4
      ensures (mask | SmBit(sm)) & SmBit(k) != 0 <==> mask & SmBit(k) != 0 || k == sm
    {
      if k == sm {
        OrSameBit(mask, sm);
      } else {
        OrOtherBit(mask, sm, k);
      }
    }
  }

  lemma OrSameBit(mask: bv32, sm: nat)
    requires sm < 4
    ensures (mask | SmBit(sm)) & SmBit(sm) != 0
  {
    OrHasBit(mask, SmBit(sm));
  }

  lemma OrOtherBit(mask: bv32, sm: nat, k: nat)
    requires sm < 4 && k < 4 && sm != k
    ensures (mask | SmBit(sm)) & SmBit(k) == mask & SmBit(k)
  {
    BitsDisjoint(sm, k);
    OrKeepsOther(mask, SmBit(sm), SmBit(k));
  }

  lemma OrKeepsOther(mask: bv32, b: bv32, c: bv32)
    requires b & c == 0
    ensures (mask | b) & c == mask & c
  {
  }

  lemma OrHasBit(mask: bv32, b: bv32)
    requires b != 0
    ensures (mask | b) & b != 0
  {
  }

  lemma BitsDisjoint(sm: nat, k: nat)
    requires sm < 4 && k < 4 && sm != k
    ensures SmBit(sm) & SmBit(k) == 0
  {
  }

  lemma MaskSetOfZero()
    ensures MaskSet(0) == {}
  {
  }
}
