/** The playback session and buffer producer of src/AudioController.cpp.
    The Pico Extras pipeline (I2S set-up, the producer pool, the streaming
    timer) is abstracted: the actual I2S format's channel count, and the
    outcome of each library step, are parameters. */
module AudioPlayback {
  import opened Numeric
  import opened PcmHeader

  datatype PlaybackState = Stopped | Playing | Paused

  /** `std::max(0, std::min(1, v))`. */
  function ClampVolume(v: real): (r: real)
    ensures 0.0 <= r <= 1.0
    ensures 0.0 <= v <= 1.0 ==> r == v
    ensures v < 0.0 ==> r == 0.0
    ensures v > 1.0 ==> r == 1.0
  {
    MaxReal(0.0, MinReal(1.0, v))
  }

  /** One output sample: the source sample times the volume, clamped to the
      `int16_t` range and converted by truncation toward zero. */
  function ScaleSample(sample: int, volume: real): (r: int)
    ensures -0x8000 <= r < 0x8000
  {
    Trunc(MaxReal(-32768.0, MinReal(32767.0, sample as real * volume)))
  }

  /** Scaled samples are `int16_t` values; at full volume an `int16_t`
      sample is passed through, and at zero volume it becomes silence. */
  lemma ScaleSampleProperties(sample: int, volume: real)
    ensures -0x8000 <= ScaleSample(sample, volume) < 0x8000
    ensures -0x8000 <= sample < 0x8000 ==> ScaleSample(sample, 1.0) == sample
    ensures ScaleSample(sample, 0.0) == 0
  {
    var x := MaxReal(-32768.0, MinReal(32767.0, sample as real * volume));
    assert -32768.0 <= x <= 32767.0;
    if -0x8000 <= sample < 0x8000 {
      assert sample as real * 1.0 == sample as real;
      TruncOfInt(sample);
    }
    assert sample as real * 0.0 == 0.0;
  }

  lemma TruncOfInt(k: int)
    ensures Trunc(k as real) == k
  {
  }

  /** The mono samples of a fill scaled by the volume. */
  function ScaledRun(source: seq<int>, volume: real): (r: seq<int>)
    ensures |r| == |source|
    ensures forall i :: 0 <= i < |source| ==> r[i] == ScaleSample(source[i], volume)
  {
    seq(|source|, i requires 0 <= i < |source| => ScaleSample(source[i], volume))
  }

  // ---------------------------------------------------------------------
  // Intensity for the LEDs
  // ---------------------------------------------------------------------

  /** `sqrtf` is not modelled; the proofs only need it to be non-negative
      on non-negative arguments. */
  ghost predicate SqrtNonNegative(sqrt: real -> real)
  {
    forall x :: x >= 0.0 ==> sqrt(x) >= 0.0
  }

  function Square(x: real): (r: real)
    ensures r >= 0.0
  {
    x * x
  }

  /** Sum of the squares of the normalised samples, `x / 32768`. */
  function SumSquares(mono: seq<int>): (r: real)
    ensures r >= 0.0
    decreases |mono|
  {
    if |mono| == 0 then 0.0
    else SumSquares(mono[..|mono| - 1]) + Square(mono[|mono| - 1] as real / 32768.0)
  }

  /** The filter step of `updateAudioIntensity` over `n > 0` first-channel
      samples: `0.7 * current + 0.3 * min(1, 3 * rms)`. */
  function FilteredIntensity(current: real, mono: seq<int>, sqrt: real -> real): (r: real)
    requires |mono| > 0
    ensures r <= current * 0.7 + 0.3
  {
    var rms := sqrt(SumSquares(mono) / |mono| as real);
    current * 0.7 + MinReal(1.0, rms * 3.0) * 0.3
  }

  /** The filter keeps the intensity in [0, 1]. */
  lemma FilteredIntensityInRange(current: real, mono: seq<int>, sqrt: real -> real)
    requires |mono| > 0 && SqrtNonNegative(sqrt) && 0.0 <= current <= 1.0
    ensures 0.0 <= FilteredIntensity(current, mono, sqrt) <= 1.0
  {
    var mean := SumSquares(mono) / |mono| as real;
    assert mean >= 0.0;
    assert sqrt(mean) >= 0.0;
  }

  /** The first channel of the first `n` frames of an interleaved buffer. */
  function FirstChannel(samples: seq<int>, channels: nat, n: nat): (r: seq<int>)
    requires channels >= 1 && n * channels <= |samples|
    ensures |r| == n
  {
    seq(n, i requires 0 <= i < n => (FrameSlotBelow(i, 0, n, channels); samples[Slot(i, 0, channels)]))
  }

  /** Index of channel `c` of frame `f` in an interleaved buffer. */
  function Slot(f: nat, c: nat, channels: nat): nat
  {
    f * channels + c
  }

  lemma FrameSlotBelow(f: nat, c: nat, n: nat, channels: nat)
    requires f < n && c < channels
    ensures Slot(f, c, channels) < n * channels
    ensures Slot(f, c, channels) + (channels - c) <= n * channels
  {
    MulLeq(f + 1, n, channels);
  }

  lemma MulLeq(a: nat, b: nat, m: nat)
    requires a <= b
    ensures a * m <= b * m
  {
  }

  /** Distinct (frame, channel) pairs occupy distinct slots: a later frame's
      slots all lie at or above `(f + 1) * channels`. */
  lemma SlotsOrdered(f: nat, c: nat, g: nat, channels: nat)
    requires c < channels && f < g
    ensures Slot(f, c, channels) < g * channels
  {
    MulLeq(f + 1, g, channels);
  }

  /** Every index below `n * channels` is the slot of exactly the frame
      `j / channels` and channel `j % channels`. */
  lemma SlotCovers(j: nat, channels: nat)
    requires channels >= 1
    ensures j == Slot(j / channels, j % channels, channels) && j % channels < channels
  {
  }

  // ---------------------------------------------------------------------
  // The producer buffer
  // ---------------------------------------------------------------------

  /** An `audio_buffer_t`: its interleaved 16-bit samples, the frame
      capacity, and the frame count handed to the consumer. */
  class AudioBuffer {
    const samples: array<int>
    const maxSampleCount: nat
    var sampleCount: nat

    constructor (capacity: nat, channels: nat)
      ensures maxSampleCount == capacity && samples.Length == capacity * channels
      ensures sampleCount == 0 && fresh(samples)
    {
      maxSampleCount := capacity;
      samples := new int[capacity * channels](_ => 0);
      sampleCount := 0;
    }
  }

  /** `memset(..., 0, ...)` over samples `from .. to - 1`. */
  method ZeroRange(a: array<int>, from: nat, to: nat)
    requires from <= to <= a.Length
    modifies a
    ensures forall j :: 0 <= j < a.Length ==> a[j] == (if from <= j < to then 0 else old(a[j]))
  {
    var j := from;
    while j < to
      invariant from <= j <= to
      invariant forall k :: 0 <= k < a.Length ==> a[k] == (if from <= k < j then 0 else old(a[k]))
    {
      a[j] := 0;
      j := j + 1;
    }
  }

  // ---------------------------------------------------------------------
  // The controller
  // ---------------------------------------------------------------------

  /** Every registry entry has as many samples as it declares, all of them
      `int16_t` values. */
  predicate WellFormedAssets(assets: seq<AudioFileEntry>)
  {
    forall k :: 0 <= k < |assets| ==>
      assets[k].sampleCount == |assets[k].data|
      && forall j :: 0 <= j < |assets[k].data| ==> -0x8000 <= assets[k].data[j] < 0x8000
  }

  class AudioController {
    /** The generated `AUDIO_FILES` registry. */
    const assets: seq<AudioFileEntry>
    /** The value of `AudioIndex::AUDIO_00001` in the generated index: the
        position of the `00001` file in the sorted file list
        (`Audio00001Position`), fixed when the firmware is built. */
    const randomIndex: nat
    var initialized: bool
    var hasPool: bool
    /** The channel count of `actualI2SFormat_`, when I2S set-up produced it. */
    var format: Option<nat>
    var playbackState: PlaybackState
    var volume: real
    var audioIntensity: real
    /** `currentAudioData_`: the samples playing, or none. */
    var currentData: Option<seq<int>>
    var currentSize: nat
    var currentPosition: nat

    ghost predicate Valid()
      reads this
    {
      WellFormedAssets(assets)
      && (format.Some? ==> format.value >= 1)
      && (initialized ==> hasPool && format.Some?)
      && currentSize == (if currentData.Some? then |currentData.value| else 0)
      && currentPosition <= currentSize
      && (playbackState != Stopped ==> currentData.Some?)
      && 0.0 <= volume <= 1.0
      && 0.0 <= audioIntensity <= 1.0
    }

    /** Stopped, full volume, no intensity, no data, not initialised. */
    constructor (registry: seq<AudioFileEntry>, audio00001: nat)
      requires WellFormedAssets(registry)
      ensures Valid() && assets == registry && randomIndex == audio00001
      ensures !initialized && !hasPool && format == None
      ensures playbackState == Stopped && volume == 1.0 && audioIntensity == 0.0
      ensures currentData == None && currentSize == 0 && currentPosition == 0
    {
      assets := registry;
      randomIndex := audio00001;
      initialized := false;
      hasPool := false;
      format := None;
      playbackState := Stopped;
      volume := 1.0;
      audioIntensity := 0.0;
      currentData := None;
      currentSize := 0;
      currentPosition := 0;
    }

    /** `initialize`: already initialised succeeds at once; otherwise each
        step of the set-up must succeed in order (free DMA channel and PIO
        state machine, I2S set-up giving the actual format, pool creation,
        connection), and only then is the controller initialised. */
    method Initialize(resourcesFree: bool, actualChannels: Option<nat>, poolCreated: bool, connected: bool)
      returns (ok: bool)
      requires Valid()
      requires actualChannels.Some? ==> actualChannels.value >= 1
      modifies this`initialized, this`hasPool, this`format
      ensures Valid()
      ensures old(initialized) ==> ok && initialized == old(initialized) && hasPool == old(hasPool) && format == old(format)
      ensures !old(initialized) ==>
        (ok <==> resourcesFree && actualChannels.Some? && poolCreated && connected)
        && initialized == ok
        && (ok ==> format == actualChannels && hasPool)
    {
      if initialized {
        return true;
      }
      if !resourcesFree {
        return false;
      }
      if actualChannels.None? {
        return false;
      }
      format := actualChannels;
      if !poolCreated {
        return false;
      }
      hasPool := true;
      if !connected {
        hasPool := false;
        return false;
      }
      initialized := true;
      ok := true;
    }

    /** `shutdown`: when initialised, stops playback as `stopAudio` does,
        releases the pool and clears the initialised flag; otherwise does
        nothing.  Volume and the stored format are kept. */
    method Shutdown()
      requires Valid()
      modifies this`initialized, this`hasPool
      modifies this`playbackState, this`currentData, this`currentSize, this`currentPosition, this`audioIntensity
      ensures Valid() && !initialized
      ensures !old(initialized) ==>
        hasPool == old(hasPool) && playbackState == old(playbackState)
        && currentData == old(currentData) && currentSize == old(currentSize)
        && currentPosition == old(currentPosition) && audioIntensity == old(audioIntensity)
      ensures old(initialized) ==> !hasPool && playbackState == Stopped
      ensures old(initialized) && old(playbackState) == Stopped ==>
        currentData == old(currentData) && currentSize == old(currentSize)
        && currentPosition == old(currentPosition) && audioIntensity == old(audioIntensity)
      ensures old(initialized) && old(playbackState) != Stopped ==>
        currentData == None && currentSize == 0 && currentPosition == 0 && audioIntensity == 0.0
    {
      if !initialized {
        return;
      }
      var _ := StopAudio();
      hasPool := false;
      initialized := false;
    }

    /** `stopAudio`: always succeeds; leaves the session Stopped with no data,
        size and cursor 0 and no intensity, and changes nothing when already
        Stopped. */
    method StopAudio() returns (ok: bool)
      requires Valid()
      modifies this`playbackState, this`currentData, this`currentSize, this`currentPosition, this`audioIntensity
      ensures Valid() && ok
      ensures old(playbackState) == Stopped ==>
        playbackState == Stopped && currentData == old(currentData) && currentSize == old(currentSize)
        && currentPosition == old(currentPosition) && audioIntensity == old(audioIntensity)
      ensures old(playbackState) != Stopped ==>
        playbackState == Stopped && currentData == None && currentSize == 0
        && currentPosition == 0 && audioIntensity == 0.0
    {
      if playbackState == Stopped {
        return true;
      }
      playbackState := Stopped;
      currentData := None;
      currentSize := 0;
      currentPosition := 0;
      audioIntensity := 0.0;
      ok := true;
    }

    /** `pauseAudio`: only Playing moves, to Paused. */
    method PauseAudio() returns (ok: bool)
      requires Valid()
      modifies this`playbackState
      ensures Valid()
      ensures ok <==> old(playbackState) == Playing
      ensures playbackState == (if ok then Paused else old(playbackState))
    {
      if playbackState != Playing {
        return false;
      }
      playbackState := Paused;
      ok := true;
    }

    /** `resumeAudio`: only Paused moves, to Playing. */
    method ResumeAudio() returns (ok: bool)
      requires Valid()
      modifies this`playbackState
      ensures Valid()
      ensures ok <==> old(playbackState) == Paused
      ensures playbackState == (if ok then Playing else old(playbackState))
    {
      if playbackState != Paused {
        return false;
      }
      playbackState := Playing;
      ok := true;
    }

    /** `setVolume`: stores the volume clamped to [0, 1]. */
    method SetVolume(v: real)
      requires Valid()
      modifies this`volume
      ensures Valid() && volume == ClampVolume(v)
    {
      volume := ClampVolume(v);
    }

    /** The state check of `startTimerBasedAudioStreaming`: Playing is
        entered only when initialised with a pool and non-empty data loaded.
        The repeating timer itself is not modelled. */
    method StartStreaming()
      requires Valid()
      modifies this`playbackState
      ensures Valid()
      ensures var start := initialized && hasPool && currentData.Some? && currentSize != 0;
        playbackState == (if start then Playing else old(playbackState))
    {
      if !initialized || !hasPool {
        return;
      }
      if currentData.None? || currentSize == 0 {
        return;
      }
      playbackState := Playing;
    }

    /** `playAudio`: fails, changing nothing, when uninitialised or when the
        index names no file; otherwise stops the current session, loads the
        file with the cursor at 0, sets intensity 0.9, and plays when the
        file has samples. */
    method PlayAudio(index: nat) returns (ok: bool)
      requires Valid()
      modifies this`playbackState, this`currentData, this`currentSize, this`currentPosition, this`audioIntensity
      ensures Valid()
      ensures ok <==> old(initialized) && GetAudioFile(assets, index).Some?
      ensures !ok ==>
        playbackState == old(playbackState) && currentData == old(currentData)
        && currentSize == old(currentSize) && currentPosition == old(currentPosition)
        && audioIntensity == old(audioIntensity)
      ensures ok ==>
        var file := assets[index];
        currentData == Some(file.data) && currentSize == file.sampleCount && currentPosition == 0
        && audioIntensity == 0.9
        && playbackState == (if file.sampleCount != 0 then Playing else Stopped)
    {
      if !initialized {
        return false;
      }
      var file := GetAudioFile(assets, index);
      if file.None? {
        return false;
      }
      var _ := StopAudio();
      currentData := Some(file.value.data);
      currentSize := file.value.sampleCount;
      currentPosition := 0;
      audioIntensity := 0.9;
      StartStreaming();
      ok := true;
    }

    /** `playRandomAudio`: uninitialised fails; otherwise the fixed asset
        `AUDIO_00001` is played, with the outcome of `playAudio` on its
        index. */
    method PlayRandomAudio() returns (ok: bool)
      requires Valid()
      modifies this`playbackState, this`currentData, this`currentSize, this`currentPosition, this`audioIntensity
      ensures Valid()
      ensures ok <==> old(initialized) && randomIndex < |assets|
      ensures !ok ==>
        playbackState == old(playbackState) && currentData == old(currentData)
        && currentSize == old(currentSize) && currentPosition == old(currentPosition)
        && audioIntensity == old(audioIntensity)
      ensures ok ==>
        var file := assets[randomIndex];
        currentData == Some(file.data) && currentSize == file.sampleCount && currentPosition == 0
        && audioIntensity == 0.9
        && playbackState == (if file.sampleCount != 0 then Playing else Stopped)
    {
      if !initialized {
        return false;
      }
      ok := PlayAudio(randomIndex);
    }

    /** `updateAudioIntensity` over the first channel of `count` frames:
        no frames or no negotiated format gives intensity 0; otherwise the
        low-pass filter step. */
    method UpdateAudioIntensity(samples: array<int>, count: nat, sqrt: real -> real)
      requires Valid() && SqrtNonNegative(sqrt)
      requires format.Some? ==> count * format.value <= samples.Length
      modifies this`audioIntensity
      ensures Valid()
      ensures count == 0 || format.None? ==> audioIntensity == 0.0
      ensures count > 0 && format.Some? ==>
        audioIntensity == FilteredIntensity(old(audioIntensity), FirstChannel(samples[..], format.value, count), sqrt)
    {
      if count == 0 || format.None? {
        audioIntensity := 0.0;
        return;
      }
      var channels := format.value;
      ghost var mono := FirstChannel(samples[..], channels, count);
      var sum := 0.0;
      var i := 0;
      while i < count
        invariant 0 <= i <= count
        invariant sum == SumSquares(mono[..i])
        invariant audioIntensity == old(audioIntensity)
      {
        FrameSlotBelow(i, 0, count, channels);
        var sample := samples[i * channels] as real / 32768.0;
        assert mono[i] == samples[Slot(i, 0, channels)];
        assert mono[..i + 1][..i] == mono[..i];
        sum := sum + Square(sample);
        i := i + 1;
      }
      assert mono[..count] == mono;
      FilteredIntensityInRange(audioIntensity, mono, sqrt);
      var rms := sqrt(sum / count as real);
      audioIntensity := audioIntensity * 0.7 + MinReal(1.0, rms * 3.0) * 0.3;
    }

    /** `fillAudioBuffer`.  When not Playing (or with no data) the buffer's
        `maxSampleCount` frames become silence and 0 is returned; when Playing
        with no samples left the same happens and the session becomes
        Stopped.  Otherwise `n = min(remaining, max)` source samples are
        scaled into every channel of the first `n` frames, the rest of the
        frames are silence, the cursor advances by `n`, the intensity filter
        runs over the written samples, and `n` is returned. */
    method FillAudioBuffer(buffer: AudioBuffer, sqrt: real -> real) returns (n: nat)
      requires Valid() && format.Some? && SqrtNonNegative(sqrt)
      requires buffer.maxSampleCount * format.value <= buffer.samples.Length
      modifies this`playbackState, this`currentPosition, this`audioIntensity, buffer`sampleCount, buffer.samples
      ensures Valid()
      ensures buffer.sampleCount == buffer.maxSampleCount
      ensures var ch := format.value;
        forall j :: buffer.maxSampleCount * ch <= j < buffer.samples.Length ==>
          buffer.samples[j] == old(buffer.samples[j])
      ensures n <= buffer.maxSampleCount
      ensures old(playbackState) != Playing || old(currentData).None? ==>
        n == 0 && Silent(buffer.samples[..], 0, buffer.maxSampleCount * format.value)
        && playbackState == old(playbackState) && currentPosition == old(currentPosition)
        && audioIntensity == old(audioIntensity)
      ensures (old(playbackState) == Playing && old(currentData).Some?
               && Min(old(currentSize) - old(currentPosition), buffer.maxSampleCount) == 0) ==>
        n == 0 && Silent(buffer.samples[..], 0, buffer.maxSampleCount * format.value)
        && playbackState == Stopped && currentPosition == old(currentPosition)
        && audioIntensity == old(audioIntensity)
      ensures (old(playbackState) == Playing && old(currentData).Some?
               && Min(old(currentSize) - old(currentPosition), buffer.maxSampleCount) > 0) ==>
        n == Min(old(currentSize) - old(currentPosition), buffer.maxSampleCount) &&
        var run := ScaledRun(old(currentData).value[old(currentPosition)..old(currentPosition) + n], volume);
        FramesHold(buffer.samples[..], format.value, run)
        && Silent(buffer.samples[..], n * format.value, buffer.maxSampleCount * format.value)
        && playbackState == Playing && currentPosition == old(currentPosition) + n
        && audioIntensity == FilteredIntensity(old(audioIntensity), run, sqrt)
    {
      var ch := format.value;
      var max := buffer.maxSampleCount;
      MulLeq(0, max, ch);
      if playbackState != Playing || currentData.None? {
        ZeroRange(buffer.samples, 0, max * ch);
        buffer.sampleCount := max;
        return 0;
      }
      if Min(currentSize - currentPosition, max) == 0 {
        playbackState := Stopped;
        ZeroRange(buffer.samples, 0, max * ch);
        buffer.sampleCount := max;
        return 0;
      }
      n := StreamFrames(buffer, sqrt);
    }

    /** The converting branch of `fillAudioBuffer`: `n = min(remaining, max)`
        source samples are scaled into every channel of the first `n` frames,
        the rest of the frames are silence, the cursor advances by `n` and
        the intensity filter runs over the written samples. */
    method StreamFrames(buffer: AudioBuffer, sqrt: real -> real) returns (n: nat)
      requires Valid() && format.Some? && SqrtNonNegative(sqrt)
      requires buffer.maxSampleCount * format.value <= buffer.samples.Length
      requires playbackState == Playing && currentData.Some?
      requires Min(currentSize - currentPosition, buffer.maxSampleCount) > 0
      modifies this`currentPosition, this`audioIntensity, buffer`sampleCount, buffer.samples
      ensures Valid()
      ensures buffer.sampleCount == buffer.maxSampleCount
      ensures var ch := format.value;
        forall j :: buffer.maxSampleCount * ch <= j < buffer.samples.Length ==>
          buffer.samples[j] == old(buffer.samples[j])
      ensures n == Min(old(currentSize) - old(currentPosition), buffer.maxSampleCount)
      ensures var run := ScaledRun(currentData.value[old(currentPosition)..old(currentPosition) + n], volume);
        FramesHold(buffer.samples[..], format.value, run)
        && Silent(buffer.samples[..], n * format.value, buffer.maxSampleCount * format.value)
        && currentPosition == old(currentPosition) + n
        && audioIntensity == FilteredIntensity(old(audioIntensity), run, sqrt)
    {
      var ch := format.value;
      var max := buffer.maxSampleCount;
      n := Min(currentSize - currentPosition, max);
      var data := currentData.value;
      var pos := currentPosition;
      var vol := volume;
      ghost var run := ScaledRun(data[pos..pos + n], vol);
      MulLeq(n, max, ch);
      ConvertFrames(buffer.samples, ch, data[pos..pos + n], vol, max);
      buffer.sampleCount := max;
      currentPosition := currentPosition + n;
      assert FirstChannel(buffer.samples[..], ch, n) == run;
      UpdateAudioIntensity(buffer.samples, n, sqrt);
    }
  }

  /** The sample loop and the silent tail of `fillAudioBuffer`: the frames of
      `source` get its scaled samples, the rest of the `frames` frames are
      silence, and samples past them are untouched. */
  method ConvertFrames(a: array<int>, channels: nat, source: seq<int>, volume: real, frames: nat)
    requires |source| <= frames && frames * channels <= a.Length
    modifies a
    ensures FramesHold(a[..], channels, ScaledRun(source, volume))
    ensures Silent(a[..], |source| * channels, frames * channels)
    ensures forall j :: frames * channels <= j < a.Length ==> a[j] == old(a[j])
    ensures channels >= 1 ==> FirstChannel(a[..], channels, |source|) == ScaledRun(source, volume)
  {
    var n := |source|;
    MulLeq(n, frames, channels);
    WriteScaledFrames(a, channels, source, volume);
    ghost var filled := a[..];
    if n < frames {
      ZeroRange(a, n * channels, frames * channels);
      TailKeepsFrames(filled, a[..], channels, ScaledRun(source, volume), frames * channels);
    }
    if channels >= 1 {
      FirstChannelOfFrames(a[..], channels, ScaledRun(source, volume));
    }
  }

  /** The conversion loop of `fillAudioBuffer`: frame `i` gets the scaled
      source sample `i` in every channel; samples past the frames written
      are untouched. */
  method WriteScaledFrames(a: array<int>, channels: nat, source: seq<int>, volume: real)
    requires |source| * channels <= a.Length
    modifies a
    ensures FramesHold(a[..], channels, ScaledRun(source, volume))
    ensures forall j :: |source| * channels <= j < a.Length ==> a[j] == old(a[j])
  {
    ghost var run := ScaledRun(source, volume);
    var n := |source|;
    var i := 0;
    while i < n
      invariant 0 <= i <= n
      invariant FramesHold(a[..], channels, run[..i])
      invariant forall j :: i * channels <= j < a.Length ==> a[j] == old(a[j])
    {
      var out := ScaleSample(source[i], volume);
      ghost var before := a[..];
      NextFrameBase(i, n, channels);
      WriteFrame(a, i * channels, channels, out);
      FramesExtend(before, a[..], channels, run, i);
      i := i + 1;
    }
    assert run[..n] == run;
  }

  /** Silencing the samples after the frames of `run` keeps those frames. */
  lemma TailKeepsFrames(filled: seq<int>, after: seq<int>, channels: nat, run: seq<int>, to: nat)
    requires |after| == |filled|
    requires FramesHold(filled, channels, run)
    requires forall j :: 0 <= j < |after| ==>
      after[j] == (if |run| * channels <= j < to then 0 else filled[j])
    ensures FramesHold(after, channels, run)
  {
    forall f, c | 0 <= f < |run| && 0 <= c < channels
      ensures Slot(f, c, channels) < |after| && after[Slot(f, c, channels)] == run[f]
    {
      FrameSlotBelow(f, c, |run|, channels);
    }
  }

  /** Frame `i` starts right after frame `i - 1` ends, and fits in `n` frames. */
  lemma NextFrameBase(i: nat, n: nat, channels: nat)
    requires i < n
    ensures (i + 1) * channels == i * channels + channels
    ensures (i + 1) * channels <= n * channels
  {
    MulLeq(i + 1, n, channels);
  }

  /** Writing frame `i` keeps frames `0 .. i - 1` and adds frame `i`. */
  lemma FramesExtend(before: seq<int>, after: seq<int>, channels: nat, run: seq<int>, i: nat)
    requires i < |run| && |after| == |before|
    requires i * channels + channels <= |before|
    requires FramesHold(before, channels, run[..i])
    requires forall j :: 0 <= j < |after| ==>
      after[j] == (if i * channels <= j < i * channels + channels then run[i] else before[j])
    ensures FramesHold(after, channels, run[..i + 1])
  {
    forall f, c | 0 <= f < i + 1 && 0 <= c < channels
      ensures Slot(f, c, channels) < |after| && after[Slot(f, c, channels)] == run[..i + 1][f]
    {
      if f < i {
        SlotsOrdered(f, c, i, channels);
        assert run[..i][f] == run[f];
      }
    }
  }

  /** The channel loop: every channel of the frame starting at `base` gets
      the same sample. */
  method WriteFrame(a: array<int>, base: nat, channels: nat, out: int)
    requires base + channels <= a.Length
    modifies a
    ensures forall j :: 0 <= j < a.Length ==> a[j] == (if base <= j < base + channels then out else old(a[j]))
  {
    var c := 0;
    while c < channels
      invariant 0 <= c <= channels
      invariant forall j :: 0 <= j < a.Length ==> a[j] == (if base <= j < base + c then out else old(a[j]))
    {
      a[base + c] := out;
      c := c + 1;
    }
  }

  /** Samples `from .. to - 1` are silence. */
  ghost predicate Silent(samples: seq<int>, from: int, to: int)
  {
    forall j :: from <= j < to && 0 <= j < |samples| ==> samples[j] == 0
  }

  /** Every channel of frame `f` holds `run[f]`, for each frame of `run`. */
  ghost predicate FramesHold(samples: seq<int>, channels: nat, run: seq<int>)
  {
    forall f, c :: 0 <= f < |run| && 0 <= c < channels ==>
      Slot(f, c, channels) < |samples| && samples[Slot(f, c, channels)] == run[f]
  }

  lemma FramesBelow(n: nat, channels: nat)
    ensures forall f, c :: 0 <= f < n && 0 <= c < channels ==> Slot(f, c, channels) < n * channels
  {
    forall f, c | 0 <= f < n && 0 <= c < channels
      ensures Slot(f, c, channels) < n * channels
    {
      FrameSlotBelow(f, c, n, channels);
    }
  }

  /** Reading the first channel back from filled frames gives the run. */
  lemma FirstChannelOfFrames(samples: seq<int>, channels: nat, run: seq<int>)
    requires channels >= 1 && |run| * channels <= |samples|
    requires FramesHold(samples, channels, run)
    ensures FirstChannel(samples, channels, |run|) == run
  {
    var fc := FirstChannel(samples, channels, |run|);
    forall f | 0 <= f < |run|
      ensures fc[f] == run[f]
    {
      assert samples[Slot(f, 0, channels)] == run[f];
    }
  }
}
