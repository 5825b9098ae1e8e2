/**
 * The wake-word detector's audio processor: a 30-second rolling buffer updated by
 * every capture callback, and a save of that buffer whenever the wake-word model
 * scores some label above the detection threshold.
 *
 * The model's prediction is an input of the callback; a save is recorded as a
 * ghost `Clip` (the buffer contents and the metadata written beside them).
 */
module WakeWordDetector {
  import opened Wrappers
  import opened NumpyOps
  import opened StreamWindow
  import opened WakeWordTrigger

  const SAMPLE_RATE: nat := 16000
  const CHANNELS: nat := 1
  const CHUNK_SIZE: nat := 1024
  /** Seconds of audio the buffer keeps. */
  const BUFFER_DURATION: nat := 30
  const DETECTION_THRESHOLD: real := 0.5
  /** Capacity of the rolling buffer, in samples. */
  const BUFFER_SIZE: nat := SAMPLE_RATE * BUFFER_DURATION

  /** A saved segment: the samples written to the WAV file and the metadata record beside it. */
  datatype Clip = Clip(samples: seq<real>, sampleRate: nat, channels: nat, duration: nat)

  /** The metadata agrees with the audio: duration seconds of sampleRate mono samples. */
  predicate Consistent(c: Clip)
  {
    |c.samples| == c.sampleRate * c.duration * c.channels
  }

  /** The stream's fixed block size always fits the buffer's tail slice. */
  lemma ChunkFitsBuffer()
    ensures BUFFER_SIZE == 480000
    ensures BUFFER_SIZE - TailSliceStart(BUFFER_SIZE, CHUNK_SIZE) == CHUNK_SIZE
  {
  }

  class AudioProcessor {
    /** The rolling buffer, `self.buffer`. */
    var buffer: array<real>
    /** Every frame the buffer received, in arrival order. */
    ghost var Frames: seq<seq<real>>
    /** Every segment saved so far, oldest first. */
    ghost var Saved: seq<Clip>

    /** The buffer is the last BUFFER_SIZE samples of zeros followed by all frames. */
    ghost predicate Valid()
      reads this, buffer
    {
      buffer.Length == BUFFER_SIZE &&
      buffer[..] == Window(BUFFER_SIZE, Concat(Frames)) &&
      forall i :: 0 <= i < |Saved| ==> Consistent(Saved[i])
    }

    /** `__init__`: the buffer starts as BUFFER_SIZE zeros; nothing received, nothing saved. */
    constructor ()
      ensures Valid() && fresh(buffer)
      ensures buffer[..] == Zeros(BUFFER_SIZE)
      ensures Frames == [] && Saved == []
    {
      buffer := new real[BUFFER_SIZE](_ => 0.0);
      Frames := [];
      Saved := [];
      WindowEmpty(BUFFER_SIZE);
    }

    /**
     * The buffer update of the callback: roll left by the frame length (a new array,
     * which `buffer` is rebound to), then overwrite the tail with the frame.
     */
    method UpdateBuffer(frame: seq<real>)
      requires Valid()
      requires 0 < |frame| <= BUFFER_SIZE
      modifies this
      ensures Valid() && fresh(buffer)
      ensures Frames == old(Frames) + [frame] && Saved == old(Saved)
      ensures buffer[..] == old(buffer[..])[|frame|..] + frame
    {
      ghost var before := buffer[..];
      buffer := Roll(buffer, |frame|);
      AssignTail(buffer, frame);
      RollLeftSplit(before, |frame|);
      assert (before[|frame|..] + before[..|frame|])[..BUFFER_SIZE - |frame|] == before[|frame|..];
      ConcatAppend(Frames, frame);
      WindowAppend(BUFFER_SIZE, Concat(Frames), frame);
      Frames := Frames + [frame];
    }

    /** `save_audio_segment`: the current buffer is written out with the constant metadata. */
    method SaveAudioSegment()
      requires Valid()
      modifies this
      ensures Valid()
      ensures Saved == old(Saved) + [Clip(buffer[..], SAMPLE_RATE, CHANNELS, BUFFER_DURATION)]
      ensures buffer == old(buffer) && Frames == old(Frames)
    {
      Saved := Saved + [Clip(buffer[..], SAMPLE_RATE, CHANNELS, BUFFER_DURATION)];
    }

    /**
     * `audio_callback` for one mono frame and the model's prediction for it: update
     * the buffer, then save once for the first label scoring above the threshold.
     */
    method AudioCallback(frame: seq<real>, prediction: seq<Score>) returns (detected: Option<string>)
      requires Valid()
      requires 0 < |frame| <= BUFFER_SIZE
      modifies this
      ensures Valid()
      ensures Frames == old(Frames) + [frame]
      ensures buffer[..] == old(buffer[..])[|frame|..] + frame
      ensures detected.Some? <==> exists i :: 0 <= i < |prediction| && prediction[i].1 > DETECTION_THRESHOLD
      ensures detected.Some? ==>
        var k := FirstOver(prediction, DETECTION_THRESHOLD);
        k.Some? && detected.value == prediction[k.value].0
      ensures |Saved| == |old(Saved)| + (if detected.Some? then 1 else 0)
      ensures Saved[..|old(Saved)|] == old(Saved)
      ensures detected.Some? ==>
        Saved[|Saved| - 1] == Clip(buffer[..], SAMPLE_RATE, CHANNELS, BUFFER_DURATION) &&
        buffer[BUFFER_SIZE - |frame|..] == frame
    {
      UpdateBuffer(frame);
      detected := None;
      var i := 0;
      while i < |prediction|
        invariant 0 <= i <= |prediction|
        invariant Valid() && detected == None
        invariant Frames == old(Frames) + [frame] && Saved == old(Saved)
        invariant buffer[..] == old(buffer[..])[|frame|..] + frame
        invariant forall j :: 0 <= j < i ==> prediction[j].1 <= DETECTION_THRESHOLD
      {
        var (wakeWord, score) := prediction[i];
        if score > DETECTION_THRESHOLD {
          SaveAudioSegment();
          detected := Some(wakeWord);
          break;
        }
        i := i + 1;
      }
    }
  }
}
