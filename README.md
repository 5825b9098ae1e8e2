# Wake-word detector audio path, modelled in Dafny

This project models the wake-word-only audio processor of the home-assistant speech service
(`docker/speech/wake_word_detector.py`). The processor keeps a rolling buffer of the last 30 seconds
of 16 kHz mono audio. The buffer starts as 480000 zeros. Every capture callback does two things:

1. It rolls the buffer left by the frame length and writes the frame into the vacated tail.
2. It walks the wake-word model's (label, score) pairs in order. The first label whose score is
   strictly greater than 0.5 saves the buffer once, and the walk stops there.

Modules:

- `NumpyOps` (`numpy_ops.dfy`): `np.roll(a, -k)` as `Roll`, which allocates a new array as numpy
  does, and the slice assignment `a[-n:] = v` as `AssignTail`. It also holds their pure
  specifications `RollLeft` and `TailSliceStart`. `TailSliceStart` follows Python's slice rules:
  `-0` is `0`, and a start before the beginning is clamped.
- `StreamWindow` (`stream_window.dfy`): what the buffer should hold. `Window(cap, s)` is the last
  `cap` samples of `cap` zeros followed by the stream `s`. `Concat` joins the frames in arrival
  order.
- `WakeWordTrigger` (`trigger.dfy`): `FirstOver`, the first-match threshold rule over the ordered
  prediction.
- `WakeWordDetector` (`wake_word_detector.dfy`): the constants and the `AudioProcessor` class.
  - `buffer` is an `array<real>`.
  - The ghost field `Frames` records every frame received.
  - The ghost field `Saved` records every saved `Clip`: the buffer contents plus the metadata
    constants (sample rate, channels, duration).
  - `Valid()` is the object invariant. It says the buffer has length 480000 and equals
    `Window(480000, Concat(Frames))`, and that every saved clip's sample count agrees with its
    metadata.

This revision of the program has no speech-activity detection, continuous mode, transcript
filtering or command mapping, so none is modelled.

## Model

| member | source | states |
|---|---|---|
| `WakeWordDetector.AudioProcessor.constructor` | docker/speech/wake_word_detector.py:19-27 | The buffer starts as 480000 zeros (`SAMPLE_RATE * BUFFER_DURATION`), and the invariant holds before any frame arrives. |
| `WakeWordDetector.AudioProcessor.UpdateBuffer` | docker/speech/wake_word_detector.py:41-43 | For 0 < n <= 480000, the new buffer is the old buffer without its oldest n samples, followed by the frame. The length stays constant. The invariant (buffer = last 480000 samples of zeros ++ all frames) is preserved. |
| `WakeWordDetector.AudioProcessor.SaveAudioSegment` | docker/speech/wake_word_detector.py:55-81 | Exactly one clip is recorded. It holds the current buffer contents with metadata (16000, 1, 30), and its sample count equals rate × duration × channels. The buffer and frames are unchanged. |
| `WakeWordDetector.AudioProcessor.AudioCallback` | docker/speech/wake_word_detector.py:29-53 | The buffer is updated first. A label is detected iff some score is strictly above 0.5, and the detected label is the first such one in iteration order. Exactly one save happens when detected and none otherwise, and earlier saves are untouched. The saved clip is the updated buffer, whose tail is the triggering frame, with metadata (16000, 1, 30). |
| `WakeWordDetector.ChunkFitsBuffer` | docker/speech/wake_word_detector.py:12-15 | The capacity is 480000, and a 1024-sample block exactly fits the tail slice `buffer[-1024:]`. |
| `NumpyOps.TailSliceStart` | docker/speech/wake_word_detector.py:43 | The slice `a[-n:]` of a length-`len` array has exactly n slots iff 0 < n <= len (or both are 0). So n = 0 (whole buffer) and n > len (clamped) make the assignment's shapes mismatch. For 0 < n <= len the slice starts at len - n. |
| `NumpyOps.RollLeftSplit` | docker/speech/wake_word_detector.py:42 | For k <= len, `np.roll(s, -k)` equals `s[k..]` followed by `s[..k]`. The oldest k samples move to the tail, and every other sample moves k slots left. |
| `NumpyOps.Roll` | docker/speech/wake_word_detector.py:42 | Returns a fresh array whose contents are `RollLeft` of the input. |
| `NumpyOps.AssignTail` | docker/speech/wake_word_detector.py:43 | When shapes match, the last n slots become the values in order, and every earlier slot is unchanged. |
| `StreamWindow.Window` | docker/speech/wake_word_detector.py:26 | The window always has exactly `cap` samples. |
| `StreamWindow.WindowEmpty` | docker/speech/wake_word_detector.py:26 | With no frames received, the window is all zeros. |
| `StreamWindow.WindowAppend` | docker/speech/wake_word_detector.py:41-43 | Appending a frame of at most `cap` samples to the stream drops as many of the window's oldest samples as f has and puts f at its end. This is the callback's shift-then-write, stated on the specification. |
| `StreamWindow.WindowOfLongStream` | docker/speech/wake_word_detector.py:41-43 | Once at least `cap` samples arrived, the window is exactly the most recent `cap` samples, in arrival order. No zero remains. |
| `StreamWindow.WindowOfShortStream` | docker/speech/wake_word_detector.py:26 | Before `cap` samples arrived, the window is the remaining initial zeros followed by the whole stream. |
| `StreamWindow.ConcatAppend` | docker/speech/wake_word_detector.py:41-43 | Recording one more frame extends the concatenated stream by exactly that frame, in arrival order. |
| `StreamWindow.ConcatLengthUniform` | docker/speech/wake_word_detector.py:89 | N frames of L samples each (the stream's fixed block size) concatenate to a stream of exactly N·L samples. |
| `StreamWindow.RecentSamples` | docker/speech/wake_word_detector.py:41-43 | After N frames of L samples with N·L >= cap, the buffer's window is exactly the last `cap` samples of the concatenated frames. |
| `WakeWordTrigger.FirstOver` | docker/speech/wake_word_detector.py:49-53 | The result is None iff no score is strictly above the threshold. Otherwise it is the index of a score above the threshold, and every earlier score is at or below it (first match wins). |
| `WakeWordTrigger.FirstOverIgnoresRest` | docker/speech/wake_word_detector.py:53 | Once a prefix of the prediction triggers, whatever follows it cannot change the result. The entries after the `break` are never consulted. |
| `WakeWordTrigger.AtThresholdNeverTriggers` | docker/speech/wake_word_detector.py:50 | An entry whose score equals the threshold, anywhere in the prediction, is never the one that triggers (strict `>`). |
| `WakeWordTrigger.AtOrBelowThresholdNoTrigger` | docker/speech/wake_word_detector.py:49-53 | When every score is at or below the threshold, even with some score exactly equal to it, nothing triggers. |

## Left out

- The audio stream, `start`'s sleep loop and its `KeyboardInterrupt`/exception handling (lines 83-99) are device I/O and process lifecycle. The only thing kept from them is the block size 1024 (`ChunkFitsBuffer`).
- The openwakeword `Model` construction and `predict` (lines 20-23, 46) are a foreign ML call. The prediction is an input of `AudioCallback`: a sequence of (label, score) pairs in the dictionary's iteration order. Scores are `real`, not 32-bit floats.
- WAV writing, the JSON metadata file, the timestamped file name and `datetime.now()` (lines 57-81) are file I/O and wall clock. A save is recorded as a ghost `Clip` holding the buffer and the metadata constants. The timestamp is not modelled. The file name has one-second resolution (lines 57-58), so detections in several frames within the same second write to the same `.wav` and `.json` paths and only the last of them is kept; `Saved` records every call to save, not the files that remain.
- The float-to-int16 conversion `(buffer * 32767).astype(np.int16)` (line 67) is floating-point scaling with platform truncation. The clip holds the unscaled samples.
- The multi-channel `np.mean` branch (lines 35-36) is unreachable with `CHANNELS = 1`. Frames are already mono.
- `buffer_lock` and threading (lines 27, 41) are concurrency. Each callback is one atomic sequential step. `save_audio_segment` reads the buffer without the lock (line 67), and that race is not modelled.
- The unused `audio_buffer` queue and `recording` flag (lines 24-25) have no effect on behaviour.
- The `status` print (lines 31-32) and the detection print (line 51) are logging.
- `WakeWordDetector.AudioProcessor.UpdateBuffer`: requires 0 < n <= 480000, so it does not model the exception numpy raises for other frame lengths. For n = 0 the roll is a no-op and the assignment raises. For n > 480000 the rolled buffer is already stored when the assignment raises. `TailSliceStart` states exactly when the assignment succeeds, and the stream's fixed block size of 1024 always satisfies it.
- `WakeWordDetector.AudioProcessor.AudioCallback`: same frame-length precondition as `UpdateBuffer`, for the same reason.
