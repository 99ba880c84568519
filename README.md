# audio-capture, modelled in Dafny

audio-capture is a Windows program that records what the default playback
device is playing (loopback capture). The operator presses Enter to switch
between "Idle" and "Listening". A capture thread pulls packets from the audio
service into a shared byte buffer while listening. On each stop, the control
thread writes the buffer to a timestamped WAV file and clears it.

This project models the three pieces of sequential logic in `src/main.rs`:

- **The toggle handler** of `main` (module `Control`). `Control.Toggle` is one
  round of the control loop. It is a method on `Shared.SharedState`, which
  holds the three shared cells: the recording flag, the byte buffer and the
  mix format. The method is proved equal to the pure step `Control.ToggleSpec`,
  and that step carries the handler's properties.
- **The capture loop** of `capture_audio` (module `Capture`).
  `Capture.CaptureEngine.Step` is one iteration of the edge detector. It
  issues Start on a rising edge and Stop on a falling edge, and it logs these
  calls. `Capture.CaptureEngine.Pump` is the `while packet_length > 0` drain,
  written as a loop. Both are proved against the pure functions
  `Capture.StepSpec` and `Capture.Drain`.
- **The conversion in `save_as_wav`** (modules `WaveFormat`, `Framing` and
  `LittleEndian`). It covers the header built from the mix format, the split
  into `wBitsPerSample / 8`-byte chunks, and the little-endian decoding of each
  chunk. Decoding stops at integers and bit patterns.

The module `Session` links the two threads. The bytes a stop hands to the save
are exactly the bytes the drains appended since the start.

Inputs stand in for what the program gets from outside:
- The audio service's answers are a sequence of `Capture.Poll` values. Each is
  a packet with its frame count, its buffer and whether its release
  succeeded, or a failed call. Whether a Start or Stop call succeeds is a
  boolean.
- The file system's answers are a `Control.Env`: whether `create_dir_all`
  succeeded and whether the save succeeded.
- A save is represented by the `Control.SaveRequest` (bytes and format) it
  was called with.

Two behaviours of the conversion that the model states as the code has them:
- **24-bit samples are not sign-extended.** `src/main.rs:241` puts a zero top
  byte under the three bytes, so `00 00 80` reads as 8388608, above the
  divisor 8388607 at line 242, and comes out slightly above 1.0
  (`Framing.Decode24IsNotSignExtended`).
- **Unsupported bit depths write silence.** Any depth other than 16, 24 or 32
  yields 0.0 for every chunk at line 252 (`Framing.UnsupportedDepthIsSilence`).
  Only a depth below 8 fails, because `chunks_exact(0)` panics
  (`Framing.Samples`).

## Model

| member | source | states |
|---|---|---|
| `LittleEndian.FromLeToLe` | src/main.rs:239-249 | writing a value that fits in n bytes little-endian and reading it back gives the value |
| `LittleEndian.ToLeFromLe` | src/main.rs:239-249 | reading n bytes little-endian and writing the value back gives the same bytes |
| `LittleEndian.SignedUnsigned` | src/main.rs:239-247 | the two's-complement reading inverts the two's-complement pattern of every in-range value |
| `LittleEndian.UnsignedSigned` | src/main.rs:239-247 | the two's-complement pattern inverts the reading of every n-byte value |
| `LittleEndian.LeExpansion` | src/main.rs:239-249 | `from_le_bytes` of two, three-plus-zero and four bytes is b0 + 256·b1 + 65536·b2 + 16777216·b3 |
| `WaveFormat.HeaderSpec` | src/main.rs:218-227 | the header copies channels, sample rate and bits per sample; the sample format is Int exactly when the tag is WAVE_FORMAT_PCM |
| `Framing.Chunks` | src/main.rs:235-237 | `chunks_exact(k)` gives floor(len / k) chunks of exactly k bytes |
| `Framing.ChunkAt` | src/main.rs:235-237 | chunk i is bytes i·k to i·k + k of the buffer |
| `Framing.ChunksDropOnlyTail` | src/main.rs:235-237 | the chunks concatenate to the buffer minus a tail shorter than one chunk, which is dropped |
| `Framing.ChunksOfFlatten` | src/main.rs:235-237 | splitting a concatenation of k-byte pieces gives the pieces back |
| `Framing.DecodeChunk` | src/main.rs:238-252 | 16-bit: two's complement in [-32768, 32767]; 24-bit: b0 + 256·b1 + 65536·b2, in [0, 2^24) and never negative; 32-bit PCM: two's-complement i32; 32-bit other tag: the raw bit pattern; other depths: Zero |
| `Framing.DecodeEncode` | src/main.rs:238-252 | decoding the bytes of any sample that the format can produce gives back that sample |
| `Framing.EncodeDecode` | src/main.rs:238-251 | at 16, 24 and 32 bits decoding loses nothing: the chunk can be rebuilt from its sample |
| `Framing.Decode24IsNotSignExtended` | src/main.rs:240-243 | the bytes 00 00 80 decode to 8388608, above the divisor 8388607 |
| `Framing.Samples` | src/main.rs:233-253 | conversion fails (the `chunks_exact` panic) exactly when bits per sample is below 8; otherwise there are len / (bits/8) samples, each one the format can produce |
| `Framing.SampleAt` | src/main.rs:235-253 | sample i is decoded from bytes i·k to i·k + k, where k = bits/8 |
| `Framing.UnsupportedDepthIsSilence` | src/main.rs:252 | at any depth of 8 bits or more other than 16, 24 and 32, every sample is Zero, which is written as 0.0 |
| `Framing.SamplesRoundTrip` | src/main.rs:233-253 | converting a buffer made by encoding a sequence of samples gives back exactly that sequence |
| `Framing.HeaderAgreesWith32BitDecoding` | src/main.rs:218-250 | at 32 bits the samples are integers exactly when the header says Int, and float bit patterns exactly when it says Float |
| `Framing.SamplesPerFrame` | src/main.rs:233-237 | a buffer of whole frames gives channels × frames samples when nBlockAlign = channels × bits/8 |
| `Framing.StereoScenario` | src/main.rs:218-237 | 9600 bytes of 16-bit stereo PCM at 44100 Hz save with header (2, 44100, 16, Int) and 2400 × 2 samples |
| `Shared.SharedState.constructor` | src/main.rs:36-38 | the program starts idle, with an empty buffer and no mix format |
| `Control.ToggleSpec` | src/main.rs:58-105 | the flag flips and the printed status names the new state; a save is attempted, with the buffer and the format, exactly on a stop with a non-empty buffer, a known format and a created directory; an empty buffer and a missing format take their own log paths; only a failed directory creation ends `main`, before the clear; a stop that reports leaves the buffer empty, and a start leaves it unchanged |
| `Control.Toggle` | src/main.rs:58-105 | the handler's new shared state, printed outcome and attempted save are those of ToggleSpec |
| `Control.LabelsAlternate` | src/main.rs:52-108 | successive toggles print alternating states, starting opposite to the initial flag, whatever the capture thread does in between; only the last round can end the loop |
| `Control.StartThenStopWithoutPackets` | src/main.rs:60-105 | start then stop with nothing captured prints "Listening", then "Idle" on the no-audio path, with no save |
| `Capture.Payload` | src/main.rs:194-197 | a packet contributes exactly `num_frames * nBlockAlign` bytes |
| `Capture.Drain` | src/main.rs:179-204 | the drain appends whole frames only (length = frames × nBlockAlign); an empty queue appends nothing |
| `Capture.DrainStopsAtEmpty` | src/main.rs:179-204 | the drain appends exactly the payloads of the packets before the first size 0 and succeeds |
| `Capture.DrainStopsAtFailure` | src/main.rs:179-203 | a failed call ends the drain with failure, after the earlier packets were appended |
| `Capture.DrainStopsAtReleaseFailure` | src/main.rs:194-201 | a packet whose `ReleaseBuffer` fails ends the drain with failure, after it and the packets before it were appended |
| `Capture.StepSpec` | src/main.rs:159-206 | Start is issued only when recording and not was_recording, and Stop only when not recording and was_recording; afterwards was_recording equals the flag, unless the Start or Stop call failed, which leaves it as it was; while idle the buffer is untouched; while recording the drain's bytes go at the tail and earlier bytes are unchanged |
| `Capture.StepKeepsConsistent` | src/main.rs:157-172 | every iteration keeps the calls alternating Start, Stop, … with was_recording set exactly after a Start |
| `Capture.StepKeepsWholeFrames` | src/main.rs:194-199 | a buffer of whole frames stays one after an iteration |
| `Capture.RunAlternates` | src/main.rs:157-207 | over any run of iterations and any flag values, the audio client never gets two Starts without a Stop between them |
| `Capture.CaptureEngine.constructor` | src/main.rs:157 | the loop begins with was_recording false and no calls made |
| `Capture.CaptureEngine.Step` | src/main.rs:159-206 | one loop iteration changes the engine state and the buffer as StepSpec says, keeps the engine invariant, and leaves the flag and the format alone |
| `Capture.CaptureEngine.Pump` | src/main.rs:179-204 | the drain loop appends exactly Drain's bytes at the tail and reports Drain's success |
| `Capture.Open` | src/main.rs:133-157 | the mix format is published as soon as it is read, even when `Initialize` then fails; the loop runs only when both succeed, and it starts with was_recording false |
| `Session.RecordingRunAppends` | src/main.rs:159-204 | while the flag stays set and every call succeeds, the buffer grows by exactly the concatenation of the drains' bytes, in order |
| `Session.StopSavesTheSession` | src/main.rs:66-96 | after a session the stop saves exactly the bytes the drains appended, with the published format, and leaves the buffer empty |

## Left out

- COM start-up, device enumeration, `Activate`, `GetMixFormat`, `Initialize` and `GetService` (src/main.rs:123-154) are foreign calls. `Capture.Open` reduces them to the format they produce and whether they succeed.
- `Capture.Fits` and `Capture.Delivers`, required by `Capture.Drain` and the members that use it, take on trust that `GetBuffer` hands out at least `num_frames * nBlockAlign` bytes, as `slice::from_raw_parts` at src/main.rs:197 does; the model does not cover an audio service that breaks this.
- `GetBuffer`, `ReleaseBuffer` and `slice::from_raw_parts` become the `Poll` inputs. The frame count `GetBuffer` reports is taken to equal the preceding `GetNextPacketSize`. The `flags` out-parameter is ignored, as the program ignores it.
- Threads, mutexes, and the 100 ms and 10 ms sleeps are not modelled. Each thread's step is modelled on its own. Interleavings appear only as arbitrary changes made by the other thread between steps (`Control.Round`, `Capture.Observed`). A packet appended after the flag flips but before the capture thread looks again falls in that gap.
- The float scaling (`/ i16::MAX`, `/ 8388607.0`, `/ i32::MAX`) and `f32::from_le_bytes` are floating point. The model stops at the integer or the bit pattern.
- The WAV writer (`hound::WavWriter::create`, `write_sample`, `finalize`), `create_dir_all` and the timestamped file name come from an unseen library, the file system and the clock. The save is an abstract success or failure. The file name is not modelled.
- Control.Toggle: a panic inside the save (`chunks_exact(0)` when bits per sample is below 8) is modelled as a failed save, followed by the clear and "Idle". In the program the panic ends `main` with the buffer not cleared, as `ToggleSpec`'s `Exited` outcome does. `Framing.Samples` models that panic as its own error.
- Reading stdin, writing stdout and the `tracing` log lines are I/O. The printed status and the log paths are the `Control.Outcome` value.
- `num_frames_available as usize * nBlockAlign` cannot overflow on a 64-bit target (at most 2^32 · 2^16), so it is plain integer arithmetic here.
