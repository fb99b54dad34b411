# pyaudio_mixer track core in Dafny

This project models the sequential core of the two track classes of `pyaudio_mixer`.

- **OutputTrack** (`output_track.dfy`) is the playback track. Its `write` fills a bounded queue. A runner thread pops one chunk per cycle, runs the optional user callback, applies the volume curve when basic effects are on, and hands the chunk to the device. Writers and the runner coordinate through the clear signal (`abort`) and the stop signal (`stop`).
- **InputTrack** (`input_track.dfy`) is the capture track. A runner thread reads `chunk_size` frames per cycle and overwrites a single slot. `read()` returns that slot.
- **`chunk_split`** (`chunking.dfy`) cuts a decoded buffer into `max(1, floor(len/size))` pieces the way `numpy.array_split` does.
- **Channel matching in `play_file`** (`channels.dfy`) widens a decoded buffer with `numpy.repeat` along its last axis.
- **`queue.Queue`** (`bounded_queue.dfy`) models the queue the output track uses. A `maxsize` of 0 or less means the queue has no bound. A full bounded queue makes a non-blocking put fail and a blocking put wait.

Threads are modelled as atomic steps. A track's state is an immutable record. Each caller action (`write`, the signalling part of `abort`, the stop request, the volume setter) and each runner action (entering the stream, one loop turn, teardown) is a pure function on that record. `Run` replays any interleaving of these actions. The output track's `Run` also returns one event per step: the write outcome, the chunk popped, and the chunk handed to the device. The device is thereby an output log. On the input side, each runner turn is given the device as a function from the number of frames asked for (`chunk_size`) to what the read returns. There is one runner per track: `Start` acts only on a stopped track, and a runner turn does nothing while the track is stopped.

Sample values are never inspected. Chunks, frames and samples are type parameters. The volume curve is a function parameter `basicFx(volume, chunk)`. The output callback is a function of the track's state and the popped value, as `callback(self, data)` receives the track. Of an open stream the model keeps only its channel count, the one field the modelled code reads.

In these places the model follows the code, where a reader might expect otherwise:

- Teardown in the output runner leaves the queue and `playing` as they were. It does not clear them.
- The clear signal is reset only inside `write`, which also empties the queue. The runner never resets it.
- `start()` has no guard against a track that is already running.
- The input track stores its callback but never calls it. The class documentation and its tests expect a call.
- For a channel mismatch other than mono on a stereo stream, each sample is repeated by the source's own channel count. No error is reported. See Findings.
- A clear signal raised while no writer is active outlives the playback it was meant for. See Findings.

## Model

| member | source | states |
|---|---|---|
| BoundedQueue.Put | pyaudio_mixer/output.py:134-138 | a put succeeds exactly when the queue is not full and then appends at the tail; on a full queue a non-blocking put reports `Full` and a blocking one waits; the bound is kept |
| BoundedQueue.GetNowait | pyaudio_mixer/output.py:288-291 | a non-blocking get reports `Empty` exactly on an empty queue, otherwise returns the head and the rest in order |
| BoundedQueue.Clear | pyaudio_mixer/output.py:130 | clearing leaves an empty queue with the same bound |
| BoundedQueue.FifoRoundTrip | pyaudio_mixer/output.py:60 | items put into an unbounded queue all fit and come back out in the order they went in, after what was already queued, leaving it empty |
| BoundedQueue.PutAllKeepsPrefix | pyaudio_mixer/output.py:134-138 | non-blocking puts into a bounded queue keep exactly as many leading items as there is room for and reject all the rest |
| Chunking.SectionCount | pyaudio_mixer/output.py:181-183 | the section count is at least 1, and exactly 1 for a negative size; for a positive size it is `floor(len/size)` when that is at least 1, so that `n * size <= len < (n + 1) * size`, and 1 otherwise |
| Chunking.ArraySplit | pyaudio_mixer/output.py:185 | `array_split` yields exactly `n` sections; section `i` holds `len / n` frames plus one for the first `len % n` sections |
| Chunking.ArraySplitConcat | pyaudio_mixer/output.py:185 | the sections concatenate back to the input |
| Chunking.ChunkSplit | pyaudio_mixer/output.py:181-185 | `chunk_split` fails exactly for `size == 0` (division by zero); otherwise it returns `SectionCount` pieces that concatenate back to the input |
| Chunking.ChunkSplitBalanced | pyaudio_mixer/output.py:185 | piece lengths differ by at most one, and longer pieces come first |
| Chunking.ChunkSplitMinimum | pyaudio_mixer/output.py:181-185 | for a positive size there are `max(1, floor(len/size))` pieces, and when `len >= size` every piece holds at least `size` frames |
| Channels.ChannelCount | pyaudio_mixer/output.py:248-251 | a flat buffer counts as one channel (the `IndexError` fallback); a well-formed framed buffer's count is the length of every one of its frames (`shape[1]`) |
| Channels.RepeatFactor | pyaudio_mixer/output.py:253-255 | the repeat factor brings the source to the stream's channel count exactly for mono on stereo, or when the stream has the square of the source's count |
| Channels.RepeatEachIsRepeat | pyaudio_mixer/output.py:256 | the element repeat is `k` times as long as its input, and its `i`-th block of `k` elements holds `k` copies of element `i` |
| Channels.MatchChannels | pyaudio_mixer/output.py:248-256 | equal channel counts leave the data unchanged; otherwise each element along the last axis is repeated (twice for mono on stereo, else by the source's channel count); a framed buffer keeps its frame count and well-formedness |
| Channels.MatchStreamChannels | pyaudio_mixer/output.py:248-256 | the channel step fails (`AttributeError` on `self.stream.channels`) exactly when the track has no stream, and otherwise is the channel matching against that stream |
| Channels.MonoToStereo | pyaudio_mixer/output.py:253-256 | mono on a stereo stream: a flat buffer becomes twice as long with each sample twice in a row; a framed buffer keeps its frames and each becomes two equal channels |
| Channels.OtherMismatchSquaresChannels | pyaudio_mixer/output.py:253-256 | any other mismatch on a framed buffer of `c` channels yields `c * c` channels |
| Channels.SurroundOnStereoCounterexample | pyaudio_mixer/output.py:253-256 | a six-channel buffer on a stereo stream comes out with 36 channels |
| Channels.MatchChannelsChecked | pyaudio_mixer/output.py:248-256 | the corrected matching refuses exactly the layouts that are neither equal nor mono on a wider stream; equal counts pass the data through unchanged; otherwise the result has the stream's channel count, the same length, and every channel of an upmixed frame equals the mono sample |
| OutputTrack.Init | pyaudio_mixer/output.py:60-70 | a new track is stopped, has no stream, is not playing, has no signal raised and has an empty queue of the given capacity |
| OutputTrack.Construct | pyaudio_mixer/output.py:283-286 | after construction the track runs with an open stream, no signal raised, not playing and an empty queue |
| OutputTrack.Write | pyaudio_mixer/output.py:129-138 | a raised clear signal empties the queue, resets the signal and interrupts without enqueuing; otherwise a non-full queue gains the chunk at its tail with earlier chunks untouched, and a full one reports `False` (non-blocking) or waits, changing nothing; the track invariant is kept |
| OutputTrack.Put | pyaudio_mixer/output.py:134-138 | the put a blocked writer resumes does not look at the clear signal again: it enqueues if there is room and waits otherwise |
| OutputTrack.Abort | pyaudio_mixer/output.py:101-102 | after `abort` the clear signal is raised exactly when it already was or the track is playing; nothing else changes |
| OutputTrack.RequestStop | pyaudio_mixer/output.py:88-90 | `stop` raises the stop signal and changes nothing else |
| OutputTrack.Enter | pyaudio_mixer/output.py:284-286 | entering the stream clears `stopped` and sets the stream, changing nothing else |
| OutputTrack.Cycle | pyaudio_mixer/output.py:288-305 | a cycle pops the head or takes none and leaves an empty queue as it was; the callback is applied even to none; `playing` holds exactly when the callback's result is a chunk; exactly then a chunk is emitted, through the effects function iff `apply_basic_fx`; signals, lifecycle flags and volume are untouched |
| OutputTrack.CallbackPlaysOnEmptyQueue | pyaudio_mixer/output.py:288-303 | the callback is called with the track even when the queue is empty; a callback that answers `None` with a chunk keeps the track playing and that chunk (through the effects when on) reaches the device |
| OutputTrack.Teardown | pyaudio_mixer/output.py:307-310 | teardown sets `stopped`, drops the stream and resets the stop signal; queue, `playing`, the clear signal and the volume are unchanged |
| OutputTrack.SetVolume | pyaudio_mixer/output.py:77-79 | the volume getter returns what the setter stored, and nothing else changes |
| OutputTrack.VolumeIsLastSet | pyaudio_mixer/output.py:73-79 | after any interleaving, the `volume` getter returns the value of the most recent setter call: no other action changes it |
| OutputTrack.Step | pyaudio_mixer/output.py:283-310 | every caller or runner action keeps the queue within its capacity and the stream open exactly while the track is not stopped |
| OutputTrack.RunPreservesValid | pyaudio_mixer/output.py:134-138 | across any interleaving of writes, aborts, stop requests, starts and runner turns, the queue never exceeds its capacity and the stream is open exactly while the track runs |
| OutputTrack.StepIsFifo | pyaudio_mixer/output.py:129-138 | one step removes from the queue's head (a pop or a full clear) and adds at its tail (an accepted write) only |
| OutputTrack.RunIsFifo | pyaudio_mixer/output.py:129-138 | across any interleaving, the chunks removed from the queue followed by those still queued equal the initial queue followed by every accepted chunk: no reordering, no duplicate, no unreported loss |
| OutputTrack.PlainConfigEmitsPopped | pyaudio_mixer/output.py:293-303 | without a callback and with effects off, the device receives exactly the popped chunks, in order |
| OutputTrack.EmittedInWriteOrder | pyaudio_mixer/output.py:288-303 | without an interrupted write, and with no callback or effects, the emitted chunks followed by those still queued are exactly the written stream, so each written chunk is played once and in order |
| OutputTrack.StepClearSignal | pyaudio_mixer/output.py:101-132 | the clear signal is raised only by `abort` on a playing track and reset only by `write` |
| OutputTrack.ClearSignalPersistsWithoutWrite | pyaudio_mixer/output.py:129-131 | without a `write`, a raised clear signal survives any number of cycles, teardowns and restarts |
| OutputTrack.StopAfterConstruct | tests/output.py:26-36 | `stop()` on a fresh track leaves it stopped, with no stream and both signals down |
| OutputTrack.BackpressureScenario | pyaudio_mixer/output.py:107-138 | with capacity two, three non-blocking writes give `True, True, False`; after two cycles play the first two chunks, a fourth write is accepted |
| OutputTrack.PlayFileAfterStopFails | pyaudio_mixer/output.py:253 | on a stopped track, whose stream teardown has dropped, the channel step of `play_file` fails with no stream |
| OutputTrack.StaleClearSignalInterruptsNextWrite | pyaudio_mixer/output.py:96-132 | a clear signal raised while the queue drains on its own is still raised once the track is idle, and it interrupts the next playback's first write, whose chunk is never queued |
| OutputTrack.InterruptedPlaybackNeverStarts | pyaudio_mixer/output.py:276-305 | once the stale signal has emptied the queue and stopped the writer, runner turns with no callback keep the track idle with an empty queue, so the wait for `playing` in a non-blocking `play_file` never ends |
| OutputTrack.CycleAcknowledging | pyaudio_mixer/output.py:288-305 | the corrected runner cycle pops, calls back and emits exactly as written, and differs only in retiring the clear signal whenever it leaves the track idle |
| OutputTrack.StepAcknowledging | pyaudio_mixer/output.py:96-105 | with the corrected runner every action keeps the track invariant and keeps the clear signal raised only while the track plays; actions other than a cycle are as written |
| OutputTrack.AcknowledgingKeepsSignalWithPlaying | pyaudio_mixer/output.py:96-105 | with the corrected runner, across any interleaving, the clear signal is raised only while the track plays |
| OutputTrack.NextWriteAfterAbortAccepted | pyaudio_mixer/output.py:96-105 | with the corrected runner, whenever a constructed track is idle (as it is once `abort()` returns), the next `write` is not interrupted and is accepted if the queue has room |
| OutputTrack.AcknowledgedAbortSparesNextWrite | pyaudio_mixer/output.py:96-132 | in the stale-signal scenario, the corrected runner retires the signal when the track goes idle and the next playback's first chunk is queued |
| InputTrack.Init | pyaudio_mixer/input.py:33-41 | a new input track is stopped with no stream, no stop signal, no overflow and `read()` returning none |
| InputTrack.Construct | pyaudio_mixer/input.py:41-42 | after construction the track runs with an open stream and `read()` still returns none |
| InputTrack.Read | pyaudio_mixer/input.py:44-55 | `read()` returns none whenever the track is stopped |
| InputTrack.Enter | pyaudio_mixer/input.py:69-71 | entering the stream clears `stopped` and sets the stream, changing nothing else |
| InputTrack.Cycle | pyaudio_mixer/input.py:72-75 | a cycle publishes exactly the frames the device read returned and its overflow flag, changing nothing else |
| InputTrack.Teardown | pyaudio_mixer/input.py:79-83 | teardown sets `stopped`, drops the stream, empties the slot and resets the stop signal, so `read()` returns none |
| InputTrack.RequestStop | pyaudio_mixer/input.py:63-64 | `stop` raises the stop signal and changes nothing else |
| InputTrack.Step | pyaudio_mixer/input.py:68-83 | every action keeps the stream open exactly while the track is not stopped |
| InputTrack.RunPreservesValid | pyaudio_mixer/input.py:69-81 | across any interleaving of starts, stop requests and runner turns, the stream is open exactly while the track runs |
| InputTrack.CallbackNeverApplied | pyaudio_mixer/input.py:68-77 | two tracks with the same chunk size that differ only in their callback go through identical states: the callback is never applied |
| InputTrack.ReadReturnsLatest | pyaudio_mixer/input.py:72-75 | while the track runs without a stop request, `read()` returns the frames of the most recent device read of `chunk_size` frames (last write wins) |
| InputTrack.SlotHoldsChunkSizeFrames | pyaudio_mixer/input.py:73-74 | when every device read returns `chunk_size` frames, whatever `read()` returns holds `chunk_size` frames |
| InputTrack.StopClearsSlot | tests/input.py:23-26 | `stop()` on a running track ends with it stopped, without a stream or stop signal, and with `read()` returning none |

## Findings

| source | as written | input that shows it | evidently intended | confidence | as-written member | corrected member |
|---|---|---|---|---|---|---|
| pyaudio_mixer/output.py:253-256 | a channel mismatch other than mono on stereo repeats every sample by the source's own channel count | a two-dimensional buffer of 6 channels on a 2-channel stream comes out with 36 channels | the buffer reaches the stream's channel count, or the layout is reported as unsupported | medium, not executed | Channels.MatchChannels (Channels.SurroundOnStereoCounterexample, Channels.OtherMismatchSquaresChannels) | Channels.MatchChannelsChecked |
| pyaudio_mixer/output.py:96-132 | `abort()` raises the clear signal whenever the track plays, but only `write` resets it; when no writer is active, the runner drains the queue, goes idle and `abort()` returns with the signal still raised | `abort()` while the last queued chunk plays and no writer runs, then `play_file`: its first `write` is interrupted, its writer stops, and a non-blocking `play_file` waits for `playing` forever (output.py:276-277) | the signal affects only the playback in flight, as the `abort()` documentation says, and is gone once `abort()` returns | medium, not executed | OutputTrack.StaleClearSignalInterruptsNextWrite (OutputTrack.ClearSignalPersistsWithoutWrite, OutputTrack.InterruptedPlaybackNeverStarts) | OutputTrack.CycleAcknowledging (OutputTrack.AcknowledgingKeepsSignalWithPlaying, OutputTrack.NextWriteAfterAbortAccepted, OutputTrack.AcknowledgedAbortSparesNextWrite) |

For mono on stereo, a flat (one-dimensional) buffer stays flat and doubles in length, with each sample twice in a row. That is the interleaved stereo layout of the same number of frames. The model keeps it as written.

The corrected runner retires the clear signal when a cycle leaves the track idle, which is the moment `abort()` waits for. A writer that is slower than the device, and so lets the queue run dry while `abort()` is pending, is then no longer interrupted. As written, that writer is interrupted on its next `write`. The as-written runner stays the one `Run` uses; the corrected one is `RunAcknowledging`.

## Left out

- Device I/O: opening `sd.OutputStream` / `sd.InputStream`, `f.write` and `f.read`. Emission is the `emitted` part of a cycle's event. A device read is the `Reading` given to an input runner turn.
- Thread spawning and the busy-wait loops of `start`, `stop`, `abort` and `play_file`. Only their effects are modelled, as atomic actions. A second `start()` on a running track would spawn a second runner. The model has one runner and treats that `Start` as a no-op.
- The sleep in the input runner loop, because it only paces the loop.
- File decoding with `soundfile` and the ffmpeg conversion fallback of `play_file`, because they are file system and external-process work.
- `resample`, because it calls librosa's floating-point DSP. It is the only reader of the stream's sample rate, so the model's stream keeps just its channel count.
- The writer loop of `play_file` (`_write`), because it is a producer thread. Its effect is a sequence of `WriteCall` actions that stops at the first `Interrupted` outcome, plus `ResumePut` for a write that had to wait.
- `_apply_basic_fx` gain curve, because it is floating-point `pow`/`sqrt`. It is the opaque parameter `basicFx(volume, chunk)`.
- `Mixer`, because its source is not part of this model.
- `playing_details` and `InputTrack.volume`, because the tests refer to them but the modelled code does not define them.
- Non-atomic field updates inside one action, such as `_stopped` being set before `stream` in the runners. Each action is atomic in the model.
- OutputTrack.EmittedInWriteOrder: stated only for a track with no callback and effects off. A callback may drop, replace or inject chunks, and the gain changes chunk values. For those configurations, `OutputTrack.Cycle` gives the per-cycle relation and `OutputTrack.RunIsFifo` gives the queue order.
- OutputTrack.Cycle: the callback receives the track's state but cannot change it. It cannot call `write`, `abort` or the volume setter, although `callback(self, data)` can. The callback and the gain `basicFx` are total and never raise. In the source, an exception from either one ends the runner thread after the pop: for example, `_apply_basic_fx` raises on a negative volume, which the setter accepts, through `math.sqrt`. The popped chunk is then lost without a report, `_stopped` stays false, and `stop()` waits forever. The frame clause of `OutputTrack.Cycle` and the "no unreported loss" reading of `OutputTrack.RunIsFifo` rely on this.
- Chunking.ChunkSplit: computes `floor(len/size)` exactly. The source divides in floating point and truncates, which agrees for lengths below 2^53.
