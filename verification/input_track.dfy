/** The capture track `InputTrack`: a runner thread reads `chunk_size` frames per
    cycle from the device and overwrites a single slot that `read()` returns.

    As for the output track, each thread action is one atomic step over an immutable
    state value. The device is an input of each runner turn: a function from the
    number of frames asked for to what the read returns. */
module InputTrack {

  import opened Common

  /** What the device's `read(chunk_size)` returned: the frames and the overflow flag. */
  datatype Reading<F> = Reading(data: seq<F>, overflow: bool)

  /** The configuration `__init__` stores: the frame count each device read asks for,
      and the callback, which is kept but, unlike what the class documentation says,
      never called. */
  datatype Config<!F> = Config(
    chunkSize: int,
    callback: Option<(Track<F>, Option<seq<F>>, bool) -> Option<seq<F>>>)

  /** `_stop_signal`, `_stopped`, `stream`, the private data slot and `overflow`. */
  datatype Track<F> = Track(
    stopSignal: bool,
    stopped: bool,
    stream: Option<Stream>,
    slot: Option<seq<F>>,
    overflow: bool)

  /** Invariant of every reachable state: a stream is open exactly while the track is
      not stopped, and a stopped track holds no frames. */
  predicate Valid<F>(t: Track<F>)
  {
    (t.stream.Some? <==> !t.stopped) && (t.stopped ==> t.slot.None?)
  }

  /** The state `__init__` sets up before it calls `start()`. */
  function Init<F>(): (t: Track<F>)
    ensures Valid(t) && t.stopped && t.stream.None? && !t.stopSignal
    ensures Read(t).None? && !t.overflow
  {
    Track(false, true, None, None, false)
  }

  /** `read()`: the slot, whatever the runner last put there; a stopped track has
      nothing to return. */
  function Read<F>(t: Track<F>): (r: Option<seq<F>>)
    ensures Valid(t) && t.stopped ==> r.None?
  {
    t.slot
  }

  /** The runner entering its `with` block. */
  function Enter<F>(t: Track<F>, stream: Stream): (r: Track<F>)
    ensures !r.stopped && r.stream == Some(stream) && Valid(r)
    ensures r.(stopped := t.stopped, stream := t.stream) == t
  {
    t.(stopped := false, stream := Some(stream))
  }

  /** One pass of the runner loop: the slot and the overflow flag take exactly what
      the device read returned; nothing else changes. */
  function Cycle<F>(t: Track<F>, reading: Reading<F>): (r: Track<F>)
    ensures Read(r) == Some(reading.data) && r.overflow == reading.overflow
    ensures r.(slot := t.slot, overflow := t.overflow) == t
    ensures Valid(t) && !t.stopped ==> Valid(r)
  {
    t.(slot := Some(reading.data), overflow := reading.overflow)
  }

  /** The code after the runner loop: stopped, no stream, an empty slot and the stop
      signal reset. */
  function Teardown<F>(t: Track<F>): (r: Track<F>)
    ensures r.stopped && r.stream.None? && Read(r).None? && !r.stopSignal
    ensures r.overflow == t.overflow
    ensures Valid(r)
  {
    t.(stopped := true, stream := None, slot := None, stopSignal := false)
  }

  /** The request half of `stop()`: raise the stop signal. */
  function RequestStop<F>(t: Track<F>): (r: Track<F>)
    ensures r.stopSignal
    ensures r.(stopSignal := t.stopSignal) == t
  {
    t.(stopSignal := true)
  }

  /** Actions: the runner entering its stream, the stop request, and one turn of the
      runner's loop together with the device it reads from on that turn. */
  datatype Action<F> = Start(stream: Stream) | StopCall | RunnerTurn(device: int -> Reading<F>)

  /** One atomic step, with a single runner: `Start` only acts on a stopped track, and
      a runner turn tests the stop signal as the loop condition does and then reads
      `chunk_size` frames from the device. The callback is never used. */
  function Step<F>(t: Track<F>, cfg: Config<F>, a: Action<F>): (r: Track<F>)
    ensures Valid(t) ==> Valid(r)
  {
    match a
    case Start(stream) => if t.stopped then Enter(t, stream) else t
    case StopCall => RequestStop(t)
    case RunnerTurn(device) =>
      if t.stopped then t
      else if t.stopSignal then Teardown(t)
      else Cycle(t, device(cfg.chunkSize))
  }

  function Run<F>(t: Track<F>, cfg: Config<F>, acts: seq<Action<F>>): Track<F>
  {
    if |acts| == 0 then t else Step(Run(t, cfg, acts[..|acts| - 1]), cfg, acts[|acts| - 1])
  }

  /** A stream is open exactly while the track runs, whatever the interleaving. */
  lemma {:induction false} RunPreservesValid<F>(t: Track<F>, cfg: Config<F>, acts: seq<Action<F>>)
    requires Valid(t)
    ensures Valid(Run(t, cfg, acts))
  {
    if |acts| > 0 {
      RunPreservesValid(t, cfg, acts[..|acts| - 1]);
    }
  }

  /** Two tracks that differ only in their callback behave identically: the callback
      is never applied, and only the chunk size reaches the device. */
  lemma {:induction false} CallbackNeverApplied<F>(t: Track<F>, cfg1: Config<F>, cfg2: Config<F>, acts: seq<Action<F>>)
    requires cfg1.chunkSize == cfg2.chunkSize
    ensures Run(t, cfg1, acts) == Run(t, cfg2, acts)
  {
    if |acts| > 0 {
      CallbackNeverApplied(t, cfg1, cfg2, acts[..|acts| - 1]);
    }
  }

  /** All actions are runner turns. */
  predicate OnlyRunnerTurns<F>(acts: seq<Action<F>>)
  {
    forall i :: 0 <= i < |acts| ==> acts[i].RunnerTurn?
  }

  /** Last write wins: while the track runs without a stop request, `read()` returns
      the frames of the most recent device read, and only those. */
  lemma {:induction false} ReadReturnsLatest<F>(t: Track<F>, cfg: Config<F>, acts: seq<Action<F>>)
    requires !t.stopped && !t.stopSignal
    requires |acts| > 0 && OnlyRunnerTurns(acts)
    ensures Read(Run(t, cfg, acts)) == Some(acts[|acts| - 1].device(cfg.chunkSize).data)
    ensures !Run(t, cfg, acts).stopped && !Run(t, cfg, acts).stopSignal
  {
    if |acts| > 1 {
      ReadReturnsLatest(t, cfg, acts[..|acts| - 1]);
    }
  }

  /** When the device honours its contract of returning `chunk_size` frames per read,
      whatever `read()` returns holds `chunk_size` frames. */
  lemma {:induction false} SlotHoldsChunkSizeFrames<F>(t: Track<F>, cfg: Config<F>, acts: seq<Action<F>>)
    requires t.slot.Some? ==> |t.slot.value| == cfg.chunkSize
    requires forall i :: 0 <= i < |acts| && acts[i].RunnerTurn? ==> |acts[i].device(cfg.chunkSize).data| == cfg.chunkSize
    ensures Read(Run(t, cfg, acts)).Some? ==> |Read(Run(t, cfg, acts)).value| == cfg.chunkSize
  {
    if |acts| > 0 {
      SlotHoldsChunkSizeFrames(t, cfg, acts[..|acts| - 1]);
    }
  }

  /** Constructing a track, as `__init__` does with `start()`, leaves it running
      with an open stream and nothing read yet. */
  function Construct<F>(stream: Stream): (t: Track<F>)
    ensures Valid(t) && !t.stopped && t.stream == Some(stream) && !t.stopSignal
    ensures Read(t).None?
  {
    Enter(Init(), stream)
  }

  /** `stop()` on a running track: the request, then the runner's next turn, which
      tears down; afterwards `read()` returns `None`. */
  lemma StopClearsSlot<F>(t: Track<F>, cfg: Config<F>, device: int -> Reading<F>)
    requires !t.stopped
    ensures var r := Step(Step(t, cfg, StopCall), cfg, RunnerTurn(device));
      r.stopped && r.stream.None? && Read(r).None? && !r.stopSignal
  {
  }
}
