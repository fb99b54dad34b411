/** The playback track `OutputTrack`: a bounded queue of chunks filled by `write`,
    drained by a runner thread that pushes one chunk per cycle to the device, and the
    flags the two sides use to signal each other.

    Each thread action is one atomic step over an immutable `Track` value; `Run`
    replays any interleaving of caller actions and runner cycles and reports what each
    step did (`Event`), including every chunk handed to the device. */
module OutputTrack {

  import opened Common
  import BQ = BoundedQueue
  import Channels

  /** `queue_maxsize` when the caller gives none. */
  const DefaultQueueMaxsize: int := 50

  /** The mutable state of one track: its queue, `_clear_signal`, `_stop_signal`,
      `_stopped`, `_playing`, `stream` and `_vol`. */
  datatype Track<C> = Track(
    queue: BQ.Queue<C>,
    clearSignal: bool,
    stopSignal: bool,
    stopped: bool,
    playing: bool,
    stream: Option<Stream>,
    volume: real)

  /** What the runner cycle consults besides the state: the user callback (given the
      track and the popped value or `None`, it returns the value to play or `None`),
      the `apply_basic_fx` flag and the gain curve of `_apply_basic_fx`, taken as a
      function of the volume and the chunk. */
  datatype Config<!C> = Config(
    callback: Option<(Track<C>, Option<C>) -> Option<C>>,
    applyBasicFx: bool,
    basicFx: (real, C) -> C)

  /** What `write` reports: `True`, `False`, still waiting inside a blocking `put`, or
      `InterruptedError` together with the chunks the clear discarded. */
  datatype WriteOutcome<C> = Accepted | Rejected | Blocked | Interrupted(dropped: seq<C>)

  datatype WriteResult<C> = WriteResult(track: Track<C>, outcome: WriteOutcome<C>)

  /** One runner cycle: the value taken off the queue, and the chunk handed to the
      device, if any. */
  datatype CycleResult<C> = CycleResult(track: Track<C>, popped: Option<C>, emitted: Option<C>)

  /** Invariant of every reachable state: the queue stays within its bound, and a
      stream is open exactly while the track is not stopped. */
  predicate Valid<C>(t: Track<C>)
  {
    BQ.WithinBound(t.queue) && (t.stream.Some? <==> !t.stopped)
  }

  /** The state `__init__` sets up before it calls `start()`. */
  function Init<C>(queueMaxsize: int, volume: real): (t: Track<C>)
    ensures Valid(t)
    ensures t.stopped && t.stream.None? && !t.playing
    ensures !t.clearSignal && !t.stopSignal
    ensures t.queue.items == [] && t.queue.maxsize == queueMaxsize && t.volume == volume
  {
    Track(BQ.New(queueMaxsize), false, false, true, false, None, volume)
  }

  /** `write(data, wait)`. A pending clear signal empties the queue, is reset, and
      interrupts the writer without enqueuing `data`; otherwise `data` goes to the tail,
      or the queue is full and a non-blocking write reports failure while a blocking
      one waits. Nothing but the queue and the clear signal ever changes. */
  function Write<C>(t: Track<C>, data: C, wait: bool): (r: WriteResult<C>)
    ensures t.clearSignal ==>
      && r.outcome == Interrupted(t.queue.items)
      && r.track == t.(queue := BQ.Queue([], t.queue.maxsize), clearSignal := false)
    ensures !t.clearSignal && !BQ.IsFull(t.queue) ==>
      && r.outcome == Accepted
      && r.track == t.(queue := BQ.Queue(t.queue.items + [data], t.queue.maxsize))
    ensures !t.clearSignal && BQ.IsFull(t.queue) ==>
      r.track == t && r.outcome == (if wait then Blocked else Rejected)
    ensures Valid(t) ==> Valid(r.track)
  {
    if t.clearSignal then
      WriteResult(t.(queue := BQ.Clear(t.queue), clearSignal := false), Interrupted(t.queue.items))
    else
      Put(t, data, wait)
  }

  /** The `put` inside `write`, also what a writer blocked in it completes later: the
      clear signal is not looked at again. */
  function Put<C>(t: Track<C>, data: C, wait: bool): (r: WriteResult<C>)
    ensures !BQ.IsFull(t.queue) ==>
      r.outcome == Accepted && r.track == t.(queue := BQ.Queue(t.queue.items + [data], t.queue.maxsize))
    ensures BQ.IsFull(t.queue) ==> r.track == t && r.outcome == (if wait then Blocked else Rejected)
    ensures Valid(t) ==> Valid(r.track)
  {
    match BQ.Put(t.queue, data, wait)
    case Enqueued(q) => WriteResult(t.(queue := q), Accepted)
    case Full => WriteResult(t, Rejected)
    case MustWait => WriteResult(t, Blocked)
  }

  /** The signalling part of `abort()`: the clear signal is raised only while the
      track is playing. */
  function Abort<C>(t: Track<C>): (r: Track<C>)
    ensures r.clearSignal <==> t.clearSignal || t.playing
    ensures r.(clearSignal := t.clearSignal) == t
  {
    if t.playing then t.(clearSignal := true) else t
  }

  /** The request half of `stop()`, after its `abort()`: raise the stop signal. */
  function RequestStop<C>(t: Track<C>): (r: Track<C>)
    ensures r.stopSignal
    ensures r.(stopSignal := t.stopSignal) == t
  {
    t.(stopSignal := true)
  }

  /** The runner entering its `with` block: the stream is open and the track runs. */
  function Enter<C>(t: Track<C>, stream: Stream): (r: Track<C>)
    ensures !r.stopped && r.stream == Some(stream)
    ensures r.(stopped := t.stopped, stream := t.stream) == t
    ensures BQ.WithinBound(t.queue) ==> Valid(r)
  {
    t.(stopped := false, stream := Some(stream))
  }

  /** The value a cycle plays: the callback's answer when a callback is set, the popped
      value otherwise. The callback sees the track as it is after the pop. */
  function AfterCallback<C>(cfg: Config<C>, track: Track<C>, popped: Option<C>): Option<C>
  {
    if cfg.callback.Some? then cfg.callback.value(track, popped) else popped
  }

  /** One pass of the runner loop: pop without blocking (or take `None`), run the
      callback even on `None`, and then either mark the track playing and hand the
      chunk (through the gain when effects are on) to the device, or mark it idle.
      The signals, the lifecycle flags and the volume are left alone. */
  function Cycle<C>(t: Track<C>, cfg: Config<C>): (r: CycleResult<C>)
    ensures |t.queue.items| == 0 ==> r.popped.None? && r.track.queue == t.queue
    ensures |t.queue.items| > 0 ==>
      r.popped == Some(t.queue.items[0]) && r.track.queue == BQ.Queue(t.queue.items[1..], t.queue.maxsize)
    ensures var played := AfterCallback(cfg, t.(queue := r.track.queue), r.popped);
      && (r.track.playing <==> played.Some?)
      && (r.emitted.Some? <==> r.track.playing)
      && (r.emitted.Some? ==>
            r.emitted.value == (if cfg.applyBasicFx then cfg.basicFx(t.volume, played.value) else played.value))
    ensures r.track.(queue := t.queue, playing := t.playing) == t
    ensures Valid(t) ==> Valid(r.track)
  {
    var (popped, rest) := match BQ.GetNowait(t.queue)
      case Got(x, rest) => (Some(x), rest)
      case Empty => (None, t.queue);
    var data := AfterCallback(cfg, t.(queue := rest), popped);
    if data.Some? then
      var out := if cfg.applyBasicFx then cfg.basicFx(t.volume, data.value) else data.value;
      CycleResult(t.(queue := rest, playing := true), popped, Some(out))
    else
      CycleResult(t.(queue := rest, playing := false), popped, None)
  }

  /** The code after the runner loop: the track is stopped, its stream dropped and
      the stop signal reset; the queue, `playing` and the clear signal stay as they
      were. */
  function Teardown<C>(t: Track<C>): (r: Track<C>)
    ensures r.stopped && r.stream.None? && !r.stopSignal
    ensures r.queue == t.queue && r.playing == t.playing && r.clearSignal == t.clearSignal
    ensures r.volume == t.volume
    ensures BQ.WithinBound(t.queue) ==> Valid(r)
  {
    t.(stopped := true, stream := None, stopSignal := false)
  }

  /** The `volume` property. */
  function Volume<C>(t: Track<C>): real
  {
    t.volume
  }

  /** The `volume` setter: only the volume changes. */
  function SetVolume<C>(t: Track<C>, v: real): (r: Track<C>)
    ensures Volume(r) == v
    ensures r.(volume := t.volume) == t
  {
    t.(volume := v)
  }

  /** Actions of the caller threads and of the runner. `ResumePut` is a writer that
      was left `Blocked` completing its `put`; `Start` is the runner entering its
      stream, and `RunnerTurn` is one turn of the runner's loop. */
  datatype Action<C> =
    | WriteCall(data: C, wait: bool)
    | ResumePut(data: C)
    | AbortCall
    | StopCall
    | Start(stream: Stream)
    | RunnerTurn
    | VolumeSet(volume: real)

  /** What a step reports. */
  datatype Event<C> =
    | Wrote(data: C, outcome: WriteOutcome<C>)
    | Cycled(popped: Option<C>, emitted: Option<C>)
    | Quiet

  datatype StepResult<C> = StepResult(track: Track<C>, event: Event<C>)

  /** One atomic step. There is one runner: `Start` only acts on a stopped track, and
      `RunnerTurn` only while it runs, testing the stop signal as the loop condition
      does. */
  function Step<C>(t: Track<C>, cfg: Config<C>, a: Action<C>): (r: StepResult<C>)
    ensures Valid(t) ==> Valid(r.track)
    ensures r.track.queue.maxsize == t.queue.maxsize
  {
    match a
    case WriteCall(data, wait) =>
      var w := Write(t, data, wait); StepResult(w.track, Wrote(data, w.outcome))
    case ResumePut(data) =>
      var w := Put(t, data, true); StepResult(w.track, Wrote(data, w.outcome))
    case AbortCall => StepResult(Abort(t), Quiet)
    case StopCall => StepResult(RequestStop(t), Quiet)
    case Start(stream) =>
      if t.stopped then StepResult(Enter(t, stream), Quiet) else StepResult(t, Quiet)
    case RunnerTurn =>
      if t.stopped then StepResult(t, Quiet)
      else if t.stopSignal then StepResult(Teardown(t), Quiet)
      else var c := Cycle(t, cfg); StepResult(c.track, Cycled(c.popped, c.emitted))
    case VolumeSet(v) => StepResult(SetVolume(t, v), Quiet)
  }

  datatype RunResult<C> = RunResult(track: Track<C>, events: seq<Event<C>>)

  /** Replays an interleaving of actions, one event per action. */
  function Run<C>(t: Track<C>, cfg: Config<C>, acts: seq<Action<C>>): (r: RunResult<C>)
    ensures |r.events| == |acts|
  {
    if |acts| == 0 then RunResult(t, [])
    else
      var prev := Run(t, cfg, acts[..|acts| - 1]);
      var s := Step(prev.track, cfg, acts[|acts| - 1]);
      RunResult(s.track, prev.events + [s.event])
  }

  /** The chunk one event put into the queue, if any. */
  function EventAccepted<C>(e: Event<C>): seq<C>
  {
    if e.Wrote? && e.outcome.Accepted? then [e.data] else []
  }

  /** The chunks one event took out of the queue: a popped chunk, or everything a
      clear discarded. */
  function EventRemoved<C>(e: Event<C>): seq<C>
  {
    if e.Wrote? && e.outcome.Interrupted? then e.outcome.dropped
    else if e.Cycled? && e.popped.Some? then [e.popped.value]
    else []
  }

  /** Chunks that entered the queue, in order. */
  function AcceptedChunks<C>(evs: seq<Event<C>>): seq<C>
  {
    if |evs| == 0 then [] else AcceptedChunks(evs[..|evs| - 1]) + EventAccepted(evs[|evs| - 1])
  }

  /** Chunks that left the queue, in order: popped by a cycle or discarded by a
      clear. */
  function RemovedChunks<C>(evs: seq<Event<C>>): seq<C>
  {
    if |evs| == 0 then [] else RemovedChunks(evs[..|evs| - 1]) + EventRemoved(evs[|evs| - 1])
  }

  /** Chunks popped by runner cycles, in order. */
  function PoppedChunks<C>(evs: seq<Event<C>>): seq<C>
  {
    if |evs| == 0 then []
    else
      var e := evs[|evs| - 1];
      PoppedChunks(evs[..|evs| - 1]) + (if e.Cycled? && e.popped.Some? then [e.popped.value] else [])
  }

  /** Chunks handed to the device, in order. */
  function EmittedChunks<C>(evs: seq<Event<C>>): seq<C>
  {
    if |evs| == 0 then []
    else
      var e := evs[|evs| - 1];
      EmittedChunks(evs[..|evs| - 1]) + (if e.Cycled? && e.emitted.Some? then [e.emitted.value] else [])
  }

  /** A single step keeps the FIFO balance: what it removes, followed by the queue
      after it, is the queue before it followed by what it accepts. */
  lemma StepIsFifo<C>(t: Track<C>, cfg: Config<C>, a: Action<C>)
    ensures var s := Step(t, cfg, a);
      EventRemoved(s.event) + s.track.queue.items == t.queue.items + EventAccepted(s.event)
  {
    var s := Step(t, cfg, a);
    if a.RunnerTurn? && !t.stopped && !t.stopSignal && |t.queue.items| > 0 {
      assert [t.queue.items[0]] + t.queue.items[1..] == t.queue.items;
    }
  }

  /** No write in the run was interrupted. */
  predicate NoInterruption<C>(evs: seq<Event<C>>)
  {
    forall i :: 0 <= i < |evs| ==> !(evs[i].Wrote? && evs[i].outcome.Interrupted?)
  }

  /** Every reachable state is `Valid`: the queue never exceeds its capacity and the
      stream is open exactly while the track runs, whatever the interleaving. */
  lemma {:induction false} RunPreservesValid<C>(t: Track<C>, cfg: Config<C>, acts: seq<Action<C>>)
    requires Valid(t)
    ensures Valid(Run(t, cfg, acts).track)
    ensures Run(t, cfg, acts).track.queue.maxsize == t.queue.maxsize
  {
    if |acts| > 0 {
      RunPreservesValid(t, cfg, acts[..|acts| - 1]);
    }
  }

  /** The queue is a FIFO across any interleaving: what has left it (popped or
      cleared), followed by what it still holds, is exactly what it held at the start
      followed by every accepted chunk. So no chunk is reordered, none leaves twice,
      and none is lost without being reported. */
  lemma {:induction false} RunIsFifo<C>(t: Track<C>, cfg: Config<C>, acts: seq<Action<C>>)
    ensures var r := Run(t, cfg, acts);
      RemovedChunks(r.events) + r.track.queue.items == t.queue.items + AcceptedChunks(r.events)
  {
    if |acts| > 0 {
      var init := acts[..|acts| - 1];
      RunIsFifo(t, cfg, init);
      var prev := Run(t, cfg, init);
      var s := Step(prev.track, cfg, acts[|acts| - 1]);
      StepIsFifo(prev.track, cfg, acts[|acts| - 1]);
      var evs := prev.events + [s.event];
      assert evs[..|evs| - 1] == prev.events;
      assert RemovedChunks(evs) == RemovedChunks(prev.events) + EventRemoved(s.event);
      assert AcceptedChunks(evs) == AcceptedChunks(prev.events) + EventAccepted(s.event);
      BalanceStep(RemovedChunks(prev.events), EventRemoved(s.event), prev.track.queue.items,
        s.track.queue.items, t.queue.items, AcceptedChunks(prev.events), EventAccepted(s.event));
    }
  }

  lemma BalanceStep<T>(removed: seq<T>, out: seq<T>, q: seq<T>, q': seq<T>, q0: seq<T>,
                      accepted: seq<T>, into: seq<T>)
    requires removed + q == q0 + accepted
    requires out + q' == q + into
    ensures (removed + out) + q' == q0 + (accepted + into)
  {
    calc {
      (removed + out) + q';
      removed + (out + q');
      removed + q + into;
      q0 + accepted + into;
    }
  }

  /** With no callback and no effects, each cycle plays exactly what it popped. */
  lemma {:induction false} PlainConfigEmitsPopped<C>(t: Track<C>, cfg: Config<C>, acts: seq<Action<C>>)
    requires cfg.callback.None? && !cfg.applyBasicFx
    ensures EmittedChunks(Run(t, cfg, acts).events) == PoppedChunks(Run(t, cfg, acts).events)
  {
    if |acts| > 0 {
      var init := acts[..|acts| - 1];
      PlainConfigEmitsPopped(t, cfg, init);
      var r := Run(t, cfg, acts);
      assert r.events[..|r.events| - 1] == Run(t, cfg, init).events;
      PlainStepEmitsPopped(Run(t, cfg, init).track, cfg, acts[|acts| - 1]);
    }
  }

  lemma PlainStepEmitsPopped<C>(t: Track<C>, cfg: Config<C>, a: Action<C>)
    requires cfg.callback.None? && !cfg.applyBasicFx
    ensures var e := Step(t, cfg, a).event;
      e.Cycled? ==> e.emitted == e.popped
  {
    if a.RunnerTurn? && !t.stopped && !t.stopSignal {
      var c := Cycle(t, cfg);
      assert AfterCallback(cfg, t.(queue := c.track.queue), c.popped) == c.popped;
    }
  }

  lemma {:induction false} NoInterruptionRemovesOnlyPopped<C>(evs: seq<Event<C>>)
    requires NoInterruption(evs)
    ensures RemovedChunks(evs) == PoppedChunks(evs)
  {
    if |evs| > 0 {
      NoInterruptionRemovesOnlyPopped(evs[..|evs| - 1]);
    }
  }

  /** Without an abort interrupting a writer, and with no callback or effects, the
      device receives the accepted chunks in the order they were written, each once:
      what it played followed by what is still queued is the whole written stream. */
  lemma EmittedInWriteOrder<C>(t: Track<C>, cfg: Config<C>, acts: seq<Action<C>>)
    requires cfg.callback.None? && !cfg.applyBasicFx
    requires NoInterruption(Run(t, cfg, acts).events)
    ensures var r := Run(t, cfg, acts);
      EmittedChunks(r.events) + r.track.queue.items == t.queue.items + AcceptedChunks(r.events)
  {
    RunIsFifo(t, cfg, acts);
    PlainConfigEmitsPopped(t, cfg, acts);
    NoInterruptionRemovesOnlyPopped(Run(t, cfg, acts).events);
  }

  /** The clear signal is raised only by `abort()` on a playing track, and reset only
      by `write`; runner cycles, teardown and every other action leave it alone. */
  lemma StepClearSignal<C>(t: Track<C>, cfg: Config<C>, a: Action<C>)
    ensures var r := Step(t, cfg, a).track;
      && (!t.clearSignal && r.clearSignal ==> a.AbortCall? && t.playing)
      && (t.clearSignal && !r.clearSignal ==> a.WriteCall?)
  {
  }

  /** Without a `write` call, a raised clear signal stays raised, however many cycles,
      teardowns and restarts happen. */
  lemma {:induction false} ClearSignalPersistsWithoutWrite<C>(t: Track<C>, cfg: Config<C>, acts: seq<Action<C>>)
    requires t.clearSignal
    requires forall i :: 0 <= i < |acts| ==> !acts[i].WriteCall?
    ensures Run(t, cfg, acts).track.clearSignal
  {
    if |acts| > 0 {
      ClearSignalPersistsWithoutWrite(t, cfg, acts[..|acts| - 1]);
      StepClearSignal(Run(t, cfg, acts[..|acts| - 1]).track, cfg, acts[|acts| - 1]);
    }
  }

  /** Constructing a track, as `__init__` does with `start()`, leaves it running with
      an open stream, an empty queue and no signal raised. */
  function Construct<C>(queueMaxsize: int, volume: real, stream: Stream): (t: Track<C>)
    ensures Valid(t)
    ensures !t.stopped && t.stream == Some(stream) && !t.stopSignal && !t.clearSignal
    ensures !t.playing && t.queue.items == [] && t.queue.maxsize == queueMaxsize
  {
    Enter(Init(queueMaxsize, volume), stream)
  }

  /** `stop()` on a fresh track: `abort()` has nothing to signal, the stop request is
      raised, and the runner's next turn tears down, leaving the track stopped with no
      stream and the stop signal reset. */
  lemma StopAfterConstruct<C>(queueMaxsize: int, volume: real, stream: Stream, cfg: Config<C>)
    ensures var t := Construct<C>(queueMaxsize, volume, stream);
      var r := Run(t, cfg, [AbortCall, StopCall, RunnerTurn]).track;
      r.stopped && r.stream.None? && !r.stopSignal && !r.clearSignal
  {
    var t := Construct<C>(queueMaxsize, volume, stream);
    var acts: seq<Action<C>> := [AbortCall, StopCall, RunnerTurn];
    assert acts[..2][..1][..0] == [];
    assert acts[..2][..1] == [AbortCall];
    assert acts[..2] == [AbortCall, StopCall];
    assert Run(t, cfg, acts[..2][..1][..0]).track == t;
    assert Run(t, cfg, acts[..2][..1]).track == Abort(t) == t;
    assert Run(t, cfg, acts[..2]).track == RequestStop(t);
  }

  /** Backpressure with a capacity of two: three non-blocking writes answer
      `True, True, False`; after two runner cycles have played the first two chunks, a
      fourth write is accepted again. */
  lemma BackpressureScenario(stream: Stream)
    ensures var cfg := Config(None, false, (v: real, c: int) => c);
      var t0 := Construct<int>(2, 1.0, stream);
      var w1 := Write(t0, 1, false);
      var w2 := Write(w1.track, 2, false);
      var w3 := Write(w2.track, 3, false);
      var c1 := Cycle(w3.track, cfg);
      var c2 := Cycle(c1.track, cfg);
      var w4 := Write(c2.track, 4, false);
      && [w1.outcome, w2.outcome, w3.outcome, w4.outcome] == [Accepted, Accepted, Rejected, Accepted]
      && c1.emitted == Some(1) && c2.emitted == Some(2)
      && w4.track.queue.items == [4]
  {
  }

  /** A clear signal raised while the queue drains on its own outlives the playback
      it was meant for: once the last queued chunk has played and the runner has gone
      idle, `abort()` has returned, yet the first `write` of the next playback is
      interrupted and its chunk is never queued. */
  lemma StaleClearSignalInterruptsNextWrite<C>(stream: Stream, cfg: Config<C>, last: C, next: C)
    requires cfg.callback.None?
    ensures var t := Construct<C>(DefaultQueueMaxsize, 1.0, stream).(queue := BQ.Queue([last], DefaultQueueMaxsize), playing := true);
      var aborted := Abort(t);
      var played := Cycle(aborted, cfg);
      var idle := Cycle(played.track, cfg);
      var w := Write(idle.track, next, true);
      && aborted.clearSignal
      && played.emitted.Some? && idle.emitted.None?
      && !idle.track.playing && idle.track.clearSignal
      && w.outcome == Interrupted([]) && w.track.queue.items == []
  {
  }

  /** After the stale signal has interrupted the first write, the writer loop has
      stopped and nothing brings the track back to playing: with no callback, runner
      turns on the emptied queue keep it idle, so a non-blocking `play_file`, which
      waits for `playing`, waits forever. */
  lemma {:induction false} InterruptedPlaybackNeverStarts<C>(t: Track<C>, cfg: Config<C>, acts: seq<Action<C>>)
    requires cfg.callback.None? && t.queue.items == [] && !t.playing
    requires forall i :: 0 <= i < |acts| ==> acts[i].RunnerTurn?
    ensures !Run(t, cfg, acts).track.playing && Run(t, cfg, acts).track.queue.items == []
  {
    if |acts| > 0 {
      InterruptedPlaybackNeverStarts(t, cfg, acts[..|acts| - 1]);
    }
  }

  /** The clear signal is raised only while the track plays. This is what makes a
      returned `abort()`, which waits for the track to go idle, leave nothing behind. */
  predicate SignalOnlyWhilePlaying<C>(t: Track<C>)
  {
    t.clearSignal ==> t.playing
  }

  /** The runner turn as it is evidently meant: a cycle that leaves the track idle,
      which is the moment `abort()` waits for, also retires the clear signal, so that
      the signal reaches only the playback it was raised for. Otherwise the cycle is
      the one `play_file` relies on. */
  function CycleAcknowledging<C>(t: Track<C>, cfg: Config<C>): (r: CycleResult<C>)
    ensures !r.track.playing ==> !r.track.clearSignal
    ensures r.track.playing ==> r.track.clearSignal == t.clearSignal
    ensures r.popped == Cycle(t, cfg).popped && r.emitted == Cycle(t, cfg).emitted
    ensures r.track.(clearSignal := t.clearSignal) == Cycle(t, cfg).track
    ensures Valid(t) ==> Valid(r.track)
  {
    var c := Cycle(t, cfg);
    if c.track.playing then c else c.(track := c.track.(clearSignal := false))
  }

  /** One atomic step with the corrected runner turn; every other action is as
      written. */
  function StepAcknowledging<C>(t: Track<C>, cfg: Config<C>, a: Action<C>): (r: Track<C>)
    ensures Valid(t) ==> Valid(r)
    ensures SignalOnlyWhilePlaying(t) ==> SignalOnlyWhilePlaying(r)
    ensures !(a.RunnerTurn? && !t.stopped && !t.stopSignal) ==> r == Step(t, cfg, a).track
  {
    if a.RunnerTurn? && !t.stopped && !t.stopSignal then CycleAcknowledging(t, cfg).track
    else Step(t, cfg, a).track
  }

  function RunAcknowledging<C>(t: Track<C>, cfg: Config<C>, acts: seq<Action<C>>): Track<C>
  {
    if |acts| == 0 then t
    else StepAcknowledging(RunAcknowledging(t, cfg, acts[..|acts| - 1]), cfg, acts[|acts| - 1])
  }

  /** With the corrected runner the clear signal is raised only while the track plays,
      whatever the interleaving. */
  lemma {:induction false} AcknowledgingKeepsSignalWithPlaying<C>(t: Track<C>, cfg: Config<C>, acts: seq<Action<C>>)
    requires SignalOnlyWhilePlaying(t)
    ensures SignalOnlyWhilePlaying(RunAcknowledging(t, cfg, acts))
  {
    if |acts| > 0 {
      AcknowledgingKeepsSignalWithPlaying(t, cfg, acts[..|acts| - 1]);
    }
  }

  /** With the corrected runner, whenever a constructed track is idle, as it is once
      `abort()` has returned, the next `write` is not interrupted: it is accepted when
      the queue has room. */
  lemma NextWriteAfterAbortAccepted<C>(queueMaxsize: int, volume: real, stream: Stream, cfg: Config<C>,
                                       acts: seq<Action<C>>, data: C, wait: bool)
    ensures var t := RunAcknowledging(Construct<C>(queueMaxsize, volume, stream), cfg, acts);
      !t.playing ==>
        && !Write(t, data, wait).outcome.Interrupted?
        && (!BQ.IsFull(t.queue) ==> Write(t, data, wait).outcome == Accepted)
  {
    AcknowledgingKeepsSignalWithPlaying(Construct<C>(queueMaxsize, volume, stream), cfg, acts);
  }

  /** The scenario of `StaleClearSignalInterruptsNextWrite` with the corrected runner:
      the signal is retired when the track goes idle, and the next playback's first
      chunk is queued. */
  lemma AcknowledgedAbortSparesNextWrite<C>(stream: Stream, cfg: Config<C>, last: C, next: C)
    requires cfg.callback.None?
    ensures var t := Construct<C>(DefaultQueueMaxsize, 1.0, stream).(queue := BQ.Queue([last], DefaultQueueMaxsize), playing := true);
      var aborted := Abort(t);
      var played := CycleAcknowledging(aborted, cfg);
      var idle := CycleAcknowledging(played.track, cfg);
      var w := Write(idle.track, next, true);
      && aborted.clearSignal
      && played.emitted.Some? && idle.emitted.None?
      && !idle.track.playing && !idle.track.clearSignal
      && w.outcome == Accepted && w.track.queue.items == [next]
  {
  }

  /** The callback runs on every turn, even on an empty queue: a callback that answers
      `None` with a chunk of its own keeps the track playing and the device fed. */
  lemma CallbackPlaysOnEmptyQueue<C>(t: Track<C>, cfg: Config<C>, x: C)
    requires cfg.callback.Some? && cfg.callback.value(t, None) == Some(x)
    requires t.queue.items == []
    ensures var c := Cycle(t, cfg);
      && c.popped.None? && c.track.playing
      && c.emitted == Some(if cfg.applyBasicFx then cfg.basicFx(t.volume, x) else x)
  {
  }

  /** The getter returns what the most recent setter call stored: no other action
      touches the volume. */
  lemma {:induction false} VolumeIsLastSet<C>(t: Track<C>, cfg: Config<C>, pre: seq<Action<C>>, v: real,
                                              post: seq<Action<C>>)
    requires forall i :: 0 <= i < |post| ==> !post[i].VolumeSet?
    ensures Volume(Run(t, cfg, pre + [VolumeSet(v)] + post).track) == v
  {
    var acts := pre + [VolumeSet(v)] + post;
    if |post| == 0 {
      assert acts[..|acts| - 1] == pre;
    } else {
      var post' := post[..|post| - 1];
      VolumeIsLastSet(t, cfg, pre, v, post');
      assert acts[..|acts| - 1] == pre + [VolumeSet(v)] + post';
      assert acts[|acts| - 1] == post[|post| - 1];
    }
  }

  /** `play_file` after `stop()`: teardown has dropped the stream, so the channel step
      of `play_file` raises instead of matching anything. */
  lemma PlayFileAfterStopFails<C, S>(t: Track<C>, a: Channels.Audio<S>)
    requires Valid(t) && t.stopped && Channels.WellFormed(a)
    ensures Channels.MatchStreamChannels(a, t.stream) == Failure(Channels.NoStream)
  {
  }
}
