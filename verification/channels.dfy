/** The channel-matching step of `OutputTrack.play_file`: the decoded buffer is
    widened with `numpy.repeat` along its last axis when its channel count differs
    from the stream's. */
module Channels {

  import opened Common

  /** A decoded buffer as `soundfile.read(..., always_2d=False)` returns it: a flat
      array of samples for a mono file, or frames of `width` samples each. */
  datatype Audio<S> = Flat(samples: seq<S>) | Framed(frames: seq<seq<S>>, width: nat)

  /** Every frame of a two-dimensional buffer has the buffer's width. */
  predicate WellFormed<S>(a: Audio<S>)
  {
    a.Framed? ==> forall f :: 0 <= f < |a.frames| ==> |a.frames[f]| == a.width
  }

  /** `data.shape[1]`, or 1 when the buffer has no second axis (the `IndexError`
      fallback). */
  function ChannelCount<S>(a: Audio<S>): (n: nat)
    ensures a.Flat? ==> n == 1
    ensures WellFormed(a) && a.Framed? ==> forall f :: 0 <= f < |a.frames| ==> |a.frames[f]| == n
  {
    if a.Flat? then 1 else a.width
  }

  /** Extent of the buffer along its first axis. */
  function Length<S>(a: Audio<S>): nat
  {
    if a.Flat? then |a.samples| else |a.frames|
  }

  /** Reference meaning of `numpy.repeat(src, k)` on one axis: `dst` is `k` times as
      long and its `i`-th block of `k` elements holds `k` copies of `src[i]`. */
  ghost predicate IsRepeat<S>(src: seq<S>, dst: seq<S>, k: nat)
  {
    && |dst| == k * |src|
    && forall i :: 0 <= i < |src| ==>
         i * k + k <= |dst| && dst[i * k..i * k + k] == seq(k, _ => src[i])
  }

  /** `numpy.repeat(xs, k)`: each element written `k` times in a row. */
  function RepeatEach<S>(xs: seq<S>, k: nat): seq<S>
  {
    if |xs| == 0 then [] else seq(k, _ => xs[0]) + RepeatEach(xs[1..], k)
  }

  lemma {:induction false} RepeatEachIsRepeat<S>(xs: seq<S>, k: nat)
    ensures IsRepeat(xs, RepeatEach(xs, k), k)
  {
    if |xs| > 0 {
      RepeatEachIsRepeat(xs[1..], k);
      var r, rest := RepeatEach(xs, k), RepeatEach(xs[1..], k);
      assert |r| == k + k * (|xs| - 1) == k * |xs|;
      forall i | 0 <= i < |xs|
        ensures i * k + k <= |r| && r[i * k..i * k + k] == seq(k, _ => xs[i])
      {
        if i == 0 {
          assert r[0..k] == seq(k, _ => xs[0]);
        } else {
          var j := i - 1;
          assert xs[1..][j] == xs[i];
          assert j * k + k <= |rest|;
          assert i * k == k + j * k;
          assert r[i * k..i * k + k] == rest[j * k..j * k + k];
        }
      }
    }
  }

  /** `numpy.repeat(a, k, axis=-1)`: a flat buffer becomes `k` times longer; a framed
      buffer keeps its frames and widens each of them. */
  function Repeat<S>(a: Audio<S>, k: nat): Audio<S>
  {
    match a
    case Flat(samples) => Flat(RepeatEach(samples, k))
    case Framed(frames, width) =>
      Framed(seq(|frames|, (f: int) requires 0 <= f < |frames| => RepeatEach(frames[f], k)), width * k)
  }

  /** The repeat factor `play_file` uses: 2 for a mono source on a stereo stream, and
      otherwise the source's own channel count. */
  function RepeatFactor(sourceChannels: nat, streamChannels: nat): (k: nat)
    ensures sourceChannels * k == streamChannels <==>
      (sourceChannels == 1 && streamChannels == 2) || sourceChannels * sourceChannels == streamChannels
  {
    if sourceChannels == 1 && streamChannels == 2 then 2 else sourceChannels
  }

  /** Channel matching as `play_file` writes it. */
  function MatchChannels<S>(a: Audio<S>, stream: Stream): (r: Audio<S>)
    requires WellFormed(a)
    ensures WellFormed(r)
    ensures r.Flat? == a.Flat?
    ensures ChannelCount(a) == stream.channels ==> r == a
    ensures a.Framed? ==> Length(r) == Length(a)
    ensures ChannelCount(a) != stream.channels ==>
      var k := RepeatFactor(ChannelCount(a), stream.channels);
      match a
      case Flat(samples) => IsRepeat(samples, r.samples, k)
      case Framed(frames, width) =>
        && r.width == width * k
        && forall f :: 0 <= f < |frames| ==> IsRepeat(frames[f], r.frames[f], k)
  {
    if ChannelCount(a) != stream.channels then
      var k := RepeatFactor(ChannelCount(a), stream.channels);
      RepeatAllIsRepeat(a, k);
      Repeat(a, k)
    else
      a
  }

  lemma RepeatAllIsRepeat<S>(a: Audio<S>, k: nat)
    requires WellFormed(a)
    ensures WellFormed(Repeat(a, k))
    ensures a.Flat? ==> IsRepeat(a.samples, Repeat(a, k).samples, k)
    ensures a.Framed? ==> |Repeat(a, k).frames| == |a.frames| && Repeat(a, k).width == a.width * k
    ensures a.Framed? ==> forall f :: 0 <= f < |a.frames| ==> IsRepeat(a.frames[f], Repeat(a, k).frames[f], k)
  {
    match a
    case Flat(samples) =>
      RepeatEachIsRepeat(samples, k);
    case Framed(frames, width) =>
      forall f | 0 <= f < |frames|
        ensures IsRepeat(frames[f], Repeat(a, k).frames[f], k)
      {
        RepeatEachIsRepeat(frames[f], k);
      }
  }

  /** A mono source on a stereo stream: every sample is written twice in a row, so
      a framed mono buffer becomes frames holding two equal channels. */
  lemma MonoToStereo<S>(a: Audio<S>, stream: Stream)
    requires WellFormed(a) && ChannelCount(a) == 1 && stream.channels == 2
    ensures var r := MatchChannels(a, stream);
      match a
      case Flat(samples) =>
        && |r.samples| == 2 * |samples|
        && forall i :: 0 <= i < |samples| ==> r.samples[2 * i] == r.samples[2 * i + 1] == samples[i]
      case Framed(frames, _) =>
        && r.width == 2 && |r.frames| == |frames|
        && forall f :: 0 <= f < |frames| ==> r.frames[f] == [frames[f][0], frames[f][0]]
  {
    var r := MatchChannels(a, stream);
    match a
    case Flat(samples) =>
      forall i | 0 <= i < |samples|
        ensures r.samples[2 * i] == r.samples[2 * i + 1] == samples[i]
      {
        assert r.samples[i * 2..i * 2 + 2] == [samples[i], samples[i]];
      }
    case Framed(frames, _) =>
      forall f | 0 <= f < |frames|
        ensures r.frames[f] == [frames[f][0], frames[f][0]]
      {
        assert IsRepeat(frames[f], r.frames[f], 2);
        assert r.frames[f][0 * 2..0 * 2 + 2] == [frames[f][0], frames[f][0]];
      }
  }

  /** Any other mismatch repeats by the source's own count, so a framed buffer of
      `c` channels comes out with `c * c` channels whatever the stream has, which
      misses the stream's count unless that count is `c * c`. */
  lemma OtherMismatchSquaresChannels<S>(a: Audio<S>, stream: Stream)
    requires WellFormed(a) && a.Framed?
    requires ChannelCount(a) != stream.channels
    requires !(ChannelCount(a) == 1 && stream.channels == 2)
    ensures ChannelCount(MatchChannels(a, stream)) == ChannelCount(a) * ChannelCount(a)
  {
  }

  /** A six-channel frame played on a stereo stream comes out with 36 channels. */
  lemma SurroundOnStereoCounterexample()
    ensures var a := Framed([[1, 2, 3, 4, 5, 6]], 6);
      WellFormed(a) && ChannelCount(MatchChannels(a, Stream(2))) == 36
  {
  }

  /** `self.stream.channels` on a track whose `stream` is `None` raises
      `AttributeError`. */
  datatype StreamError = NoStream

  /** The channel step of `play_file` on the track's `stream` field: a stopped track
      has no stream, and reading its channel count fails before any matching; a
      running track's buffer is matched to its stream. */
  function MatchStreamChannels<S>(a: Audio<S>, stream: Option<Stream>): (r: Result<Audio<S>, StreamError>)
    requires WellFormed(a)
    ensures r.Failure? <==> stream.None?
    ensures stream.Some? ==> r == Success(MatchChannels(a, stream.value))
  {
    match stream
    case None => Failure(NoStream)
    case Some(s) => Success(MatchChannels(a, s))
  }

  /** Layouts the corrected channel matching refuses. */
  datatype ChannelError = UnsupportedChannelLayout(sourceChannels: nat, streamChannels: nat)

  /** Channel matching as it is evidently meant: equal counts pass through, a mono
      source is copied into every channel of a wider stream, and every other layout
      is reported instead of mis-mixed. */
  function MatchChannelsChecked<S>(a: Audio<S>, stream: Stream): (r: Result<Audio<S>, ChannelError>)
    requires WellFormed(a)
    ensures r.Failure? <==> ChannelCount(a) != stream.channels && !(ChannelCount(a) == 1 && stream.channels > 1)
    ensures ChannelCount(a) == stream.channels ==> r == Success(a)
    ensures r.Success? ==> WellFormed(r.value) && ChannelCount(r.value) == stream.channels
    ensures r.Success? ==> Length(r.value) == Length(a)
    ensures r.Success? && ChannelCount(a) == 1 && stream.channels > 1 ==>
      forall f, c :: 0 <= f < Length(a) && 0 <= c < stream.channels ==>
        r.value.frames[f][c] == MonoSample(a, f)
  {
    if ChannelCount(a) == stream.channels then Success(a)
    else if ChannelCount(a) == 1 && stream.channels > 1 then
      Success(Framed(seq(Length(a), (f: int) requires 0 <= f < Length(a) =>
        seq(stream.channels, _ => MonoSample(a, f))), stream.channels))
    else Failure(UnsupportedChannelLayout(ChannelCount(a), stream.channels))
  }

  /** Sample `f` of a mono buffer, flat or one channel wide. */
  function MonoSample<S>(a: Audio<S>, f: nat): S
    requires WellFormed(a) && ChannelCount(a) == 1 && f < Length(a)
  {
    if a.Flat? then a.samples[f] else a.frames[f][0]
  }
}
