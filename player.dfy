/** The playback session of backends/gstreamer/player.rs: a session object that caches
    the source, input size, rate and metadata and decides what reaches the engine;
    the two fan-out lists; the lazy setup with its source-setup handshake; and the
    engine's signals, each handled as one sequential event. */
module Player {
  import opened Base
  import Gst
  import opened Tracks

  const MAX_BUFFER_SIZE: int := 500 * 1024 * 1024
  const POSITION_UPDATE_INTERVAL_MS: nat := 500
  /** The engine's percent scale: 100% is this many units. */
  const FORMAT_PERCENT_MAX: nat := 1_000_000

  datatype StreamType = Seekable | Stream

  datatype PlaybackState = Stopped | Buffering | Paused | Playing

  datatype Metadata = Metadata(
    duration: Option<Duration>,
    width: nat,
    height: nat,
    format: string,
    isSeekable: bool,
    audioTracks: seq<string>,
    videoTracks: seq<string>,
    isLive: bool)

  datatype PlayerError =
    | Backend(message: string)
    | BufferPushFailed
    | EnoughData
    | EOSFailed
    | NonSeekableStream
    | SeekOutOfRange
    | SetStreamFailed

  datatype PlayerEvent =
    | EndOfStream
    | Error(message: string)
    | StateChanged(state: PlaybackState)
    | PositionChanged(seconds: u64)
    | SeekDone(seconds: u64)
    | MetadataUpdated(metadata: Metadata)
    | FrameUpdated
    | NeedData
    | EnoughData
    | SeekData(offset: u64)

  /** The source element bound by the engine's source-setup signal. */
  datatype PlayerSource = SeekableSource(src: Gst.SourceHandle) | StreamSource(src: Gst.SourceHandle)

  /** A session in `st` mode binds a seekable source exactly when `st` is Seekable. */
  predicate SourceFits(s: PlayerSource, st: StreamType) {
    s.SeekableSource? <==> st == Seekable
  }

  function SourceFor(st: StreamType, h: Gst.SourceHandle): (s: PlayerSource)
    ensures SourceFits(s, st) && s.src == h
  {
    if st == Seekable then SeekableSource(h) else StreamSource(h)
  }

  /** Everything a session caches, plus the log of calls it has made to the engine. */
  datatype InnerState = InnerState(
    source: Option<PlayerSource>,
    inputSize: u64,
    rate: real,
    lastMetadata: Option<Metadata>,
    enoughData: bool,
    calls: seq<Gst.PlayerCall>)

  predicate SeekableBound(s: InnerState) {
    s.source.Some? && s.source.value.SeekableSource?
  }

  predicate StreamBound(s: InnerState) {
    s.source.Some? && s.source.value.StreamSource?
  }

  /** The size handed to a seekable source: the size itself, or -1 (a live source) for 0. */
  function SizeArgument(size: u64): (v: int)
    ensures size == 0 ==> v == -1
    ensures 0 < size < I64_LIMIT ==> v == size
    ensures size >= I64_LIMIT ==> v < 0 && v == size - U64_LIMIT
  {
    if size > 0 then AsI64(size) else -1
  }

  function Log(s: InnerState, c: Gst.PlayerCall): InnerState {
    s.(calls := s.calls + [c])
  }

  // ---------------------------------------------------------------------------
  // The session's operations as transitions of its cached state
  // ---------------------------------------------------------------------------

  /** set_input_size: always cached; forwarded only to a bound seekable source. */
  function SetInputSizeStep(s: InnerState, size: u64): (t: InnerState)
    ensures t.inputSize == size
    ensures t.(inputSize := s.inputSize, calls := s.calls) == s
    ensures SeekableBound(s) ==> t.calls == s.calls + [Gst.SourceSetSize(s.source.value.src, SizeArgument(size))]
    ensures !SeekableBound(s) ==> t.calls == s.calls
  {
    match s.source
    case Some(SeekableSource(h)) => Log(s.(inputSize := size), Gst.SourceSetSize(h, SizeArgument(size)))
    case _ => s.(inputSize := size)
  }

  /** set_rate: always cached; refused when the cached metadata is not seekable;
      applied to the engine only when the cached metadata is seekable. */
  function SetRateStep(s: InnerState, rate: real): (out: (InnerState, Result<(), PlayerError>))
    ensures out.0.rate == rate
    ensures out.0.(rate := s.rate, calls := s.calls) == s
    ensures out.1.Err? <==> s.lastMetadata.Some? && !s.lastMetadata.value.isSeekable
    ensures out.1.Err? ==> out.1.error == NonSeekableStream
    ensures s.lastMetadata.Some? && s.lastMetadata.value.isSeekable ==> out.0.calls == s.calls + [Gst.SetRate(rate)]
    ensures !(s.lastMetadata.Some? && s.lastMetadata.value.isSeekable) ==> out.0.calls == s.calls
  {
    var t := s.(rate := rate);
    match s.lastMetadata
    case None => (t, Ok(()))
    case Some(m) =>
      if !m.isSeekable then (t, Err(NonSeekableStream))
      else (Log(t, Gst.SetRate(rate)), Ok(()))
  }

  /** stop: forgets the metadata and the bound source; keeps size, rate and flag. */
  function StopStep(s: InnerState): (t: InnerState)
    ensures t.source.None? && t.lastMetadata.None?
    ensures t.inputSize == s.inputSize && t.rate == s.rate && t.enoughData == s.enoughData
    ensures t.calls == s.calls + [Gst.Stop]
  {
    Log(s, Gst.Stop).(lastMetadata := None, source := None)
  }

  /** end_of_stream: reaches a bound seekable source; anything else is a no-op success. */
  function EndOfStreamStep(s: InnerState, accepted: bool): (out: (InnerState, Result<(), PlayerError>))
    ensures !SeekableBound(s) ==> out == (s, Ok(()))
    ensures SeekableBound(s) ==> out.0 == Log(s, Gst.SourceEndOfStream(s.source.value.src))
    ensures SeekableBound(s) ==> (out.1.Ok? <==> accepted) && (out.1.Err? ==> out.1.error == EOSFailed)
  {
    match s.source
    case Some(SeekableSource(h)) =>
      (Log(s, Gst.SourceEndOfStream(h)), if accepted then Ok(()) else Err(EOSFailed))
    case _ => (s, Ok(()))
  }

  /** The seek guard: a Stream session can never seek; a Seekable one is out of range
      exactly when a cached duration is shorter than the target's whole seconds. */
  function SeekCheck(st: StreamType, last: Option<Metadata>, time: real): (r: Result<(), PlayerError>)
    ensures st == Stream ==> r == Err(NonSeekableStream)
    ensures r == Err(SeekOutOfRange) <==>
      st == Seekable && last.Some? && last.value.duration.Some? && last.value.duration.value.secs < SaturatingU64(time)
    ensures r.Ok? || r == Err(NonSeekableStream) || r == Err(SeekOutOfRange)
    ensures r == Ok(()) <==>
      st == Seekable && !(last.Some? && last.value.duration.Some? && last.value.duration.value.secs < SaturatingU64(time))
  {
    if st != Seekable then Err(NonSeekableStream)
    else if last.Some? && last.value.duration.Some?
         && DurationLess(last.value.duration.value, Duration(SaturatingU64(time), 0)) then Err(SeekOutOfRange)
    else Ok(())
  }

  /** The engine position a seek to `time` seconds asks for. */
  function SeekTarget(time: real): u64 {
    SaturatingU64(time * 1_000_000_000.0)
  }

  function SeekStep(s: InnerState, st: StreamType, time: real): (out: (InnerState, Result<(), PlayerError>))
    ensures out.1 == SeekCheck(st, s.lastMetadata, time)
    ensures out.1.Ok? ==> out.0 == Log(s, Gst.Seek(SeekTarget(time)))
    ensures out.1.Err? ==> out.0 == s
  {
    var r := SeekCheck(st, s.lastMetadata, time);
    if r.Ok? then (Log(s, Gst.Seek(SeekTarget(time))), r) else (s, r)
  }

  /** push_data: only a bound seekable source takes data, and only while the engine
      has not signalled that it has enough. */
  function PushDataStep(s: InnerState, data: seq<byte>, accepted: bool): (out: (InnerState, Result<(), PlayerError>))
    ensures !SeekableBound(s) ==> out == (s, Err(BufferPushFailed))
    ensures SeekableBound(s) && s.enoughData ==> out == (s, Err(PlayerError.EnoughData))
    ensures SeekableBound(s) && !s.enoughData ==>
      out.0 == Log(s, Gst.SourcePushBuffer(s.source.value.src, data)) &&
      (out.1.Ok? <==> accepted) && (out.1.Err? ==> out.1.error == BufferPushFailed)
  {
    match s.source
    case Some(SeekableSource(h)) =>
      if s.enoughData then (s, Err(PlayerError.EnoughData))
      else (Log(s, Gst.SourcePushBuffer(h, data)), if accepted then Ok(()) else Err(BufferPushFailed))
    case _ => (s, Err(BufferPushFailed))
  }

  /** set_stream: binds the stream into a bound stream source, after putting the
      pipeline on the shared clock; anything else fails. */
  function SetStreamStep(s: InnerState, stream: Gst.StreamId): (out: (InnerState, Result<(), PlayerError>))
    ensures !StreamBound(s) ==> out == (s, Err(SetStreamFailed))
    ensures StreamBound(s) ==>
      out == (Log(Log(s, Gst.UseSharedClock), Gst.SourceSetStream(s.source.value.src, stream)), Ok(()))
  {
    match s.source
    case Some(StreamSource(h)) => (Log(Log(s, Gst.UseSharedClock), Gst.SourceSetStream(h, stream)), Ok(()))
    case _ => (s, Err(SetStreamFailed))
  }

  // ---------------------------------------------------------------------------
  // Buffered ranges
  // ---------------------------------------------------------------------------

  /** A buffered range in seconds. */
  datatype Range = Range(start: nat, end: nat)

  predicate KnownPercent(v: Gst.FormattedValue) {
    v.Percent? ==> v.percent.Some?
  }

  /** The percentage a query value stands for; a value in another format counts as 0. */
  function PercentOf(v: Gst.FormattedValue): nat
    requires KnownPercent(v)
  {
    match v
    case Percent(p) => p.value
    case OtherFormat => 0
  }

  /** A percent value scaled to whole seconds of a `secs`-second media. */
  function Bound(v: Gst.FormattedValue, secs: nat): nat
    requires KnownPercent(v)
  {
    PercentOf(v) * secs / FORMAT_PERCENT_MAX
  }

  predicate KnownPercents(ranges: seq<(Gst.FormattedValue, Gst.FormattedValue)>) {
    forall i :: 0 <= i < |ranges| ==> KnownPercent(ranges[i].0) && KnownPercent(ranges[i].1)
  }

  function RangesOf(ranges: seq<(Gst.FormattedValue, Gst.FormattedValue)>, secs: nat): seq<Range>
    requires KnownPercents(ranges)
  {
    if ranges == [] then []
    else
      var last := ranges[|ranges| - 1];
      RangesOf(ranges[..|ranges| - 1], secs) + [Range(Bound(last.0, secs), Bound(last.1, secs))]
  }

  /** The engine's answer can be scaled without meeting an unknown percentage (which
      the source unwraps and so panics on) whenever it would be scaled at all. */
  predicate BufferingAnswerable(last: Option<Metadata>, query: Option<seq<(Gst.FormattedValue, Gst.FormattedValue)>>) {
    last.Some? && last.value.duration.Some? && query.Some? ==> KnownPercents(query.value)
  }

  /** What buffered() reports, given the cached metadata and the engine's percent query
      (`None` when the engine did not answer it). */
  function BufferedRanges(last: Option<Metadata>, query: Option<seq<(Gst.FormattedValue, Gst.FormattedValue)>>): (r: seq<Range>)
    requires BufferingAnswerable(last, query)
  {
    if last.Some? && last.value.duration.Some? && query.Some? then RangesOf(query.value, last.value.duration.value.secs)
    else []
  }

  /** Without metadata, without a duration, or without an answer, nothing is buffered;
      otherwise there is one range per engine range, in order, scaled to seconds. */
  lemma BufferedShape(last: Option<Metadata>, query: Option<seq<(Gst.FormattedValue, Gst.FormattedValue)>>, i: nat)
    requires BufferingAnswerable(last, query)
    ensures last.None? || last.value.duration.None? || query.None? ==> BufferedRanges(last, query) == []
    ensures last.Some? && last.value.duration.Some? && query.Some? ==>
      |BufferedRanges(last, query)| == |query.value| &&
      (i < |query.value| ==>
        var secs := last.value.duration.value.secs;
        BufferedRanges(last, query)[i] == Range(Bound(query.value[i].0, secs), Bound(query.value[i].1, secs)))
  {
    if last.Some? && last.value.duration.Some? && query.Some? {
      RangesOfAt(query.value, last.value.duration.value.secs, i);
    }
  }

  lemma {:induction false} RangesOfAt(ranges: seq<(Gst.FormattedValue, Gst.FormattedValue)>, secs: nat, i: nat)
    requires KnownPercents(ranges)
    ensures |RangesOf(ranges, secs)| == |ranges|
    ensures i < |ranges| ==> RangesOf(ranges, secs)[i] == Range(Bound(ranges[i].0, secs), Bound(ranges[i].1, secs))
  {
    if ranges != [] {
      var init := ranges[..|ranges| - 1];
      assert KnownPercents(init) by {
        forall k | 0 <= k < |init| ensures KnownPercent(init[k].0) && KnownPercent(init[k].1) {
          assert init[k] == ranges[k];
        }
      }
      RangesOfAt(init, secs, i);
      if i < |init| {
        assert init[i] == ranges[i];
      }
    }
  }

  /** A percentage within the engine's scale never reaches past the media's duration,
      and a larger percentage never gives an earlier bound. */
  lemma BoundWithinDuration(a: Gst.FormattedValue, b: Gst.FormattedValue, secs: nat)
    requires KnownPercent(a) && KnownPercent(b)
    requires PercentOf(a) <= PercentOf(b) <= FORMAT_PERCENT_MAX
    ensures Bound(a, secs) <= Bound(b, secs) <= secs
  {
    var pa, pb := PercentOf(a), PercentOf(b);
    MulMonotone(pa, pb, secs);
    MulMonotone(pb, FORMAT_PERCENT_MAX, secs);
    DivMonotone(pa * secs, pb * secs, FORMAT_PERCENT_MAX);
    DivMonotone(pb * secs, FORMAT_PERCENT_MAX * secs, FORMAT_PERCENT_MAX);
    assert FORMAT_PERCENT_MAX * secs / FORMAT_PERCENT_MAX == secs;
  }

  /** The bound as the source computes it: the percentage times the seconds cast to
      32 bits, in 32-bit arithmetic that wraps (as a release build does). */
  function BoundAsWritten(v: Gst.FormattedValue, secs: nat): nat
    requires KnownPercent(v)
  {
    (PercentOf(v) * AsU32(secs)) % U32_LIMIT / FORMAT_PERCENT_MAX
  }

  /** A fully buffered 5000-second media: the 32-bit product wraps, and the range the
      source reports ends at 705 seconds instead of 5000. */
  lemma BoundAsWrittenWraps()
    ensures Bound(Gst.Percent(Some(FORMAT_PERCENT_MAX)), 5000) == 5000
    ensures BoundAsWritten(Gst.Percent(Some(FORMAT_PERCENT_MAX)), 5000) == 705
  {
  }

  lemma MulMonotone(a: nat, b: nat, c: nat)
    requires a <= b
    ensures a * c <= b * c
  {
  }

  lemma DivMonotone(a: nat, b: nat, d: nat)
    requires a <= b && d > 0
    ensures a / d <= b / d
  {
    var qa, qb := a / d, b / d;
    if qa > qb {
      MulMonotone(qb + 1, qa, d);
      assert false;
    }
  }

  // ---------------------------------------------------------------------------
  // Metadata snapshots
  // ---------------------------------------------------------------------------

  /** The snapshot the source builds from the engine's media information. */
  function MetadataOf(info: Gst.MediaInfo): Metadata {
    Metadata(
      ClockDuration(info.duration),
      FrameSize(info).0,
      FrameSize(info).1,
      match info.containerFormat case Some(f) => f case None => "",
      info.isSeekable,
      TracksOf(info.streams, "audio"),
      TracksOf(info.streams, "video"),
      info.isLive)
  }

  /** metadata_from_media_info. Its error exits are taken only when a duration other
      than "no time" has no nanosecond or second value, which never happens, so it
      always succeeds. */
  method MetadataFromMediaInfo(info: Gst.MediaInfo) returns (r: Result<Metadata, ()>)
    ensures r == Ok(MetadataOf(info))
  {
    var duration := ClockDuration(info.duration);
    var audioTracks, videoTracks := CollectTracks(info.streams);
    var format := match info.containerFormat case Some(f) => f case None => "";
    var width: nat := 0;
    var height: nat := 0;
    if |info.videoStreams| > 0 {
      width := AsU32(info.videoStreams[0].width);
      height := AsU32(info.videoStreams[0].height);
    }
    r := Ok(Metadata(duration, width, height, format, info.isSeekable, audioTracks, videoTracks, info.isLive));
  }

  /** The media-info-updated handler on the cached state: a snapshot equal to the cached
      one changes nothing and is not announced; a different one is cached, re-applies the
      cached rate when it is seekable, and is announced once. */
  function MediaInfoStep(s: InnerState, m: Metadata): (out: (InnerState, Option<PlayerEvent>))
    ensures s.lastMetadata == Some(m) ==> out == (s, None)
    ensures s.lastMetadata != Some(m) ==>
      out.1 == Some(MetadataUpdated(m)) &&
      out.0.(calls := s.calls) == s.(lastMetadata := Some(m)) &&
      (m.isSeekable ==> out.0.calls == s.calls + [Gst.SetRate(s.rate)]) &&
      (!m.isSeekable ==> out.0.calls == s.calls)
  {
    if s.lastMetadata == Some(m) then (s, None)
    else
      var t := s.(lastMetadata := Some(m));
      (if m.isSeekable then Log(t, Gst.SetRate(s.rate)) else t, Some(MetadataUpdated(m)))
  }

  /** The duration-changed handler on the cached state: only an existing snapshot is
      updated, only its duration changes, and only then is it announced. */
  function DurationChangedStep(s: InnerState, d: Option<Duration>): (out: (InnerState, Option<PlayerEvent>))
    ensures s.lastMetadata.None? ==> out == (s, None)
    ensures s.lastMetadata.Some? ==>
      var m := s.lastMetadata.value.(duration := d);
      out == (s.(lastMetadata := Some(m)), Some(MetadataUpdated(m)))
  {
    match s.lastMetadata
    case None => (s, None)
    case Some(old_) =>
      var m := old_.(duration := d);
      (s.(lastMetadata := Some(m)), Some(MetadataUpdated(m)))
  }

  /** The source-setup handler on the cached state: binds the source matching the
      session's mode and, for a seekable one, applies a cached size above 0. */
  function SourceSetupStep(s: InnerState, st: StreamType, h: Gst.SourceHandle): (t: InnerState)
    ensures t.source == Some(SourceFor(st, h))
    ensures t.(source := s.source, calls := s.calls) == s
    ensures st == Seekable && s.inputSize > 0 ==> t.calls == s.calls + [Gst.SourceSetSize(h, AsI64(s.inputSize))]
    ensures !(st == Seekable && s.inputSize > 0) ==> t.calls == s.calls
  {
    var t := s.(source := Some(SourceFor(st, h)));
    if st == Seekable && s.inputSize > 0 then Log(t, Gst.SourceSetSize(h, AsI64(s.inputSize))) else t
  }

  /** The playback state an engine state is reported as, if any. */
  function PlaybackStateOf(e: Gst.EngineState): (p: Option<PlaybackState>)
    ensures p.None? <==> e.EngineUnknown?
    ensures e.EngineBuffering? ==> p == Some(Buffering)
    ensures e.EngineStopped? ==> p == Some(Stopped)
    ensures e.EnginePaused? ==> p == Some(Paused)
    ensures e.EnginePlaying? ==> p == Some(Playing)
  {
    match e
    case EngineBuffering => Some(Buffering)
    case EngineStopped => Some(Stopped)
    case EnginePaused => Some(Paused)
    case EnginePlaying => Some(Playing)
    case EngineUnknown(_) => None
  }

  function StateEvent(e: Gst.EngineState): Option<PlayerEvent> {
    match PlaybackStateOf(e)
    case None => None
    case Some(p) => Some(StateChanged(p))
  }

  // ---------------------------------------------------------------------------
  // The public operations, dispatched after the lazy setup
  // ---------------------------------------------------------------------------

  datatype Operation =
    | Play | Pause | Stop | EndOfStream
    | SetInputSize(size: u64) | SetMute(mute: bool) | SetRate(rate: real)
    | PushData(data: seq<byte>) | Seek(time: real) | SetVolume(volume: real)
    | Buffered | SetStream(stream: Gst.StreamId) | DisableVideo

  datatype Reply = Done | Ranges(ranges: seq<Range>)

  /** The engine's answers to what an operation asks of it: whether a pushed buffer and
      an end-of-stream were accepted, and the answer to the buffering query. */
  datatype EngineAnswers = EngineAnswers(
    bufferAccepted: bool,
    eosAccepted: bool,
    buffering: Option<seq<(Gst.FormattedValue, Gst.FormattedValue)>>)

  function Lift(r: Result<(), PlayerError>): (l: Result<Reply, PlayerError>)
    ensures l.Ok? <==> r.Ok?
    ensures r.Err? ==> l.error == r.error
    ensures r.Ok? ==> l.value == Done
  {
    match r
    case Ok(_) => Ok(Done)
    case Err(e) => Err(e)
  }

  /** What an operation does to a session that is already set up. */
  function Effect(s: InnerState, st: StreamType, op: Operation, ans: EngineAnswers): (InnerState, Result<Reply, PlayerError>)
    requires op.Buffered? ==> BufferingAnswerable(s.lastMetadata, ans.buffering)
  {
    match op
    case Play => (Log(s, Gst.Play), Ok(Done))
    case Pause => (Log(s, Gst.Pause), Ok(Done))
    case Stop => (StopStep(s), Ok(Done))
    case EndOfStream => var o := EndOfStreamStep(s, ans.eosAccepted); (o.0, Lift(o.1))
    case SetInputSize(n) => (SetInputSizeStep(s, n), Ok(Done))
    case SetMute(b) => (Log(s, Gst.SetMute(b)), Ok(Done))
    case SetRate(x) => var o := SetRateStep(s, x); (o.0, Lift(o.1))
    case PushData(d) => var o := PushDataStep(s, d, ans.bufferAccepted); (o.0, Lift(o.1))
    case Seek(t) => var o := SeekStep(s, st, t); (o.0, Lift(o.1))
    case SetVolume(v) => (Log(s, Gst.SetVolume(v)), Ok(Done))
    case Buffered => (s, Ok(Ranges(BufferedRanges(s.lastMetadata, ans.buffering))))
    case SetStream(id) => var o := SetStreamStep(s, id); (o.0, Lift(o.1))
    case DisableVideo => (Log(s, Gst.SetVideoTrackEnabled(false)), Ok(Done))
  }

  /** The first message the setup handshake receives. */
  datatype Handshake = SourceSetupFired(element: Option<Gst.SourceHandle>) | ErrorFired(message: string)

  /** How the engine behaves while a session is being set up: which element factories
      exist, which configuration steps fail, whether the source-setup handler could be
      connected, and which handshake signal arrives first. */
  datatype SetupEnv = SetupEnv(
    factories: set<string>,
    flagsClassOk: bool,
    configError: Option<string>,
    videoSinkError: Option<PlayerError>,
    registrationOk: bool,
    sourceSetupConnected: bool,
    first: Handshake)

  /** The failures that end setup before a session exists, in the order they are checked. */
  function SetupPrecheck(env: SetupEnv, st: StreamType): (e: Option<PlayerError>)
    ensures e.None? <==>
      "playbin" in env.factories && "queue" in env.factories && env.flagsClassOk &&
      env.configError.None? && env.videoSinkError.None? && env.registrationOk
    ensures "playbin" !in env.factories ==> e == Some(Backend("Missing dependency: playbin"))
  {
    if "playbin" !in env.factories then Some(Backend("Missing dependency: playbin"))
    else if "queue" !in env.factories then Some(Backend("Missing dependency: queue"))
    else if !env.flagsClassOk then Some(Backend("FlagsClass creation failed"))
    else if env.configError.Some? then Some(Backend(env.configError.value))
    else if env.videoSinkError.Some? then env.videoSinkError
    else if !env.registrationOk then
      Some(Backend(if st == Stream then "servomediastreamsrc registration error" else "servosrc registration error"))
    else None
  }

  function Uri(st: StreamType): string {
    if st == Stream then "mediastream://" else "servosrc://"
  }

  /** The configuration calls made on the engine's player before the session is stored. */
  function ConfigurationCalls(st: StreamType): seq<Gst.PlayerCall> {
    [Gst.SetDownloadFlag, Gst.SetBufferSize(MAX_BUFFER_SIZE),
     Gst.SetPositionUpdateInterval(POSITION_UPDATE_INTERVAL_MS), Gst.SetUri(Uri(st))]
  }

  /** What setup returns once it reaches the handshake. */
  function HandshakeResult(env: SetupEnv): (r: Result<(), PlayerError>)
    ensures r.Ok? <==> env.sourceSetupConnected && env.first.SourceSetupFired? && env.first.element.Some?
    ensures env.sourceSetupConnected && env.first.ErrorFired? ==> r == Err(Backend(env.first.message))
  {
    if !env.sourceSetupConnected then Err(Backend("Source setup failed"))
    else match env.first
      case SourceSetupFired(Some(_)) => Ok(())
      case SourceSetupFired(None) => Err(Backend("Source setup failed"))
      case ErrorFired(msg) => Err(Backend(msg))
  }

  /** The session's state once the handshake has resolved. */
  function HandshakeState(env: SetupEnv, st: StreamType): (s: InnerState)
    ensures s.inputSize == 0 && s.rate == 1.0 && s.lastMetadata.None? && !s.enoughData
    ensures s.source.Some? <==> HandshakeResult(env).Ok?
  {
    var s0 := InnerState(None, 0, 1.0, None, false, ConfigurationCalls(st) + [Gst.Pause]);
    if !env.sourceSetupConnected then s0
    else match env.first
      case SourceSetupFired(Some(h)) => SourceSetupStep(s0, st, h)
      case SourceSetupFired(None) => s0
      case ErrorFired(_) => Log(s0, Gst.Stop)
  }

  /** The event observers receive while the handshake resolves: the error, if one
      arrives first. */
  function HandshakeEvent(env: SetupEnv): Option<PlayerEvent> {
    if env.sourceSetupConnected && env.first.ErrorFired? then Some(Error(env.first.message)) else None
  }

  function Announce<L>(targets: seq<L>, e: Option<PlayerEvent>): seq<(L, PlayerEvent)> {
    match e
    case None => []
    case Some(x) => Fanout(targets, x)
  }

  // ---------------------------------------------------------------------------
  // Cache now, apply later
  // ---------------------------------------------------------------------------

  /** A rate set before any metadata is cached succeeds without reaching the engine,
      and reaches it exactly once when seekable metadata arrives. */
  lemma RateAppliedWhenSeekableMetadataArrives(s: InnerState, rate: real, m: Metadata)
    requires s.lastMetadata.None? && m.isSeekable
    ensures SetRateStep(s, rate).1 == Ok(())
    ensures SetRateStep(s, rate).0.calls == s.calls
    ensures MediaInfoStep(SetRateStep(s, rate).0, m).0.calls == s.calls + [Gst.SetRate(rate)]
  {
  }

  /** A size set before a seekable source is bound reaches that source when it is bound. */
  lemma SizeAppliedWhenSourceIsBound(s: InnerState, size: u64, h: Gst.SourceHandle)
    requires s.source.None? && size > 0
    ensures SetInputSizeStep(s, size).calls == s.calls
    ensures SourceSetupStep(SetInputSizeStep(s, size), Seekable, h).calls == s.calls + [Gst.SourceSetSize(h, AsI64(size))]
  {
  }

  /** Re-announcing the same metadata changes nothing and notifies nobody. */
  lemma MediaInfoIdempotent(s: InnerState, m: Metadata)
    ensures var once := MediaInfoStep(s, m).0;
      MediaInfoStep(once, m) == (once, None)
  {
  }

  /** Once the engine has said it has enough data, no push reaches the source until
      need-data clears the flag, and then the next push does. */
  lemma EnoughDataGatesPush(s: InnerState, data: seq<byte>, accepted: bool)
    requires SeekableBound(s)
    ensures PushDataStep(s.(enoughData := true), data, accepted).1 == Err(PlayerError.EnoughData)
    ensures PushDataStep(s.(enoughData := true), data, accepted).0 == s.(enoughData := true)
    ensures PushDataStep(s.(enoughData := false), data, accepted).0.calls ==
      s.calls + [Gst.SourcePushBuffer(s.source.value.src, data)]
  {
  }

  /** A session in Stream mode never takes pushed data and never seeks; one in Seekable
      mode never takes a stream. */
  lemma ModeExcludesOperations(s: InnerState, st: StreamType, data: seq<byte>, accepted: bool, time: real, id: Gst.StreamId)
    requires s.source.Some? ==> SourceFits(s.source.value, st)
    ensures st == Stream ==> PushDataStep(s, data, accepted) == (s, Err(BufferPushFailed))
    ensures st == Stream ==> SeekStep(s, st, time) == (s, Err(NonSeekableStream))
    ensures st == Seekable ==> SetStreamStep(s, id) == (s, Err(SetStreamFailed))
  {
  }

  /** After stop no seek is out of range, since the cached duration is forgotten, and a
      pushed buffer is refused until a source is bound again. */
  lemma StopForgetsSession(s: InnerState, time: real, data: seq<byte>, accepted: bool)
    ensures SeekCheck(Seekable, StopStep(s).lastMetadata, time) == Ok(())
    ensures PushDataStep(StopStep(s), data, accepted).1 == Err(BufferPushFailed)
  {
  }

  // ---------------------------------------------------------------------------
  // The session object and the two fan-out lists
  // ---------------------------------------------------------------------------

  type ObserverId = nat
  type RendererId = nat

  /** PlayerInner: the cached state, updated in place by the operations. */
  class PlayerInner {
    var source: Option<PlayerSource>
    var inputSize: u64
    var rate: real
    const streamType: StreamType
    var lastMetadata: Option<Metadata>
    var enoughData: bool
    var calls: seq<Gst.PlayerCall>

    ghost function State(): InnerState
      reads this
    {
      InnerState(source, inputSize, rate, lastMetadata, enoughData, calls)
    }

    ghost predicate Valid()
      reads this
    {
      source.Some? ==> SourceFits(source.value, streamType)
    }

    constructor (streamType: StreamType, setupCalls: seq<Gst.PlayerCall>)
      ensures Valid() && this.streamType == streamType
      ensures State() == InnerState(None, 0, 1.0, None, false, setupCalls)
    {
      source := None;
      inputSize := 0;
      rate := 1.0;
      this.streamType := streamType;
      lastMetadata := None;
      enoughData := false;
      calls := setupCalls;
    }

    method SetInputSize(size: u64) returns (r: Result<(), PlayerError>)
      requires Valid()
      modifies this
      ensures Valid()
      ensures State() == SetInputSizeStep(old(State()), size) && r == Ok(())
    {
      inputSize := size;
      match source {
        case Some(SeekableSource(h)) =>
          calls := calls + [Gst.SourceSetSize(h, if size > 0 then AsI64(size) else -1)];
        case _ =>
      }
      r := Ok(());
    }

    method SetMute(val: bool) returns (r: Result<(), PlayerError>)
      requires Valid()
      modifies this
      ensures Valid()
      ensures State() == Log(old(State()), Gst.SetMute(val)) && r == Ok(())
    {
      calls := calls + [Gst.SetMute(val)];
      r := Ok(());
    }

    method SetRate(rate: real) returns (r: Result<(), PlayerError>)
      requires Valid()
      modifies this
      ensures Valid()
      ensures (State(), r) == SetRateStep(old(State()), rate)
    {
      this.rate := rate;
      if lastMetadata.Some? {
        if !lastMetadata.value.isSeekable {
          return Err(NonSeekableStream);
        }
        calls := calls + [Gst.SetRate(rate)];
      }
      r := Ok(());
    }

    method Play() returns (r: Result<(), PlayerError>)
      requires Valid()
      modifies this
      ensures Valid()
      ensures State() == Log(old(State()), Gst.Play) && r == Ok(())
    {
      calls := calls + [Gst.Play];
      r := Ok(());
    }

    method Stop() returns (r: Result<(), PlayerError>)
      requires Valid()
      modifies this
      ensures Valid()
      ensures State() == StopStep(old(State())) && r == Ok(())
    {
      calls := calls + [Gst.Stop];
      lastMetadata := None;
      source := None;
      r := Ok(());
    }

    method Pause() returns (r: Result<(), PlayerError>)
      requires Valid()
      modifies this
      ensures Valid()
      ensures State() == Log(old(State()), Gst.Pause) && r == Ok(())
    {
      calls := calls + [Gst.Pause];
      r := Ok(());
    }

    /** `accepted` is the engine's answer to the end-of-stream request. */
    method EndOfStream(accepted: bool) returns (r: Result<(), PlayerError>)
      requires Valid()
      modifies this
      ensures Valid()
      ensures (State(), r) == EndOfStreamStep(old(State()), accepted)
    {
      match source {
        case Some(SeekableSource(h)) =>
          calls := calls + [Gst.SourceEndOfStream(h)];
          r := if accepted then Ok(()) else Err(EOSFailed);
        case _ =>
          r := Ok(());
      }
    }

    method Seek(time: real) returns (r: Result<(), PlayerError>)
      requires Valid()
      modifies this
      ensures Valid()
      ensures (State(), r) == SeekStep(old(State()), streamType, time)
    {
      if streamType != Seekable {
        return Err(NonSeekableStream);
      }
      if lastMetadata.Some? && lastMetadata.value.duration.Some? {
        if DurationLess(lastMetadata.value.duration.value, Duration(SaturatingU64(time), 0)) {
          return Err(SeekOutOfRange);
        }
      }
      calls := calls + [Gst.Seek(SaturatingU64(time * 1_000_000_000.0))];
      r := Ok(());
    }

    method SetVolume(value: real) returns (r: Result<(), PlayerError>)
      requires Valid()
      modifies this
      ensures Valid()
      ensures State() == Log(old(State()), Gst.SetVolume(value)) && r == Ok(())
    {
      calls := calls + [Gst.SetVolume(value)];
      r := Ok(());
    }

    /** `accepted` is the engine's answer to the buffer push. */
    method PushData(data: seq<byte>, accepted: bool) returns (r: Result<(), PlayerError>)
      requires Valid()
      modifies this
      ensures Valid()
      ensures (State(), r) == PushDataStep(old(State()), data, accepted)
    {
      if source.Some? && source.value.SeekableSource? {
        if enoughData {
          return Err(PlayerError.EnoughData);
        }
        calls := calls + [Gst.SourcePushBuffer(source.value.src, data)];
        return if accepted then Ok(()) else Err(BufferPushFailed);
      }
      r := Err(BufferPushFailed);
    }

    method SetSrc(s: PlayerSource)
      requires Valid() && SourceFits(s, streamType)
      modifies this
      ensures Valid()
      ensures State() == old(State()).(source := Some(s))
    {
      source := Some(s);
    }

    /** `query` is the engine's answer to the percent buffering query, `None` when
        the query failed. */
    method Buffered(query: Option<seq<(Gst.FormattedValue, Gst.FormattedValue)>>) returns (r: Result<seq<Range>, PlayerError>)
      requires BufferingAnswerable(lastMetadata, query)
      ensures r == Ok(BufferedRanges(lastMetadata, query))
    {
      var result: seq<Range> := [];
      if lastMetadata.Some? && lastMetadata.value.duration.Some? {
        var secs := lastMetadata.value.duration.value.secs;
        if query.Some? {
          var ranges := query.value;
          for i := 0 to |ranges|
            invariant KnownPercents(ranges[..i])
            invariant result == RangesOf(ranges[..i], secs)
          {
            assert ranges[..i + 1][..i] == ranges[..i];
            assert ranges[..i + 1][i] == ranges[i];
            var start := PercentOf(ranges[i].0) * secs / FORMAT_PERCENT_MAX;
            var end := PercentOf(ranges[i].1) * secs / FORMAT_PERCENT_MAX;
            result := result + [Range(start, end)];
          }
          assert ranges[..|ranges|] == ranges;
        }
      }
      r := Ok(result);
    }

    method SetStream(stream: Gst.StreamId) returns (r: Result<(), PlayerError>)
      requires Valid()
      modifies this
      ensures Valid()
      ensures (State(), r) == SetStreamStep(old(State()), stream)
    {
      if source.Some? && source.value.StreamSource? {
        calls := calls + [Gst.UseSharedClock] + [Gst.SourceSetStream(source.value.src, stream)];
        return Ok(());
      }
      r := Err(SetStreamFailed);
    }

    method DisableVideo()
      requires Valid()
      modifies this
      ensures Valid()
      ensures State() == Log(old(State()), Gst.SetVideoTrackEnabled(false))
    {
      calls := calls + [Gst.SetVideoTrackEnabled(false)];
    }
  }

  /** PlayerEventObserverList: event channels, and every (channel, event) sent on them. */
  class PlayerEventObserverList {
    var observers: seq<ObserverId>
    var delivered: seq<(ObserverId, PlayerEvent)>

    constructor ()
      ensures observers == [] && delivered == []
    {
      observers, delivered := [], [];
    }

    method Register(observer: ObserverId)
      modifies this`observers
      ensures observers == old(observers) + [observer]
    {
      observers := observers + [observer];
    }

    method Notify(event: PlayerEvent)
      modifies this`delivered
      ensures delivered == old(delivered) + Fanout(observers, event)
    {
      for i := 0 to |observers|
        invariant delivered == old(delivered) + Fanout(observers[..i], event)
      {
        FanoutAppend(observers[..i], [observers[i]], event);
        assert observers[..i + 1] == observers[..i] + [observers[i]];
        delivered := delivered + [(observers[i], event)];
      }
      assert observers[..|observers|] == observers;
    }

    method Clear()
      modifies this`observers
      ensures observers == []
    {
      observers := [];
    }
  }

  /** FrameRendererList: renderers, and every (renderer, frame) handed to them. */
  class FrameRendererList {
    var renderers: seq<RendererId>
    var rendered: seq<(RendererId, Gst.Frame)>

    constructor ()
      ensures renderers == [] && rendered == []
    {
      renderers, rendered := [], [];
    }

    method Register(renderer: RendererId)
      modifies this`renderers
      ensures renderers == old(renderers) + [renderer]
    {
      renderers := renderers + [renderer];
    }

    method Render(frame: Gst.Frame) returns (r: Result<(), ()>)
      modifies this`rendered
      ensures r == Ok(())
      ensures rendered == old(rendered) + Fanout(renderers, frame)
    {
      for i := 0 to |renderers|
        invariant rendered == old(rendered) + Fanout(renderers[..i], frame)
      {
        FanoutAppend(renderers[..i], [renderers[i]], frame);
        assert renderers[..i + 1] == renderers[..i] + [renderers[i]];
        rendered := rendered + [(renderers[i], frame)];
      }
      assert renderers[..|renderers|] == renderers;
      r := Ok(());
    }

    method Clear()
      modifies this`renderers
      ensures renderers == []
    {
      renderers := [];
    }
  }


  /** GStreamerPlayer: the session (created by the first setup), the two lists, the
      session's mode, and the one-shot gate of the handshake. */
  class GStreamerPlayer {
    var inner: PlayerInner?
    const observers: PlayerEventObserverList
    const renderers: FrameRendererList
    const streamType: StreamType
    var isReady: bool

    ghost predicate Valid()
      reads this, inner
    {
      (inner == null ==> !isReady) &&
      (inner != null ==> inner.Valid() && inner.streamType == streamType)
    }

    constructor (streamType: StreamType)
      ensures Valid() && inner == null && this.streamType == streamType
      ensures fresh(observers) && observers.observers == [] && observers.delivered == []
      ensures fresh(renderers) && renderers.renderers == [] && renderers.rendered == []
    {
      inner := null;
      observers := new PlayerEventObserverList();
      renderers := new FrameRendererList();
      this.streamType := streamType;
      isReady := false;
    }

    /** The lazy setup: a no-op once a session exists; otherwise the early failures in
        order, then the session is stored and paused, and the first handshake message
        decides the result. */
    method Setup(env: SetupEnv) returns (r: Result<(), PlayerError>)
      requires Valid()
      modifies this, observers`delivered
      ensures Valid()
      ensures old(inner) != null ==>
        r == Ok(()) && inner == old(inner) && isReady == old(isReady) &&
        inner.State() == old(inner.State()) && observers.delivered == old(observers.delivered)
      ensures old(inner) == null && SetupPrecheck(env, streamType).Some? ==>
        r == Err(SetupPrecheck(env, streamType).value) && inner == null &&
        observers.delivered == old(observers.delivered)
      ensures old(inner) == null && SetupPrecheck(env, streamType).None? ==>
        inner != null && fresh(inner) && r == HandshakeResult(env) && isReady == r.Ok? &&
        inner.State() == HandshakeState(env, streamType) &&
        observers.delivered == old(observers.delivered) + Announce(observers.observers, HandshakeEvent(env))
    {
      if inner != null {
        return Ok(());
      }
      var pre := SetupPrecheck(env, streamType);
      if pre.Some? {
        return Err(pre.value);
      }
      inner := new PlayerInner(streamType, ConfigurationCalls(streamType));
      var _ := inner.Pause();
      if !env.sourceSetupConnected {
        return Err(Backend("Source setup failed"));
      }
      match env.first {
        case SourceSetupFired(element) =>
          var sent := OnSourceSetup(element);
          r := sent.value;
        case ErrorFired(msg) =>
          OnError(msg);
          inner.calls := inner.calls + [Gst.Stop];
          r := Err(Backend(msg));
      }
    }

    /** One public operation (the proxy every operation goes through): the lazy setup,
        then the operation on the session. */
    method Call(env: SetupEnv, op: Operation, ans: EngineAnswers) returns (r: Result<Reply, PlayerError>)
      requires Valid()
      requires op.Buffered? && inner != null ==> BufferingAnswerable(inner.lastMetadata, ans.buffering)
      modifies this, inner, observers`delivered
      ensures Valid()
      ensures old(inner) != null ==>
        inner == old(inner) && isReady == old(isReady) && observers.delivered == old(observers.delivered) &&
        (inner.State(), r) == Effect(old(inner.State()), streamType, op, ans)
      ensures old(inner) == null && SetupPrecheck(env, streamType).Some? ==>
        r == Err(SetupPrecheck(env, streamType).value) && inner == null &&
        observers.delivered == old(observers.delivered)
      ensures old(inner) == null && SetupPrecheck(env, streamType).None? ==>
        inner != null && fresh(inner) && isReady == HandshakeResult(env).Ok? &&
        observers.delivered == old(observers.delivered) + Announce(observers.observers, HandshakeEvent(env)) &&
        (HandshakeResult(env).Err? ==>
          r == Err(HandshakeResult(env).error) && inner.State() == HandshakeState(env, streamType)) &&
        (HandshakeResult(env).Ok? ==>
          (inner.State(), r) == Effect(HandshakeState(env, streamType), streamType, op, ans))
    {
      var s := Setup(env);
      if s.Err? {
        return Err(s.error);
      }
      var u: Result<(), PlayerError>;
      match op {
        case Play => u := inner.Play(); r := Lift(u);
        case Pause => u := inner.Pause(); r := Lift(u);
        case Stop => u := inner.Stop(); r := Lift(u);
        case EndOfStream => u := inner.EndOfStream(ans.eosAccepted); r := Lift(u);
        case SetInputSize(n) => u := inner.SetInputSize(n); r := Lift(u);
        case SetMute(b) => u := inner.SetMute(b); r := Lift(u);
        case SetRate(x) => u := inner.SetRate(x); r := Lift(u);
        case PushData(d) => u := inner.PushData(d, ans.bufferAccepted); r := Lift(u);
        case Seek(t) => u := inner.Seek(t); r := Lift(u);
        case SetVolume(v) => u := inner.SetVolume(v); r := Lift(u);
        case Buffered =>
          var b := inner.Buffered(ans.buffering);
          r := Ok(Ranges(b.value));
        case SetStream(id) => u := inner.SetStream(id); r := Lift(u);
        case DisableVideo => inner.DisableVideo(); r := Ok(Done);
      }
    }

    method RegisterEventHandler(observer: ObserverId)
      modifies observers`observers
      ensures observers.observers == old(observers.observers) + [observer]
    {
      observers.Register(observer);
    }

    method RegisterFrameRenderer(renderer: RendererId)
      modifies renderers`renderers
      ensures renderers.renderers == old(renderers.renderers) + [renderer]
    {
      renderers.Register(renderer);
    }

    /** Both lists are emptied before the session is stopped, so the stop itself is
        announced to nobody. */
    method Shutdown(env: SetupEnv, ans: EngineAnswers) returns (r: Result<Reply, PlayerError>)
      requires Valid()
      modifies this, inner, observers, renderers`renderers
      ensures Valid()
      ensures observers.observers == [] && renderers.renderers == []
      ensures observers.delivered == old(observers.delivered)
      ensures old(inner) != null ==>
        inner == old(inner) && r == Ok(Done) && inner.State() == StopStep(old(inner.State()))
      ensures old(inner) == null && SetupPrecheck(env, streamType).Some? ==>
        r == Err(SetupPrecheck(env, streamType).value) && inner == null
      ensures old(inner) == null && SetupPrecheck(env, streamType).None? ==>
        inner != null && fresh(inner) && isReady == HandshakeResult(env).Ok? &&
        (HandshakeResult(env).Err? ==>
          r == Err(HandshakeResult(env).error) && inner.State() == HandshakeState(env, streamType)) &&
        (HandshakeResult(env).Ok? ==>
          r == Ok(Done) && inner.State() == StopStep(HandshakeState(env, streamType)))
    {
      observers.Clear();
      renderers.Clear();
      r := Call(env, Operation.Stop, ans);
    }

    // -------------------------------------------------------------------------
    // Engine signals, each handled as one event
    // -------------------------------------------------------------------------

    method OnEndOfStream()
      modifies observers`delivered
      ensures observers.delivered == old(observers.delivered) + Fanout(observers.observers, PlayerEvent.EndOfStream)
    {
      observers.Notify(PlayerEvent.EndOfStream);
    }

    method OnError(message: string)
      modifies observers`delivered
      ensures observers.delivered == old(observers.delivered) + Fanout(observers.observers, Error(message))
    {
      observers.Notify(Error(message));
    }

    method OnStateChanged(state: Gst.EngineState)
      modifies observers`delivered
      ensures observers.delivered == old(observers.delivered) + Announce(observers.observers, StateEvent(state))
    {
      var p := PlaybackStateOf(state);
      if p.Some? {
        observers.Notify(StateChanged(p.value));
      }
    }

    method OnPositionUpdated(position: Gst.ClockTime)
      modifies observers`delivered
      ensures position.None? ==> observers.delivered == old(observers.delivered)
      ensures position.Some? ==>
        observers.delivered == old(observers.delivered) + Fanout(observers.observers, PositionChanged(position.value / NANOS_PER_SECOND))
    {
      if position.Some? {
        observers.Notify(PositionChanged(position.value / NANOS_PER_SECOND));
      }
    }

    method OnSeekDone(position: Gst.ClockTime)
      modifies observers`delivered
      ensures position.None? ==> observers.delivered == old(observers.delivered)
      ensures position.Some? ==>
        observers.delivered == old(observers.delivered) + Fanout(observers.observers, SeekDone(position.value / NANOS_PER_SECOND))
    {
      if position.Some? {
        observers.Notify(SeekDone(position.value / NANOS_PER_SECOND));
      }
    }

    method OnMediaInfoUpdated(info: Gst.MediaInfo)
      requires Valid() && inner != null
      modifies inner, observers`delivered
      ensures Valid()
      ensures var o := MediaInfoStep(old(inner.State()), MetadataOf(info));
        inner.State() == o.0 && observers.delivered == old(observers.delivered) + Announce(observers.observers, o.1)
    {
      var m := MetadataFromMediaInfo(info);
      if m.Ok? {
        var metadata := m.value;
        if inner.lastMetadata != Some(metadata) {
          inner.lastMetadata := Some(metadata);
          if metadata.isSeekable {
            inner.calls := inner.calls + [Gst.SetRate(inner.rate)];
          }
          observers.Notify(MetadataUpdated(metadata));
        }
      }
    }

    method OnDurationChanged(duration: Gst.ClockTime)
      requires Valid() && inner != null
      modifies inner, observers`delivered
      ensures Valid()
      ensures var o := DurationChangedStep(old(inner.State()), ClockDuration(duration));
        inner.State() == o.0 && observers.delivered == old(observers.delivered) + Announce(observers.observers, o.1)
    {
      var d := ClockDuration(duration);
      if inner.lastMetadata.Some? {
        var m := inner.lastMetadata.value.(duration := d);
        inner.lastMetadata := Some(m);
        observers.Notify(MetadataUpdated(m));
      }
    }

    /** The video sink's new-sample callback. */
    method OnNewSample(sample: Gst.Sample) returns (flow: Gst.Flow)
      modifies renderers`rendered, observers`delivered
      ensures !sample.Decoded? ==>
        renderers.rendered == old(renderers.rendered) && observers.delivered == old(observers.delivered)
      ensures sample.NoSample? ==> flow == Gst.FlowEos
      ensures sample.Unconvertible? ==> flow == Gst.FlowError
      ensures sample.Decoded? ==>
        flow == Gst.FlowOk &&
        renderers.rendered == old(renderers.rendered) + Fanout(renderers.renderers, sample.frame) &&
        observers.delivered == old(observers.delivered) + Fanout(observers.observers, FrameUpdated)
    {
      match sample {
        case NoSample => return Gst.FlowEos;
        case Unconvertible => return Gst.FlowError;
        case Decoded(frame) =>
          var rendered := renderers.Render(frame);
          if rendered.Err? {
            return Gst.FlowError;
          }
          observers.Notify(FrameUpdated);
          flow := Gst.FlowOk;
      }
    }

    /** The pipeline's source-setup signal; `element` is the source element it carries.
        Returns the message sent to a waiting setup, if any. */
    method OnSourceSetup(element: Option<Gst.SourceHandle>) returns (sent: Option<Result<(), PlayerError>>)
      requires Valid() && inner != null
      modifies this`isReady, inner
      ensures Valid()
      ensures element.None? ==>
        sent == Some(Err(Backend("Source setup failed"))) &&
        inner.State() == old(inner.State()) && isReady == old(isReady)
      ensures element.Some? ==>
        inner.State() == SourceSetupStep(old(inner.State()), streamType, element.value) && isReady &&
        (old(isReady) ==> sent.None?) && (!old(isReady) ==> sent == Some(Ok(())))
    {
      if element.None? {
        return Some(Err(Backend("Source setup failed")));
      }
      var h := element.value;
      if inner.streamType == Seekable && inner.inputSize > 0 {
        inner.calls := inner.calls + [Gst.SourceSetSize(h, AsI64(inner.inputSize))];
      }
      sent := if isReady then None else Some(Ok(()));
      isReady := true;
      inner.SetSrc(SourceFor(inner.streamType, h));
    }

    /** The seekable source's need-data callback: pushing is allowed again. */
    method OnNeedData()
      requires Valid() && inner != null
      modifies inner`enoughData, observers`delivered
      ensures Valid()
      ensures inner.State() == old(inner.State()).(enoughData := false)
      ensures observers.delivered == old(observers.delivered) + Fanout(observers.observers, NeedData)
    {
      inner.enoughData := false;
      observers.Notify(NeedData);
    }

    /** The seekable source's enough-data callback: pushing is refused until need-data. */
    method OnEnoughData()
      requires Valid() && inner != null
      modifies inner`enoughData, observers`delivered
      ensures Valid()
      ensures inner.State() == old(inner.State()).(enoughData := true)
      ensures observers.delivered == old(observers.delivered) + Fanout(observers.observers, PlayerEvent.EnoughData)
    {
      inner.enoughData := true;
      observers.Notify(PlayerEvent.EnoughData);
    }

    /** The seekable source's seek-data callback, for the source `src` it was set on. */
    method OnSeekData(src: Gst.SourceHandle, offset: u64) returns (handled: bool)
      requires Valid() && inner != null
      modifies inner`calls, observers`delivered
      ensures Valid()
      ensures handled
      ensures inner.State() == Log(old(inner.State()), Gst.SourceSetSeekOffset(src, offset))
      ensures observers.delivered == old(observers.delivered) + Fanout(observers.observers, SeekData(offset))
    {
      observers.Notify(SeekData(offset));
      inner.calls := inner.calls + [Gst.SourceSetSeekOffset(src, offset)];
      handled := true;
    }
  }
}
