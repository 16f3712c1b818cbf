/** The older player of backends/gstreamer/src/player.rs: an app-source player whose
    session holds the subscriber and renderer lists itself, whose operations report
    success as a bool, and whose setup waits for the first need-data of the bound
    source (or a failure) before it returns. */
module LegacyPlayer {
  import opened Base
  import Gst
  import opened Tracks

  const SECONDS_PER_MINUTE: nat := 60
  const MINUTES_PER_HOUR: nat := 60

  /** The playback states this player reports; it has no buffering state. */
  datatype PlaybackState = Stopped | Paused | Playing

  datatype Metadata = Metadata(
    duration: Option<Duration>,
    width: nat,
    height: nat,
    format: string,
    audioTracks: seq<string>,
    videoTracks: seq<string>)

  datatype PlayerEvent =
    | EndOfStream
    | MetadataUpdated(metadata: Metadata)
    | StateChanged(state: PlaybackState)
    | FrameUpdated
    | Error

  type SubscriberId = nat
  type RendererId = nat

  /** Every audio and video stream names its codec; the source unwraps the codec. */
  predicate CodecsKnown(streams: seq<Gst.StreamInfo>) {
    forall i :: 0 <= i < |streams| && (streams[i].streamType == "audio" || streams[i].streamType == "video") ==>
      streams[i].codec.Some?
  }

  function MetadataOf(info: Gst.MediaInfo): Metadata {
    Metadata(
      ClockDuration(info.duration),
      FrameSize(info).0,
      FrameSize(info).1,
      match info.containerFormat case Some(f) => f case None => "",
      TracksOf(info.streams, "audio"),
      TracksOf(info.streams, "video"))
  }

  /** With every codec known, a track list holds exactly the codecs of the streams of
      that type, in stream order. */
  lemma {:induction false} TracksAreCodecs(streams: seq<Gst.StreamInfo>, kind: string)
    requires kind == "audio" || kind == "video"
    requires CodecsKnown(streams)
    ensures forall c :: c in TracksOf(streams, kind) <==>
      exists i :: 0 <= i < |streams| && streams[i].streamType == kind && streams[i].codec == Some(c)
  {
    forall c ensures c in TracksOf(streams, kind) <==>
      exists i :: 0 <= i < |streams| && streams[i].streamType == kind && streams[i].codec == Some(c)
    {
      TracksOfMembership(streams, kind, c);
      if exists i :: 0 <= i < |streams| && streams[i].streamType == kind && CodecOrEmpty(streams[i]) == c {
        var i :| 0 <= i < |streams| && streams[i].streamType == kind && CodecOrEmpty(streams[i]) == c;
        assert streams[i].codec == Some(c);
      }
    }
  }

  /** GStreamerMetadata::new: the codec loop and the first video stream's size. */
  method NewMetadata(info: Gst.MediaInfo) returns (m: Metadata)
    requires CodecsKnown(info.streams)
    ensures m == MetadataOf(info)
  {
    var duration := ClockDuration(info.duration);
    var format := "";
    if info.containerFormat.Some? {
      format := info.containerFormat.value;
    }
    var audioTracks, videoTracks := CollectTracks(info.streams);
    var width: nat := 0;
    var height: nat := 0;
    if |info.videoStreams| > 0 {
      width := AsU32(info.videoStreams[0].width);
      height := AsU32(info.videoStreams[0].height);
    }
    m := Metadata(duration, width, height, format, audioTracks, videoTracks);
  }

  /** The session's cached state, its two lists, and the logs of what it sent,
      rendered and asked of the engine. */
  datatype LegacyState = LegacyState(
    appsrc: Option<Gst.SourceHandle>,
    inputSize: u64,
    subscribers: seq<SubscriberId>,
    renderers: seq<RendererId>,
    lastMetadata: Option<Metadata>,
    sent: seq<(SubscriberId, PlayerEvent)>,
    rendered: seq<(RendererId, Gst.Frame)>,
    calls: seq<Gst.PlayerCall>)

  function NotifyStep(s: LegacyState, e: PlayerEvent): LegacyState {
    s.(sent := s.sent + Fanout(s.subscribers, e))
  }

  /** The source-setup handler with an element: byte format, the cached size when it
      is above 0, and the element bound as the app source. */
  function SourceSetupStep(s: LegacyState, h: Gst.SourceHandle): (t: LegacyState)
    ensures t.appsrc == Some(h)
    ensures t.(appsrc := s.appsrc, calls := s.calls) == s
    ensures s.inputSize > 0 ==> t.calls == s.calls + [Gst.SourceSetFormatBytes(h), Gst.SourceSetSize(h, AsI64(s.inputSize))]
    ensures s.inputSize == 0 ==> t.calls == s.calls + [Gst.SourceSetFormatBytes(h)]
  {
    var calls := s.calls + [Gst.SourceSetFormatBytes(h)] +
      (if s.inputSize > 0 then [Gst.SourceSetSize(h, AsI64(s.inputSize))] else []);
    s.(calls := calls, appsrc := Some(h))
  }

  /** The signals that can arrive while setup waits. */
  datatype SetupSignal = SourceSetup(element: Option<Gst.SourceHandle>) | NeedData | EngineError

  /** A signal that answers the waiting setup with a failure. */
  predicate Fails(sig: SetupSignal) {
    sig == SourceSetup(None) || sig == EngineError
  }

  predicate Arms(sig: SetupSignal) {
    sig.SourceSetup? && sig.element.Some?
  }

  /** One signal during setup: the new state, whether a need-data handler is armed,
      and the reply sent to the waiting setup, if any. */
  function SignalStep(s: LegacyState, armed: bool, sig: SetupSignal): (LegacyState, bool, Option<bool>) {
    match sig
    case SourceSetup(None) => (s, armed, Some(false))
    case SourceSetup(Some(h)) => (SourceSetupStep(s, h), true, None)
    case NeedData => if armed then (s, false, Some(true)) else (s, armed, None)
    case EngineError => (NotifyStep(s, Error), armed, Some(false))
  }

  /** The signals processed until the first reply: the state then, and the reply
      (`None` if none of the signals answers, in which case setup keeps waiting). */
  function Handshake(s: LegacyState, armed: bool, signals: seq<SetupSignal>): (LegacyState, Option<bool>)
    decreases |signals|
  {
    if signals == [] then (s, None)
    else
      var step := SignalStep(s, armed, signals[0]);
      if step.2.Some? then (step.0, step.2) else Handshake(step.0, step.1, signals[1..])
  }

  /** The reply alone, which depends only on the signals. */
  function Reply(armed: bool, signals: seq<SetupSignal>): Option<bool>
    decreases |signals|
  {
    if signals == [] then None
    else if Fails(signals[0]) then Some(false)
    else if signals[0] == NeedData && armed then Some(true)
    else Reply(armed || Arms(signals[0]), signals[1..])
  }

  lemma {:induction false} HandshakeReply(s: LegacyState, armed: bool, signals: seq<SetupSignal>)
    ensures Handshake(s, armed, signals).1 == Reply(armed, signals)
    decreases |signals|
  {
    if signals != [] {
      var step := SignalStep(s, armed, signals[0]);
      if step.2.None? {
        HandshakeReply(step.0, step.1, signals[1..]);
      }
    }
  }

  predicate NoFailureBefore(signals: seq<SetupSignal>, i: nat)
    requires i <= |signals|
  {
    forall k :: 0 <= k < i ==> !Fails(signals[k])
  }

  predicate ArmedBefore(armed: bool, signals: seq<SetupSignal>, i: nat)
    requires i <= |signals|
  {
    armed || exists j :: 0 <= j < i && Arms(signals[j])
  }

  /** Position `i` is a need-data that answers the setup with success. */
  predicate SucceedsAt(armed: bool, signals: seq<SetupSignal>, i: nat) {
    i < |signals| && signals[i] == NeedData && ArmedBefore(armed, signals, i) && NoFailureBefore(signals, i)
  }

  /** Dropping a first signal that neither fails nor answers shifts every success
      position by one, with the need-data handler armed if that signal armed it. */
  lemma SucceedsAtShift(armed: bool, signals: seq<SetupSignal>, i: nat)
    requires signals != [] && !Fails(signals[0]) && !(signals[0] == NeedData && armed)
    ensures SucceedsAt(armed, signals, i + 1) <==> SucceedsAt(armed || Arms(signals[0]), signals[1..], i)
  {
    var rest := signals[1..];
    var a := armed || Arms(signals[0]);
    if i < |rest| {
      assert signals[i + 1] == rest[i];
      assert NoFailureBefore(signals, i + 1) <==> NoFailureBefore(rest, i) by {
        if NoFailureBefore(rest, i) {
          forall k | 0 <= k < i + 1 ensures !Fails(signals[k]) {
            if k > 0 { assert signals[k] == rest[k - 1]; }
          }
        }
        if NoFailureBefore(signals, i + 1) {
          forall k | 0 <= k < i ensures !Fails(rest[k]) {
            assert rest[k] == signals[k + 1];
          }
        }
      }
      assert ArmedBefore(armed, signals, i + 1) <==> ArmedBefore(a, rest, i) by {
        if ArmedBefore(armed, signals, i + 1) && !armed && !Arms(signals[0]) {
          var j :| 0 <= j < i + 1 && Arms(signals[j]);
          assert j > 0 && Arms(rest[j - 1]);
        }
        if ArmedBefore(a, rest, i) && !a {
          var j :| 0 <= j < i && Arms(rest[j]);
          assert Arms(signals[j + 1]);
        }
        if a && !armed {
          assert Arms(signals[0]);
        }
      }
    }
  }

  /** Setup succeeds exactly when a need-data arrives after a source was bound and
      before any failure. */
  lemma {:induction false} ReplySucceeds(armed: bool, signals: seq<SetupSignal>)
    ensures Reply(armed, signals) == Some(true) <==> exists i :: SucceedsAt(armed, signals, i)
    decreases |signals|
  {
    if signals == [] {
      assert forall i :: !SucceedsAt(armed, signals, i);
    } else if Fails(signals[0]) {
      assert forall i: nat :: !SucceedsAt(armed, signals, i);
    } else if signals[0] == NeedData && armed {
      assert SucceedsAt(armed, signals, 0);
    } else {
      var a := armed || Arms(signals[0]);
      ReplySucceeds(a, signals[1..]);
      if exists i :: SucceedsAt(a, signals[1..], i) {
        var i: nat :| SucceedsAt(a, signals[1..], i);
        SucceedsAtShift(armed, signals, i);
      }
      if exists i :: SucceedsAt(armed, signals, i) {
        var i: nat :| SucceedsAt(armed, signals, i);
        assert i > 0;
        SucceedsAtShift(armed, signals, i - 1);
      }
    }
  }

  /** The setup handshake, from an unarmed start, reports success exactly at a
      need-data preceded by a bound source and by no failure. */
  lemma HandshakeSucceeds(s: LegacyState, signals: seq<SetupSignal>)
    ensures Handshake(s, false, signals).1 == Some(true) <==> exists i :: SucceedsAt(false, signals, i)
  {
    HandshakeReply(s, false, signals);
    ReplySucceeds(false, signals);
  }

  /** PlayerInner: the app source, the cached size and metadata, the two lists, and
      the logs of what was sent, rendered and asked of the engine. */
  class PlayerInner {
    var appsrc: Option<Gst.SourceHandle>
    var inputSize: u64
    var subscribers: seq<SubscriberId>
    var renderers: seq<RendererId>
    var lastMetadata: Option<Metadata>
    var sent: seq<(SubscriberId, PlayerEvent)>
    var rendered: seq<(RendererId, Gst.Frame)>
    var calls: seq<Gst.PlayerCall>

    ghost function State(): LegacyState
      reads this
    {
      LegacyState(appsrc, inputSize, subscribers, renderers, lastMetadata, sent, rendered, calls)
    }

    constructor (setupCalls: seq<Gst.PlayerCall>)
      ensures State() == LegacyState(None, 0, [], [], None, [], [], setupCalls)
    {
      appsrc, inputSize, subscribers, renderers := None, 0, [], [];
      lastMetadata, sent, rendered, calls := None, [], [], setupCalls;
    }

    method RegisterEventHandler(subscriber: SubscriberId)
      modifies this
      ensures State() == old(State()).(subscribers := old(subscribers) + [subscriber])
    {
      subscribers := subscribers + [subscriber];
    }

    method RegisterFrameRenderer(renderer: RendererId)
      modifies this
      ensures State() == old(State()).(renderers := old(renderers) + [renderer])
    {
      renderers := renderers + [renderer];
    }

    /** One copy of the event to every subscriber, in registration order. */
    method Notify(event: PlayerEvent)
      modifies this
      ensures State() == NotifyStep(old(State()), event)
    {
      for i := 0 to |subscribers|
        invariant subscribers == old(subscribers)
        invariant State() == old(State()).(sent := old(sent) + Fanout(subscribers[..i], event))
      {
        FanoutAppend(subscribers[..i], [subscribers[i]], event);
        assert subscribers[..i + 1] == subscribers[..i] + [subscribers[i]];
        sent := sent + [(subscribers[i], event)];
      }
      assert subscribers[..|subscribers|] == subscribers;
    }

    /** The frame once to every renderer in order, then one FrameUpdated to every subscriber. */
    method Render(frame: Gst.Frame)
      modifies this
      ensures State() == NotifyStep(old(State()).(rendered := old(rendered) + Fanout(old(renderers), frame)), FrameUpdated)
    {
      for i := 0 to |renderers|
        invariant renderers == old(renderers)
        invariant State() == old(State()).(rendered := old(rendered) + Fanout(renderers[..i], frame))
      {
        FanoutAppend(renderers[..i], [renderers[i]], frame);
        assert renderers[..i + 1] == renderers[..i] + [renderers[i]];
        rendered := rendered + [(renderers[i], frame)];
      }
      assert renderers[..|renderers|] == renderers;
      Notify(FrameUpdated);
    }

    method SetInputSize(size: u64)
      modifies this
      ensures State() == old(State()).(inputSize := size)
    {
      inputSize := size;
    }

    method Play()
      modifies this
      ensures State() == old(State()).(calls := old(calls) + [Gst.Play])
    {
      calls := calls + [Gst.Play];
    }

    /** Stops the engine and forgets the metadata and the app source. */
    method Stop()
      modifies this
      ensures State() == old(State()).(calls := old(calls) + [Gst.Stop], lastMetadata := None, appsrc := None)
    {
      calls := calls + [Gst.Stop];
      lastMetadata := None;
      appsrc := None;
    }

    method Start()
      modifies this
      ensures State() == old(State()).(calls := old(calls) + [Gst.Pause])
    {
      calls := calls + [Gst.Pause];
    }

    method SetAppSrc(h: Gst.SourceHandle)
      modifies this
      ensures State() == old(State()).(appsrc := Some(h))
    {
      appsrc := Some(h);
    }
  }

  /** The whole seconds, minutes and hours of a duration in nanoseconds, as the
      duration-changed handler splits it. */
  method DurationToHms(duration: nat) returns (hours: nat, minutes: nat, seconds: nat)
    ensures seconds < SECONDS_PER_MINUTE && minutes < MINUTES_PER_HOUR
    ensures hours * 3600 + minutes * 60 + seconds == duration / NANOS_PER_SECOND
  {
    seconds := duration / NANOS_PER_SECOND;
    minutes := seconds / SECONDS_PER_MINUTE;
    hours := minutes / MINUTES_PER_HOUR;
    ghost var total := seconds;
    ghost var totalMinutes := minutes;
    seconds := seconds % SECONDS_PER_MINUTE;
    minutes := minutes % MINUTES_PER_HOUR;
    assert total == totalMinutes * 60 + seconds;
    assert totalMinutes == hours * 60 + minutes;
  }

  /** The older GStreamerPlayer: the shared session and whether a need-data handler of
      the current setup is still connected. */
  class GStreamerPlayer {
    const inner: PlayerInner
    var needDataArmed: bool

    constructor ()
      ensures fresh(inner) && !needDataArmed
      ensures inner.State() == LegacyState(None, 0, [], [], None, [], [],
        [Gst.SetUri("appsrc://"), Gst.SetPositionUpdateInterval(0)])
    {
      inner := new PlayerInner([Gst.SetUri("appsrc://"), Gst.SetPositionUpdateInterval(0)]);
      needDataArmed := false;
    }

    method RegisterEventHandler(subscriber: SubscriberId)
      modifies inner
      ensures inner.State() == old(inner.State()).(subscribers := old(inner.subscribers) + [subscriber])
    {
      inner.RegisterEventHandler(subscriber);
    }

    method RegisterFrameRenderer(renderer: RendererId)
      modifies inner
      ensures inner.State() == old(inner.State()).(renderers := old(inner.renderers) + [renderer])
    {
      inner.RegisterFrameRenderer(renderer);
    }

    method SetInputSize(size: u64)
      modifies inner
      ensures inner.State() == old(inner.State()).(inputSize := size)
    {
      inner.SetInputSize(size);
    }

    method Play()
      modifies inner
      ensures inner.State() == old(inner.State()).(calls := old(inner.calls) + [Gst.Play])
    {
      inner.Play();
    }

    method Stop()
      modifies inner
      ensures inner.State() == old(inner.State()).(calls := old(inner.calls) + [Gst.Stop], lastMetadata := None, appsrc := None)
    {
      inner.Stop();
    }

    /** Setup pauses the engine, then handles the signals in order until one answers:
        it reports true exactly when a need-data of a bound source comes first. `None`
        means no signal answered and the source would still be waiting. */
    method Setup(signals: seq<SetupSignal>) returns (res: Option<bool>)
      modifies this, inner
      ensures (inner.State(), res) == Handshake(old(inner.State()).(calls := old(inner.calls) + [Gst.Pause]), false, signals)
    {
      inner.Start();
      needDataArmed := false;
      ghost var start := inner.State();
      res := None;
      var i := 0;
      while i < |signals| && res.None?
        invariant 0 <= i <= |signals|
        invariant res.None? ==> Handshake(start, false, signals) == Handshake(inner.State(), needDataArmed, signals[i..])
        invariant res.Some? ==> Handshake(start, false, signals) == (inner.State(), res)
        decreases |signals| - i
      {
        assert signals[i..][0] == signals[i];
        assert signals[i..][1..] == signals[i + 1..];
        match signals[i] {
          case SourceSetup(None) =>
            res := Some(false);
          case SourceSetup(Some(h)) =>
            OnSourceSetup(h);
            needDataArmed := true;
          case NeedData =>
            if needDataArmed {
              res := Some(true);
              needDataArmed := false;
            }
          case EngineError =>
            OnError();
            res := Some(false);
        }
        i := i + 1;
      }
    }

    /** The source-setup handler with the element it carries. */
    method OnSourceSetup(h: Gst.SourceHandle)
      modifies inner
      ensures inner.State() == SourceSetupStep(old(inner.State()), h)
    {
      inner.calls := inner.calls + [Gst.SourceSetFormatBytes(h)];
      if inner.inputSize > 0 {
        inner.calls := inner.calls + [Gst.SourceSetSize(h, AsI64(inner.inputSize))];
      }
      inner.SetAppSrc(h);
    }

    method OnEndOfStream()
      modifies inner
      ensures inner.State() == NotifyStep(old(inner.State()), PlayerEvent.EndOfStream)
    {
      inner.Notify(PlayerEvent.EndOfStream);
    }

    method OnError()
      modifies inner
      ensures inner.State() == NotifyStep(old(inner.State()), Error)
    {
      inner.Notify(Error);
    }

    /** Engine states other than stopped, paused and playing are not reported. */
    method OnStateChanged(state: Gst.EngineState)
      modifies inner
      ensures state.EngineStopped? ==> inner.State() == NotifyStep(old(inner.State()), StateChanged(Stopped))
      ensures state.EnginePaused? ==> inner.State() == NotifyStep(old(inner.State()), StateChanged(Paused))
      ensures state.EnginePlaying? ==> inner.State() == NotifyStep(old(inner.State()), StateChanged(Playing))
      ensures state.EngineBuffering? || state.EngineUnknown? ==> inner.State() == old(inner.State())
    {
      match state {
        case EngineStopped => inner.Notify(StateChanged(Stopped));
        case EnginePaused => inner.Notify(StateChanged(Paused));
        case EnginePlaying => inner.Notify(StateChanged(Playing));
        case _ =>
      }
    }

    /** New metadata is cached and announced only when it differs from the cached one. */
    method OnMediaInfoUpdated(info: Gst.MediaInfo)
      requires CodecsKnown(info.streams)
      modifies inner
      ensures old(inner.lastMetadata) == Some(MetadataOf(info)) ==> inner.State() == old(inner.State())
      ensures old(inner.lastMetadata) != Some(MetadataOf(info)) ==>
        inner.State() == NotifyStep(old(inner.State()).(lastMetadata := Some(MetadataOf(info))), MetadataUpdated(MetadataOf(info)))
    {
      var metadata := NewMetadata(info);
      if inner.lastMetadata != Some(metadata) {
        inner.lastMetadata := Some(metadata);
        inner.Notify(MetadataUpdated(metadata));
      }
    }

    /** The video sink's new-sample callback; `None` is a failed pull. */
    method OnNewSample(sample: Option<Gst.Frame>) returns (flow: Gst.Flow)
      modifies inner
      ensures sample.None? ==> flow == Gst.FlowEos && inner.State() == old(inner.State())
      ensures sample.Some? ==>
        flow == Gst.FlowOk &&
        inner.State() == NotifyStep(old(inner.State()).(rendered := old(inner.rendered) + Fanout(old(inner.renderers), sample.value)), FrameUpdated)
    {
      if sample.None? {
        return Gst.FlowEos;
      }
      inner.Render(sample.value);
      flow := Gst.FlowOk;
    }

    /** `accepted` is the engine's answer to the push. */
    method PushData(data: seq<byte>, accepted: bool) returns (ok: bool)
      modifies inner
      ensures old(inner.appsrc).None? ==> !ok && inner.State() == old(inner.State())
      ensures old(inner.appsrc).Some? ==>
        ok == accepted &&
        inner.State() == old(inner.State()).(calls := old(inner.calls) + [Gst.SourcePushBuffer(old(inner.appsrc).value, data)])
    {
      if inner.appsrc.Some? {
        inner.calls := inner.calls + [Gst.SourcePushBuffer(inner.appsrc.value, data)];
        return accepted;
      }
      return false;
    }

    /** `accepted` is the engine's answer to the end-of-stream request. */
    method EndOfStream(accepted: bool) returns (ok: bool)
      modifies inner
      ensures old(inner.appsrc).None? ==> !ok && inner.State() == old(inner.State())
      ensures old(inner.appsrc).Some? ==>
        ok == accepted &&
        inner.State() == old(inner.State()).(calls := old(inner.calls) + [Gst.SourceEndOfStream(old(inner.appsrc).value)])
    {
      if inner.appsrc.Some? {
        inner.calls := inner.calls + [Gst.SourceEndOfStream(inner.appsrc.value)];
        return accepted;
      }
      return false;
    }
  }
}
