/** The media-stream side of backends/gstreamer/media_stream.rs: a stream is a chain of
    engine elements of one media type that is bound to a pipeline at most once; the
    factory routines build fixed chains; a registry of streams hands out ids. */
module MediaStreams {
  import opened Base
  import opened Gst

  datatype MediaStreamType = Audio | Video

  type i32 = x: int | -0x8000_0000 <= x < 0x8000_0000

  const RTP_MEDIA_TYPE: string := "application/x-rtp"

  const RTP_CAPS_OPUS: Caps := Caps(RTP_MEDIA_TYPE, [("media", Str("audio")), ("encoding-name", Str("OPUS"))])
  const RTP_CAPS_VP8: Caps := Caps(RTP_MEDIA_TYPE, [("media", Str("video")), ("encoding-name", Str("VP8"))])

  const FRESH_PIPELINE_NAME: string := "gstreamermediastream fresh pipeline"
  const VIDEO_PIPELINE_NAME: string := "video pipeline"

  /** The RTP caps of a stream's encoded output. */
  function RtpCaps(t: MediaStreamType): Caps {
    match t
    case Audio => RTP_CAPS_OPUS
    case Video => RTP_CAPS_VP8
  }

  /** The RTP caps with an explicit payload number. */
  function CapsWithPayload(t: MediaStreamType, payload: i32): Caps {
    match t
    case Audio => Caps(RTP_MEDIA_TYPE, [("media", Str("audio")), ("encoding-name", Str("OPUS")), ("payload", Int(payload))])
    case Video => Caps(RTP_MEDIA_TYPE, [("media", Str("video")), ("encoding-name", Str("VP8")), ("payload", Int(payload))])
  }

  /** The payload caps are the plain RTP caps with one more field, the payload, so
      both describe the same media and encoding; audio is OPUS and video is VP8. */
  lemma CapsWithPayloadExtendsCaps(t: MediaStreamType, payload: i32)
    ensures CapsWithPayload(t, payload) == Caps(RtpCaps(t).name, RtpCaps(t).fields + [("payload", Int(payload))])
    ensures RtpCaps(t).name == RTP_MEDIA_TYPE
    ensures RtpCaps(t).fields[1] == ("encoding-name", Str(if t == Audio then "OPUS" else "VP8"))
    ensures RtpCaps(t).fields[0] == ("media", Str(if t == Audio then "audio" else "video"))
  {
  }

  /** The raw-video caps a sized chain forces on its source and its capsfilter. */
  function RawVideoCaps(width: nat, height: nat): Caps {
    Caps("video/x-raw", [("format", Str("BGRA")), ("width", Int(width)), ("height", Int(height))])
  }

  /** The encoder stages `encoded` puts after the source element. */
  function EncoderKinds(t: MediaStreamType): seq<ElementKind> {
    match t
    case Video => [Vp8Enc, RtpVp8Pay, Queue]
    case Audio => [OpusEnc, RtpOpusPay, Queue]
  }

  /** The engine calls `encoded` makes for a stream of type `t` bound to `p`, whose
      source element is `src`, when the engine's next handle is `n`: the capsfilter
      gets handle n and the three encoder stages n+1, n+2, n+3. */
  function EncodedCalls(t: MediaStreamType, p: PipelineId, src: Element, n: nat): seq<ElementCall> {
    var cf := Element(n, CapsFilter);
    [SetProperty(cf, "caps", CapsValue(RtpCaps(t)))] +
    match t
    case Video => VideoEncoderCalls(p, src, cf, Element(n + 1, Vp8Enc), Element(n + 2, RtpVp8Pay), Element(n + 3, Queue))
    case Audio => AudioEncoderCalls(p, src, cf, Element(n + 1, OpusEnc), Element(n + 2, RtpOpusPay), Element(n + 3, Queue))
  }

  function VideoEncoderCalls(p: PipelineId, src: Element, cf: Element, enc: Element, pay: Element, q: Element): seq<ElementCall> {
    [SetProperty(enc, "deadline", Int(1)), AddMany(p, [enc, pay, q, cf]), LinkMany([src, enc, pay, q, cf]),
     SyncStateWithParent(enc), SyncStateWithParent(pay), SyncStateWithParent(q), SyncStateWithParent(cf)]
  }

  function AudioEncoderCalls(p: PipelineId, src: Element, cf: Element, enc: Element, pay: Element, q: Element): seq<ElementCall> {
    [AddMany(p, [enc, pay, q, cf]), LinkMany([src, enc, pay, q, cf]),
     SyncStateWithParent(enc), SyncStateWithParent(pay), SyncStateWithParent(q)]
  }

  /** The shape of `encoded`'s calls for one stream type: `off` is the index shift of
      the deadline property set on the video encoder, and `synced` whether the
      capsfilter is synced. */
  predicate EncodedShaped(t: MediaStreamType, p: PipelineId, src: Element, n: nat, off: nat, synced: bool) {
    var cs := EncodedCalls(t, p, src, n);
    |cs| == 3 + off + (if t == Video then 4 else 3) &&
    cs[1 + off].AddMany? && |cs[1 + off].elements| == 4 && cs[1 + off].pipeline == p &&
    cs[2 + off].LinkMany? &&
    Kinds(cs[2 + off].elements) == [src.kind] + EncoderKinds(t) + [CapsFilter] &&
    cs[2 + off].elements[0] == src && cs[2 + off].elements[4] == Element(n, CapsFilter) &&
    (SyncStateWithParent(Element(n, CapsFilter)) in cs <==> synced)
  }

  lemma EncodedVideoShape(p: PipelineId, src: Element, n: nat)
    ensures EncodedShaped(Video, p, src, n, 1, true)
  {
    var enc, pay, q, cf := Element(n + 1, Vp8Enc), Element(n + 2, RtpVp8Pay), Element(n + 3, Queue), Element(n, CapsFilter);
    assert Kinds([src, enc, pay, q, cf]) == [src.kind, Vp8Enc, RtpVp8Pay, Queue, CapsFilter];
    assert EncodedCalls(Video, p, src, n)[7] == SyncStateWithParent(cf);
  }

  lemma EncodedAudioShape(p: PipelineId, src: Element, n: nat)
    ensures EncodedShaped(Audio, p, src, n, 0, false)
  {
    var enc, pay, q, cf := Element(n + 1, OpusEnc), Element(n + 2, RtpOpusPay), Element(n + 3, Queue), Element(n, CapsFilter);
    assert Kinds([src, enc, pay, q, cf]) == [src.kind, OpusEnc, RtpOpusPay, Queue, CapsFilter];
    var cs := EncodedCalls(Audio, p, src, n);
    assert cs[0].SetProperty? && cs[1].AddMany? && cs[2].LinkMany?;
    assert cs[3..] == [SyncStateWithParent(enc), SyncStateWithParent(pay), SyncStateWithParent(q)];
    assert SyncStateWithParent(cf) !in cs by {
      forall i | 0 <= i < |cs|
        ensures cs[i] != SyncStateWithParent(cf)
      {
        if i >= 3 {
          assert cs[i] == cs[3..][i - 3];
        }
      }
    }
  }

  /** `encoded` adds exactly four new elements, links the source through the encoder
      stages into the capsfilter, and syncs every added element for video but leaves
      the capsfilter unsynced for audio. */
  lemma EncodedShape(t: MediaStreamType, p: PipelineId, src: Element, n: nat)
    ensures EncodedShaped(t, p, src, n, if t == Video then 1 else 0, t == Video)
  {
    match t {
      case Video => EncodedVideoShape(p, src, n);
      case Audio => EncodedAudioShape(p, src, n);
    }
  }

  /** The handles and kinds of the chain `create_video_from` builds when the engine's
      next handle is `n`. */
  function VideoChain(n: nat, sized: bool): seq<Element> {
    var k := if sized then 1 else 0;
    [Element(n, ProxySrc)] + (if sized then [Element(n + 1, CapsFilter)] else []) +
    [Element(n + 1 + k, VideoConvert), Element(n + 2 + k, Queue)]
  }

  lemma VideoChainShape(n: nat, sized: bool)
    ensures Kinds(VideoChain(n, sized)) == [ProxySrc] + (if sized then [CapsFilter] else []) + [VideoConvert, Queue]
    ensures forall i, j :: 0 <= i < j < |VideoChain(n, sized)| ==> VideoChain(n, sized)[i].handle < VideoChain(n, sized)[j].handle
  {
  }

  const AUDIO_CHAIN_TAIL: seq<ElementKind> := [Queue, AudioConvert, AudioResample, Queue]

  /** The audio chain on `source`: a queue, audioconvert, audioresample and a second
      queue, made with consecutive handles from `n`. */
  function AudioChain(source: Element, n: nat): (c: seq<Element>)
    ensures |c| == 5 && c[0] == source && Kinds(c[1..]) == AUDIO_CHAIN_TAIL
  {
    [source, Element(n, Queue), Element(n + 1, AudioConvert), Element(n + 2, AudioResample), Element(n + 3, Queue)]
  }

  /** GStreamerMediaStream: its id once registered, its type, its element chain, the
      pipeline it is bound to, and the app source it forwards pushed data to. */
  class GStreamerMediaStream {
    var id: Option<StreamId>
    const streamType: MediaStreamType
    const elements: seq<Element>
    var pipeline: Option<PipelineId>
    var videoAppSource: Option<Element>

    constructor (streamType: MediaStreamType, elements: seq<Element>)
      ensures id.None? && this.streamType == streamType && this.elements == elements
      ensures pipeline.None? && videoAppSource.None?
    {
      id := None;
      this.streamType := streamType;
      this.elements := elements;
      pipeline := None;
      videoAppSource := None;
    }

    method SetId(id: StreamId)
      modifies this`id
      ensures this.id == Some(id)
    {
      this.id := Some(id);
    }

    /** The RTP caps of the stream's encoded output: OPUS for audio, VP8 for video. */
    function StreamCaps(): (c: Gst.Caps)
      ensures c.name == RTP_MEDIA_TYPE
      ensures c.fields == [("media", Str(if streamType == Audio then "audio" else "video")),
                           ("encoding-name", Str(if streamType == Audio then "OPUS" else "VP8"))]
    {
      RtpCaps(streamType)
    }

    /** The stream's RTP caps with one more field, the payload number. */
    function PayloadCaps(payload: i32): (c: Gst.Caps)
      ensures c == Gst.Caps(StreamCaps().name, StreamCaps().fields + [("payload", Int(payload))])
    {
      CapsWithPayloadExtendsCaps(streamType, payload);
      CapsWithPayload(streamType, payload)
    }

    /** The chain's first element; the source unwraps it, so the chain must not be empty. */
    function SrcElement(): (e: Element)
      requires |elements| > 0
      ensures e in elements && e == elements[0]
    {
      elements[0]
    }

    /** Binds the stream to `p`: every element is added to it, the chain is linked in
        order, and each element is synced, in order. The stream must not be bound yet. */
    method AttachToPipeline(engine: Engine, p: PipelineId)
      requires pipeline.None?
      modifies this`pipeline, engine`calls
      ensures pipeline == Some(p)
      ensures engine.calls == old(engine.calls) + [AddMany(p, elements), LinkMany(elements)] + SyncAll(elements)
    {
      engine.Perform(AddMany(p, elements));
      engine.Perform(LinkMany(elements));
      ghost var before := engine.calls;
      for i := 0 to |elements|
        invariant engine.calls == before + SyncAll(elements[..i])
      {
        SyncAllSnoc(elements[..i], elements[i]);
        assert elements[..i + 1] == elements[..i] + [elements[i]];
        engine.Perform(SyncStateWithParent(elements[i]));
      }
      assert elements[..|elements|] == elements;
      pipeline := Some(p);
    }

    /** The bound pipeline, or a fresh one on the shared clock to which the stream is
        then bound; either way the stream is bound to the pipeline returned. */
    method PipelineOrNew(engine: Engine) returns (p: PipelineId)
      modifies this`pipeline, engine
      ensures pipeline == Some(p)
      ensures old(pipeline).Some? ==>
        p == old(pipeline).value && engine.calls == old(engine.calls) && engine.nextHandle == old(engine.nextHandle)
      ensures old(pipeline).None? ==>
        p == old(engine.nextHandle) && engine.nextHandle == old(engine.nextHandle) + 1 &&
        engine.calls == old(engine.calls) + [NewPipeline(p, FRESH_PIPELINE_NAME), UsePipelineSharedClock(p),
                                             AddMany(p, elements), LinkMany(elements)] + SyncAll(elements)
    {
      if pipeline.Some? {
        return pipeline.value;
      }
      p := engine.NewPipelineNamed(FRESH_PIPELINE_NAME);
      engine.Perform(UsePipelineSharedClock(p));
      AttachToPipeline(engine, p);
    }

    /** Puts the encoder stages and a capsfilter carrying the RTP caps after the source
        element, in the bound pipeline, and returns the capsfilter. The stream itself
        is not changed. */
    method Encoded(engine: Engine) returns (capsfilter: Element)
      requires pipeline.Some? && |elements| > 0
      modifies engine
      ensures capsfilter == Element(old(engine.nextHandle), CapsFilter)
      ensures engine.nextHandle == old(engine.nextHandle) + 4
      ensures engine.calls == old(engine.calls) + EncodedCalls(streamType, pipeline.value, SrcElement(), old(engine.nextHandle))
    {
      var p := pipeline.value;
      var src := SrcElement();
      capsfilter := engine.Make(CapsFilter);
      engine.Perform(SetProperty(capsfilter, "caps", CapsValue(StreamCaps())));
      match streamType {
        case Video => EncodeVideo(engine, p, src, capsfilter);
        case Audio => EncodeAudio(engine, p, src, capsfilter);
      }
    }

    method SetVideoAppSource(source: Element)
      modifies this`videoAppSource
      ensures videoAppSource == Some(source)
    {
      videoAppSource := Some(source);
    }

    /** Pushed bytes reach the app source if there is one; otherwise they are dropped.
        A refused push is only logged by the source, so it changes nothing here. */
    method PushData(engine: Engine, data: seq<byte>)
      modifies engine`calls
      ensures videoAppSource.Some? ==> engine.calls == old(engine.calls) + [PushBuffer(videoAppSource.value, data)]
      ensures videoAppSource.None? ==> engine.calls == old(engine.calls)
    {
      if videoAppSource.Some? {
        engine.Perform(PushBuffer(videoAppSource.value, data));
      }
    }

    /** Dropping a registered stream removes its registry entry, and only that one. */
    method Drop(registry: StreamRegistry)
      requires registry.Valid()
      modifies registry`streams
      ensures registry.Valid()
      ensures id.Some? ==> registry.streams == old(registry.streams) - {id.value}
      ensures id.None? ==> registry.streams == old(registry.streams)
    {
      if id.Some? {
        registry.Unregister(id.value);
      }
    }
  }

  /** The stream registry the media-stream code registers with: a map from id to
      stream; every registration gets an id never handed out before and stamps it on
      the stream. */
  class StreamRegistry {
    var streams: map<StreamId, GStreamerMediaStream>
    var nextId: StreamId

    ghost predicate Valid()
      reads this
    {
      forall k :: k in streams ==> k < nextId
    }

    constructor ()
      ensures Valid() && streams == map[]
    {
      streams := map[];
      nextId := 0;
    }

    method Register(stream: GStreamerMediaStream) returns (id: StreamId)
      requires Valid()
      modifies this, stream`id
      ensures Valid()
      ensures id !in old(streams)
      ensures streams == old(streams)[id := stream]
      ensures stream.id == Some(id)
    {
      id := nextId;
      nextId := nextId + 1;
      streams := streams[id := stream];
      stream.SetId(id);
    }

    method Unregister(id: StreamId)
      requires Valid()
      modifies this`streams
      ensures Valid()
      ensures streams == old(streams) - {id}
    {
      streams := streams - {id};
    }

    function Get(id: StreamId): (s: Option<GStreamerMediaStream>)
      reads this
      ensures s.Some? <==> id in streams
      ensures s.Some? ==> s.value == streams[id]
    {
      if id in streams then Some(streams[id]) else None
    }
  }

  /** The video half of `encoded`: vp8enc (deadline 1), rtpvp8pay and a queue. */
  method EncodeVideo(engine: Engine, p: PipelineId, src: Element, cf: Element)
    modifies engine
    ensures engine.nextHandle == old(engine.nextHandle) + 3
    ensures var n := old(engine.nextHandle);
      engine.calls == old(engine.calls) +
        VideoEncoderCalls(p, src, cf, Element(n, Vp8Enc), Element(n + 1, RtpVp8Pay), Element(n + 2, Queue))
  {
    var vp8enc := engine.Make(Vp8Enc);
    engine.Perform(SetProperty(vp8enc, "deadline", Int(1)));
    var rtpvp8pay := engine.Make(RtpVp8Pay);
    var queue2 := engine.Make(Queue);
    engine.Perform(AddMany(p, [vp8enc, rtpvp8pay, queue2, cf]));
    engine.Perform(LinkMany([src, vp8enc, rtpvp8pay, queue2, cf]));
    engine.Perform(SyncStateWithParent(vp8enc));
    engine.Perform(SyncStateWithParent(rtpvp8pay));
    engine.Perform(SyncStateWithParent(queue2));
    engine.Perform(SyncStateWithParent(cf));
  }

  /** The audio half of `encoded`: opusenc, rtpopuspay and a queue; the capsfilter is
      added and linked but, unlike the video half, not synced. */
  method EncodeAudio(engine: Engine, p: PipelineId, src: Element, cf: Element)
    modifies engine
    ensures engine.nextHandle == old(engine.nextHandle) + 3
    ensures var n := old(engine.nextHandle);
      engine.calls == old(engine.calls) +
        AudioEncoderCalls(p, src, cf, Element(n, OpusEnc), Element(n + 1, RtpOpusPay), Element(n + 2, Queue))
  {
    var opusenc := engine.Make(OpusEnc);
    var rtpopuspay := engine.Make(RtpOpusPay);
    var queue3 := engine.Make(Queue);
    engine.Perform(AddMany(p, [opusenc, rtpopuspay, queue3, cf]));
    engine.Perform(LinkMany([src, opusenc, rtpopuspay, queue3, cf]));
    engine.Perform(SyncStateWithParent(opusenc));
    engine.Perform(SyncStateWithParent(rtpopuspay));
    engine.Perform(SyncStateWithParent(queue3));
  }

  /** The link the video chain's decodebin makes when its output pad appears: a new
      proxysink is added to the video pipeline after the decodebin and handed to the
      chain's first element, the proxysrc. */
  method OnPadAdded(engine: Engine, stream: GStreamerMediaStream, videoPipeline: PipelineId, decodebin: Element)
    returns (proxySink: Element)
    requires |stream.elements| > 0
    modifies engine
    ensures proxySink == Element(old(engine.nextHandle), ProxySink)
    ensures engine.nextHandle == old(engine.nextHandle) + 1
    ensures engine.calls == old(engine.calls) +
      [AddMany(videoPipeline, [proxySink]), LinkMany([decodebin, proxySink]),
       SetProperty(stream.SrcElement(), "proxysink", ElementValue(proxySink)), SyncStateWithParent(proxySink)]
  {
    proxySink := engine.Make(ProxySink);
    engine.Perform(AddMany(videoPipeline, [proxySink]));
    engine.Perform(LinkMany([decodebin, proxySink]));
    engine.Perform(SetProperty(stream.SrcElement(), "proxysink", ElementValue(proxySink)));
    engine.Perform(SyncStateWithParent(proxySink));
  }

  /** The chain half of `create_video_from`: the proxysrc, a capsfilter when sized
      (with the source and the capsfilter both given the BGRA caps of that size), a
      videoconvert and a queue. */
  method MakeVideoChain(engine: Engine, source: Element, size: Option<(nat, nat)>) returns (elements: seq<Element>)
    modifies engine
    ensures elements == VideoChain(old(engine.nextHandle), size.Some?)
    ensures engine.nextHandle == old(engine.nextHandle) + 3 + (if size.Some? then 1 else 0)
    ensures engine.calls == old(engine.calls) +
      (if size.Some? then
         var caps := CapsValue(RawVideoCaps(size.value.0, size.value.1));
         [SetProperty(source, "caps", caps), SetProperty(Element(old(engine.nextHandle) + 1, CapsFilter), "caps", caps)]
       else [])
  {
    var proxySrc := engine.Make(ProxySrc);
    elements := [proxySrc];
    if size.Some? {
      var caps := RawVideoCaps(size.value.0, size.value.1);
      engine.Perform(SetProperty(source, "caps", CapsValue(caps)));
      var capsfilter := engine.Make(CapsFilter);
      engine.Perform(SetProperty(capsfilter, "caps", CapsValue(caps)));
      elements := elements + [capsfilter];
    }
    var videoconvert := engine.Make(VideoConvert);
    var queue := engine.Make(Queue);
    elements := elements + [videoconvert, queue];
  }

  /** The feeding half of `create_video_from`: a fresh, playing "video pipeline" holding
      the source linked to a new decodebin. */
  method FeedDecodebin(engine: Engine, source: Element) returns (videoPipeline: PipelineId, decodebin: Element)
    modifies engine
    ensures videoPipeline == old(engine.nextHandle)
    ensures decodebin == Element(old(engine.nextHandle) + 1, DecodeBin)
    ensures engine.nextHandle == old(engine.nextHandle) + 2
    ensures engine.calls == old(engine.calls) +
      [NewPipeline(videoPipeline, VIDEO_PIPELINE_NAME), AddMany(videoPipeline, [source, decodebin]),
       LinkMany([source, decodebin]), SetPlaying(videoPipeline)]
  {
    videoPipeline := engine.NewPipelineNamed(VIDEO_PIPELINE_NAME);
    decodebin := engine.Make(DecodeBin);
    engine.Perform(AddMany(videoPipeline, [source, decodebin]));
    engine.Perform(LinkMany([source, decodebin]));
    engine.Perform(SetPlaying(videoPipeline));
  }

  /** Builds the video chain [proxysrc, capsfilter if sized, videoconvert, queue] and,
      in a separate "video pipeline", the source feeding a decodebin whose output
      reaches the chain through a proxysink (see OnPadAdded); registers the stream.
      Returns the id with the video pipeline and decodebin that OnPadAdded needs.
      `isAppSrc` is whether the source element is an app source, a run-time type test
      on the element. */
  method CreateVideoFrom(engine: Engine, registry: StreamRegistry, source: Element, isAppSrc: bool, size: Option<(nat, nat)>)
    returns (id: StreamId, stream: GStreamerMediaStream, videoPipeline: PipelineId, decodebin: Element)
    requires registry.Valid()
    modifies engine, registry
    ensures registry.Valid() && fresh(stream)
    ensures id !in old(registry.streams) && registry.streams == old(registry.streams)[id := stream]
    ensures stream.id == Some(id) && stream.streamType == Video && stream.pipeline.None?
    ensures stream.elements == VideoChain(old(engine.nextHandle), size.Some?)
    ensures isAppSrc ==> stream.videoAppSource == Some(source)
    ensures !isAppSrc ==> stream.videoAppSource.None?
    ensures var k := if size.Some? then 1 else 0;
      videoPipeline == old(engine.nextHandle) + 3 + k &&
      decodebin == Element(old(engine.nextHandle) + 4 + k, DecodeBin) &&
      engine.nextHandle == old(engine.nextHandle) + 5 + k
    ensures engine.calls == old(engine.calls) +
      (if size.Some? then
         var caps := CapsValue(RawVideoCaps(size.value.0, size.value.1));
         [SetProperty(source, "caps", caps), SetProperty(Element(old(engine.nextHandle) + 1, CapsFilter), "caps", caps)]
       else []) +
      [NewPipeline(videoPipeline, VIDEO_PIPELINE_NAME), AddMany(videoPipeline, [source, decodebin]),
       LinkMany([source, decodebin]), SetPlaying(videoPipeline)]
  {
    var elements := MakeVideoChain(engine, source, size);
    stream := new GStreamerMediaStream(Video, elements);
    videoPipeline, decodebin := FeedDecodebin(engine, source);
    if isAppSrc {
      stream.SetVideoAppSource(source);
    }
    id := registry.Register(stream);
  }

  /** Builds and registers the audio chain [source, queue, audioconvert, audioresample, queue]. */
  method CreateAudioFrom(engine: Engine, registry: StreamRegistry, source: Element)
    returns (id: StreamId, stream: GStreamerMediaStream)
    requires registry.Valid()
    modifies engine`nextHandle, registry
    ensures registry.Valid() && fresh(stream)
    ensures id !in old(registry.streams) && registry.streams == old(registry.streams)[id := stream]
    ensures stream.id == Some(id) && stream.streamType == Audio && stream.pipeline.None? && stream.videoAppSource.None?
    ensures |stream.elements| == 5 && stream.elements[0] == source
    ensures Kinds(stream.elements[1..]) == AUDIO_CHAIN_TAIL
    ensures forall i :: 1 <= i < 5 ==> stream.elements[i].handle == old(engine.nextHandle) + i - 1
    ensures engine.nextHandle == old(engine.nextHandle) + 4
    ensures stream.elements == AudioChain(source, old(engine.nextHandle))
  {
    var queue := engine.Make(Queue);
    var audioconvert := engine.Make(AudioConvert);
    var audioresample := engine.Make(AudioResample);
    var queue2 := engine.Make(Queue);
    stream := new GStreamerMediaStream(Audio, [source, queue, audioconvert, audioresample, queue2]);
    assert Kinds(stream.elements[1..]) == [Queue, AudioConvert, AudioResample, Queue];
    id := registry.Register(stream);
  }

  /** A live test-pattern ("ball") video stream. */
  method CreateVideo(engine: Engine, registry: StreamRegistry) returns (id: StreamId, stream: GStreamerMediaStream)
    requires registry.Valid()
    modifies engine, registry
    ensures registry.Valid() && fresh(stream)
    ensures id !in old(registry.streams) && registry.streams == old(registry.streams)[id := stream]
    ensures stream.id == Some(id) && stream.streamType == Video && stream.videoAppSource.None? && stream.pipeline.None?
    ensures stream.elements == VideoChain(old(engine.nextHandle) + 1, false)
    ensures engine.nextHandle == old(engine.nextHandle) + 6
    ensures var n := old(engine.nextHandle);
      var src := Element(n, VideoTestSrc);
      var decodebin := Element(n + 5, DecodeBin);
      engine.calls == old(engine.calls) +
        [SetProperty(src, "pattern", Str("ball")), SetProperty(src, "is-live", Bool(true)),
         NewPipeline(n + 4, VIDEO_PIPELINE_NAME), AddMany(n + 4, [src, decodebin]),
         LinkMany([src, decodebin]), SetPlaying(n + 4)]
  {
    var src := engine.Make(VideoTestSrc);
    engine.Perform(SetProperty(src, "pattern", Str("ball")));
    engine.Perform(SetProperty(src, "is-live", Bool(true)));
    var vp: PipelineId;
    var db: Element;
    id, stream, vp, db := CreateVideoFrom(engine, registry, src, false, None);
  }

  /** A live sine-wave audio stream. */
  method CreateAudio(engine: Engine, registry: StreamRegistry) returns (id: StreamId, stream: GStreamerMediaStream)
    requires registry.Valid()
    modifies engine, registry
    ensures registry.Valid() && fresh(stream)
    ensures id !in old(registry.streams) && registry.streams == old(registry.streams)[id := stream]
    ensures stream.id == Some(id) && stream.streamType == Audio && stream.pipeline.None? && stream.videoAppSource.None?
    ensures stream.elements == AudioChain(Element(old(engine.nextHandle), AudioTestSrc), old(engine.nextHandle) + 1)
    ensures engine.nextHandle == old(engine.nextHandle) + 5
    ensures engine.calls == old(engine.calls) +
      [SetProperty(stream.elements[0], "wave", Str("sine")), SetProperty(stream.elements[0], "is-live", Bool(true))]
  {
    var src := engine.Make(AudioTestSrc);
    engine.Perform(SetProperty(src, "wave", Str("sine")));
    engine.Perform(SetProperty(src, "is-live", Bool(true)));
    id, stream := CreateAudioFrom(engine, registry, src);
  }

  /** A stream fed through a proxysrc, returned with the proxysink (the socket) that
      feeds it: an audio chain on the proxysrc, or an unsized video chain. */
  method CreateProxy(engine: Engine, registry: StreamRegistry, t: MediaStreamType)
    returns (id: StreamId, stream: GStreamerMediaStream, socket: Element)
    requires registry.Valid()
    modifies engine, registry
    ensures registry.Valid() && fresh(stream)
    ensures id !in old(registry.streams) && registry.streams == old(registry.streams)[id := stream]
    ensures stream.id == Some(id) && stream.streamType == t && stream.pipeline.None? && stream.videoAppSource.None?
    ensures socket == Element(old(engine.nextHandle) + 1, ProxySink)
    ensures t == Audio ==>
      var n := old(engine.nextHandle);
      stream.elements == AudioChain(Element(n, ProxySrc), n + 2) &&
      engine.nextHandle == n + 6 &&
      engine.calls == old(engine.calls) + [SetProperty(Element(n, ProxySrc), "proxysink", ElementValue(socket))]
    ensures t == Video ==>
      var n := old(engine.nextHandle);
      var proxySrc := Element(n, ProxySrc);
      var decodebin := Element(n + 6, DecodeBin);
      stream.elements == VideoChain(n + 2, false) &&
      engine.nextHandle == n + 7 &&
      engine.calls == old(engine.calls) +
        [SetProperty(proxySrc, "proxysink", ElementValue(socket)),
         NewPipeline(n + 5, VIDEO_PIPELINE_NAME), AddMany(n + 5, [proxySrc, decodebin]),
         LinkMany([proxySrc, decodebin]), SetPlaying(n + 5)]
  {
    var proxySrc := engine.Make(ProxySrc);
    socket := engine.Make(ProxySink);
    engine.Perform(SetProperty(proxySrc, "proxysink", ElementValue(socket)));
    match t {
      case Audio =>
        id, stream := CreateAudioFrom(engine, registry, proxySrc);
      case Video =>
        var vp: PipelineId;
        var db: Element;
        id, stream, vp, db := CreateVideoFrom(engine, registry, proxySrc, false, None);
    }
  }

  /** Pushes bytes into a registered stream; the source panics on an unknown id. */
  method PushDataTo(engine: Engine, registry: StreamRegistry, id: StreamId, data: seq<byte>)
    requires id in registry.streams
    modifies engine`calls
    ensures var s := registry.streams[id];
      (s.videoAppSource.Some? ==> engine.calls == old(engine.calls) + [PushBuffer(s.videoAppSource.value, data)]) &&
      (s.videoAppSource.None? ==> engine.calls == old(engine.calls))
  {
    var stream := registry.streams[id];
    stream.PushData(engine, data);
  }

  /** The sink half of `add_stream`: an audio or video sink is added to the pipeline,
      linked after `last`, the pipeline is set playing and the sink is synced. */
  method PlaySink(engine: Engine, p: PipelineId, last: Element, t: MediaStreamType) returns (sink: Element)
    modifies engine
    ensures sink == Element(old(engine.nextHandle), if t == Audio then AutoAudioSink else AutoVideoSink)
    ensures engine.nextHandle == old(engine.nextHandle) + 1
    ensures var tail := [AddMany(p, [sink]), LinkMany([last, sink]), SetPlaying(p), SyncStateWithParent(sink)];
      engine.calls == old(engine.calls) + tail && engine.calls[|engine.calls| - 4..] == tail
  {
    sink := engine.Make(if t == Audio then AutoAudioSink else AutoVideoSink);
    engine.Perform(AddMany(p, [sink]));
    engine.Perform(LinkMany([last, sink]));
    engine.Perform(SetPlaying(p));
    engine.Perform(SyncStateWithParent(sink));
  }

  /** MediaSink: the streams it plays. */
  class MediaSink {
    var streams: seq<GStreamerMediaStream>

    constructor ()
      ensures streams == []
    {
      streams := [];
    }

    /** Binds the stream (to its pipeline, or a fresh one), puts an audio or video sink
        after its last element, starts the pipeline, and keeps the stream. */
    method AddStream(engine: Engine, registry: StreamRegistry, id: StreamId)
      requires id in registry.streams && |registry.streams[id].elements| > 0
      modifies this, engine, registry.streams[id]
      ensures var s := registry.streams[id];
        streams == old(streams) + [s] && s.pipeline.Some? &&
        s.id == old(s.id) && s.videoAppSource == old(s.videoAppSource) &&
        (old(s.pipeline).Some? ==> s.pipeline == old(s.pipeline)) &&
        engine.nextHandle > 0 && |engine.calls| >= 4 &&
        var sink := Element(engine.nextHandle - 1, if s.streamType == Audio then AutoAudioSink else AutoVideoSink);
        var p := s.pipeline.value;
        var tail := [AddMany(p, [sink]), LinkMany([s.elements[|s.elements| - 1], sink]), SetPlaying(p), SyncStateWithParent(sink)];
        engine.calls[|engine.calls| - 4..] == tail &&
        (old(s.pipeline).Some? ==>
          engine.nextHandle == old(engine.nextHandle) + 1 && engine.calls == old(engine.calls) + tail) &&
        (old(s.pipeline).None? ==>
          p == old(engine.nextHandle) && engine.nextHandle == old(engine.nextHandle) + 2 &&
          engine.calls == old(engine.calls) +
            [NewPipeline(p, FRESH_PIPELINE_NAME), UsePipelineSharedClock(p), AddMany(p, s.elements), LinkMany(s.elements)] +
            SyncAll(s.elements) + tail)
    {
      var stream := registry.streams[id];
      var p := stream.PipelineOrNew(engine);
      var last := stream.elements[|stream.elements| - 1];
      var sink := PlaySink(engine, p, last, stream.streamType);
      streams := streams + [stream];
    }
  }
}
