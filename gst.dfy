/** The native media engine (GStreamer) as the backend sees it: the values it hands to
    the signal handlers, opaque element kinds, and logs of the calls made to it.
    Nothing in this module decides anything; it is the vocabulary of the other modules. */
module Gst {
  import opened Base

  /** A clock time in nanoseconds; `None` is the engine's "no time" value. */
  type ClockTime = Option<u64>

  /** One entry of a media-info stream list: its type name and its codec, if known. */
  datatype StreamInfo = StreamInfo(streamType: string, codec: Option<string>)

  /** A video stream's dimensions as the engine reports them (signed 32-bit). */
  datatype VideoInfo = VideoInfo(width: int, height: int)

  /** What a media-info-updated signal carries. */
  datatype MediaInfo = MediaInfo(
    duration: ClockTime,
    containerFormat: Option<string>,
    streams: seq<StreamInfo>,
    videoStreams: seq<VideoInfo>,
    isSeekable: bool,
    isLive: bool)

  /** The engine player's state as reported by its state-changed signal. */
  datatype EngineState = EngineStopped | EngineBuffering | EnginePaused | EnginePlaying | EngineUnknown(code: int)

  /** A decoded video frame: dimensions and pixel bytes. */
  datatype Frame = Frame(width: int, height: int, data: seq<byte>)

  /** What the video sink's new-sample callback obtains: no sample, a sample that the
      frame conversion rejected, or a converted frame. */
  datatype Sample = NoSample | Unconvertible | Decoded(frame: Frame)

  /** The flow result a sink callback hands back to the engine. */
  datatype Flow = FlowOk | FlowEos | FlowError

  /** A value of the engine's percent-formatted buffering query (`Percent(None)`
      is an unknown percentage), or a value in some other format. */
  datatype FormattedValue = Percent(percent: Option<nat>) | OtherFormat

  /** A handle to a source element bound to a player (ServoSrc, ServoMediaStreamSrc, appsrc). */
  type SourceHandle = nat

  type StreamId = nat

  /** Calls made to the engine's player object and to the source element it uses. */
  datatype PlayerCall =
    | Play
    | Pause
    | Stop
    | SetMute(mute: bool)
    | SetVolume(volume: real)
    | SetRate(rate: real)
    | Seek(nanoseconds: u64)
    | SetVideoTrackEnabled(enabled: bool)
    | SetUri(uri: string)
    | SetDownloadFlag
    | SetBufferSize(bytes: int)
    | SetPositionUpdateInterval(milliseconds: nat)
    | UseSharedClock
    | SourceSetFormatBytes(src: SourceHandle)
    | SourceSetSize(src: SourceHandle, size: int)
    | SourcePushBuffer(src: SourceHandle, data: seq<byte>)
    | SourceEndOfStream(src: SourceHandle)
    | SourceSetSeekOffset(src: SourceHandle, offset: u64)
    | SourceSetStream(src: SourceHandle, stream: StreamId)

  /** Element factories the media-stream code instantiates. */
  datatype ElementKind =
    | ProxySrc | ProxySink | CapsFilter | VideoConvert | Queue | AudioConvert | AudioResample
    | Vp8Enc | RtpVp8Pay | OpusEnc | RtpOpusPay | AutoAudioSink | AutoVideoSink
    | VideoTestSrc | AudioTestSrc | DecodeBin | AppSrc | ServoMediaClientSrc

  /** An element instance: a unique handle and the factory it came from. */
  datatype Element = Element(handle: nat, kind: ElementKind)

  type PipelineId = nat

  /** Capabilities: a media type name and its fields, in order. */
  datatype Caps = Caps(name: string, fields: seq<(string, Value)>)

  /** A property or caps-field value. */
  datatype Value = Str(s: string) | Int(i: int) | Bool(b: bool) | CapsValue(caps: Caps) | ElementValue(element: Element)

  /** Calls made to the engine on elements and pipelines. */
  datatype ElementCall =
    | NewPipeline(pipeline: PipelineId, name: string)
    | UsePipelineSharedClock(pipeline: PipelineId)
    | AddMany(pipeline: PipelineId, elements: seq<Element>)
    | LinkMany(elements: seq<Element>)
    | SyncStateWithParent(element: Element)
    | SetProperty(element: Element, name: string, value: Value)
    | SetPlaying(pipeline: PipelineId)
    | PushBuffer(element: Element, data: seq<byte>)

  function Kinds(elements: seq<Element>): (ks: seq<ElementKind>)
    ensures |ks| == |elements|
    ensures forall i :: 0 <= i < |elements| ==> ks[i] == elements[i].kind
  {
    if elements == [] then [] else [elements[0].kind] + Kinds(elements[1..])
  }

  /** One sync-state call per element, in order. */
  function SyncAll(elements: seq<Element>): (cs: seq<ElementCall>)
    ensures |cs| == |elements|
    ensures forall i :: 0 <= i < |elements| ==> cs[i] == SyncStateWithParent(elements[i])
  {
    if elements == [] then [] else [SyncStateWithParent(elements[0])] + SyncAll(elements[1..])
  }

  lemma {:induction false} SyncAllSnoc(elements: seq<Element>, e: Element)
    ensures SyncAll(elements + [e]) == SyncAll(elements) + [SyncStateWithParent(e)]
  {
    var l, r := SyncAll(elements + [e]), SyncAll(elements) + [SyncStateWithParent(e)];
    assert |l| == |r|;
    forall i | 0 <= i < |l| ensures l[i] == r[i] {
      if i < |elements| {
        assert (elements + [e])[i] == elements[i];
      }
    }
  }

  /** The engine's element factory and pipeline store: every element or pipeline it
      creates gets the next unused handle, and every call made to it is logged. */
  class Engine {
    var nextHandle: nat
    var calls: seq<ElementCall>

    constructor ()
      ensures nextHandle == 0 && calls == []
    {
      nextHandle := 0;
      calls := [];
    }

    method Make(kind: ElementKind) returns (e: Element)
      modifies this`nextHandle
      ensures e == Element(old(nextHandle), kind)
      ensures nextHandle == old(nextHandle) + 1
    {
      e := Element(nextHandle, kind);
      nextHandle := nextHandle + 1;
    }

    method NewPipelineNamed(name: string) returns (p: PipelineId)
      modifies this
      ensures p == old(nextHandle) && nextHandle == old(nextHandle) + 1
      ensures calls == old(calls) + [NewPipeline(p, name)]
    {
      p := nextHandle;
      nextHandle := nextHandle + 1;
      calls := calls + [NewPipeline(p, name)];
    }

    method Perform(c: ElementCall)
      modifies this`calls
      ensures calls == old(calls) + [c]
    {
      calls := calls + [c];
    }
  }
}
