/** The capture-source registry of backends/gstreamer/media_capture/from_client.rs:
    capture sources keyed by the id of the video stream built on them. */
module ClientCapture {
  import opened Base
  import opened Gst
  import opened MediaStreams

  /** A capture source: its engine element and, once its stream exists, that stream's id. */
  datatype ClientCaptureSource = ClientCaptureSource(source: Element, id: Option<StreamId>)

  /** The process-wide registry of capture sources. */
  class CaptureRegistry {
    var entries: map<StreamId, ClientCaptureSource>

    constructor ()
      ensures entries == map[]
    {
      entries := map[];
    }

    /** Inserts the source under its own id; the source unwraps the id, so it must be set. */
    method Register(source: ClientCaptureSource)
      requires source.id.Some?
      modifies this
      ensures entries == old(entries)[source.id.value := source]
      ensures source.id.value in entries && entries[source.id.value] == source
      ensures forall k :: k in old(entries) && k != source.id.value ==> k in entries && entries[k] == old(entries)[k]
    {
      entries := entries[source.id.value := source];
    }

    /** Removes the given key; every other entry stays as it was. */
    method Unregister(id: StreamId)
      modifies this
      ensures entries == old(entries) - {id}
      ensures id !in entries
      ensures forall k :: k in old(entries) && k != id ==> k in entries && entries[k] == old(entries)[k]
    {
      entries := entries - {id};
    }

    /** A copy of the entry, if any. */
    function Get(id: StreamId): (r: Option<ClientCaptureSource>)
      reads this
      ensures r.Some? <==> id in entries
      ensures r.Some? ==> r.value == entries[id]
    {
      if id in entries then Some(entries[id]) else None
    }
  }

  /** Dropping a capture source removes its registry entry exactly when its id is set. */
  method DropCaptureSource(registry: CaptureRegistry, source: ClientCaptureSource)
    modifies registry
    ensures source.id.Some? ==> registry.entries == old(registry.entries) - {source.id.value}
    ensures source.id.None? ==> registry.entries == old(registry.entries)
  {
    if source.id.Some? {
      registry.Unregister(source.id.value);
    }
  }

  /** Registers the client source element type (`registrationError` is its failure, if
      any), builds a capture source and an unsized video stream on it, and registers
      the capture source under the stream's id. On failure nothing is created and
      neither registry changes. `isAppSrc` is whether the client source element is an
      app source. */
  method CreateClientCaptureStream(engine: Engine, streams: StreamRegistry, captures: CaptureRegistry,
                                   registrationError: Option<string>, isAppSrc: bool)
    returns (r: Result<StreamId, string>)
    requires streams.Valid()
    modifies engine, streams, captures
    ensures streams.Valid()
    ensures registrationError.Some? ==>
      r == Err(registrationError.value) &&
      captures.entries == old(captures.entries) && streams.streams == old(streams.streams) &&
      engine.calls == old(engine.calls) && engine.nextHandle == old(engine.nextHandle)
    ensures registrationError.None? ==>
      r.Ok? && r.value !in old(streams.streams) && r.value in streams.streams &&
      streams.streams.Keys == old(streams.streams).Keys + {r.value} &&
      streams.streams == old(streams.streams)[r.value := streams.streams[r.value]] &&
      streams.streams[r.value].streamType == Video &&
      streams.streams[r.value].id == Some(r.value) && streams.streams[r.value].pipeline.None? &&
      streams.streams[r.value].elements == VideoChain(old(engine.nextHandle) + 1, false) &&
      (isAppSrc ==> streams.streams[r.value].videoAppSource == Some(Element(old(engine.nextHandle), ServoMediaClientSrc))) &&
      (!isAppSrc ==> streams.streams[r.value].videoAppSource.None?) &&
      engine.nextHandle == old(engine.nextHandle) + 6 &&
      (var n := old(engine.nextHandle);
       var client := Element(n, ServoMediaClientSrc);
       var decodebin := Element(n + 5, DecodeBin);
       engine.calls == old(engine.calls) +
         [NewPipeline(n + 4, VIDEO_PIPELINE_NAME), AddMany(n + 4, [client, decodebin]),
          LinkMany([client, decodebin]), SetPlaying(n + 4)]) &&
      captures.entries == old(captures.entries)[r.value :=
        ClientCaptureSource(Element(old(engine.nextHandle), ServoMediaClientSrc), Some(r.value))]
  {
    if registrationError.Some? {
      return Err(registrationError.value);
    }
    var element := engine.Make(ServoMediaClientSrc);
    var client := ClientCaptureSource(element, None);
    var id, stream, videoPipeline, decodebin := CreateVideoFrom(engine, streams, client.source, isAppSrc, None);
    client := client.(id := Some(id));
    captures.Register(client);
    r := Ok(id);
  }
}
