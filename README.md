# servo-media GStreamer backend: control logic in Dafny

This project models the control logic that the servo-media GStreamer backend keeps
above the GStreamer engine, and proves properties of that model. GStreamer itself is
an abstract engine. Elements are opaque handles of a named kind. Every call made to the
engine is appended to a log, either `Gst.PlayerCall` (the playback engine) or
`Gst.ElementCall` (pipelines and elements). The engine's answers are parameters: whether
a buffer push or an end-of-stream was accepted, the buffering query, the handshake
signals and the setup environment.

The parts modelled:

- **Playback session** (`player.dfy`, `backends/gstreamer/player.rs`).
  - `Player.PlayerInner` is the session object: bound source, input size, rate, stream
    mode, cached metadata, the enough-data flag and the engine call log.
  - Each of its methods is proved against a pure step function on `InnerState` (for
    example `SetRateStep` or `PushDataStep`). That function's contract states the
    method's error rules.
  - `PlayerEventObserverList` and `FrameRendererList` are the two fan-out lists.
  - `GStreamerPlayer` holds the lazy setup with its source-setup handshake, the proxy
    that every public operation goes through (`Call`), `Shutdown`, and the engine's
    signal handlers, each handled as one sequential event.
- **Media streams** (`media_stream.dfy`, `backends/gstreamer/media_stream.rs`).
  - A stream is a chain of elements of one media type that binds to a pipeline at most
    once.
  - The factory routines build fixed chains. Their exact element handles and engine
    calls are stated.
  - `MediaSink` plays streams.
  - The stream registry is not part of the source shown. It is modelled as a map from
    id to stream that hands out fresh ids.
- **Capture-source registry** (`client_capture.dfy`,
  `backends/gstreamer/media_capture/from_client.rs`).
- **Older player** (`legacy_player.dfy`, `backends/gstreamer/src/player.rs`). This is an
  app-source player whose setup waits for the first need-data of the bound source.
- **Stream callbacks** (`stream_callbacks.dfy`, `streams/src/lib.rs`). A field-wise
  builder, and built callbacks whose end-of-stream and error callbacks fire at most once.

Shared vocabulary:

- `base.dfy`: `Option`, `Result`, 64-bit helpers and the generic `Fanout`.
- `gst.dfy`: the engine vocabulary and the `Engine` class, which is a handle counter plus
  a call log.
- `tracks.dfy`: durations and the codec-list loop that both players use.

Two files describe different versions of the same API, and each is modelled as written:

- `media_capture/from_client.rs:58` calls `create_video_from` with one argument, while
  `media_stream.rs:195` takes two. The capture model passes no size.
- The older player's `PlaybackState` has no buffering state.

A setup whose handshake fails still leaves its session stored
(`backends/gstreamer/player.rs:466-478`), so the next operation's setup returns `Ok` at
once; `GStreamerPlayer.Setup` and `GStreamerPlayer.Call` state this case.

Other modelling choices:

- **Stream ids.** The stream registry stamps the new id on the stream. The source's
  registry is not shown, and its `set_id` is what the registry calls.
- **Run-time type tests.** Whether a source element is an app source is a run-time type
  test in the source. It is the `isAppSrc` parameter.
- **Engine error text.** The engine error's `to_string()` and `description()` are treated
  as the same message.

## Model

| member | source | states |
|---|---|---|
| Base.AsI64 | backends/gstreamer/player.rs:122 | `as i64` on a u64: in the i64 range, the identity below 2^63, and the value minus 2^64 (negative) from 2^63 on |
| Base.SaturatingU64 | backends/gstreamer/player.rs:192 | `as u64` on a float: 0 at or below 0, the whole part in range, and the u64 maximum from 2^64 on |
| Tracks.DurationOf | backends/gstreamer/player.rs:31-39 | a clock time of n nanoseconds becomes whole seconds plus a remainder below 1e9 that add back up to n |
| Tracks.ClockDuration | backends/gstreamer/player.rs:31-39 | the engine's "no time" gives no duration; any other time gives its exact seconds and nanoseconds |
| Tracks.AsU32 | backends/gstreamer/player.rs:70-77 | the `as u32` cast keeps values in range, is below 2^32, and is congruent to its input modulo 2^32 |
| Tracks.FrameSize | backends/gstreamer/player.rs:70-77 | width and height are those of the first video stream, or 0 and 0 when there is none |
| Tracks.TracksOfAppend | backends/gstreamer/player.rs:49-68 | selecting codecs commutes with concatenating stream lists, so the lists keep stream-list order |
| Tracks.TracksOfMembership | backends/gstreamer/player.rs:49-68 | a codec is listed for a type exactly when some stream of that type carries it (an unnamed codec is "") |
| Tracks.TracksPartition | backends/gstreamer/player.rs:49-68 | the audio and video lists together hold no more codecs than there are streams |
| Tracks.CollectTracks | backends/gstreamer/player.rs:41-68 | the push loop builds exactly the audio and the video codec lists of the stream list, in order |
| Player.SourceFor | backends/gstreamer/player.rs:671-730 | source-setup binds a seekable source exactly in Seekable mode, holding the element it was given |
| Player.SizeArgument | backends/gstreamer/player.rs:119-126 | the size handed to a seekable source is -1 (a live source) for 0, the size itself below 2^63, and the negative value the `as i64` cast gives (size - 2^64) from 2^63 on |
| Player.SetInputSizeStep | backends/gstreamer/player.rs:113-131 | the size is always cached and nothing else changes; it reaches the engine exactly when a seekable source is bound |
| Player.SetRateStep | backends/gstreamer/player.rs:138-151 | the rate is always cached; the result is NonSeekableStream exactly when non-seekable metadata is cached; the engine rate is set exactly when seekable metadata is cached |
| Player.StopStep | backends/gstreamer/player.rs:158-163 | stop forgets the metadata and the source, keeps size, rate and flag, and stops the engine |
| Player.EndOfStreamStep | backends/gstreamer/player.rs:170-184 | without a bound seekable source nothing happens and the result is Ok; with one, the end-of-stream reaches it and the result is EOSFailed exactly when the engine refuses |
| Player.SeekCheck | backends/gstreamer/player.rs:186-197 | Stream mode always fails with NonSeekableStream; in Seekable mode the result is SeekOutOfRange exactly when a cached duration's seconds are below the target's whole seconds, and Ok exactly otherwise (Seekable and not out of range) |
| Player.SeekStep | backends/gstreamer/player.rs:186-202 | the result is the seek guard's, so every Seekable seek within the cached duration returns Ok and logs Seek at the target in nanoseconds, and a refused seek changes nothing |
| Player.PushDataStep | backends/gstreamer/player.rs:209-222 | without a bound seekable source the result is BufferPushFailed and nothing changes; while the enough-data flag is set it is EnoughData and nothing changes; otherwise the buffer reaches the source and BufferPushFailed means the engine refused |
| Player.SetStreamStep | backends/gstreamer/player.rs:259-284 | without a bound stream source the result is SetStreamFailed and nothing changes; with one, the pipeline is put on the shared clock and the stream is bound |
| Player.BufferedShape | backends/gstreamer/player.rs:228-257 | without metadata, a duration or an answer to the query nothing is buffered; otherwise there is one range per engine range, in order, each bound being percent * seconds / PERCENT_MAX, with non-percent values counted as 0 |
| Player.BoundWithinDuration | backends/gstreamer/player.rs:228-257 | a percentage within the engine's scale never gives a bound past the duration, and a larger percentage never gives an earlier bound |
| Player.BoundAsWritten | backends/gstreamer/player.rs:238-249 | the bound as the source computes it, in wrapping 32-bit arithmetic |
| Player.BoundAsWrittenWraps | backends/gstreamer/player.rs:238-249 | for a fully buffered 5000-second media the intended bound is 5000 but the 32-bit one is 705 |
| Player.MetadataFromMediaInfo | backends/gstreamer/player.rs:30-92 | the snapshot always succeeds and holds the exact duration, the first video stream's size, the container format or "", and the codec lists in stream order |
| Player.MediaInfoStep | backends/gstreamer/player.rs:560-575 | a snapshot equal to the cached one changes nothing and is not announced; a different one is cached, re-applies the cached rate when seekable, and is announced once |
| Player.DurationChangedStep | backends/gstreamer/player.rs:584-616 | without a cached snapshot nothing happens; with one, only its duration is replaced and the new snapshot is announced |
| Player.SourceSetupStep | backends/gstreamer/player.rs:670-680 | source-setup binds the mode's source and, in Seekable mode, applies a cached size above 0; nothing else changes |
| Player.PlaybackStateOf | backends/gstreamer/player.rs:507-521 | Buffering, Stopped, Paused and Playing are reported as the playback state of the same name, and only the unknown engine states are dropped |
| Player.Lift | backends/gstreamer/player.rs:760-778 | the proxy passes an operation's error through unchanged and its success on as Done |
| Player.SetupPrecheck | backends/gstreamer/player.rs:370-463 | setup fails before any session exists exactly when a dependency, the flags class, the configuration, the video sink or the source registration fails, a missing playbin being reported first |
| Player.HandshakeResult | backends/gstreamer/player.rs:647-757 | setup succeeds exactly when source-setup is connected and first fires with an element; an error arriving first is returned as a backend error |
| Player.HandshakeState | backends/gstreamer/player.rs:466-478 | after the handshake the session has size 0, rate 1, no metadata and the flag clear, and it has a source exactly when setup succeeded |
| Player.RateAppliedWhenSeekableMetadataArrives | backends/gstreamer/player.rs:138-151 | a rate set before any metadata succeeds without reaching the engine, and reaches it once when seekable metadata arrives |
| Player.SizeAppliedWhenSourceIsBound | backends/gstreamer/player.rs:113-131 | a size set before any source is bound reaches the seekable source when source-setup binds it |
| Player.MediaInfoIdempotent | backends/gstreamer/player.rs:560-575 | announcing the same metadata twice changes nothing the second time and notifies nobody |
| Player.EnoughDataGatesPush | backends/gstreamer/player.rs:209-222 | while the enough-data flag is set a push is refused with EnoughData and changes nothing; once need-data clears it, the next push reaches the source |
| Player.ModeExcludesOperations | backends/gstreamer/player.rs:186-222 | a Stream-mode session never takes pushed data and never seeks; a Seekable one never takes a stream |
| Player.StopForgetsSession | backends/gstreamer/player.rs:158-163 | after stop no seek is out of range and a push is refused until a source is bound again |
| Player.PlayerInner.constructor | backends/gstreamer/player.rs:466-478 | a new session has no source, size 0, rate 1, no metadata and the flag clear |
| Player.PlayerInner.SetInputSize | backends/gstreamer/player.rs:113-131 | the new state is SetInputSizeStep's and the result is Ok |
| Player.PlayerInner.SetMute | backends/gstreamer/player.rs:133-136 | mute reaches the engine and the result is Ok |
| Player.PlayerInner.SetRate | backends/gstreamer/player.rs:138-151 | the new state and result are SetRateStep's |
| Player.PlayerInner.Play | backends/gstreamer/player.rs:153-156 | play reaches the engine and the result is Ok |
| Player.PlayerInner.Stop | backends/gstreamer/player.rs:158-163 | the new state is StopStep's and the result is Ok |
| Player.PlayerInner.Pause | backends/gstreamer/player.rs:165-168 | pause reaches the engine and the result is Ok |
| Player.PlayerInner.EndOfStream | backends/gstreamer/player.rs:170-184 | the new state and result are EndOfStreamStep's |
| Player.PlayerInner.Seek | backends/gstreamer/player.rs:186-202 | the new state and result are SeekStep's |
| Player.PlayerInner.SetVolume | backends/gstreamer/player.rs:204-207 | volume reaches the engine and the result is Ok |
| Player.PlayerInner.PushData | backends/gstreamer/player.rs:209-222 | the new state and result are PushDataStep's |
| Player.PlayerInner.SetSrc | backends/gstreamer/player.rs:224-226 | only the source changes, and it stays of the session's mode |
| Player.PlayerInner.Buffered | backends/gstreamer/player.rs:228-257 | the range loop always returns Ok with exactly the ranges BufferedShape describes |
| Player.PlayerInner.SetStream | backends/gstreamer/player.rs:259-284 | the new state and result are SetStreamStep's |
| Player.PlayerInner.DisableVideo | backends/gstreamer/player.rs:286-289 | video-track disabling reaches the engine and nothing else changes |
| Player.PlayerEventObserverList.Register | backends/gstreamer/player.rs:303-305 | register appends the observer |
| Player.PlayerEventObserverList.Notify | backends/gstreamer/player.rs:307-311 | notify delivers exactly one copy of the event to each registered observer, in registration order |
| Player.PlayerEventObserverList.Clear | backends/gstreamer/player.rs:313-315 | clear empties the list |
| Player.FrameRendererList.Register | backends/gstreamer/player.rs:329-331 | register appends the renderer |
| Player.FrameRendererList.Render | backends/gstreamer/player.rs:333-338 | render hands the frame once to each renderer in order and always returns Ok |
| Player.FrameRendererList.Clear | backends/gstreamer/player.rs:340-342 | clear empties the list |
| Player.GStreamerPlayer.constructor | backends/gstreamer/player.rs:359-368 | a new player has no session and two empty lists |
| Player.GStreamerPlayer.Setup | backends/gstreamer/player.rs:370-757 | setup is a no-op once a session exists; an early failure leaves no session; otherwise the session is stored and paused, the first handshake message decides the result, and an error arriving first is also announced to the observers |
| Player.GStreamerPlayer.Call | backends/gstreamer/player.rs:760-792 | every public operation runs the lazy setup, returns its error if it fails, and otherwise has exactly the operation's effect on the session |
| Player.GStreamerPlayer.RegisterEventHandler | backends/gstreamer/player.rs:794-796 | the observer is appended |
| Player.GStreamerPlayer.RegisterFrameRenderer | backends/gstreamer/player.rs:798-800 | the renderer is appended |
| Player.GStreamerPlayer.Shutdown | backends/gstreamer/player.rs:802-806 | both lists are emptied before the session is stopped, so nobody is told of the stop; with a session, it is stopped as StopStep says; without one, the lazy setup runs first: a precheck failure returns its error and leaves no session, a failed handshake returns its error with the session stored as HandshakeState, and a successful one is then stopped (StopStep of HandshakeState) |
| Player.GStreamerPlayer.OnEndOfStream | backends/gstreamer/player.rs:483-490 | every observer gets one EndOfStream |
| Player.GStreamerPlayer.OnError | backends/gstreamer/player.rs:492-499 | every observer gets one Error with the engine's message |
| Player.GStreamerPlayer.OnStateChanged | backends/gstreamer/player.rs:501-521 | a known engine state is announced once to every observer; an unknown one is not announced |
| Player.GStreamerPlayer.OnPositionUpdated | backends/gstreamer/player.rs:523-536 | a position with a time is announced in whole seconds; "no time" is not announced |
| Player.GStreamerPlayer.OnSeekDone | backends/gstreamer/player.rs:538-551 | a seek-done position with a time is announced in whole seconds; "no time" is not announced |
| Player.GStreamerPlayer.OnMediaInfoUpdated | backends/gstreamer/player.rs:553-575 | the session and the observers change exactly as MediaInfoStep says for the new snapshot |
| Player.GStreamerPlayer.OnDurationChanged | backends/gstreamer/player.rs:577-617 | the session and the observers change exactly as DurationChangedStep says |
| Player.GStreamerPlayer.OnNewSample | backends/gstreamer/player.rs:619-645 | a failed pull gives end-of-stream and an unconvertible sample an error, both with no effect; a frame goes once to every renderer and then one FrameUpdated goes to every observer |
| Player.GStreamerPlayer.OnSourceSetup | backends/gstreamer/player.rs:658-732 | without an element a setup failure is sent and nothing changes; with one, the source is bound as SourceSetupStep says and success is sent only the first time |
| Player.GStreamerPlayer.OnNeedData | backends/gstreamer/player.rs:692-695 | need-data clears the enough-data flag and is announced |
| Player.GStreamerPlayer.OnEnoughData | backends/gstreamer/player.rs:696-699 | enough-data sets the flag and is announced |
| Player.GStreamerPlayer.OnSeekData | backends/gstreamer/player.rs:700-707 | seek-data is announced, the offset reaches the source, and the handler reports it handled |
| MediaStreams.CapsWithPayloadExtendsCaps | backends/gstreamer/media_stream.rs:76-102 | the payload caps are the RTP caps plus one payload field; audio is OPUS and video is VP8 |
| MediaStreams.EncodedShape | backends/gstreamer/media_stream.rs:144-189 | encoded adds four elements and links the source through the type's encoder stages into the capsfilter; the capsfilter is synced for video only |
| MediaStreams.VideoChainShape | backends/gstreamer/media_stream.rs:195-223 | the video chain is proxysrc, a capsfilter only when sized, videoconvert and queue, with fresh handles in order |
| MediaStreams.GStreamerMediaStream.constructor | backends/gstreamer/media_stream.rs:66-74 | a new stream has no id, no pipeline and no app source |
| MediaStreams.GStreamerMediaStream.SetId | backends/gstreamer/media_stream.rs:47-49 | the id is set |
| MediaStreams.GStreamerMediaStream.StreamCaps | backends/gstreamer/media_stream.rs:76-81 | the caps are RTP with OPUS for audio and VP8 for video |
| MediaStreams.GStreamerMediaStream.PayloadCaps | backends/gstreamer/media_stream.rs:83-102 | the payload caps are the stream's caps plus the payload field |
| MediaStreams.GStreamerMediaStream.SrcElement | backends/gstreamer/media_stream.rs:104-106 | the source element is the first element of the chain |
| MediaStreams.GStreamerMediaStream.AttachToPipeline | backends/gstreamer/media_stream.rs:108-117 | an unbound stream becomes bound to the pipeline after all its elements are added, linked in order and synced in order |
| MediaStreams.GStreamerMediaStream.PipelineOrNew | backends/gstreamer/media_stream.rs:119-131 | a bound stream's pipeline is returned with no engine call; otherwise a fresh pipeline on the shared clock is created, bound and returned |
| MediaStreams.GStreamerMediaStream.Encoded | backends/gstreamer/media_stream.rs:144-189 | the capsfilter carries the stream's caps and is returned; the engine calls are EncodedCalls; the stream is not changed |
| MediaStreams.GStreamerMediaStream.SetVideoAppSource | backends/gstreamer/media_stream.rs:191-193 | the app source is set |
| MediaStreams.GStreamerMediaStream.PushData | backends/gstreamer/media_stream.rs:55-62 | bytes reach the app source when one is set and are dropped otherwise |
| MediaStreams.GStreamerMediaStream.Drop | backends/gstreamer/media_stream.rs:303-309 | dropping unregisters the stream exactly when it has an id, and only that entry |
| MediaStreams.StreamRegistry.Register | backends/gstreamer/media_stream.rs:255 | registration uses an id not in use, adds exactly that entry and stamps the id on the stream |
| MediaStreams.StreamRegistry.Unregister | backends/gstreamer/media_stream.rs:306 | the entry is removed |
| MediaStreams.StreamRegistry.Get | backends/gstreamer/media_stream.rs:293 | lookup finds exactly the registered streams |
| MediaStreams.EncodeVideo | backends/gstreamer/media_stream.rs:154-173 | vp8enc with deadline 1, rtpvp8pay and a queue are added, linked after the source and synced along with the capsfilter |
| MediaStreams.EncodeAudio | backends/gstreamer/media_stream.rs:174-187 | opusenc, rtpopuspay and a queue are added, linked after the source and synced; the capsfilter is not synced |
| MediaStreams.MakeVideoChain | backends/gstreamer/media_stream.rs:195-218 | the chain is exactly VideoChain with fresh handles; when sized, the source and then the new capsfilter get the BGRA caps of that size, and no other call is made |
| MediaStreams.FeedDecodebin | backends/gstreamer/media_stream.rs:224-250 | a fresh "video pipeline" gets the source and a new decodebin, links them and is set playing, with exactly those four calls |
| MediaStreams.OnPadAdded | backends/gstreamer/media_stream.rs:230-245 | a new proxysink is added to the video pipeline after the decodebin and handed to the chain's proxysrc |
| MediaStreams.CreateVideoFrom | backends/gstreamer/media_stream.rs:195-256 | the video chain is built and registered; a size forces raw BGRA caps on the source and the capsfilter; the source feeds a decodebin in a playing "video pipeline"; the app source is set exactly when the source is an app source |
| MediaStreams.CreateAudioFrom | backends/gstreamer/media_stream.rs:268-278 | the chain source, queue, audioconvert, audioresample, queue (AudioChain) is built with fresh handles, with no engine call, and registered as Audio |
| MediaStreams.CreateVideo | backends/gstreamer/media_stream.rs:133-141 | a live "ball" test source is added to a fresh playing "video pipeline" and linked to its decodebin (the full call log and handles are stated); the unsized video chain has no app source and no pipeline, and is registered |
| MediaStreams.CreateAudio | backends/gstreamer/media_stream.rs:258-266 | a live sine test source heads the queue, audioconvert, audioresample, queue chain (AudioChain) with fresh handles; only the two properties are set, the stream has no pipeline and no app source, and is registered |
| MediaStreams.CreateProxy | backends/gstreamer/media_stream.rs:280-290 | a proxysrc is given the returned proxysink; for Audio it heads the AudioChain and no other call is made; for Video it is added to a fresh playing "video pipeline" and linked to its decodebin, which feeds an unsized video chain (full call log and handles stated); no pipeline, no app source, registered |
| MediaStreams.PushDataTo | backends/gstreamer/media_stream.rs:292-300 | bytes pushed to a registered id behave as that stream's PushData |
| MediaStreams.MediaSink.constructor | backends/gstreamer/media_stream.rs:316-318 | a new sink plays no stream |
| MediaStreams.PlaySink | backends/gstreamer/media_stream.rs:333-342 | a new audio or video sink by type is added to the pipeline, linked after the last element, the pipeline is set playing and the sink synced, in that order and nothing else |
| MediaStreams.MediaSink.AddStream | backends/gstreamer/media_stream.rs:322-345 | a bound stream keeps its pipeline and only the sink calls are logged; an unbound one gets a fresh shared-clock pipeline, named and numbered by the next handle, to which its elements are added, linked and synced first; then an audio or video sink by type is added and linked after its last element, the pipeline plays and the sink is synced; the stream is kept |
| ClientCapture.CaptureRegistry.Register | backends/gstreamer/media_capture/from_client.rs:12-17 | a source with an id is stored under that id and every other entry stays |
| ClientCapture.CaptureRegistry.Unregister | backends/gstreamer/media_capture/from_client.rs:19-21 | only the given key is removed |
| ClientCapture.CaptureRegistry.Get | backends/gstreamer/media_capture/from_client.rs:23-25 | lookup returns the entry exactly when the key is present and reads nothing else |
| ClientCapture.DropCaptureSource | backends/gstreamer/media_capture/from_client.rs:45-51 | dropping unregisters exactly when the id is set |
| ClientCapture.CreateClientCaptureStream | backends/gstreamer/media_capture/from_client.rs:53-63 | a failed registration returns its error with neither registry nor the engine changed; otherwise exactly one stream entry is added (the others keep their values): an unsized, unbound video chain whose app source is the new client element exactly when it is an app source, fed by that element through a decodebin in a playing "video pipeline" (the full call log is stated), and the capture registry maps its id to that source carrying the id |
| LegacyPlayer.TracksAreCodecs | backends/gstreamer/src/player.rs:53-64 | with every codec known, a track list holds exactly the codecs of the streams of that type |
| LegacyPlayer.NewMetadata | backends/gstreamer/src/player.rs:36-83 | the snapshot holds the exact duration, the container format or "", the codec lists in stream order, and the first video stream's size or 0 and 0 |
| LegacyPlayer.SourceSetupStep | backends/gstreamer/src/player.rs:316-347 | source-setup sets the byte format and, only when the cached size is above 0, the size, and binds the app source |
| LegacyPlayer.HandshakeReply | backends/gstreamer/src/player.rs:303-368 | the reply the waiting setup receives depends only on the signals |
| LegacyPlayer.ReplySucceeds | backends/gstreamer/src/player.rs:313-368 | the reply is success exactly when a need-data comes after a bound source and before any failure |
| LegacyPlayer.HandshakeSucceeds | backends/gstreamer/src/player.rs:303-372 | setup reports true exactly when a need-data of a bound source arrives before any failure |
| LegacyPlayer.PlayerInner.constructor | backends/gstreamer/src/player.rs:174-183 | a new session has no source, size 0, empty lists and no metadata |
| LegacyPlayer.PlayerInner.RegisterEventHandler | backends/gstreamer/src/player.rs:97-99 | the subscriber is appended and nothing else changes |
| LegacyPlayer.PlayerInner.RegisterFrameRenderer | backends/gstreamer/src/player.rs:101-103 | the renderer is appended and nothing else changes |
| LegacyPlayer.PlayerInner.Notify | backends/gstreamer/src/player.rs:105-109 | one copy of the event goes to every subscriber, in order |
| LegacyPlayer.PlayerInner.Render | backends/gstreamer/src/player.rs:111-118 | the frame goes once to every renderer in order, then one FrameUpdated goes to every subscriber |
| LegacyPlayer.PlayerInner.SetInputSize | backends/gstreamer/src/player.rs:120-122 | only the size changes |
| LegacyPlayer.PlayerInner.Play | backends/gstreamer/src/player.rs:124-126 | play reaches the engine |
| LegacyPlayer.PlayerInner.Stop | backends/gstreamer/src/player.rs:128-132 | stop reaches the engine and clears the metadata and the app source |
| LegacyPlayer.PlayerInner.Start | backends/gstreamer/src/player.rs:134-136 | pause reaches the engine |
| LegacyPlayer.PlayerInner.SetAppSrc | backends/gstreamer/src/player.rs:138-140 | only the app source changes |
| LegacyPlayer.DurationToHms | backends/gstreamer/src/player.rs:271-277 | seconds and minutes are below 60 and hours*3600 + minutes*60 + seconds is the duration's whole seconds |
| LegacyPlayer.GStreamerPlayer.constructor | backends/gstreamer/src/player.rs:149-185 | the engine gets the appsrc:// uri and no periodic position updates; the session is empty |
| LegacyPlayer.GStreamerPlayer.RegisterEventHandler | backends/gstreamer/src/player.rs:189-191 | the subscriber is appended |
| LegacyPlayer.GStreamerPlayer.RegisterFrameRenderer | backends/gstreamer/src/player.rs:193-198 | the renderer is appended |
| LegacyPlayer.GStreamerPlayer.SetInputSize | backends/gstreamer/src/player.rs:200-204 | only the size changes |
| LegacyPlayer.GStreamerPlayer.Play | backends/gstreamer/src/player.rs:375-377 | play reaches the engine |
| LegacyPlayer.GStreamerPlayer.Stop | backends/gstreamer/src/player.rs:379-381 | stop clears the metadata and the app source |
| LegacyPlayer.GStreamerPlayer.Setup | backends/gstreamer/src/player.rs:206-373 | setup pauses and then handles the signals until one answers; the state and reply are the Handshake function's |
| LegacyPlayer.GStreamerPlayer.OnSourceSetup | backends/gstreamer/src/player.rs:316-347 | the app source is bound as SourceSetupStep says |
| LegacyPlayer.GStreamerPlayer.OnEndOfStream | backends/gstreamer/src/player.rs:207-217 | every subscriber gets one EndOfStream |
| LegacyPlayer.GStreamerPlayer.OnError | backends/gstreamer/src/player.rs:219-229 | every subscriber gets one Error |
| LegacyPlayer.GStreamerPlayer.OnStateChanged | backends/gstreamer/src/player.rs:231-249 | stopped, paused and playing are announced; other engine states are not |
| LegacyPlayer.GStreamerPlayer.OnMediaInfoUpdated | backends/gstreamer/src/player.rs:251-265 | new metadata is cached and announced only when it differs from the cached one |
| LegacyPlayer.GStreamerPlayer.OnNewSample | backends/gstreamer/src/player.rs:286-301 | a failed pull gives end-of-stream with no effect; a sample is rendered to every renderer and FrameUpdated announced |
| LegacyPlayer.GStreamerPlayer.PushData | backends/gstreamer/src/player.rs:383-389 | without an app source the result is false and nothing changes; with one the buffer reaches it and the result is the engine's answer |
| LegacyPlayer.GStreamerPlayer.EndOfStream | backends/gstreamer/src/player.rs:391-396 | without an app source the result is false and nothing changes; with one the end-of-stream reaches it and the result is the engine's answer |
| StreamCallbacks.New | streams/src/lib.rs:10-16 | a new builder has all three callbacks unset |
| StreamCallbacks.WithEos | streams/src/lib.rs:49-54 | the builder's eos is set and the other two fields are kept |
| StreamCallbacks.WithError | streams/src/lib.rs:56-61 | the builder's error is set and the other two fields are kept |
| StreamCallbacks.WithProgress | streams/src/lib.rs:63-71 | the builder's progress is set and the other two fields are kept |
| StreamCallbacks.BuilderOrderIrrelevant | streams/src/lib.rs:48-71 | builder calls on different fields commute and a later call on a field replaces an earlier one |
| StreamCallbacks.Step | streams/src/lib.rs:18-39 | eos and error empty their own slot and invoke what was in it, if anything; progress invokes its callback with the buffer and keeps it; no call touches another slot |
| StreamCallbacks.OneShotAtMostOnce | streams/src/lib.rs:18-32 | over any sequence of calls, the eos (or error) callback runs once if it was set and is called at all, and never otherwise, whatever the other calls |
| StreamCallbacks.ProgressEveryCall | streams/src/lib.rs:34-39 | a set progress callback runs once per progress call and is never consumed; an unset one never runs |
| StreamCallbacks.MediaStreamCallbacks.Build | streams/src/lib.rs:73-79 | building carries all three fields over unchanged |
| StreamCallbacks.MediaStreamCallbacks.Eos | streams/src/lib.rs:18-24 | the slots and the invocations change as Step says for eos |
| StreamCallbacks.MediaStreamCallbacks.Error | streams/src/lib.rs:26-32 | the slots and the invocations change as Step says for error |
| StreamCallbacks.MediaStreamCallbacks.Progress | streams/src/lib.rs:34-39 | the slots and the invocations change as Step says for progress |

## Findings

| source | as written | input that shows it | evidently intended | confidence | as-written member | corrected member |
|---|---|---|---|---|---|---|
| backends/gstreamer/player.rs:238-249 | the buffered bound multiplies the percentage (up to 1,000,000) by the duration's seconds cast to u32, in u32 arithmetic | a fully buffered (100%) media of 5000 s: 1,000,000 * 5000 wraps modulo 2^32 and the range ends at 705 s instead of 5000 s; any media over about 4295 s fully buffered is affected | the product computed without overflow, so a bound never exceeds the duration | high, not executed | Player.BoundAsWrittenWraps | Player.BoundWithinDuration |

The model uses the corrected bound (`Player.Bound`) throughout. `Player.BoundAsWritten`
is the as-written arithmetic, in the wrapping behaviour of a release build. A debug
build panics on the overflow instead.

## Left out

- Floating point:
  - The rate and the volume are `real` values that the model only passes through.
  - A seek's `time as u64` and `time * 1e9 as u64` are modelled as saturating casts of
    the real value (`SaturatingU64`), and NaN is not modelled.
  - The buffered ranges are whole seconds, not `f64` values.
- Paths that panic in the source become preconditions:
  - an unknown percentage in the buffering answer (`BufferingAnswerable`);
  - a missing codec in the older player's metadata (`CodecsKnown`);
  - an unknown stream id in `PushDataTo` and `MediaSink.AddStream`;
  - an empty chain in `SrcElement`, `Encoded` and `AddStream`;
  - a second `attach_to_pipeline` (`AttachToPipeline` requires an unbound stream);
  - a capture source without an id (`CaptureRegistry.Register`).
  - The other `unwrap`/`expect` calls on engine operations are assumed to succeed.
- Concurrency:
  - The mutexes, `Arc`, the `AtomicBool` and the `Once` gate are plain fields. Each
    signal handler is one sequential event.
  - The blocking `mpsc` rendezvous of setup becomes the first handshake message
    (`SetupEnv.first`) in the newer player, and a finite signal sequence in the older
    one. `None` there means setup would still be waiting, and the missing timeout is
    not modelled.
  - Disconnecting the setup-only error handler is not modelled.
- The older player's setup connects its handlers again on every call. The handlers left
  over from earlier setups, which would notify subscribers more than once, are not
  modelled.
- The older player's duration-changed handler only prints its result. The model keeps
  the integer split (`DurationToHms`) and leaves out the printing.
- IPC send failures and the `unwrap` on them are not modelled.
- Engine-internal construction calls that setup makes are left out of the call log: the
  video sink, the flags construction and the signal connections. Only their possible
  failures are modelled, as `SetupEnv` fields.
- Sample-to-frame conversion, GL rendering and `render_use_gl` are out of scope. A
  sample arrives already decoded or marked unconvertible.
- Player.SetStreamStep: the registry lookup and the downcast of the stream behind the
  id are not modelled. A bound stream source always succeeds, and an unknown id (a
  panic in the source) is not modelled.
- Player.SetStreamStep: the `debug_assert!` that the session is in Stream mode
  (`backends/gstreamer/player.rs:260`) panics in a debug build when a Seekable session
  gets `set_stream`; the model follows the release build, where the call returns
  `SetStreamFailed` because no stream source is bound.
- Base time and start time are folded into one "use the shared clock" call. This covers
  the pipeline clock settings in `set_stream` and `pipeline_or_new`.
- Lock re-entry and drop hazards of the capture registry are not modelled. These are a
  cloned capture source being dropped, and an overwritten entry's drop re-entering the
  registry lock.
- `GstreamerMediaSocket`, `as_any`/`as_mut_any` and `ty` are accessors with nothing to
  state.
- servo-media/src/lib.rs, src/auto_media_stream.rs, the examples, the build script and
  the trait and enum declarations of player/src and source/mod.rs are not part of this
  model. Their types appear only as vocabulary.
