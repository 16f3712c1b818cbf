/** What both players extract from the engine's media information: durations,
    frame dimensions, and the audio and video codec lists in stream order. */
module Tracks {
  import opened Base
  import opened Gst

  const NANOS_PER_SECOND: nat := 1_000_000_000
  const U32_LIMIT: int := 0x1_0000_0000

  /** std::time::Duration: whole seconds and the nanoseconds below one second. */
  datatype Duration = Duration(secs: nat, nanos: nat)

  /** The duration of a clock time given in nanoseconds. */
  function DurationOf(ns: nat): (d: Duration)
    ensures d.nanos < NANOS_PER_SECOND
    ensures d.secs * NANOS_PER_SECOND + d.nanos == ns
  {
    Duration(ns / NANOS_PER_SECOND, ns % NANOS_PER_SECOND)
  }

  /** The duration of an engine clock time; the engine's "no time" has none. */
  function ClockDuration(t: ClockTime): (d: Option<Duration>)
    ensures d.Some? <==> t.Some?
    ensures t.Some? ==> d.value.secs * NANOS_PER_SECOND + d.value.nanos == t.value
  {
    match t
    case None => None
    case Some(ns) => Some(DurationOf(ns))
  }

  /** Duration ordering: by seconds, then by nanoseconds. */
  predicate DurationLess(a: Duration, b: Duration) {
    a.secs < b.secs || (a.secs == b.secs && a.nanos < b.nanos)
  }

  /** Rust's `x as u32` on an i32: the same 32 bits read as unsigned. */
  function AsU32(x: int): (r: nat)
    ensures r < U32_LIMIT
    ensures 0 <= x < U32_LIMIT ==> r == x
    ensures (r - x) % U32_LIMIT == 0
  {
    x % U32_LIMIT
  }

  /** Width and height of the first video stream, or 0 and 0 when there is none. */
  function FrameSize(info: MediaInfo): (wh: (nat, nat))
    ensures |info.videoStreams| == 0 ==> wh == (0, 0)
    ensures |info.videoStreams| > 0 ==>
      wh.0 == AsU32(info.videoStreams[0].width) && wh.1 == AsU32(info.videoStreams[0].height)
  {
    if |info.videoStreams| > 0 then
      (AsU32(info.videoStreams[0].width), AsU32(info.videoStreams[0].height))
    else (0, 0)
  }

  function CodecOrEmpty(s: StreamInfo): string {
    match s.codec
    case Some(c) => c
    case None => ""
  }

  /** The codecs of the streams of type `kind`, in stream-list order. */
  function TracksOf(streams: seq<StreamInfo>, kind: string): (codecs: seq<string>)
    ensures |codecs| <= |streams|
  {
    if streams == [] then []
    else
      var last := streams[|streams| - 1];
      TracksOf(streams[..|streams| - 1], kind) + (if last.streamType == kind then [CodecOrEmpty(last)] else [])
  }

  /** Selecting codecs commutes with concatenating stream lists, so the selection
      keeps stream-list order. */
  lemma {:induction false} TracksOfAppend(a: seq<StreamInfo>, b: seq<StreamInfo>, kind: string)
    ensures TracksOf(a + b, kind) == TracksOf(a, kind) + TracksOf(b, kind)
    decreases |b|
  {
    if b == [] {
      assert a + b == a;
    } else {
      var b' := b[..|b| - 1];
      assert (a + b)[..|a + b| - 1] == a + b';
      assert (a + b)[|a + b| - 1] == b[|b| - 1];
      TracksOfAppend(a, b', kind);
    }
  }

  /** A codec is listed for `kind` exactly when some stream of that type carries it. */
  lemma {:induction false} TracksOfMembership(streams: seq<StreamInfo>, kind: string, c: string)
    ensures c in TracksOf(streams, kind) <==>
      exists i :: 0 <= i < |streams| && streams[i].streamType == kind && CodecOrEmpty(streams[i]) == c
  {
    if streams != [] {
      var init := streams[..|streams| - 1];
      TracksOfMembership(init, kind, c);
      if exists i :: 0 <= i < |streams| && streams[i].streamType == kind && CodecOrEmpty(streams[i]) == c {
        var i :| 0 <= i < |streams| && streams[i].streamType == kind && CodecOrEmpty(streams[i]) == c;
        if i < |streams| - 1 {
          assert init[i] == streams[i];
        }
      }
      if c in TracksOf(init, kind) {
        var i :| 0 <= i < |init| && init[i].streamType == kind && CodecOrEmpty(init[i]) == c;
        assert streams[i] == init[i];
      }
    }
  }

  /** The audio and video lists never hold more codecs than there are streams. */
  lemma {:induction false} TracksPartition(streams: seq<StreamInfo>)
    ensures |TracksOf(streams, "audio")| + |TracksOf(streams, "video")| <= |streams|
  {
    if streams != [] {
      TracksPartition(streams[..|streams| - 1]);
    }
  }

  /** The loop both players run over the stream list, pushing each audio codec onto
      one list and each video codec onto the other; other stream types are skipped. */
  method CollectTracks(streams: seq<StreamInfo>) returns (audio: seq<string>, video: seq<string>)
    ensures audio == TracksOf(streams, "audio")
    ensures video == TracksOf(streams, "video")
  {
    audio, video := [], [];
    for i := 0 to |streams|
      invariant audio == TracksOf(streams[..i], "audio")
      invariant video == TracksOf(streams[..i], "video")
    {
      assert streams[..i + 1][..i] == streams[..i];
      var info := streams[i];
      if info.streamType == "audio" {
        audio := audio + [CodecOrEmpty(info)];
      } else if info.streamType == "video" {
        video := video + [CodecOrEmpty(info)];
      }
    }
    assert streams[..|streams|] == streams;
  }
}
