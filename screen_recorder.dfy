/** The recorder orchestrator. The browser's media objects are abstracted:
    a stream is its list of tracks, `MediaRecorder.isTypeSupported` is an
    oracle, and each platform call (display capture, microphone capture,
    recorder construction, the file write) is an outcome handed in by the
    caller. The class keeps the fields the source mutates; the pure parts
    (MIME negotiation, the file name, the audio decision, stream
    composition) are functions beside it. */
module Recorder {
  import opened Wrappers
  import opened Strings
  import Store = RecordingStore

  // Streams and tracks.

  datatype TrackKind = Video | Audio

  datatype Track = Track(kind: TrackKind, id: nat)

  datatype Stream = Stream(tracks: seq<Track>)

  /** The tracks of one kind, in stream order (`getVideoTracks`,
      `getAudioTracks`). */
  function TracksOfKind(ts: seq<Track>, k: TrackKind): (r: seq<Track>)
    ensures |r| <= |ts|
    ensures forall i :: 0 <= i < |r| ==> r[i].kind == k
    decreases |ts|
  {
    if ts == [] then []
    else (if ts[0].kind == k then [ts[0]] else []) + TracksOfKind(ts[1..], k)
  }

  /** A track is kept exactly when it is in the stream and of the kind. */
  lemma {:induction false} TracksOfKindMembers(ts: seq<Track>, k: TrackKind, t: Track)
    ensures t in TracksOfKind(ts, k) <==> t in ts && t.kind == k
    decreases |ts|
  {
    if ts != [] {
      TracksOfKindMembers(ts[1..], k, t);
      assert ts == [ts[0]] + ts[1..];
    }
  }

  /** Filtering a stream made of one kind only keeps all of it or none. */
  lemma {:induction false} TracksOfKindUniform(ts: seq<Track>, k: TrackKind, j: TrackKind)
    requires forall i :: 0 <= i < |ts| ==> ts[i].kind == k
    ensures TracksOfKind(ts, j) == if j == k then ts else []
    decreases |ts|
  {
    if ts != [] {
      TracksOfKindUniform(ts[1..], k, j);
    }
  }

  lemma {:induction false} TracksOfKindAppend(a: seq<Track>, b: seq<Track>, k: TrackKind)
    ensures TracksOfKind(a + b, k) == TracksOfKind(a, k) + TracksOfKind(b, k)
    decreases |a|
  {
    if a == [] {
      assert a + b == b;
    } else {
      var head := if a[0].kind == k then [a[0]] else [];
      assert (a + b)[0] == a[0] && (a + b)[1..] == a[1..] + b;
      TracksOfKindAppend(a[1..], b, k);
      assert head + (TracksOfKind(a[1..], k) + TracksOfKind(b, k)) == (head + TracksOfKind(a[1..], k)) + TracksOfKind(b, k);
    }
  }

  function VideoTracks(s: Stream): seq<Track> { TracksOfKind(s.tracks, Video) }

  function AudioTracks(s: Stream): seq<Track> { TracksOfKind(s.tracks, Audio) }

  function VideoTracksOf(s: Option<Stream>): seq<Track> { if s.Some? then VideoTracks(s.value) else [] }

  function AudioTracksOf(s: Option<Stream>): seq<Track> { if s.Some? then AudioTracks(s.value) else [] }

  /** `combineStreams`: the display's video tracks, then the audio stream's
      audio tracks; an absent stream contributes nothing. Taking the video
      or the audio tracks of the result gives back exactly what each input
      contributed. */
  function CombineStreams(display: Option<Stream>, audio: Option<Stream>): (r: Stream)
    ensures |r.tracks| == |VideoTracksOf(display)| + |AudioTracksOf(audio)|
    ensures forall i, j :: 0 <= i < j < |r.tracks| && r.tracks[i].kind == Audio ==> r.tracks[j].kind == Audio
    ensures VideoTracks(r) == VideoTracksOf(display)
    ensures AudioTracks(r) == AudioTracksOf(audio)
  {
    var v, a := VideoTracksOf(display), AudioTracksOf(audio);
    TracksOfKindAppend(v, a, Video);
    TracksOfKindAppend(v, a, Audio);
    TracksOfKindUniform(v, Video, Video);
    TracksOfKindUniform(v, Video, Audio);
    TracksOfKindUniform(a, Audio, Video);
    TracksOfKindUniform(a, Audio, Audio);
    Stream(v + a)
  }

  // MIME negotiation.

  const WebmVp9Opus: string := "video/webm;codecs=vp9,opus"
  const WebmVp8Opus: string := "video/webm;codecs=vp8,opus"
  const WebmVp9: string := "video/webm;codecs=vp9"
  const WebmVp8: string := "video/webm;codecs=vp8"
  const Webm: string := "video/webm"
  const Mp4: string := "video/mp4"

  /** The types `getSupportedMimeTypes` asks about, in its order. */
  const CandidateTypes: seq<string> := [WebmVp9Opus, WebmVp8Opus, WebmVp9, WebmVp8, Webm, Mp4]

  /** The degradation ladder tried after the preferred type. */
  const Fallbacks: seq<string> := [WebmVp9, WebmVp8, Webm]

  /** `a` is `b` with some elements left out, order kept. */
  predicate Subsequence(a: seq<string>, b: seq<string>)
    decreases |b|
  {
    if a == [] then true
    else if b == [] then false
    else (a[0] == b[0] && Subsequence(a[1..], b[1..])) || Subsequence(a, b[1..])
  }

  /** `types.filter(isTypeSupported)`. */
  function FilterSupported(types: seq<string>, isTypeSupported: string -> bool): (r: seq<string>)
    ensures forall t :: t in r <==> t in types && isTypeSupported(t)
    ensures Subsequence(r, types)
    ensures forall t :: multiset(r)[t] == if isTypeSupported(t) then multiset(types)[t] else 0
    decreases |types|
  {
    if types == [] then []
    else
      var rest := FilterSupported(types[1..], isTypeSupported);
      assert multiset(types) == multiset([types[0]]) + multiset(types[1..]) by {
        assert types == [types[0]] + types[1..];
      }
      if isTypeSupported(types[0]) then [types[0]] + rest else rest
  }

  function GetSupportedMimeTypes(isTypeSupported: string -> bool): (r: seq<string>)
    ensures forall t :: t in r <==> t in CandidateTypes && isTypeSupported(t)
    ensures Subsequence(r, CandidateTypes)
  {
    FilterSupported(CandidateTypes, isTypeSupported)
  }

  function PreferredFor(codec: Store.VideoCodec): string
  {
    if codec == Store.VP9 then WebmVp9Opus else WebmVp8Opus
  }

  /** `getPreferredMimeType`: the codec's combined type if supported, else
      the first supported of vp9, vp8 and plain webm, else plain webm. */
  function PreferredMimeType(codec: Store.VideoCodec, isTypeSupported: string -> bool): (r: string)
    ensures r in [WebmVp9Opus, WebmVp8Opus, WebmVp9, WebmVp8, Webm]
    ensures isTypeSupported(PreferredFor(codec)) ==> r == PreferredFor(codec)
    ensures !isTypeSupported(PreferredFor(codec)) && isTypeSupported(WebmVp9) ==> r == WebmVp9
    ensures !isTypeSupported(PreferredFor(codec)) && !isTypeSupported(WebmVp9) && isTypeSupported(WebmVp8) ==> r == WebmVp8
    ensures !isTypeSupported(PreferredFor(codec)) && !isTypeSupported(WebmVp9) && !isTypeSupported(WebmVp8) ==> r == Webm
  {
    var preferred := PreferredFor(codec);
    if isTypeSupported(preferred) then preferred
    else
      assert Fallbacks[0] == WebmVp9 && Fallbacks[1] == WebmVp8 && Fallbacks[2] == Webm;
      match FirstMatch(Fallbacks, isTypeSupported)
      case Some(i) => Fallbacks[i]
      case None => Webm
  }

  /** With vp8 requested and its combined type unsupported, vp9 is still
      tried before vp8. */
  lemma Vp9FallbackPrecedesVp8(isTypeSupported: string -> bool)
    requires !isTypeSupported(WebmVp8Opus) && isTypeSupported(WebmVp9) && isTypeSupported(WebmVp8)
    ensures PreferredMimeType(Store.VP8, isTypeSupported) == WebmVp9
  {
  }

  /** The negotiation asks the oracle about the five webm types only: two
      oracles that agree on them give the same answer. */
  lemma PreferredMimeTypeDependsOnlyOnLadder(codec: Store.VideoCodec, f: string -> bool, g: string -> bool)
    requires forall t :: t in [WebmVp9Opus, WebmVp8Opus, WebmVp9, WebmVp8, Webm] ==> f(t) == g(t)
    ensures PreferredMimeType(codec, f) == PreferredMimeType(codec, g)
  {
    assert f(WebmVp9Opus) == g(WebmVp9Opus) && f(WebmVp8Opus) == g(WebmVp8Opus);
    assert f(WebmVp9) == g(WebmVp9) && f(WebmVp8) == g(WebmVp8);
  }

  /** The negotiated type is one the platform reports as supported, unless
      none of the ladder's types is, in which case it is plain webm. */
  lemma PreferredMimeTypeIsSupportedOrBaseline(codec: Store.VideoCodec, isTypeSupported: string -> bool)
    ensures var r := PreferredMimeType(codec, isTypeSupported);
            r in GetSupportedMimeTypes(isTypeSupported)
            || (r == Webm && !isTypeSupported(Webm) && !isTypeSupported(WebmVp9) && !isTypeSupported(WebmVp8))
  {
  }

  // The file name and path.

  /** `s.replace(/[:.]/g, '-')`. */
  function DashPunctuation(s: string): (r: string)
    ensures |r| == |s|
    ensures forall i :: 0 <= i < |s| ==> r[i] == (if s[i] == ':' || s[i] == '.' then '-' else s[i])
    ensures ':' !in r && '.' !in r
  {
    seq(|s|, i requires 0 <= i < |s| => if s[i] == ':' || s[i] == '.' then '-' else s[i])
  }

  /** The position of the first `c` in `s`, or `|s|` if there is none. */
  function IndexOf(s: string, c: char): (r: nat)
    ensures r <= |s|
    ensures r < |s| ==> s[r] == c
    ensures forall j :: 0 <= j < r ==> s[j] != c
    decreases |s|
  {
    if s == [] then 0 else if s[0] == c then 0 else 1 + IndexOf(s[1..], c)
  }

  /** `s.replace(from, to)` with a one-character string pattern: only the
      first occurrence is replaced. */
  function ReplaceFirst(s: string, from: char, to: char): (r: string)
    ensures |r| == |s|
    ensures forall i :: 0 <= i < |s| ==> r[i] == (if i == IndexOf(s, from) then to else s[i])
    decreases |s|
  {
    if s == [] then []
    else if s[0] == from then [to] + s[1..]
    else [s[0]] + ReplaceFirst(s[1..], from, to)
  }

  /** `s.slice(0, -5)`. */
  function DropLast5(s: string): (r: string)
    ensures |r| == if |s| >= 5 then |s| - 5 else 0
    ensures r == s[..|r|]
  {
    s[..if |s| >= 5 then |s| - 5 else 0]
  }

  /** The timestamp part of the file name, from `new Date().toISOString()`. */
  function FileStamp(iso: string): (r: string)
    ensures |r| == if |iso| >= 5 then |iso| - 5 else 0
    ensures ':' !in r && '.' !in r
    ensures forall i :: 0 <= i < |r| && iso[i] != 'T' && iso[i] != ':' && iso[i] != '.' ==> r[i] == iso[i]
  {
    var dashed := DashPunctuation(iso);
    var r := DropLast5(ReplaceFirst(dashed, 'T', '_'));
    assert forall i :: 0 <= i < |r| ==> r[i] == ReplaceFirst(dashed, 'T', '_')[i];
    r
  }

  /** `ScreenRecording_<stamp>.webm`; the extension does not depend on the
      negotiated type. */
  function FileName(iso: string): (r: string)
    ensures |r| == |"ScreenRecording_"| + |FileStamp(iso)| + |".webm"|
    ensures StartsWith(r, "ScreenRecording_")
    ensures r[|r| - 5..] == ".webm"
    ensures r[16..|r| - 5] == FileStamp(iso)
  {
    var r := "ScreenRecording_" + FileStamp(iso) + ".webm";
    assert r[..16] == "ScreenRecording_";
    r
  }

  /** `YYYY-MM-DDTHH:MM:SS.mmmZ`, what `toISOString` gives for years 0 to 9999. */
  predicate IsIsoTimestamp(s: string)
  {
    && |s| == 24
    && (forall i :: 0 <= i < 24 && i !in {4, 7, 10, 13, 16, 19, 23} ==> IsDigit(s[i]))
    && s[4] == '-' && s[7] == '-' && s[10] == 'T' && s[13] == ':' && s[16] == ':'
    && s[19] == '.' && s[23] == 'Z'
  }

  /** For an ISO timestamp the stamp is `YYYY-MM-DD_HH-MM-SS`. */
  lemma FileStampOfIsoTimestamp(iso: string)
    requires IsIsoTimestamp(iso)
    ensures FileStamp(iso) == iso[..10] + "_" + iso[11..13] + "-" + iso[14..16] + "-" + iso[17..19]
  {
    var dashed := DashPunctuation(iso);
    assert forall j :: 0 <= j < 10 ==> dashed[j] != 'T';
    assert dashed[10] == 'T';
    assert IndexOf(dashed, 'T') == 10;
    var replaced := ReplaceFirst(dashed, 'T', '_');
    var expected := iso[..10] + "_" + iso[11..13] + "-" + iso[14..16] + "-" + iso[17..19];
    assert |FileStamp(iso)| == 19 == |expected|;
    forall i | 0 <= i < 19 ensures FileStamp(iso)[i] == expected[i] {
      assert FileStamp(iso)[i] == replaced[i];
    }
  }

  /** `${saveDir}/${fileName}`, with the platform's video directory when no
      directory is configured. */
  function SavePath(saveDirectory: string, videoDir: string, iso: string): (r: string)
    ensures saveDirectory != "" ==> StartsWith(r, saveDirectory + "/")
    ensures saveDirectory == "" ==> StartsWith(r, videoDir + "/")
    ensures |FileName(iso)| <= |r| && r[|r| - |FileName(iso)|..] == FileName(iso)
    ensures |r| == |if saveDirectory == "" then videoDir else saveDirectory| + 1 + |FileName(iso)|
  {
    var dir := if saveDirectory == "" then videoDir else saveDirectory;
    var r := dir + "/" + FileName(iso);
    assert r[..|dir + "/"|] == dir + "/";
    r
  }

  // The audio decision.

  const AudioCaptureFailed: string := "音频捕获失败: "
  const SystemAudioUnavailable: string := "系统音频捕获失败，请在屏幕共享对话框中选择\"共享系统音频\""
  const StartFailed: string := "开始录制失败: "
  const SaveFailed: string := "保存录制失败: "
  const RecorderFailed: string := "录制错误: "
  const UnknownError: string := "未知错误"

  /** The stream `captureAudio` returns and the message it hands to
      `setError`, if any. */
  datatype AudioOutcome = AudioOutcome(stream: Option<Stream>, error: Option<string>)

  predicate HasSystemAudio(display: Option<Stream>)
  {
    display.Some? && |AudioTracks(display.value)| > 0
  }

  /** `mixAudioStreams`: the output of an audio graph, one audio track
      whatever its inputs. */
  function MixAudioStreams(mic: Stream, system: Stream, mixedTrackId: nat): (r: Stream)
    ensures AudioTracks(r) == [Track(Audio, mixedTrackId)]
    ensures VideoTracks(r) == []
  {
    Stream([Track(Audio, mixedTrackId)])
  }

  /** `captureAudio`: `microphone` gives the microphone stream, `both` mixes
      it with the display's audio when the display has audio tracks, `system`
      gives the display's audio tracks or reports that there are none, and a
      failed microphone request is reported and gives nothing. */
  function CaptureAudio(source: Store.AudioSource, display: Option<Stream>,
                        microphone: Result<Stream, string>, mixedTrackId: nat): (r: AudioOutcome)
    ensures r.error.Some? ==> r.stream.None?
    ensures source == Store.NoAudio ==> r == AudioOutcome(None, None)
    ensures (source == Store.Microphone || source == Store.BothSources) && microphone.Err? ==>
      r == AudioOutcome(None, Some(AudioCaptureFailed + microphone.error))
    ensures source == Store.Microphone && microphone.Ok? ==> r == AudioOutcome(Some(microphone.value), None)
    ensures source == Store.BothSources && microphone.Ok? ==>
      r.error.None? && r.stream.Some? &&
      (HasSystemAudio(display) ==> r.stream.value.tracks == [Track(Audio, mixedTrackId)]) &&
      (!HasSystemAudio(display) ==> r.stream == Some(microphone.value))
    ensures source == Store.SystemAudio && HasSystemAudio(display) ==>
      r.error.None? && r.stream.Some? && r.stream.value.tracks == AudioTracks(display.value)
    ensures source == Store.SystemAudio && display.Some? && !HasSystemAudio(display) ==>
      r == AudioOutcome(None, Some(SystemAudioUnavailable))
    ensures source == Store.SystemAudio && display.None? ==> r == AudioOutcome(None, None)
  {
    match source
    case NoAudio => AudioOutcome(None, None)
    case Microphone =>
      if microphone.Err? then AudioOutcome(None, Some(AudioCaptureFailed + microphone.error))
      else AudioOutcome(Some(microphone.value), None)
    case BothSources =>
      if microphone.Err? then AudioOutcome(None, Some(AudioCaptureFailed + microphone.error))
      else if HasSystemAudio(display) then
        AudioOutcome(Some(MixAudioStreams(microphone.value, display.value, mixedTrackId)), None)
      else AudioOutcome(Some(microphone.value), None)
    case SystemAudio =>
      if display.None? then AudioOutcome(None, None)
      else if HasSystemAudio(display) then AudioOutcome(Some(Stream(AudioTracks(display.value))), None)
      else AudioOutcome(None, Some(SystemAudioUnavailable))
  }

  // Encoded output.

  datatype Blob = Blob(data: seq<bv8>)

  /** The chunks `ondataavailable` keeps: those with `size > 0`, in order. */
  function NonEmptyChunks(arrivals: seq<Blob>): (r: seq<Blob>)
    ensures |r| <= |arrivals|
    ensures forall i :: 0 <= i < |r| ==> |r[i].data| > 0
    decreases |arrivals|
  {
    if arrivals == [] then []
    else (if |arrivals[0].data| > 0 then [arrivals[0]] else []) + NonEmptyChunks(arrivals[1..])
  }

  /** The sum of the chunks' sizes. */
  function TotalSize(chunks: seq<Blob>): nat
    decreases |chunks|
  {
    if chunks == [] then 0 else |chunks[0].data| + TotalSize(chunks[1..])
  }

  /** The bytes of `new Blob(chunks)`: as many as the chunks hold together,
      the first chunk's leading. */
  function Artifact(chunks: seq<Blob>): (r: seq<bv8>)
    ensures |r| == TotalSize(chunks)
    ensures chunks != [] ==> |chunks[0].data| <= |r| && r[..|chunks[0].data|] == chunks[0].data
    decreases |chunks|
  {
    if chunks == [] then []
    else
      var r := chunks[0].data + Artifact(chunks[1..]);
      assert r[..|chunks[0].data|] == chunks[0].data;
      r
  }

  /** Buffering chunk by chunk is buffering the whole arrival sequence. */
  lemma {:induction false} NonEmptyChunksAppend(a: seq<Blob>, b: seq<Blob>)
    ensures NonEmptyChunks(a + b) == NonEmptyChunks(a) + NonEmptyChunks(b)
    decreases |a|
  {
    if a == [] {
      assert a + b == b;
    } else {
      var head := if |a[0].data| > 0 then [a[0]] else [];
      assert (a + b)[0] == a[0] && (a + b)[1..] == a[1..] + b;
      assert NonEmptyChunks(a + b) == head + NonEmptyChunks(a[1..] + b);
      NonEmptyChunksAppend(a[1..], b);
      assert head + (NonEmptyChunks(a[1..]) + NonEmptyChunks(b)) == (head + NonEmptyChunks(a[1..])) + NonEmptyChunks(b);
    }
  }

  /** Dropping the empty chunks loses no byte of the recording. */
  lemma {:induction false} ArtifactIgnoresEmptyChunks(arrivals: seq<Blob>)
    ensures Artifact(NonEmptyChunks(arrivals)) == Artifact(arrivals)
    decreases |arrivals|
  {
    if arrivals != [] {
      ArtifactIgnoresEmptyChunks(arrivals[1..]);
      ArtifactAppend(if |arrivals[0].data| > 0 then [arrivals[0]] else [], NonEmptyChunks(arrivals[1..]));
      if |arrivals[0].data| > 0 {
        assert Artifact([arrivals[0]]) == arrivals[0].data + Artifact([]);
      } else {
        assert arrivals[0].data == [];
      }
    }
  }

  lemma {:induction false} ArtifactAppend(a: seq<Blob>, b: seq<Blob>)
    ensures Artifact(a + b) == Artifact(a) + Artifact(b)
    decreases |a|
  {
    if a == [] {
      assert a + b == b;
    } else {
      assert (a + b)[0] == a[0] && (a + b)[1..] == a[1..] + b;
      assert Artifact(a + b) == a[0].data + Artifact(a[1..] + b);
      ArtifactAppend(a[1..], b);
      assert a[0].data + (Artifact(a[1..]) + Artifact(b)) == (a[0].data + Artifact(a[1..])) + Artifact(b);
    }
  }

  // The orchestrator.

  datatype RecorderState = Inactive | Recording | Paused

  datatype RecorderOptions = RecorderOptions(mimeType: string, videoBitsPerSecond: int, audioBitsPerSecond: int)

  /** A `MediaRecorder`: its state, its options and the stream it encodes. */
  datatype MediaRecorder = MediaRecorder(state: RecorderState, options: RecorderOptions, source: Stream)

  /** Handles from `requestAnimationFrame` are positive. */
  type FrameId = n: nat | n > 0 witness 1

  /** What the platform answers during `startRecording`. */
  datatype Platform = Platform(
    display: Result<Stream, string>,      // getDisplayMedia
    microphone: Result<Stream, string>,   // getUserMedia
    mixedTrackId: nat,                    // the audio graph's output track
    canvasTracks: seq<Track>,             // canvas.captureStream, region mode
    frameId: FrameId,                     // the first requestAnimationFrame handle
    isTypeSupported: string -> bool,      // MediaRecorder.isTypeSupported
    recorderError: Option<string>)        // message when `new MediaRecorder` throws

  /** The call `writeFile(path, bytes)` that saving issues. */
  datatype WriteRequest = WriteRequest(path: string, bytes: seq<bv8>)

  /** The audio stream after `startRecording`'s audio step: unchanged when
      the source is `none`, otherwise what `captureAudio` returned. */
  function AudioAfterStart(source: Store.AudioSource, display: Stream, platform: Platform,
                           previous: Option<Stream>): Option<Stream>
  {
    if source == Store.NoAudio then previous
    else CaptureAudio(source, Some(display), platform.microphone, platform.mixedTrackId).stream
  }

  /** The session after the audio step's `setError`, if it called one. */
  function SessionAfterAudio(source: Store.AudioSource, display: Stream, platform: Platform,
                             session: Store.State): Store.State
  {
    var outcome := CaptureAudio(source, Some(display), platform.microphone, platform.mixedTrackId);
    if source != Store.NoAudio && outcome.error.Some? then Store.SetError(session, outcome.error)
    else session
  }

  /** The stream handed to the recorder: the canvas video with the audio in
      region mode, the display video with the audio otherwise. */
  function ComposedStream(mode: Store.RecordingMode, region: Option<Store.Rect>, display: Stream,
                          audio: Option<Stream>, canvasTracks: seq<Track>): (r: Stream)
    ensures mode == Store.Region && region.Some? && audio.None? ==> r.tracks == canvasTracks
    ensures mode == Store.Region && region.Some? && audio.Some? ==>
      VideoTracks(r) == TracksOfKind(canvasTracks, Video) && AudioTracks(r) == AudioTracks(audio.value)
    ensures !(mode == Store.Region && region.Some?) ==>
      VideoTracks(r) == VideoTracks(display) && AudioTracks(r) == AudioTracksOf(audio)
    ensures !(mode == Store.Region && region.Some? && audio.None?) ==>
      forall i, j :: 0 <= i < j < |r.tracks| && r.tracks[i].kind == Audio ==> r.tracks[j].kind == Audio
  {
    if mode == Store.Region && region.Some? then
      if audio.Some? then CombineStreams(Some(Stream(canvasTracks)), audio) else Stream(canvasTracks)
    else CombineStreams(Some(display), audio)
  }

  class ScreenRecorder {
    var recorder: Option<MediaRecorder>
    var chunks: seq<Blob>
    var displayStream: Option<Stream>
    var audioStream: Option<Stream>
    var combinedStream: Option<Stream>
    var canvas: bool                  // the region canvas and its 2D context
    var videoElement: bool
    var animationFrameId: Option<FrameId>
    var timerRunning: bool            // the duration interval is registered
    var pendingStop: bool             // stop() was called and its onstop is due
    var stoppedTracks: seq<Track>     // every track `stop()` was called on, in order
    var session: Store.State          // the recording-state store
    var settings: Store.Settings      // the settings store, read here

    /** The timer runs only while the recorder records, and the recorder's
        state is mirrored in the session store. */
    ghost predicate Valid()
      reads this
    {
      && (timerRunning ==> recorder.Some? && recorder.value.state == Recording)
      && (recorder.Some? && recorder.value.state == Recording ==>
            session.status == Store.Recording && session.startTime.Some?)
      && (recorder.Some? && recorder.value.state == Paused ==> session.status == Store.Paused)
    }

    /** Nothing is held: what `cleanup` leaves behind. */
    predicate Released()
      reads this
    {
      && displayStream.None? && audioStream.None? && combinedStream.None?
      && !canvas && !videoElement && animationFrameId.None?
      && recorder.None? && chunks == [] && !timerRunning
    }

    /** The tracks of the held streams, in the order `cleanup` stops them. */
    function HeldTracks(): seq<Track>
      reads this
    {
      (if displayStream.Some? then displayStream.value.tracks else [])
      + (if audioStream.Some? then audioStream.value.tracks else [])
      + (if combinedStream.Some? then combinedStream.value.tracks else [])
    }

    constructor (settings: Store.Settings)
      ensures Valid() && Released()
      ensures session == Store.Default && this.settings == settings
      ensures stoppedTracks == [] && !pendingStop
    {
      recorder := None;
      chunks := [];
      displayStream, audioStream, combinedStream := None, None, None;
      canvas, videoElement := false, false;
      animationFrameId := None;
      timerRunning, pendingStop := false, false;
      stoppedTracks := [];
      session := Store.Default;
      this.settings := settings;
    }

    /** `startRecording`. No guard on the current status: a second call
        replaces the recorder and starts the store session again, which
        keeps the earlier `pausedTime` and `duration` and drops the running
        segment. A failure sets the
        store's error and returns the message; it releases nothing. */
    method StartRecording(mode: Store.RecordingMode, region: Option<Store.Rect>, platform: Platform, now: int)
      returns (error: Option<string>)
      requires Valid()
      modifies this`displayStream, this`audioStream, this`combinedStream, this`canvas, this`videoElement,
               this`animationFrameId, this`recorder, this`session, this`timerRunning
      ensures Valid()
      ensures platform.display.Err? ==>
        && error == Some(platform.display.error)
        && session == Store.SetError(old(session), Some(StartFailed + platform.display.error))
        && displayStream == old(displayStream) && audioStream == old(audioStream)
        && combinedStream == old(combinedStream) && canvas == old(canvas) && videoElement == old(videoElement)
        && animationFrameId == old(animationFrameId) && recorder == old(recorder) && timerRunning == old(timerRunning)
      ensures platform.display.Ok? ==>
        var display := platform.display.value;
        var regionMode := mode == Store.Region && region.Some?;
        var audio := AudioAfterStart(settings.audioSource, display, platform, old(audioStream));
        var composed := ComposedStream(mode, region, display, audio, platform.canvasTracks);
        var afterAudio := SessionAfterAudio(settings.audioSource, display, platform, old(session));
        && displayStream == Some(display) && audioStream == audio && combinedStream == Some(composed)
        && canvas == (regionMode || old(canvas)) && videoElement == (regionMode || old(videoElement))
        && animationFrameId == (if regionMode then Some(platform.frameId) else old(animationFrameId))
        && (platform.recorderError.Some? ==>
              && error == platform.recorderError
              && session == Store.SetError(afterAudio, Some(StartFailed + platform.recorderError.value))
              && recorder == old(recorder) && timerRunning == old(timerRunning))
        && (platform.recorderError.None? ==>
              && error.None?
              && recorder == Some(MediaRecorder(Recording,
                   RecorderOptions(PreferredMimeType(settings.videoCodec, platform.isTypeSupported),
                                   settings.videoBitrate * 1000, settings.audioBitrate * 1000),
                   composed))
              && session == Store.StartRecording(afterAudio, now, mode, region)
              && timerRunning)
    {
      if platform.display.Err? {
        session := Store.SetError(session, Some(StartFailed + platform.display.error));
        return Some(platform.display.error);
      }
      var display := platform.display.value;
      displayStream := Some(display);
      // Audio step: `captureAudio` and the warning it may report.
      var audio := AudioAfterStart(settings.audioSource, display, platform, audioStream);
      var afterAudio := SessionAfterAudio(settings.audioSource, display, platform, session);
      audioStream := audio;
      session := afterAudio;
      // Region mode draws the cropped display onto a canvas and records that.
      if mode == Store.Region && region.Some? {
        canvas, videoElement := true, true;
        animationFrameId := Some(platform.frameId);
      }
      var composed := ComposedStream(mode, region, display, audio, platform.canvasTracks);
      combinedStream := Some(composed);
      var mimeType := PreferredMimeType(settings.videoCodec, platform.isTypeSupported);
      if platform.recorderError.Some? {
        session := Store.SetError(session, Some(StartFailed + platform.recorderError.value));
        return platform.recorderError;
      }
      var options := RecorderOptions(mimeType, settings.videoBitrate * 1000, settings.audioBitrate * 1000);
      recorder := Some(MediaRecorder(Recording, options, composed));
      session := Store.StartRecording(session, now, mode, region);
      timerRunning := true;
      error := None;
    }

    /** `pauseRecording`: acts only on a recorder that is recording. */
    method PauseRecording(now: int)
      requires Valid()
      modifies this`recorder, this`session, this`timerRunning
      ensures Valid()
      ensures old(recorder).Some? && old(recorder).value.state == Recording ==>
        && recorder == Some(old(recorder).value.(state := Paused))
        && session == Store.PauseRecording(old(session), now)
        && session.status == Store.Paused
        && !timerRunning
      ensures !(old(recorder).Some? && old(recorder).value.state == Recording) ==>
        recorder == old(recorder) && session == old(session) && timerRunning == old(timerRunning)
    {
      if recorder.Some? && recorder.value.state == Recording {
        recorder := Some(recorder.value.(state := Paused));
        session := Store.PauseRecording(session, now);
        timerRunning := false;
      }
    }

    /** `resumeRecording`: acts only on a recorder that is paused. */
    method ResumeRecording(now: int)
      requires Valid()
      modifies this`recorder, this`session, this`timerRunning
      ensures Valid()
      ensures old(recorder).Some? && old(recorder).value.state == Paused ==>
        && recorder == Some(old(recorder).value.(state := Recording))
        && session == Store.ResumeRecording(old(session), now)
        && session.status == Store.Recording
        && timerRunning
      ensures !(old(recorder).Some? && old(recorder).value.state == Paused) ==>
        recorder == old(recorder) && session == old(session) && timerRunning == old(timerRunning)
    {
      if recorder.Some? && recorder.value.state == Paused {
        recorder := Some(recorder.value.(state := Recording));
        session := Store.ResumeRecording(session, now);
        timerRunning := true;
      }
    }

    /** The synchronous part of `stopRecording`. Without a recorder the
        promise resolves to null at once and nothing changes. Otherwise the
        recorder is stopped unless already inactive and the timer is
        cleared. Each call installs a fresh `onstop` handler: an inactive
        recorder with no `stop` event still due leaves the promise
        unsettled, and of two calls made before the first `stop` event only
        the second one's promise settles. */
    method StopRecording() returns (resolvedNull: bool, calledStop: bool)
      requires Valid()
      modifies this`recorder, this`timerRunning, this`pendingStop
      ensures Valid()
      ensures resolvedNull <==> old(recorder).None?
      ensures old(recorder).None? ==>
        !calledStop && recorder == old(recorder) && timerRunning == old(timerRunning) && pendingStop == old(pendingStop)
      ensures old(recorder).Some? ==>
        && calledStop == (old(recorder).value.state != Inactive)
        && recorder == Some(old(recorder).value.(state := Inactive))
        && !timerRunning
        && pendingStop == (old(pendingStop) || calledStop)
    {
      if recorder.None? {
        return true, false;
      }
      resolvedNull := false;
      calledStop := recorder.value.state != Inactive;
      if calledStop {
        recorder := Some(recorder.value.(state := Inactive));
        pendingStop := true;
      }
      timerRunning := false;
    }

    /** The `onstop` handler `stopRecording` installs: save, then on success
        reset the store and clean up; on failure only record the error. */
    method HandleStop(iso: string, videoDir: string, writeError: Option<string>)
      returns (request: WriteRequest, outputPath: Option<string>)
      requires Valid() && pendingStop
      modifies this`displayStream, this`audioStream, this`combinedStream, this`animationFrameId, this`canvas,
               this`videoElement, this`recorder, this`chunks, this`timerRunning, this`stoppedTracks,
               this`session, this`pendingStop
      ensures Valid() && !pendingStop
      ensures request == WriteRequest(SavePath(settings.saveDirectory, videoDir, iso), Artifact(old(chunks)))
      ensures writeError.None? ==>
        && outputPath == Some(request.path)
        && session == Store.StopRecording(old(session), Some(request.path))
        && session.lastOutputPath == Some(request.path)
        && Released()
        && stoppedTracks == old(stoppedTracks) + old(HeldTracks())
      ensures writeError.Some? ==>
        && outputPath.None?
        && session == Store.SetError(old(session), Some(SaveFailed + writeError.value))
        && displayStream == old(displayStream) && audioStream == old(audioStream)
        && combinedStream == old(combinedStream) && animationFrameId == old(animationFrameId)
        && canvas == old(canvas) && videoElement == old(videoElement) && recorder == old(recorder)
        && chunks == old(chunks) && timerRunning == old(timerRunning) && stoppedTracks == old(stoppedTracks)
    {
      pendingStop := false;
      var path := SavePath(settings.saveDirectory, videoDir, iso);
      request := WriteRequest(path, Artifact(chunks));
      if writeError.Some? {
        session := Store.SetError(session, Some(SaveFailed + writeError.value));
        return request, None;
      }
      assert path != "";
      session := Store.StopRecording(session, Some(path));
      Cleanup();
      outputPath := Some(path);
    }

    /** `ondataavailable`: only non-empty chunks are kept, in arrival order. */
    method OnDataAvailable(blob: Blob)
      modifies this`chunks
      ensures chunks == old(chunks) + NonEmptyChunks([blob])
      ensures |blob.data| == 0 ==> chunks == old(chunks)
    {
      if |blob.data| > 0 {
        chunks := chunks + [blob];
      }
    }

    /** `onerror`: the message, or a generic one, goes to the store. */
    method OnRecorderError(message: Option<string>)
      requires Valid()
      modifies this`session
      ensures Valid()
      ensures session == Store.SetError(old(session),
        Some(RecorderFailed + if message.Some? && message.value != "" then message.value else UnknownError))
    {
      var text := if message.Some? && message.value != "" then message.value else UnknownError;
      session := Store.SetError(session, Some(RecorderFailed + text));
    }

    /** One firing of the duration interval. */
    method OnTimerTick(now: int)
      requires Valid() && timerRunning
      modifies this`session
      ensures Valid()
      ensures session == Store.UpdateDuration(old(session), now)
    {
      session := Store.UpdateDuration(session, now);
    }

    /** `cleanup`: stops every held track and drops every resource. A second
        call changes nothing. */
    method Cleanup()
      modifies this`displayStream, this`audioStream, this`combinedStream, this`animationFrameId, this`canvas,
               this`videoElement, this`recorder, this`chunks, this`timerRunning, this`stoppedTracks
      ensures Released()
      ensures stoppedTracks == old(stoppedTracks) + old(HeldTracks())
      ensures old(Released()) ==> stoppedTracks == old(stoppedTracks)
      ensures old(Released()) ==> unchanged(this)
    {
      assert Released() ==> HeldTracks() == [];
      stoppedTracks := stoppedTracks + HeldTracks();
      displayStream, audioStream, combinedStream := None, None, None;
      animationFrameId := None;
      canvas, videoElement := false, false;
      recorder := None;
      chunks := [];
      timerRunning := false;
    }
  }
}
