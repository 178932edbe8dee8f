/** The recording session store: the record the interface reads, the
    transitions that replace it, the guards derived from it, the duration
    display and the quality presets. Every transition of the source is a
    record update `state => ({...state, ...})` handed to a store cell; here it
    is a function from the old record to the new one, and the wall clock
    `Date.now()` is the parameter `now`, in milliseconds. */
module RecordingStore {
  import opened Wrappers
  import opened Strings

  datatype Status = Idle | Recording | Paused

  datatype RecordingMode = Fullscreen | Window | Region

  /** The screen rectangle recorded in region mode. */
  datatype Rect = Rect(x: int, y: int, width: int, height: int)

  datatype AudioSource = NoAudio | Microphone | SystemAudio | BothSources

  datatype VideoCodec = VP8 | VP9

  datatype VideoQuality = Low | Medium | High | Custom

  /** The part of the user's settings the recorder reads. */
  datatype Settings = Settings(
    mode: RecordingMode,
    audioSource: AudioSource,
    videoQuality: VideoQuality,
    frameRate: int,
    videoBitrate: int,   // kbps
    audioBitrate: int,   // kbps
    videoCodec: VideoCodec,
    saveDirectory: string)

  const DefaultSettings: Settings :=
    Settings(Fullscreen, Microphone, Medium, 30, 5000, 128, VP9, "")

  /** The session record. `pausedTime`, despite its name, holds the
      milliseconds spent recording in the segments that a pause has closed. */
  datatype State = State(
    status: Status,
    duration: int,              // seconds
    startTime: Option<int>,     // start of the current recording segment
    pausedTime: int,
    mode: RecordingMode,
    region: Option<Rect>,
    lastOutputPath: Option<string>,
    error: Option<string>,
    isMinimized: bool)

  const Default: State :=
    State(Idle, 0, None, 0, Fullscreen, None, None, None, false)

  /** `state.startTime || 0`. */
  function StartOrZero(s: State): int
  {
    if s.startTime.Some? then s.startTime.value else 0
  }

  /** JavaScript truthiness of `state.startTime`: present and not zero. */
  predicate StartTimeTruthy(s: State)
  {
    s.startTime.Some? && s.startTime.value != 0
  }

  function StartRecording(s: State, now: int, mode: RecordingMode, region: Option<Rect>): (r: State)
    ensures r.status == Recording && r.startTime == Some(now)
    ensures r.mode == mode && r.region == region && r.error == None
    ensures r.duration == s.duration && r.pausedTime == s.pausedTime
    ensures r.lastOutputPath == s.lastOutputPath && r.isMinimized == s.isMinimized
  {
    s.(status := Recording, startTime := Some(now), mode := mode, region := region, error := None)
  }

  function PauseRecording(s: State, now: int): (r: State)
    ensures r.(status := s.status, pausedTime := s.pausedTime) == s
    ensures s.status == Recording ==> r.status == Paused && r.pausedTime == s.pausedTime + (now - StartOrZero(s))
    ensures s.status != Recording ==> r == s
  {
    if s.status == Recording then
      s.(status := Paused, pausedTime := s.pausedTime + (now - StartOrZero(s)))
    else s
  }

  function ResumeRecording(s: State, now: int): (r: State)
    ensures r.(status := s.status, startTime := s.startTime) == s
    ensures s.status == Paused ==> r.status == Recording && r.startTime == Some(now)
    ensures s.status != Paused ==> r == s
  {
    if s.status == Paused then s.(status := Recording, startTime := Some(now)) else s
  }

  /** `outputPath || state.lastOutputPath`: an absent or empty path keeps
      the previous one. */
  function StopRecording(s: State, outputPath: Option<string>): (r: State)
    ensures r.(lastOutputPath := None) == Default
    ensures outputPath.Some? && outputPath.value != "" ==> r.lastOutputPath == outputPath
    ensures outputPath.None? || outputPath.value == "" ==> r.lastOutputPath == s.lastOutputPath
  {
    Default.(lastOutputPath := if outputPath.Some? && outputPath.value != "" then outputPath else s.lastOutputPath)
  }

  /** The clock tick. Dafny's `/` by a positive divisor rounds down, as
      `Math.floor` of the quotient does. */
  function UpdateDuration(s: State, now: int): (r: State)
    ensures r.(duration := s.duration) == s
    ensures r.duration != s.duration ==> s.status == Recording && StartTimeTruthy(s)
    ensures s.status == Recording && StartTimeTruthy(s) ==>
      var elapsed := now - s.startTime.value + s.pausedTime;
      r.duration * 1000 <= elapsed < (r.duration + 1) * 1000
  {
    if s.status == Recording && StartTimeTruthy(s) then
      s.(duration := (now - s.startTime.value + s.pausedTime) / 1000)
    else s
  }

  function SetError(s: State, error: Option<string>): (r: State)
    ensures r.(error := s.error) == s && r.error == error
  {
    s.(error := error)
  }

  // The derived guards.

  predicate IsRecording(s: State) { s.status == Recording }
  predicate IsPaused(s: State) { s.status == Paused }
  predicate IsIdle(s: State) { s.status == Idle }
  predicate CanRecord(s: State) { s.status == Idle }
  predicate CanPause(s: State) { s.status == Recording }
  predicate CanResume(s: State) { s.status == Paused }
  predicate CanStop(s: State) { s.status != Idle }

  /** Exactly one status predicate holds, stopping is allowed exactly when
      recording is not, and pausing or resuming changes the record exactly
      when its guard allows it. */
  lemma GuardsAgreeWithTransitions(s: State, now: int)
    ensures (IsIdle(s) && !IsRecording(s) && !IsPaused(s))
         || (!IsIdle(s) && IsRecording(s) && !IsPaused(s))
         || (!IsIdle(s) && !IsRecording(s) && IsPaused(s))
    ensures CanStop(s) <==> !CanRecord(s)
    ensures PauseRecording(s, now) != s <==> CanPause(s)
    ensures ResumeRecording(s, now) != s <==> CanResume(s)
  {
  }

  // The duration clock over a recording session.

  /** One call into the store, with the clock reading it used. */
  datatype Event =
    | Start(at: int, mode: RecordingMode, region: Option<Rect>)
    | Pause(at: int)
    | Resume(at: int)
    | Tick(at: int)

  function Step(s: State, e: Event): State
  {
    match e
    case Start(t, mode, region) => StartRecording(s, t, mode, region)
    case Pause(t) => PauseRecording(s, t)
    case Resume(t) => ResumeRecording(s, t)
    case Tick(t) => UpdateDuration(s, t)
  }

  /** The record after the events, applied in order. */
  function Replay(s: State, evs: seq<Event>): State
    decreases |evs|
  {
    if evs == [] then s else Step(Replay(s, evs[..|evs| - 1]), evs[|evs| - 1])
  }

  /** A session: one start, then pauses, resumes and ticks, all at clock
      readings after the epoch (the store reads a zero start time as absent). */
  predicate SessionTrace(evs: seq<Event>)
  {
    && |evs| >= 1
    && evs[0].Start?
    && (forall i :: 1 <= i < |evs| ==> !evs[i].Start?)
    && (forall i :: 0 <= i < |evs| ==> evs[i].at > 0)
  }

  /** Whether the session is recording or paused after the events: the
      reference status machine, independent of the store's bookkeeping. */
  function Phase(evs: seq<Event>): Status
    decreases |evs|
  {
    if evs == [] then Idle
    else
      var before := Phase(evs[..|evs| - 1]);
      match evs[|evs| - 1]
      case Start(_, _, _) => Recording
      case Pause(_) => if before == Recording then Paused else before
      case Resume(_) => if before == Paused then Recording else before
      case Tick(_) => before
  }

  /** The milliseconds between consecutive events during which the session
      was recording: the recorded time up to the last event. */
  function ActiveMs(evs: seq<Event>): int
    decreases |evs|
  {
    if |evs| <= 1 then 0
    else
      var init := evs[..|evs| - 1];
      ActiveMs(init)
        + (if Phase(init) == Recording then evs[|evs| - 1].at - init[|init| - 1].at else 0)
  }

  /** The store's bookkeeping agrees with the recorded time: while recording,
      `pausedTime` plus the current segment is the recorded time; while
      paused, `pausedTime` is; and a tick while recording sets the duration
      to the whole seconds recorded. */
  lemma {:induction false} DurationTracksRecordedTime(s0: State, evs: seq<Event>)
    requires s0.status == Idle && s0.pausedTime == 0
    requires SessionTrace(evs)
    ensures var s := Replay(s0, evs);
            var last := evs[|evs| - 1];
            && s.status == Phase(evs) && s.status != Idle
            && (s.status == Recording ==>
                  StartTimeTruthy(s) && s.pausedTime + (last.at - s.startTime.value) == ActiveMs(evs))
            && (s.status == Paused ==> s.pausedTime == ActiveMs(evs))
            && (last.Tick? && s.status == Recording ==> s.duration == ActiveMs(evs) / 1000)
    decreases |evs|
  {
    if |evs| > 1 {
      var init := evs[..|evs| - 1];
      assert init[0] == evs[0];
      assert forall i :: 1 <= i < |init| ==> init[i] == evs[i];
      DurationTracksRecordedTime(s0, init);
    }
  }

  /** `formatDuration`: `HH:MM:SS`, or `MM:SS` below an hour. */
  function FormatDuration(seconds: nat): (r: string)
    ensures Split(r, ':') == DurationFields(seconds)
  {
    var f := DurationFields(seconds);
    forall i | 0 <= i < |f| ensures ':' !in f[i] {
      DigitsHaveNoColon(f[i]);
    }
    SplitJoin(f, ':');
    Join(f, ":")
  }

  /** The zero-padded fields `formatDuration` joins with colons. */
  function DurationFields(seconds: nat): (r: seq<string>)
    ensures |r| == 3 <==> seconds >= 3600
    ensures |r| == 2 <==> seconds < 3600
    ensures forall i :: 0 <= i < |r| ==> IsDigits(r[i]) && |r[i]| >= 2
    ensures |r[|r| - 2]| == 2 && |r[|r| - 1]| == 2
    ensures |r| == 3 ==> |r[0]| == 2 || r[0][0] != '0'
  {
    var hours := seconds / 3600;
    var minutes := (seconds % 3600) / 60;
    var secs := seconds % 60;
    (if hours > 0 then [PadStart2(NatToString(hours))] else [])
      + [PadStart2(NatToString(minutes)), PadStart2(NatToString(secs))]
  }

  /** The number of seconds a list of colon-separated fields denotes. */
  function FieldsTotal(f: seq<string>): nat
    requires |f| == 2 || |f| == 3
    requires forall i :: 0 <= i < |f| ==> IsDigits(f[i])
  {
    if |f| == 3 then DecimalValue(f[0]) * 3600 + DecimalValue(f[1]) * 60 + DecimalValue(f[2])
    else DecimalValue(f[0]) * 60 + DecimalValue(f[1])
  }

  /** Hours, minutes and seconds recombine to the input. */
  lemma ClockArithmetic(seconds: nat)
    ensures (seconds / 3600) * 3600 + ((seconds % 3600) / 60) * 60 + seconds % 60 == seconds
    ensures (seconds % 3600) / 60 < 60
    ensures seconds / 3600 > 0 <==> seconds >= 3600
  {
    var r := seconds % 3600;
    assert seconds == (seconds / 3600) * 3600 + r;
    assert r == (r / 60) * 60 + r % 60;
    assert seconds % 60 == r % 60 by {
      assert seconds == ((seconds / 3600) * 60 + r / 60) * 60 + r % 60;
    }
  }

  /** Each field is a string of digits with the right value. */
  lemma DurationFieldsValues(seconds: nat)
    ensures var f := DurationFields(seconds);
            && (|f| == 3 <==> seconds >= 3600)
            && (|f| == 2 <==> seconds < 3600)
            && (forall i :: 0 <= i < |f| ==> IsDigits(f[i]) && ':' !in f[i])
            && |f[|f| - 2]| == 2 && |f[|f| - 1]| == 2
            && DecimalValue(f[|f| - 2]) < 60 && DecimalValue(f[|f| - 1]) < 60
            && FieldsTotal(f) == seconds
  {
    var hours := seconds / 3600;
    var minutes := (seconds % 3600) / 60;
    var secs := seconds % 60;
    ClockArithmetic(seconds);
    DecimalValueOfNatToString(hours);
    DecimalValueOfNatToString(minutes);
    DecimalValueOfNatToString(secs);
    var f := DurationFields(seconds);
    forall i | 0 <= i < |f| ensures ':' !in f[i] {
      DigitsHaveNoColon(f[i]);
    }
  }

  /** Read back field by field, the display has an hours field exactly from
      one hour up, two-digit minutes and seconds below 60, and denotes the
      input. */
  lemma FormatDurationFields(seconds: nat)
    ensures var f := Split(FormatDuration(seconds), ':');
            && (|f| == 3 <==> seconds >= 3600)
            && (|f| == 2 <==> seconds < 3600)
            && (forall i :: 0 <= i < |f| ==> IsDigits(f[i]))
            && |f[|f| - 2]| == 2 && |f[|f| - 1]| == 2
            && DecimalValue(f[|f| - 2]) < 60 && DecimalValue(f[|f| - 1]) < 60
            && FieldsTotal(f) == seconds
  {
    DurationFieldsValues(seconds);
    SplitJoin(DurationFields(seconds), ':');
  }

  lemma DigitsHaveNoColon(s: string)
    requires IsDigits(s)
    ensures ':' !in s
  {
  }

  /** The bitrate (kbps) and frame rate of a quality preset. */
  datatype QualityPreset = QualityPreset(bitrate: int, frameRate: int)

  function GetQualitySettings(quality: VideoQuality): (r: QualityPreset)
    ensures r.bitrate > 0 && r.frameRate > 0
  {
    match quality
    case Low => QualityPreset(2000, 15)
    case Medium => QualityPreset(5000, 30)
    case High => QualityPreset(10000, 60)
    case Custom => QualityPreset(5000, 30)
  }

  /** Higher presets ask for more bits and more frames; `custom` falls back
      to the medium preset, which is also what the default settings hold. */
  lemma QualityPresetsOrdered()
    ensures GetQualitySettings(Low).bitrate < GetQualitySettings(Medium).bitrate < GetQualitySettings(High).bitrate
    ensures GetQualitySettings(Low).frameRate < GetQualitySettings(Medium).frameRate < GetQualitySettings(High).frameRate
    ensures GetQualitySettings(Custom) == GetQualitySettings(Medium)
    ensures GetQualitySettings(DefaultSettings.videoQuality)
         == QualityPreset(DefaultSettings.videoBitrate, DefaultSettings.frameRate)
  {
  }
}
