/** The desktop backend's recording-status register and its two window
    decisions: what a close request does, and how the main window is
    brought back. Window operations are recorded as the list of calls made,
    in order; their own results are ignored, as the source ignores them. */
module Backend {
  import opened Wrappers

  datatype RecordingStatus = Idle | Recording | Paused

  /** The wire names `update_recording_status` accepts. */
  function ParseStatus(s: string): (r: Option<RecordingStatus>)
    ensures r.None? <==> s != "idle" && s != "recording" && s != "paused"
  {
    if s == "idle" then Some(Idle)
    else if s == "recording" then Some(Recording)
    else if s == "paused" then Some(Paused)
    else None
  }

  function StatusName(status: RecordingStatus): string
  {
    match status
    case Idle => "idle"
    case Recording => "recording"
    case Paused => "paused"
  }

  /** Every status has a name that parses back to it ... */
  lemma ParseStatusName(status: RecordingStatus)
    ensures ParseStatus(StatusName(status)) == Some(status)
  {
  }

  /** ... and every accepted string is the name of what it parses to. */
  lemma StatusNameParse(s: string)
    requires ParseStatus(s).Some?
    ensures StatusName(ParseStatus(s).value) == s
  {
  }

  /** `matches!(status, Recording | Paused)`. */
  predicate IsActive(status: RecordingStatus)
  {
    status == Recording || status == Paused
  }

  const InvalidStatus: string := "无效的状态"
  const CloseRequestedEvent: string := "window:close_requested"

  /** A call on the main window, or an event it emits. */
  datatype WindowCall =
    | PreventClose
    | SetSkipTaskbar(skip: bool)
    | Hide
    | Show
    | Unminimize
    | SetFocus
    | Emit(event: string)

  /** The shared application state. The two fields sit behind their own
      locks in the source; here they are plain fields. */
  class AppState {
    var recordingStatus: RecordingStatus
    var isRecording: bool

    /** The flag says whether a session is in progress. */
    ghost predicate Consistent()
      reads this
    {
      isRecording <==> IsActive(recordingStatus)
    }

    /** `AppState::default`. */
    constructor ()
      ensures recordingStatus == Idle && !isRecording
      ensures Consistent()
    {
      recordingStatus := Idle;
      isRecording := false;
    }

    /** `update_recording_status`: an unknown name is refused before either
        field is written; a known one sets the status and the flag to match.
        Being the only writer, it keeps the pair consistent. */
    method UpdateRecordingStatus(status: string) returns (r: Result<(), string>)
      modifies this
      ensures ParseStatus(status).None? ==>
        r == Err(InvalidStatus) && recordingStatus == old(recordingStatus) && isRecording == old(isRecording)
      ensures ParseStatus(status).Some? ==>
        r == Ok(()) && recordingStatus == ParseStatus(status).value && isRecording == IsActive(recordingStatus)
      ensures old(Consistent()) ==> Consistent()
      ensures r.Ok? ==> Consistent() && StatusName(recordingStatus) == status
    {
      var parsed := ParseStatus(status);
      if parsed.None? {
        return Err(InvalidStatus);
      }
      recordingStatus := parsed.value;
      isRecording := recordingStatus == Recording || recordingStatus == Paused;
      r := Ok(());
    }

    /** The main window's close handler: closing is always prevented; while
        a session is in progress the window hides to the tray, otherwise the
        front end is asked whether to quit. */
    method HandleCloseRequest() returns (calls: seq<WindowCall>)
      ensures |calls| >= 2 && calls[0] == PreventClose
      ensures Hide in calls <==> isRecording
      ensures Emit(CloseRequestedEvent) in calls <==> !isRecording
      ensures isRecording ==> calls == [PreventClose, SetSkipTaskbar(true), Hide]
      ensures !isRecording ==> calls == [PreventClose, Emit(CloseRequestedEvent)]
    {
      calls := [PreventClose];
      if isRecording {
        calls := calls + [SetSkipTaskbar(true)];
        calls := calls + [Hide];
      } else {
        calls := calls + [Emit(CloseRequestedEvent)];
      }
    }
  }

  /** What the main window reports: `is_minimized` and `is_visible`, each
      `None` when the query fails. */
  datatype MainWindow = MainWindow(minimized: Option<bool>, visible: Option<bool>)

  /** `restore_main_window`: fails only when there is no main window;
      otherwise shows it in the taskbar, unminimizes it only if it says it
      is minimized, shows it unless it says it is visible, and focuses it
      last. A failed query counts as `false`. */
  function RestoreMainWindow(main: Option<MainWindow>): (r: Result<seq<WindowCall>, ()>)
    ensures r.Err? <==> main.None?
    ensures r.Ok? ==> |r.value| >= 2 && r.value[0] == SetSkipTaskbar(false) && r.value[|r.value| - 1] == SetFocus
    ensures r.Ok? ==> (Unminimize in r.value <==> main.value.minimized == Some(true))
    ensures r.Ok? ==> (Show in r.value <==> main.value.visible != Some(true))
    ensures r.Ok? ==> Hide !in r.value && SetSkipTaskbar(true) !in r.value
    ensures r.Ok? ==> forall i, j :: 0 <= i < j < |r.value| && r.value[j] == Unminimize ==> r.value[i] != Show
    ensures r.Ok? ==> |r.value| == 2 + (if main.value.minimized == Some(true) then 1 else 0)
                                     + (if main.value.visible != Some(true) then 1 else 0)
  {
    match main
    case None => Err(())
    case Some(w) =>
      var isMinimized := w.minimized == Some(true);
      var isVisible := w.visible == Some(true);
      Ok([SetSkipTaskbar(false)]
         + (if isMinimized then [Unminimize] else [])
         + (if !isVisible then [Show] else [])
         + [SetFocus])
  }
}
