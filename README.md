# Screen recorder core in Dafny

A Dafny model of the logic at the centre of a desktop screen recorder,
built from a Svelte/TypeScript front end and a Tauri (Rust) backend. It
covers four parts:

- **The recording-session store** (`recording_store.dfy`, module
  `RecordingStore`):
  - the session record and its transitions: start, pause, resume, stop, the
    duration tick and the error slot;
  - the derived guards;
  - `formatDuration` and the quality presets.

  Each transition is a function from state to state. The clock reading
  `Date.now()` is a parameter `now`. The main theorem is about the field
  `pausedTime`, which despite its name accumulates the *active*
  milliseconds of earlier segments. Over a session of start, pause, resume
  and tick events, the store's bookkeeping equals the time actually spent
  recording, and a tick sets `duration` to its whole seconds.
- **The recorder orchestrator** (`screen_recorder.dfy`, module `Recorder`):
  - the class `ScreenRecorder`, with the fields the source mutates (the
    media recorder, the chunk buffer, the three stream slots, the
    region-capture canvas, video element and animation frame, the duration
    timer);
  - the session store it drives;
  - the pure parts: MIME negotiation against an `isTypeSupported` oracle,
    the file name and path, the audio-source decision table, and stream
    composition.

  Streams are lists of tracks. The platform's answers (display capture,
  microphone, recorder construction, the file write, the current ISO time)
  are inputs.
- **Internationalisation** (`i18n.dfy`, module `I18n`):
  - dotted-path lookup in a nested catalog, with the path as fallback;
  - `{name}` substitution and `formatMessage`;
  - the persisted language choice and the browser-language match at start-up
    (class `LanguageState`, over a map standing for local storage).
- **The backend status register** (`backend.dfy`, module `Backend`):
  - `update_recording_status` on the `AppState` class;
  - the close-request decision;
  - `restore_main_window`.

  Window operations are returned as the ordered list of calls made.

`strings.dfy` holds JavaScript's `split`, `join`, first-match search and
decimal rendering, each with the lemmas that say what it means.
`wrappers.dfy` holds `Option` and `Result`.

Behaviour of the code worth knowing:
- `startRecording` has no guard on the current status. A second call
  replaces the recorder and starts the store session again. The store
  keeps the earlier `pausedTime` and `duration`, so the earlier time is
  carried forward and the running segment is dropped.
- A failed start sets the error and rethrows, but releases nothing it has
  already acquired.
- A failed write sets the error and keeps the session, the buffered
  chunks and every held stream; nothing is cleaned up.
- The file goes to the configured directory, or to the platform's video
  directory when none is configured, as soon as the recorder stops. A
  failed write is not retried elsewhere.
- The file extension is always `.webm`, whatever type was negotiated.
- Every `stopRecording` call installs a fresh `onstop` handler
  (ScreenRecorder.ts:150) and calls `stop()` only when the recorder is not
  inactive (ScreenRecorder.ts:165-167). When no `stop` event is still due,
  stopping an inactive recorder leaves its promise unsettled. When two calls
  come before the first `stop` event, the second replaces the handler, so
  that event settles the second promise and the first never settles.
- The audio warning that `captureAudio` writes with `setError` is erased
  when the session starts, because the store's `startRecording` sets
  `error` to null.
- The recorder's settings come from the settings store when a recording
  starts and again when it is saved. They are not a snapshot taken at start.

## Model

| member | source | states |
|---|---|---|
| RecordingStore.StartRecording | src/lib/stores/recording.ts:173-182 | status becomes recording, startTime is `now`, mode and region are the given ones, error is cleared; duration, pausedTime, lastOutputPath are kept |
| RecordingStore.PauseRecording | src/lib/stores/recording.ts:187-198 | from recording: paused, and pausedTime grows by `now − startTime` (a missing startTime counts as 0); from any other status nothing changes; only status and pausedTime ever change |
| RecordingStore.ResumeRecording | src/lib/stores/recording.ts:203-214 | from paused: recording with startTime `now`; otherwise nothing changes; only status and startTime ever change |
| RecordingStore.StopRecording | src/lib/stores/recording.ts:219-224 | the result is the default state except lastOutputPath, which is the given path when non-empty and the previous one otherwise |
| RecordingStore.UpdateDuration | src/lib/stores/recording.ts:229-239 | only duration changes, and only while recording with a truthy startTime; then `duration·1000 ≤ now − startTime + pausedTime < (duration+1)·1000` (the floor) |
| RecordingStore.SetError | src/lib/stores/recording.ts:244-249 | only the error slot changes, to the given value |
| RecordingStore.GuardsAgreeWithTransitions | src/lib/stores/recording.ts:107-140 | exactly one of idle/recording/paused holds; canStop ⇔ ¬canRecord; pause changes the state iff canPause, resume iff canResume |
| RecordingStore.DurationTracksRecordedTime | src/lib/stores/recording.ts:187-239 | over any session trace from idle, the status follows the reference phase machine; while recording, pausedTime plus the running segment equals the milliseconds spent recording; while paused, pausedTime does; a tick while recording sets duration to floor(recorded ms / 1000) |
| RecordingStore.DurationFields | src/lib/stores/recording.ts:271-282 | three fields iff seconds ≥ 3600, two otherwise; every field is a digit string of at least two digits, and minutes and seconds have exactly two; an hours field is two digits long or has no leading zero |
| RecordingStore.FormatDuration | src/lib/stores/recording.ts:271-284 | splitting the text at `:` gives back exactly those fields, so the colons separate hours (when present), minutes and seconds |
| RecordingStore.DurationFieldsValues | src/lib/stores/recording.ts:271-282 | the fields are digit strings; an hours field exists iff seconds ≥ 3600; minutes and seconds have two digits and values below 60; the fields recombine to the input |
| RecordingStore.FormatDurationFields | src/lib/stores/recording.ts:271-284 | splitting the rendered `HH:MM:SS`/`MM:SS` at `:` gives back those fields, so the text denotes the input and is zero-padded |
| RecordingStore.GetQualitySettings | src/lib/stores/recording.ts:289-300 | every preset has a positive bitrate and frame rate |
| RecordingStore.QualityPresetsOrdered | src/lib/stores/recording.ts:289-300 | low < medium < high in both bitrate and frame rate; `custom` gives the medium preset, which the default settings hold |
| Strings.Split | src/lib/i18n/index.ts:99 | at least one piece, and no piece contains the separator |
| Strings.SplitJoin | src/lib/i18n/index.ts:99 | splitting the join of separator-free pieces gives the pieces back |
| Strings.JoinSplit | src/lib/i18n/index.ts:99 | joining the pieces of a split gives the string back |
| Strings.Join | src/lib/stores/recording.ts:283 | no parts give the empty string, one part gives that part, more begin with the first part and the separator |
| Strings.SplitHeadIsPrefix | src/lib/i18n/index.ts:183 | the first piece of a split is a prefix of the string ending at the first separator or at the end |
| Strings.StartsWith | src/lib/i18n/index.ts:184 | true iff the prefix is no longer than the string and agrees with it at every position |
| Strings.FirstMatch | src/lib/recorder/ScreenRecorder.ts:363-367 | the found position holds an accepted item and every earlier one is rejected; no position means no item is accepted |
| Strings.NatToString | src/lib/stores/recording.ts:278-281 | a non-empty digit string, one digit iff below 10, no leading zero except for 0 |
| Strings.DecimalValueOfNatToString | src/lib/stores/recording.ts:278-281 | reading the rendering back gives the number |
| Strings.PadStart2 | src/lib/stores/recording.ts:278-281 | padding keeps a digit string's value and gives at least two digits |
| Recorder.TracksOfKind | src/lib/recorder/ScreenRecorder.ts:332-339 | the kept tracks are all of the requested kind and no more than the stream holds |
| Recorder.TracksOfKindMembers | src/lib/recorder/ScreenRecorder.ts:332-339 | a track is kept iff it is in the stream and of the kind |
| Recorder.TracksOfKindUniform | src/lib/recorder/ScreenRecorder.ts:332-339 | a stream of one kind is kept whole for that kind and dropped for the other |
| Recorder.TracksOfKindAppend | src/lib/recorder/ScreenRecorder.ts:328-342 | filtering distributes over concatenation |
| Recorder.CombineStreams | src/lib/recorder/ScreenRecorder.ts:328-342 | every video track precedes every audio track; the video tracks of the result are the display's, its audio tracks are the audio stream's; an absent stream contributes nothing |
| Recorder.FilterSupported | src/lib/recorder/ScreenRecorder.ts:52 | keeps exactly the supported types, in their order, each as many times as it appears |
| Recorder.GetSupportedMimeTypes | src/lib/recorder/ScreenRecorder.ts:42-53 | a type is listed iff it is one of the six candidates and supported; order is kept |
| Recorder.PreferredMimeType | src/lib/recorder/ScreenRecorder.ts:347-370 | the codec's combined type if supported; else vp9, vp8, plain webm in that order of support; else plain webm; always one of five strings |
| Recorder.Vp9FallbackPrecedesVp8 | src/lib/recorder/ScreenRecorder.ts:357-367 | with vp8 requested but its combined type unsupported, vp9 wins over vp8 |
| Recorder.PreferredMimeTypeDependsOnlyOnLadder | src/lib/recorder/ScreenRecorder.ts:347-370 | two support oracles that agree on the five webm types give the same answer |
| Recorder.PreferredMimeTypeIsSupportedOrBaseline | src/lib/recorder/ScreenRecorder.ts:42-53 | the negotiated type is among the supported types, or is plain webm with none of the fallbacks supported |
| Recorder.DashPunctuation | src/lib/recorder/ScreenRecorder.ts:403 | every `:` and `.` becomes `-`, every other character is kept |
| Recorder.IndexOf | src/lib/recorder/ScreenRecorder.ts:404 | the first position holding the character, or the length when there is none |
| Recorder.ReplaceFirst | src/lib/recorder/ScreenRecorder.ts:404 | only the first occurrence is replaced |
| Recorder.DropLast5 | src/lib/recorder/ScreenRecorder.ts:405 | the prefix five characters shorter (empty when shorter than five) |
| Recorder.FileStamp | src/lib/recorder/ScreenRecorder.ts:402-405 | no `:` or `.` remains, the length drops by five, and characters other than `T`, `:` and `.` are kept in place |
| Recorder.FileStampOfIsoTimestamp | src/lib/recorder/ScreenRecorder.ts:402-406 | for `YYYY-MM-DDTHH:MM:SS.mmmZ` the stamp is `YYYY-MM-DD_HH-MM-SS` |
| Recorder.FileName | src/lib/recorder/ScreenRecorder.ts:402-406 | `ScreenRecording_`, then the stamp, then `.webm`; the stamp is recoverable from between the two |
| Recorder.SavePath | src/lib/recorder/ScreenRecorder.ts:406-413 | exactly the directory (the configured one, or the video directory when none is configured), a `/`, and the `.webm` file name: it starts with the first two, ends with the third and is as long as the three together |
| Recorder.MixAudioStreams | src/lib/recorder/ScreenRecorder.ts:306-323 | the mixed stream has exactly one audio track, the graph's output, and no video track |
| Recorder.CaptureAudio | src/lib/recorder/ScreenRecorder.ts:209-255 | the full decision table: none gives nothing; a microphone failure gives nothing and the prefixed message; microphone gives the mic stream; both gives a stream holding only the mixed track when the display has audio, else the mic stream; system gives the display's audio tracks, the warning when it has none, nothing without a display; an error always comes with no stream |
| Recorder.ComposedStream | src/lib/recorder/ScreenRecorder.ts:73-79 | in region mode with a region, the canvas tracks alone without audio, or the canvas video and the audio stream's audio tracks with it (the composition at ScreenRecorder.ts:289-300); otherwise the display's video and the audio stream's audio tracks; whenever an audio stream is combined, every video track precedes every audio track |
| Recorder.Artifact | src/lib/recorder/ScreenRecorder.ts:397-399 | the assembled bytes number the chunks' total size and begin with the first chunk's bytes |
| Recorder.NonEmptyChunks | src/lib/recorder/ScreenRecorder.ts:378-382 | only non-empty chunks are kept |
| Recorder.NonEmptyChunksAppend | src/lib/recorder/ScreenRecorder.ts:378-382 | buffering chunk by chunk equals buffering the whole arrival sequence, in order |
| Recorder.ArtifactIgnoresEmptyChunks | src/lib/recorder/ScreenRecorder.ts:397-399 | dropping empty chunks loses no byte of the assembled recording |
| Recorder.ScreenRecorder.constructor | src/lib/recorder/ScreenRecorder.ts:23-37 | every slot empty, no timer, session at the store default |
| Recorder.ScreenRecorder.StartRecording | src/lib/recorder/ScreenRecorder.ts:58-113 | a display failure only sets the prefixed error; otherwise the display, audio and composed streams are installed (canvas video in region mode); a recorder failure sets the prefixed error and keeps the old recorder; success builds a recording recorder with the negotiated type and bitrates ×1000, starts the store session and the timer; the timer/recorder/session invariant is kept |
| Recorder.ScreenRecorder.PauseRecording | src/lib/recorder/ScreenRecorder.ts:118-125 | acts only on a recording recorder: it pauses it, pauses the store and stops the timer; otherwise nothing changes |
| Recorder.ScreenRecorder.ResumeRecording | src/lib/recorder/ScreenRecorder.ts:130-137 | acts only on a paused recorder: it resumes it, resumes the store and restarts the timer; otherwise nothing changes |
| Recorder.ScreenRecorder.StopRecording | src/lib/recorder/ScreenRecorder.ts:142-172 | no recorder: resolves null and changes nothing; otherwise stop is called iff the recorder is not inactive, and the timer is always cleared |
| Recorder.ScreenRecorder.HandleStop | src/lib/recorder/ScreenRecorder.ts:150-162 | writes the concatenated chunks to the derived path; on success the store stops with that path and everything is released; on failure only the prefixed error is set |
| Recorder.ScreenRecorder.OnDataAvailable | src/lib/recorder/ScreenRecorder.ts:378-382 | a non-empty chunk is appended; an empty one leaves the buffer unchanged |
| Recorder.ScreenRecorder.OnRecorderError | src/lib/recorder/ScreenRecorder.ts:384-387 | the store's error becomes the prefixed message, or the generic one when the message is missing or empty |
| Recorder.ScreenRecorder.OnTimerTick | src/lib/recorder/ScreenRecorder.ts:429-433 | one tick is the store's duration update |
| Recorder.ScreenRecorder.Cleanup | src/lib/recorder/ScreenRecorder.ts:448-489 | afterwards every stream, canvas, video element, frame, recorder, chunk and timer is gone; the held tracks were stopped in order; a second call changes nothing |
| I18n.Resolve | src/lib/i18n/index.ts:102-109 | the empty path gives the tree; a non-empty path is found only when the root is an object holding its first key; a string cannot be stepped into |
| I18n.ResolveAppend | src/lib/i18n/index.ts:102-109 | walking a concatenated path is walking the first part, then the second from where it ends |
| I18n.Lookup | src/lib/i18n/index.ts:98-112 | the string at the dotted path when the walk ends on a string; the key path itself when a step is missing or the walk ends on an object |
| I18n.GetNestedTranslation | src/lib/i18n/index.ts:98-112 | the step-by-step walk, with its early return, gives the lookup's value |
| I18n.ResolvePut | src/lib/i18n/index.ts:102-109 | a string stored at a path is found by walking that path |
| I18n.LookupPut | src/lib/i18n/index.ts:98-112 | storing a string under a dotted path of dot-free keys, then looking the path up, gives the string back |
| I18n.LookupWithoutCatalog | src/lib/i18n/index.ts:98-107 | a root that is not an object gives back every key path |
| I18n.ReplaceAllBracelessPrefix | src/lib/i18n/index.ts:126 | a prefix without `{` is copied unchanged by placeholder replacement |
| I18n.ReplaceAllFreePrefix | src/lib/i18n/index.ts:126 | a prefix in which the placeholder does not occur is copied unchanged when what follows is empty or starts with `{` |
| I18n.ReplaceAllJoin | src/lib/i18n/index.ts:124-128 | replacing a placeholder everywhere in a template keeps the pieces between and puts the value at every placeholder; the pieces may hold anything, other placeholders included, in which this placeholder does not occur (names without `{`) |
| I18n.ReplaceAll | src/lib/i18n/index.ts:126 | text shorter than the pattern is unchanged, and replacing the pattern by itself changes nothing |
| I18n.ReplaceAllBraceless | src/lib/i18n/index.ts:126 | text without `{` is left unchanged |
| I18n.ApplyParams | src/lib/i18n/index.ts:151-155 | no parameters leave the text as it is, and text without `{` is unchanged by any parameter list |
| I18n.ApplyParamsFillsTemplate | src/lib/i18n/index.ts:151-155 | one parameter fills every occurrence of its placeholder, under the same conditions |
| I18n.ReplaceOwnPlaceholder | src/lib/i18n/index.ts:126 | a placeholder at the front is replaced and the scan resumes after it |
| I18n.ReplaceOtherPlaceholder | src/lib/i18n/index.ts:126 | another name's placeholder (names without braces) is skipped over unchanged |
| I18n.ReplaceRender | src/lib/i18n/index.ts:151-155 | one parameter's global replace on a template of literal text and `{name}` references binds exactly that name: its references get the value and every other reference and all text stay |
| I18n.ApplyParamsRender | src/lib/i18n/index.ts:151-155 | any number of parameters with distinct brace-free names and values without `{`, applied in order: every reference to a parameter gets its value, whatever the order of references and parameters; references to other names stay as placeholders |
| I18n.ApplyParamsTwoNames | src/lib/i18n/index.ts:151-155 | a template `p0{a}p1{b}p2` with two different names gives `p0 x p1 y p2`, with the parameters supplied in either order |
| I18n.Translate | src/lib/i18n/index.ts:146-158 | the lookup with the parameters applied in order; without parameters, exactly the lookup |
| I18n.FormatMessage | src/lib/i18n/index.ts:166-169 | starts with the translated message; with non-empty details it continues `": "` then the details, otherwise it is the message alone |
| I18n.LoadSavedLanguageAsWritten | src/lib/i18n/index.ts:19-32 | the result is the default or the non-empty stored value |
| I18n.PrototypeNameLoadedAsLanguage | src/lib/i18n/index.ts:24 | a stored `toString` is taken as the language though it is not a supported one |
| I18n.LoadSavedLanguage | src/lib/i18n/index.ts:19-32 | always a supported language: the stored one when supported, `zh-CN` otherwise |
| I18n.LoadSavedLanguageAgreesOffPrototype | src/lib/i18n/index.ts:19-32 | the corrected and the as-written loaders agree on every value that is not an inherited property name |
| I18n.PrimarySubtag | src/lib/i18n/index.ts:183 | a prefix of the tag without `-`, ending at the first `-` or at the end of the tag |
| I18n.BrowserMatch | src/lib/i18n/index.ts:172-189 | an exact supported tag wins; otherwise a match exists iff some supported tag starts with the primary subtag, and it is the first such tag in declaration order; the result is always supported |
| I18n.BrowserMatchRegionVariant | src/lib/i18n/index.ts:182-187 | `en-GB` selects `en-US`, `zh-TW` selects `zh-CN` |
| I18n.BrowserMatchUnsupported | src/lib/i18n/index.ts:182-187 | `fr-FR` selects nothing, so the language is left as loaded |
| I18n.LanguageState.constructor | src/lib/i18n/index.ts:171-189 | the saved language; when nothing (or an empty string) is saved in a browser and the browser's tag matches, that match, which is also saved |
| I18n.LanguageState.SetLanguage | src/lib/i18n/index.ts:64-69 | a supported tag becomes current and, in a browser, is stored so that loading gives it back; any tag other than the two supported codes changes nothing (see Left out for inherited property names) |
| Backend.ParseStatus | src-tauri/src/lib.rs:74-79 | exactly the three names `idle`, `recording` and `paused` are accepted |
| Backend.ParseStatusName | src-tauri/src/lib.rs:74-79 | every status's name parses back to it |
| Backend.StatusNameParse | src-tauri/src/lib.rs:74-79 | every accepted string is the name of what it parses to |
| Backend.AppState.constructor | src-tauri/src/lib.rs:26-33 | idle and not recording, which is consistent |
| Backend.AppState.UpdateRecordingStatus | src-tauri/src/lib.rs:73-91 | an unknown name gives the error `无效的状态` and changes nothing; a known one sets the status and `is_recording` iff recording or paused; consistency is kept |
| Backend.AppState.HandleCloseRequest | src-tauri/src/lib.rs:302-321 | closing is always prevented first; it hides to the tray (taskbar skipped) iff recording, and otherwise emits `window:close_requested` |
| Backend.RestoreMainWindow | src-tauri/src/lib.rs:169-191 | fails iff there is no main window; it puts the window back in the taskbar first and focuses it last; it unminimizes iff the window reports being minimized and shows it iff it does not report being visible, unminimizing before showing; the list holds those calls and no other |

## Left out

- Media plumbing is abstracted: `getDisplayMedia`, `getUserMedia`, the `AudioContext` graph, and the canvas drawing loop with `requestAnimationFrame`. Streams are track lists, the mixed and canvas tracks are inputs, and support is an oracle.
- Blob assembly is modelled as the concatenation of the chunk bytes. `arrayBuffer`, `writeFile` and `videoDir()` are outcomes passed in. A failure of `videoDir()` counts as a write failure.
- Asynchrony is not modelled. `onstop` is a separate method that may run once a stop is pending. The display track's `ended` listener (ScreenRecorder.ts:198-201) is the same `StopRecording` call. The pending promise and its settling are not modelled.
- Recorder.ScreenRecorder.OnTimerTick: it requires the timer to be registered, but the source keeps only one interval handle. A second `startDurationTimer` without a stop leaks the first interval, which would keep ticking. That leaked interval is not modelled.
- Recorder.ScreenRecorder.StartRecording: `mediaRecorder.start(1000)` is taken not to throw; only the recorder's construction can fail. `captureDisplay`'s constraints, which request audio outside region mode, are not modelled. Their outcome is the `display` input.
- `saveLanguage` is modelled as always succeeding. Its storage errors are caught and logged only. A failing storage read in `loadSavedLanguage` is modelled as nothing saved, which has the same outcome.
- I18n.Translate: parameter names are literal text. A name containing regular-expression metacharacters, or a value containing `$` replacement patterns, behaves differently in the source. `String(value)` is taken as already done.
- I18n: the reactive `t` store (index.ts:118-133) runs the same body as `translate` against the current language's catalog; `I18n.Translate` models both. `getCurrentLanguage` and `getSupportedLanguages` are the field `LanguageState.current` and the constant `SupportedLanguages`. The catalogs in `translations.ts` are not modelled; lookups range over any catalog tree.
- I18n.GetNestedTranslation: a key naming an inherited object property steps into a function, after which lookup fails as for a missing key. The model treats such keys as missing, which gives the same result.
- RecordingStore.DurationTracksRecordedTime: proved for traces with a single `Start` at the head. The store has no guard, so a second `Start` while recording would drop the running segment from `pausedTime`. Timestamps are taken as positive, matching the truthiness test on `startTime`.
- RecordingStore: the Tauri store persistence (`initializeStore`), `resetState` and `updateSettings` are persistence or plain writes and are not part of this model.
- Backend: mutex locking and lock poisoning are treated as plain field writes. Window calls whose results the source ignores are recorded but cannot fail. Tray and menu setup, global shortcuts, the event-emitting commands, `exit_app` and the ffmpeg conversion are not part of this model.
- I18n.LanguageState.constructor: uses the corrected loader `LoadSavedLanguage`. With an `Object.prototype` name such as `toString` stored, the source keeps that name as the current language (see Findings), where the model gives `zh-CN`.
- I18n.LanguageState.SetLanguage: the guard is modelled as membership in the two supported codes. The source's `language in supportedLanguages` (index.ts:65) also accepts an inherited property name such as `toString`, which then becomes the current language and is saved; only a caller that bypasses the `SupportedLanguage` parameter type can pass one.
- I18n.ApplyParamsRender: covers parameter names without braces and values without `{`. A value containing a later parameter's placeholder is substituted again in the source; that case is not described.
- RecordingStore.FormatDuration: takes a natural number. The source takes any number, and a negative one renders with minus signs (-65 gives `-2:-5`). A clock that goes backwards makes the `Math.floor` at recording.ts:234 negative, so `State.duration`, an integer, can hold a value the model does not format.
- Recorder.ScreenRecorder.OnRecorderError: only the store's error is set and the recorder keeps its state. A browser `MediaRecorder` stops itself after an error, becoming inactive and firing `stop`; that is not modelled, so the recorder never becomes inactive on its own.
- `src/lib/utils/VideoProcessor.ts` is not part of this model.

## Findings

| source | as written | input that shows it | evidently intended | confidence | as-written member | corrected member |
|---|---|---|---|---|---|---|
| src/lib/i18n/index.ts:24, src/lib/i18n/index.ts:65 | `saved in supportedLanguages` (and the same test in `setLanguage`) also accepts names inherited from `Object.prototype` | local storage holds `toString` under `screen-recorder-language`: it becomes the current language, selects no catalog, and every lookup returns its key path | accept only the supported language codes (own keys) | not executed; the accepted value follows from JavaScript's `in` semantics | I18n.LoadSavedLanguageAsWritten, I18n.PrototypeNameLoadedAsLanguage | I18n.LoadSavedLanguage |
