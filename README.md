# Hotkey Audio Transcriber, modelled in Dafny

This project models the core of the Hotkey Audio Transcriber. The application
waits for cmd + shift + r, records from the microphone until the hotkey is
pressed again, has a local Whisper model transcribe the recording, cleans up
the text and saves it in a time-stamped file. Then it shuts down.

The model has one module per source file:

- `Transcription` (transcriber.dfy) covers `format_text` and the `Transcriber`
  object. `format_text` strips the text at both ends with Python's whitespace
  set, upper-cases the first character, and adds `.` unless the text already
  ends in `.`, `!` or `?`. The `Transcriber` object's model is either loaded
  or not. `Strip` is proved equal to an independent description of stripping
  (`IsStripOf`), and that description has only one answer. `FormatText` is
  proved idempotent, its result shape is stated piece by piece, and its result
  is empty exactly for blank input.
- `Recording` (audio_recorder.dfy) models `AudioRecorder` as a class holding
  the session, the stream, the `recording` flag and the `frames` buffer. Each
  method has the source's guards and failure paths. The capture thread is a
  loop that appends the delivered chunks while the flag is up.
- `FileManager` (file_manager.dfy) covers the transcript file name. The name
  is built from the date and time fields exactly as `strftime` writes them.
  A parser reads the fields back, and the proved round trip gives
  injectivity. A matcher for `*` patterns is proved to accept exactly the
  names with the `transcript_` prefix and the `.txt` suffix, so every saved
  name is counted. The transcripts directory and the temporary WAV file are a
  class, `FileStore`. Its methods are the module's functions, together with
  `WriteTempAudio`, the file write of `AudioRecorder._save_audio`
  (src/audio_recorder.py:118-132).
- `App` (main.dfy) models `HotkeyAudioTranscriber` as a class with one method
  per event handler. `ProcessedTranscripts` states what one recording does to
  the transcripts directory. Lemmas prove that it removes nothing and
  changes only the file named for the current second, that what it writes
  is a prefix of the formatted text under a counted name (all of it,
  non-blank and ending a sentence, when the write succeeds), and that it adds
  at most one counted file.

Calls into the environment are parameters, chosen freely by the caller: the
model load, what the model recognises, the device calls, file writes and
removals, and `datetime.now()`. The `Outcomes` datatype gathers those of one
key event.

Three behaviours of the code show up in the contracts:

- A WAV write whose `open` fails leaves an earlier temporary file in place.
  Processing then transcribes that older audio, because it only checks that
  the file exists (`HandleRecordingToggle`). A write that fails after `open`
  leaves a truncated file holding a prefix of the bytes.
- Every file write is given a `WriteOutcome`: `open` fails and nothing is
  touched, or `open` creates or truncates the file and the write either
  completes or stops after some items (`WrittenContent`). A failed second
  save in the same second therefore wipes the first transcript.
- Stopping a recording that captured nothing still shuts the application
  down, without processing anything.

## Model

| member | source | states |
|---|---|---|
| `FileManager.PadDigits` | src/file_manager.py:28-29 | a `strftime` field is exactly `width` decimal digits |
| `FileManager.ParsePadDigits` | src/file_manager.py:28-29 | reading a zero-padded field back gives the number written |
| `FileManager.DateString` | src/file_manager.py:28 | `%Y-%m-%d` is ten characters long |
| `FileManager.TimeString` | src/file_manager.py:29 | `%H-%M-%S` is eight characters long |
| `FileManager.TranscriptFileName` | src/file_manager.py:27-30 | the name is 34 characters, starts with `transcript_` and ends with `.txt` |
| `FileManager.TranscriptFileNameLayout` | src/file_manager.py:28-30 | each date and time field, and each `-` and `_` separator, sits at a fixed offset in the name |
| `FileManager.ParseTranscriptFileNameRoundTrip` | src/file_manager.py:27-30 | the date and time can be read back out of the name |
| `FileManager.TranscriptFileNameInjective` | src/file_manager.py:27-35 | two names are equal exactly when the two moments agree to the second, so a second save in the same second overwrites the first |
| `FileManager.TranscriptFileNameCharacters` | src/file_manager.py:28-30 | a name holds only lower-case letters, digits, `_`, `-` and `.`, and never `:` |
| `FileManager.GlobLiteralPrefix` | src/file_manager.py:62 | a pattern that starts with star-free text matches exactly the names that start with that text and whose rest matches the rest of the pattern |
| `FileManager.GlobLiteral` | src/file_manager.py:62 | a star-free pattern matches only itself |
| `FileManager.GlobStarSuffix` | src/file_manager.py:62 | `*` followed by star-free text matches exactly the names that end with that text |
| `FileManager.GlobPrefixStarSuffix` | src/file_manager.py:62 | text, `*`, text matches exactly the names that hold both texts at the two ends without overlap |
| `FileManager.MatchesTranscriptPattern` | src/file_manager.py:62 | `transcript_*.txt` matches exactly the names of at least 15 characters that start with `transcript_` and end with `.txt` |
| `FileManager.TranscriptFileNameCounted` | src/file_manager.py:27-62 | every name `save_transcript` writes is counted by `get_transcript_count` |
| `FileManager.GlobMatch` | src/file_manager.py:62 | `*` matches every name; a star-free pattern only matches names of its own length |
| `FileManager.ParseTranscriptFileName` | src/file_manager.py:27-30 | the inverse of the transcript name; every name it accepts is matched by the counting pattern |
| `FileManager.CountedNames` | src/file_manager.py:62 | a subset of the directory's names, and a name in the directory is counted if and only if it matches the pattern |
| `FileManager.CountedNamesByPrefixSuffix` | src/file_manager.py:62 | the counted names are exactly those that start with `transcript_` and end with `.txt` without overlap |
| `FileManager.CountedNamesAfterWrite` | src/file_manager.py:27-62 | writing a matching name adds exactly that name to the counted set, and raises the count by one exactly when the name was new |
| `FileManager.WrittenContent` | src/file_manager.py:34-35 | what a write leaves is a prefix of the data: all of it when the write succeeds, the first `kept` items when it stops early |
| `FileManager.FileStore.EnsureTranscriptsDir` | src/file_manager.py:11-20 | reports whether `mkdir` succeeded; the directory exists afterwards if it did |
| `FileManager.FileStore.SaveTranscript` | src/file_manager.py:23-42 | returns the name stamped with `now` exactly when the directory exists and the write succeeds; nothing changes when there is no directory or `open` fails; otherwise the file of that name, overwritten, holds what the write got through |
| `FileManager.FileStore.GetTranscriptCount` | src/file_manager.py:58-66 | the number of names matching `transcript_*.txt`; 0 when the directory is missing or the listing fails; never negative |
| `FileManager.FileStore.WriteTempAudio` | src/audio_recorder.py:118-132 | the WAV file holds the recorded bytes after a successful write, a prefix of them when the write fails after `open`, and is left as it was when `open` fails |
| `FileManager.FileStore.CleanupTempFiles` | src/file_manager.py:45-55 | removes the temporary WAV file if there is one; false only when removing an existing file fails |
| `FileManager.SaveTwiceInOneSecond` | src/file_manager.py:27-35 | two saves in the same second write one file; the second save's outcome decides its content, so a failed second save can wipe the first text |
| `Transcription.Upper` | src/transcriber.py:83 | upper-cases ASCII letters, leaves every other character alone, and keeps whitespace and terminators as they are |
| `Transcription.TrimStart` | src/transcriber.py:78 | drops exactly the leading whitespace: the result is a suffix that does not start with whitespace, and everything dropped is whitespace |
| `Transcription.TrimEnd` | src/transcriber.py:78 | drops exactly the trailing whitespace: the result is a prefix that does not end with whitespace, and everything dropped is whitespace |
| `Transcription.Strip` | src/transcriber.py:78 | the result has no whitespace at either end, and is empty exactly when the input is all whitespace |
| `Transcription.StripIsStripOf` | src/transcriber.py:78 | `Strip` returns the input's core: the input is that core with only whitespace around it |
| `Transcription.StripAt` | src/transcriber.py:78 | when `s[i..j]` starts and ends with non-whitespace and only whitespace surrounds it, `Strip` returns exactly `s[i..j]` |
| `Transcription.StripOfCore` | src/transcriber.py:78 | any core of the input given by its bounds, empty or not, is what `Strip` returns |
| `Transcription.StripOfUnique` | src/transcriber.py:78 | an input has only one core |
| `Transcription.StripCharacterisation` | src/transcriber.py:78 | `Strip(s) == r` exactly when `r` is the core of `s` |
| `Transcription.StripNoOuterSpace` | src/transcriber.py:78 | stripping text with no outer whitespace changes nothing |
| `Transcription.StripIdempotent` | src/transcriber.py:58-78 | stripping twice is stripping once |
| `Transcription.FinishShape` | src/transcriber.py:81-87 | capitalising and closing keeps the length or adds one, upper-cases only the first character, keeps the rest in order, and the result ends in a terminator; the `.` is added exactly when the text did not already end in one |
| `Transcription.FinishNoOuterSpace` | src/transcriber.py:81-87 | capitalising and closing stripped text leaves it without outer whitespace |
| `Transcription.FormatText` | src/transcriber.py:71-89 | the result is empty exactly for empty or all-whitespace input; otherwise it ends in `.`, `!` or `?`; it never has outer whitespace |
| `Transcription.FormatTextShape` | src/transcriber.py:78-87 | the result is the stripped text with its first character upper-cased and the rest kept in order, plus one `.` exactly when the stripped text did not end in a terminator |
| `Transcription.Finish` | src/transcriber.py:81-87 | empty stays empty; otherwise the result starts with the upper-cased first character and ends in a terminator |
| `Transcription.FormatTextIsFinish` | src/transcriber.py:71-89 | `format_text` is finishing the stripped text |
| `Transcription.FormatTextFixedPoint` | src/transcriber.py:81-89 | text that is stripped, starts with no lower-case letter and ends in a terminator is returned unchanged |
| `Transcription.FormatTextIdempotent` | src/transcriber.py:71-89 | formatting twice is formatting once |
| `Transcription.FormatTextOfStripped` | src/transcriber.py:58-59 | stripping the recognised text before formatting it makes no difference |
| `Transcription.Transcriber.constructor` | src/transcriber.py:11-13 | a new transcriber holds no model and is not loaded |
| `Transcription.Transcriber.LoadModel` | src/transcriber.py:15-32 | returns whether the load succeeded; only a success sets the flag and the model, and a failure changes nothing |
| `Transcription.Transcriber.TranscribeAudio` | src/transcriber.py:34-69 | loads the model if needed; returns text exactly when the model is (now) loaded, the audio file exists and the model returns text, and that text is the formatted recognised text |
| `Transcription.Transcriber.IsModelLoaded` | src/transcriber.py:95-97 | returns the loaded flag |
| `Transcription.Transcriber.GetModelInfo` | src/transcriber.py:99-107 | `loaded` is false exactly when the model is not loaded; name and language are reported only when it is |
| `Recording.Join` | src/audio_recorder.py:129 | no frames give no bytes; the bytes start with the first frame |
| `Recording.JoinAppend` | src/audio_recorder.py:114-129 | the bytes written for the frames grow by exactly each appended chunk |
| `Recording.JoinConcat` | src/audio_recorder.py:109-129 | joining two runs of frames is joining each and concatenating |
| `Recording.AudioRecorder.constructor` | src/audio_recorder.py:16-21 | no session, no stream, not recording, empty buffer |
| `Recording.AudioRecorder.ListAudioDevices` | src/audio_recorder.py:23-35 | creates a session only when there is none and creating one succeeds |
| `Recording.AudioRecorder.StartRecording` | src/audio_recorder.py:37-73 | refused with no change while recording; otherwise it succeeds exactly when every device call succeeds, and success means recording with an open stream and an empty buffer; each failing call leaves the flag down and keeps what was assigned before it |
| `Recording.AudioRecorder.StopRecording` | src/audio_recorder.py:75-103 | afterwards not recording; returns true exactly when it was recording and frames were captured, even if the WAV write fails; the WAV file then holds what the write got through of the joined frames, and is untouched when `open` fails |
| `Recording.AudioRecorder.IsRecording` | src/audio_recorder.py:105-107 | returns the recording flag |
| `Recording.AudioRecorder.RecordAudio` | src/audio_recorder.py:109-116 | appends the delivered chunks in order while recording, and nothing otherwise; the joined bytes grow by exactly the delivered bytes |
| `Recording.AudioRecorder.Cleanup` | src/audio_recorder.py:134-159 | afterwards stream and session are both gone; flag and buffer untouched |
| `Recording.RecordOnce` | src/audio_recorder.py:37-99 | start, capture, stop on an idle recorder: the stop succeeds exactly when something was captured, and the WAV file then holds exactly that |
| `App.ProcessedTranscripts` | src/main.py:183-221 | processing removes no transcript, may add only the file named for `now`, and leaves every other file as it was |
| `App.ProcessedTranscriptsContent` | src/main.py:183-221 | whatever processing writes is a prefix of the formatted recognised text under a name the counting pattern matches; when the write succeeds it is all of that text: non-blank, ending a sentence, without outer whitespace |
| `App.ProcessedTranscriptsCount` | src/main.py:183-221 | processing adds at most one counted transcript, and exactly one when the name for `now` was new |
| `App.HotkeyAudioTranscriber.constructor` | src/main.py:17-23 | no listener, not running, neither modifier held |
| `App.HotkeyAudioTranscriber.Start` | src/main.py:25-64 | succeeds exactly when the directory, the model load and the listener all succeed; `running` is raised only on success and is otherwise untouched; the device listing creates a session when there is none; a listener whose `start` raises stays assigned, not started |
| `App.HotkeyAudioTranscriber.Stop` | src/main.py:66-87 | `running` false, recording stopped (writing the WAV file, as its `WriteOutcome` allows, if it captured anything), listener stopped, stream and session released, temporary file removed if removal succeeds |
| `App.HotkeyAudioTranscriber.IsHotkeyPressed` | src/main.py:148-151 | always false |
| `App.HotkeyAudioTranscriber.ProcessRecording` | src/main.py:183-221 | saves the formatted transcript exactly as `ProcessedTranscripts` says, then removes the WAV file; the model is loaded if needed; with no WAV file nothing changes, the transcriber included |
| `App.HotkeyAudioTranscriber.HandleRecordingToggle` | src/main.py:153-181 | while recording: stop, process only if the stop reported captured frames (the audio processed is the new WAV file, or the older one when `open` failed), stop the application and exit with stream and session released, the final WAV file and the model flag stated; otherwise: start recording, with session, stream and buffer as each device outcome leaves them and nothing else changed |
| `App.HotkeyAudioTranscriber.OnKeyPress` | src/main.py:122-135 | cmd and shift each raise only their own flag; `r` with both held toggles recording, with the same outcome as `HandleRecordingToggle`, including the final transcripts, WAV file and model flag on exit and the device state after a start; any other key, or `r` without both, changes nothing |
| `App.HotkeyAudioTranscriber.OnKeyRelease` | src/main.py:137-146 | releasing cmd or shift lowers exactly that flag; any other key changes nothing |
| `App.PressHotkeyToRecord` | src/main.py:122-135 | cmd, shift, r on an idle application: recording with an empty buffer, both modifiers held, and transcripts, WAV file and model untouched |
| `App.HotkeySession` | src/main.py:122-181 | cmd, shift, r, speech, r: the application has exited with stream and session released; nothing is saved when nothing was captured; otherwise the directory is what processing gives, with audio present when the WAV write got past `open` or an older file existed; the final WAV file is stated for every outcome |

## Left out

- The Whisper model itself (`whisper.load_model`, `model.transcribe`). Whether a load succeeds and what text is recognised are parameters; a transcription that raises is `None`.
- PyAudio, the input stream's reads and the WAV format. The temporary file holds the joined sample bytes; the WAV header and the sample-size query are not modelled.
- The capture thread as a thread. Its effect is `RecordAudio`, which appends the chunks delivered before the flag goes down. The thread object, its `join`, and a read error that ends the thread early are not modelled.
- The pynput listener thread, the signal handler, the `main` loop with `time.sleep`, `sys.exit` (a terminal `exited` flag), and all console output, including `_print_welcome`. Its transcript count only feeds a message.
- App.HotkeyAudioTranscriber.OnKeyPress: requires an active listener, because key events arrive only through a started listener that has not been stopped.
- App.HotkeyAudioTranscriber.HandleRecordingToggle: one `Outcomes` value serves the whole event. The two removals of the WAV file (in processing and in `stop`) share one outcome.
- Transcription.Upper: maps only the ASCII letters. Python's `str.upper` also maps other letters and can lengthen one (`ß` becomes `SS`). The idempotence of `FormatText` is proved for this ASCII mapping.
- The exception fallback of `format_text` (src/transcriber.py:91-93): it cannot be reached with string input.
- FileManager.DateString: writes `%Y` zero-padded to four digits, the documented form. C libraries that print years below 1000 unpadded are not modelled.
- FileManager.FileStore.SaveTranscript: returns the file name, not the full path. The location of the transcripts directory depends on where the program is installed.
- FileManager.GlobMatch: handles only `*`; `?`, `[...]` and the hidden-file rule of `glob` are not needed for `transcript_*.txt`. Files and directories in the transcripts directory are not told apart.
- `cleanup_temp_files`, `ensure_transcripts_dir` and `get_transcript_count` catch every exception. The model has one failure flag per call (`unlinkOk`, `mkdirOk`, `listOk`) instead of exception kinds.
