/** src/main.py: `HotkeyAudioTranscriber`, the event-driven application. Key
    presses and releases move two modifier flags; cmd + shift + r toggles
    between starting a recording and stopping it, transcribing it, saving the
    transcript and shutting the application down. */
module App {
  import opened Options
  import opened FileManager
  import opened Transcription
  import opened Recording

  /** A key as the listener reports it: the two modifiers the application
      tracks, any other special key, or a key that carries a character. */
  datatype Key = Cmd | Shift | OtherSpecial | Char(c: char)

  /** The last key of `HOTKEY_COMBINATION` (cmd + shift + r). */
  const HotkeyChar: char := 'r'

  /** The pynput listener; `active` until `stop` is called on it. */
  datatype Listener = Listener(active: bool)

  /** How `_start_hotkey_listener` goes: the listener is built and started,
      building it raises (nothing is assigned), or it is built and assigned
      but its `start` raises. */
  datatype ListenerOutcome = ListenerStarts | BuildFails | StartFails

  /** What the calls into the environment return during one event: the device
      calls of `start_recording`, the WAV write of `_save_audio`, a model load
      that `transcribe_audio` may need, the text `model.transcribe` recognises
      (`None` when it raises), `datetime.now()`, the transcript write, and the
      removal of the temporary WAV file. */
  datatype Outcomes = Outcomes(
    start: StartOutcome,
    wavWrite: WriteOutcome,
    loadOk: bool,
    recognised: Option<string>,
    now: DateTime,
    transcriptWrite: WriteOutcome,
    unlinkOk: bool)

  /** The key press that toggles recording: `r` while cmd and shift are held. */
  predicate IsHotkey(key: Key, cmd: bool, shift: bool) {
    key == Char(HotkeyChar) && cmd && shift
  }

  /** The transcripts directory after `_process_recording`: the formatted
      transcript is written under the name stamped with `o.now` when there is
      an audio file, the model is (or becomes) loaded, it recognises text that
      is not blank, and `open` succeeds on the transcript file; a write that
      fails after `open` leaves a prefix of the text. Otherwise nothing
      changes. No file is removed, and only the one named for `o.now` can
      change. */
  function ProcessedTranscripts(transcripts: map<string, string>, audioPresent: bool, modelReady: bool,
                                dirExists: bool, o: Outcomes): (after: map<string, string>)
    requires ValidDateTime(o.now)
    ensures transcripts.Keys <= after.Keys <= transcripts.Keys + {TranscriptFileName(o.now)}
    ensures forall n :: n in transcripts && n != TranscriptFileName(o.now) ==> after[n] == transcripts[n]
  {
    if audioPresent && modelReady && o.recognised.Some? && FormatText(o.recognised.value) != [] &&
       dirExists && !o.transcriptWrite.OpenFails?
    then transcripts[TranscriptFileName(o.now) := WrittenContent(FormatText(o.recognised.value), o.transcriptWrite)]
    else transcripts
  }

  /** Whatever processing writes goes under a name the counting pattern
      picks up and is a prefix of the formatted recognised text; when the
      write succeeds it is all of that text, which is not blank, ends a
      sentence and has no outer whitespace. */
  lemma {:induction false} ProcessedTranscriptsContent(transcripts: map<string, string>, audioPresent: bool,
                                                       modelReady: bool, dirExists: bool, o: Outcomes)
    requires ValidDateTime(o.now)
    ensures var after := ProcessedTranscripts(transcripts, audioPresent, modelReady, dirExists, o);
      after != transcripts ==>
        var name := TranscriptFileName(o.now);
        GlobMatch(TranscriptPattern, name) && name in after && o.recognised.Some? &&
        var text, written := FormatText(o.recognised.value), after[name];
        |written| <= |text| && written == text[..|written|] &&
        (o.transcriptWrite.Written? ==>
           written == text && written != [] && IsTerminator(written[|written| - 1]) && NoOuterSpace(written))
  {
    TranscriptFileNameCounted(o.now);
  }

  /** Processing a recording adds at most one counted transcript, and exactly
      one when its name is new. */
  lemma {:induction false} ProcessedTranscriptsCount(transcripts: map<string, string>, audioPresent: bool,
                                                     modelReady: bool, dirExists: bool, o: Outcomes)
    requires ValidDateTime(o.now)
    ensures var after := ProcessedTranscripts(transcripts, audioPresent, modelReady, dirExists, o);
      |CountedNames(after)| <= |CountedNames(transcripts)| + 1 &&
      (TranscriptFileName(o.now) in after && TranscriptFileName(o.now) !in transcripts ==>
         |CountedNames(after)| == |CountedNames(transcripts)| + 1)
  {
    var name := TranscriptFileName(o.now);
    var after := ProcessedTranscripts(transcripts, audioPresent, modelReady, dirExists, o);
    if audioPresent && modelReady && o.recognised.Some? && FormatText(o.recognised.value) != [] &&
       dirExists && !o.transcriptWrite.OpenFails? {
      var written := WrittenContent(FormatText(o.recognised.value), o.transcriptWrite);
      assert after == transcripts[name := written];
      TranscriptFileNameCounted(o.now);
      CountedNamesAfterWrite(transcripts, name, written);
    } else {
      assert after == transcripts;
    }
  }

  class HotkeyAudioTranscriber {
    const recorder: AudioRecorder
    const transcriber: Transcriber
    /** The disk, shared with the module-level functions of file_manager.py. */
    const files: FileStore
    var listener: Option<Listener>
    var running: bool
    var cmdPressed: bool
    var shiftPressed: bool
    /** `sys.exit(0)` has been called: the process is over. */
    var exited: bool

    ghost predicate Valid()
      reads this, recorder, transcriber, files
    {
      recorder.Valid() && transcriber.Valid() && files.Valid()
    }

    /** Key events arrive only through a started, not yet stopped, listener. */
    predicate ListenerActive()
      reads this
    {
      listener == Some(Listener(true))
    }

    constructor (files: FileStore)
      requires files.Valid()
      ensures Valid() && this.files == files && fresh(recorder) && fresh(transcriber)
      ensures listener == None && !running && !cmdPressed && !shiftPressed && !exited
      ensures !recorder.recording && recorder.frames == [] && !transcriber.modelLoaded
    {
      recorder := new AudioRecorder();
      transcriber := new Transcriber();
      this.files := files;
      listener, running, cmdPressed, shiftPressed, exited := None, false, false, false, false;
    }

    /** `start`: fails (false, `running` untouched) when the transcripts
        directory cannot be set up, the model does not load, or the listener
        does not start; `running` is raised only on success. `sessionOk` is
        whether listing the audio devices manages to create a session. A
        listener whose `start` raises stays assigned, not started. */
    method Start(dirOk: bool, loadOk: bool, sessionOk: bool, listenerStart: ListenerOutcome) returns (ok: bool)
      requires Valid()
      modifies this`listener, this`running, transcriber, recorder`audio, files`transcriptsDirExists
      ensures Valid()
      ensures ok == (dirOk && loadOk && listenerStart == ListenerStarts)
      ensures running == (old(running) || ok)
      ensures listener ==
                if !(dirOk && loadOk) || listenerStart == BuildFails then old(listener)
                else Some(Listener(listenerStart == ListenerStarts))
      ensures recorder.audio ==
                if dirOk && loadOk && old(recorder.audio).None? && sessionOk then Some(AudioSession)
                else old(recorder.audio)
      ensures files.transcriptsDirExists == (old(files.transcriptsDirExists) || dirOk)
      ensures transcriber.modelLoaded == (old(transcriber.modelLoaded) || (dirOk && loadOk))
    {
      var dirReady := files.EnsureTranscriptsDir(dirOk);
      if !dirReady {
        return false;
      }
      var loaded := transcriber.LoadModel(loadOk);
      if !loaded {
        return false;
      }
      recorder.ListAudioDevices(sessionOk);
      if listenerStart == BuildFails {
        return false;
      }
      listener := Some(Listener(false));
      if listenerStart == StartFails {
        return false;
      }
      listener := Some(Listener(true));
      running := true;
      ok := true;
    }

    /** `stop`: lowers `running`, stops a recording in progress (which may
        write the WAV file), stops the listener, releases the audio resources
        and removes the temporary WAV file. */
    method Stop(wavWrite: WriteOutcome, unlinkOk: bool)
      requires Valid()
      modifies this`running, this`listener, recorder, files`tempAudio
      ensures Valid()
      ensures !running && !ListenerActive() && listener.Some? == old(listener).Some?
      ensures !recorder.recording && recorder.frames == old(recorder.frames)
      ensures recorder.stream == None && recorder.audio == None
      ensures files.tempAudio ==
                if unlinkOk then None
                else if old(recorder.recording) && old(recorder.frames) != [] && !wavWrite.OpenFails?
                then Some(WrittenContent(Join(old(recorder.frames)), wavWrite))
                else old(files.tempAudio)
    {
      running := false;
      var wasRecording := recorder.IsRecording();
      if wasRecording {
        var stopped := recorder.StopRecording(files, wavWrite);
      }
      if listener.Some? {
        listener := Some(Listener(false));
      }
      recorder.Cleanup();
      var removed := files.CleanupTempFiles(unlinkOk);
    }

    /** `_is_hotkey_pressed`: no longer used, always false. */
    method IsHotkeyPressed() returns (pressed: bool)
      ensures !pressed
    {
      pressed := false;
    }

    /** `_process_recording`: transcribes the temporary WAV file if there is
        one, saves a non-blank transcript, then removes the WAV file. */
    method ProcessRecording(o: Outcomes)
      requires Valid() && ValidDateTime(o.now)
      modifies transcriber, files`transcripts, files`tempAudio
      ensures Valid()
      ensures files.transcripts ==
                ProcessedTranscripts(old(files.transcripts), old(files.tempAudio).Some?,
                                     old(transcriber.modelLoaded) || o.loadOk, files.transcriptsDirExists, o)
      ensures files.tempAudio == if o.unlinkOk then None else old(files.tempAudio)
      ensures transcriber.modelLoaded == (old(transcriber.modelLoaded) || (old(files.tempAudio).Some? && o.loadOk))
      ensures old(files.tempAudio).None? ==> unchanged(transcriber)
    {
      if files.tempAudio.None? {
        return;
      }
      var transcript := transcriber.TranscribeAudio(files.tempAudio.Some?, o.loadOk, o.recognised);
      if transcript.Some? && transcript.value != [] {
        var saved := files.SaveTranscript(transcript.value, o.now, o.transcriptWrite);
      }
      var removed := files.CleanupTempFiles(o.unlinkOk);
    }

    /** `_handle_recording_toggle`: while recording, stop; process the
        recording only if the stop reports captured audio; then stop the
        application and exit. Otherwise start recording. */
    method HandleRecordingToggle(o: Outcomes)
      requires Valid() && ValidDateTime(o.now)
      modifies this`running, this`listener, this`exited, recorder, transcriber, files`transcripts, files`tempAudio
      ensures Valid()
      ensures old(recorder.recording) ==>
                exited && !running && !ListenerActive() && !recorder.recording &&
                recorder.stream == None && recorder.audio == None &&
                files.transcripts ==
                  ProcessedTranscripts(old(files.transcripts),
                                       old(recorder.frames) != [] &&
                                         (!o.wavWrite.OpenFails? || old(files.tempAudio).Some?),
                                       old(transcriber.modelLoaded) || o.loadOk, files.transcriptsDirExists, o) &&
                files.tempAudio ==
                  (if o.unlinkOk then None
                  else if old(recorder.frames) != [] && !o.wavWrite.OpenFails?
                  then Some(WrittenContent(Join(old(recorder.frames)), o.wavWrite))
                  else old(files.tempAudio)) &&
                transcriber.modelLoaded ==
                  (old(transcriber.modelLoaded) ||
                   (old(recorder.frames) != [] &&
                    (!o.wavWrite.OpenFails? || old(files.tempAudio).Some?) && o.loadOk))
      ensures !old(recorder.recording) ==>
                recorder.recording == (o.start == Started) &&
                running == old(running) && exited == old(exited) && listener == old(listener) &&
                files.transcripts == old(files.transcripts) && files.tempAudio == old(files.tempAudio) &&
                recorder.audio == (if o.start == SessionFails then old(recorder.audio) else Some(AudioSession)) &&
                recorder.stream ==
                  (if o.start == SessionFails || o.start == StreamOpenFails then old(recorder.stream)
                   else Some(MicrophoneStream)) &&
                recorder.frames ==
                  (if o.start == SessionFails || o.start == StreamOpenFails then old(recorder.frames) else []) &&
                unchanged(transcriber)
    {
      var wasRecording := recorder.IsRecording();
      if wasRecording {
        var stopped := recorder.StopRecording(files, o.wavWrite);
        if stopped {
          ProcessRecording(o);
        }
        Stop(o.wavWrite, o.unlinkOk);
        exited := true;
      } else {
        var started := recorder.StartRecording(o.start);
      }
    }

    /** `_on_key_press`: cmd and shift raise their own flag and change nothing
        else; `r` with both held toggles recording; any other key, or `r`
        without both modifiers, changes nothing. */
    method OnKeyPress(key: Key, o: Outcomes)
      requires Valid() && ListenerActive() && ValidDateTime(o.now)
      modifies this`cmdPressed, this`shiftPressed, this`running, this`listener, this`exited,
               recorder, transcriber, files`transcripts, files`tempAudio
      ensures Valid()
      ensures cmdPressed == (old(cmdPressed) || key == Cmd)
      ensures shiftPressed == (old(shiftPressed) || key == Shift)
      ensures !IsHotkey(key, old(cmdPressed), old(shiftPressed)) ==>
                running == old(running) && exited == old(exited) && listener == old(listener) &&
                unchanged(recorder) && unchanged(transcriber) && unchanged(files)
      ensures IsHotkey(key, old(cmdPressed), old(shiftPressed)) && old(recorder.recording) ==>
                exited && !running && !ListenerActive() && !recorder.recording &&
                recorder.stream == None && recorder.audio == None &&
                files.transcripts ==
                  ProcessedTranscripts(old(files.transcripts),
                                       old(recorder.frames) != [] &&
                                         (!o.wavWrite.OpenFails? || old(files.tempAudio).Some?),
                                       old(transcriber.modelLoaded) || o.loadOk, files.transcriptsDirExists, o) &&
                files.tempAudio ==
                  (if o.unlinkOk then None
                  else if old(recorder.frames) != [] && !o.wavWrite.OpenFails?
                  then Some(WrittenContent(Join(old(recorder.frames)), o.wavWrite))
                  else old(files.tempAudio)) &&
                transcriber.modelLoaded ==
                  (old(transcriber.modelLoaded) ||
                   (old(recorder.frames) != [] &&
                    (!o.wavWrite.OpenFails? || old(files.tempAudio).Some?) && o.loadOk))
      ensures IsHotkey(key, old(cmdPressed), old(shiftPressed)) && !old(recorder.recording) ==>
                recorder.recording == (o.start == Started) && running == old(running) &&
                exited == old(exited) && listener == old(listener) &&
                files.transcripts == old(files.transcripts) && files.tempAudio == old(files.tempAudio) &&
                recorder.audio == (if o.start == SessionFails then old(recorder.audio) else Some(AudioSession)) &&
                recorder.stream ==
                  (if o.start == SessionFails || o.start == StreamOpenFails then old(recorder.stream)
                   else Some(MicrophoneStream)) &&
                recorder.frames ==
                  (if o.start == SessionFails || o.start == StreamOpenFails then old(recorder.frames) else []) &&
                unchanged(transcriber)
    {
      if key == Cmd {
        cmdPressed := true;
      } else if key == Shift {
        shiftPressed := true;
      } else if key.Char? && key.c == HotkeyChar {
        if cmdPressed && shiftPressed {
          HandleRecordingToggle(o);
        }
      }
    }

    /** `_on_key_release`: releasing cmd or shift lowers exactly that flag;
        any other key changes nothing. */
    method OnKeyRelease(key: Key)
      modifies this`cmdPressed, this`shiftPressed
      ensures cmdPressed == (old(cmdPressed) && key != Cmd)
      ensures shiftPressed == (old(shiftPressed) && key != Shift)
    {
      if key == Cmd {
        cmdPressed := false;
      } else if key == Shift {
        shiftPressed := false;
      }
    }
  }

  /** Holding cmd and shift and pressing r on an idle application starts a
      recording with no frames yet, with both modifiers still held, and leaves the transcripts, the temporary
      WAV file and the model as they were. */
  method PressHotkeyToRecord(app: HotkeyAudioTranscriber, o: Outcomes)
    requires app.Valid() && app.ListenerActive() && ValidDateTime(o.now)
    requires !app.recorder.recording && o.start == Started
    modifies app, app.recorder, app.transcriber, app.files
    ensures app.Valid() && app.ListenerActive() && app.cmdPressed && app.shiftPressed
    ensures app.recorder.recording && app.recorder.frames == []
    ensures app.files.transcripts == old(app.files.transcripts)
    ensures app.files.tempAudio == old(app.files.tempAudio)
    ensures app.files.transcriptsDirExists == old(app.files.transcriptsDirExists)
    ensures app.transcriber.modelLoaded == old(app.transcriber.modelLoaded)
  {
    app.OnKeyPress(Cmd, o);
    app.OnKeyPress(Shift, o);
    app.OnKeyPress(Char(HotkeyChar), o);
  }

  /** One use of the application after a successful start: hold cmd and
      shift, press r, speak (the stream delivers `speech`), press r again.
      The application has exited and released the audio devices. If nothing
      was captured, no transcript is written; otherwise the transcripts
      directory is what processing gives, with the audio present when the
      WAV file was opened for this recording or an earlier one is still
      there. The WAV file is gone when it could be removed, and otherwise
      holds what this recording wrote to it. */
  method HotkeySession(app: HotkeyAudioTranscriber, speech: seq<Chunk>, o: Outcomes)
    requires app.Valid() && app.ListenerActive() && ValidDateTime(o.now)
    requires !app.recorder.recording && o.start == Started
    modifies app, app.recorder, app.transcriber, app.files
    ensures app.exited && !app.running && !app.recorder.recording
    ensures app.recorder.stream == None && app.recorder.audio == None
    ensures speech == [] ==> app.files.transcripts == old(app.files.transcripts)
    ensures speech != [] ==>
              app.files.transcripts ==
                ProcessedTranscripts(old(app.files.transcripts),
                                     !o.wavWrite.OpenFails? || old(app.files.tempAudio).Some?,
                                     old(app.transcriber.modelLoaded) || o.loadOk,
                                     old(app.files.transcriptsDirExists), o)
    ensures app.files.tempAudio ==
              if o.unlinkOk then None
              else if speech != [] && !o.wavWrite.OpenFails? then Some(WrittenContent(Join(speech), o.wavWrite))
              else old(app.files.tempAudio)
  {
    PressHotkeyToRecord(app, o);
    app.recorder.RecordAudio(speech);
    assert app.recorder.frames == speech;
    app.OnKeyPress(Char(HotkeyChar), o);
  }
}
