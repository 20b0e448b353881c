/** src/audio_recorder.py: the `AudioRecorder` object and its guarded
    lifecycle. The recorder holds a PyAudio session, an input stream, the
    `recording` flag and the captured `frames`. The capture thread is modelled
    by the chunks it appends while the flag is up. */
module Recording {
  import opened Options
  import opened FileManager

  /** One buffer of samples returned by `stream.read`. */
  type Chunk = seq<bv8>

  /** The `AUDIO_SAMPLE_RATE`, `AUDIO_CHANNELS` and `AUDIO_CHUNK_SIZE` settings. */
  const AudioSampleRate: nat := 44100
  const AudioChannels: nat := 1
  const AudioChunkSize: nat := 1024

  datatype SampleFormat = PaInt16

  /** A `pyaudio.PyAudio()` session. */
  datatype AudioSession = AudioSession

  /** An open stream and the parameters `audio.open` was given. */
  datatype Stream = Stream(format: SampleFormat, channels: nat, rate: nat, input: bool, framesPerBuffer: nat)

  /** The input stream `start_recording` opens on the default microphone. */
  const MicrophoneStream: Stream := Stream(PaInt16, AudioChannels, AudioSampleRate, true, AudioChunkSize)

  /** How the calls into the device inside `start_recording` fare: all succeed,
      or `pyaudio.PyAudio()`, `audio.open` or the thread's start raises. */
  datatype StartOutcome = Started | SessionFails | StreamOpenFails | ThreadFails

  /** `b''.join(frames)`: the bytes written to the WAV file. */
  function Join(frames: seq<Chunk>): (bytes: seq<bv8>)
    ensures frames == [] ==> bytes == []
    ensures frames != [] ==> |frames[0]| <= |bytes| && bytes[..|frames[0]|] == frames[0]
  {
    if frames == [] then [] else frames[0] + Join(frames[1..])
  }

  /** Appending a chunk appends its bytes. */
  lemma {:induction false} JoinAppend(frames: seq<Chunk>, chunk: Chunk)
    ensures Join(frames + [chunk]) == Join(frames) + chunk
  {
    if frames == [] {
      assert [] + [chunk] == [chunk];
    } else {
      assert (frames + [chunk])[1..] == frames[1..] + [chunk];
      JoinAppend(frames[1..], chunk);
    }
  }

  /** Joining two runs of chunks one after the other gives the bytes of the
      first run followed by those of the second. */
  lemma {:induction false} JoinConcat(first: seq<Chunk>, second: seq<Chunk>)
    ensures Join(first + second) == Join(first) + Join(second)
    decreases |second|
  {
    if second == [] {
      assert first + second == first;
    } else {
      var init, last := second[..|second| - 1], second[|second| - 1];
      assert second == init + [last];
      assert first + second == (first + init) + [last];
      calc {
        Join(first + second);
        Join((first + init) + [last]);
        { JoinAppend(first + init, last); }
        Join(first + init) + last;
        { JoinConcat(first, init); }
        (Join(first) + Join(init)) + last;
        Join(first) + (Join(init) + last);
        { JoinAppend(init, last); }
        Join(first) + Join(second);
      }
    }
  }

  class AudioRecorder {
    var audio: Option<AudioSession>
    var stream: Option<Stream>
    var recording: bool
    var frames: seq<Chunk>

    /** While recording there is a session and an open stream to read from. */
    ghost predicate Valid()
      reads this
    {
      recording ==> audio.Some? && stream.Some?
    }

    constructor ()
      ensures Valid()
      ensures audio == None && stream == None && !recording && frames == []
    {
      audio, stream, recording, frames := None, None, false, [];
    }

    /** `list_audio_devices`: creates a session if there is none
        (`sessionOk` is whether `pyaudio.PyAudio()` succeeds); the listing
        itself is console output. */
    method ListAudioDevices(sessionOk: bool)
      requires Valid()
      modifies this`audio
      ensures Valid()
      ensures audio == if old(audio).None? && sessionOk then Some(AudioSession) else old(audio)
    {
      if audio.None? && sessionOk {
        audio := Some(AudioSession);
      }
    }

    /** `start_recording`: refused while recording, with no change. Otherwise a
        fresh session and stream, an empty buffer and the flag up, unless a
        device call raises: then the flag stays down and whatever was assigned
        before the failing call stays assigned. */
    method StartRecording(outcome: StartOutcome) returns (ok: bool)
      requires Valid()
      modifies this
      ensures Valid()
      ensures old(recording) ==>
                !ok && recording && audio == old(audio) && stream == old(stream) && frames == old(frames)
      ensures !old(recording) ==> ok == (outcome == Started) && recording == ok
      ensures ok ==> audio == Some(AudioSession) && stream == Some(MicrophoneStream) && frames == []
      ensures !old(recording) && outcome == SessionFails ==>
                audio == old(audio) && stream == old(stream) && frames == old(frames)
      ensures !old(recording) && outcome == StreamOpenFails ==>
                audio == Some(AudioSession) && stream == old(stream) && frames == old(frames)
      ensures !old(recording) && outcome == ThreadFails ==>
                audio == Some(AudioSession) && stream == Some(MicrophoneStream) && frames == []
    {
      if recording {
        return false;
      }
      if outcome == SessionFails {
        recording := false;
        return false;
      }
      audio := Some(AudioSession);
      if outcome == StreamOpenFails {
        recording := false;
        return false;
      }
      stream := Some(MicrophoneStream);
      recording := true;
      frames := [];
      if outcome == ThreadFails {
        recording := false;
        return false;
      }
      ok := true;
    }

    /** `stop_recording`: refused when not recording, with no change.
        Otherwise the flag goes down and the result is whether any chunk was
        captured; the captured bytes are written to the temporary WAV file,
        and a failed write (`wavWrite` other than `Written`) does not change
        the result. */
    method StopRecording(files: FileStore, wavWrite: WriteOutcome) returns (ok: bool)
      requires Valid()
      modifies this`recording, files`tempAudio
      ensures Valid()
      ensures !recording
      ensures ok <==> old(recording) && frames != []
      ensures files.tempAudio ==
                if ok && !wavWrite.OpenFails? then Some(WrittenContent(Join(frames), wavWrite))
                else old(files.tempAudio)
    {
      if !recording {
        return false;
      }
      recording := false;
      if frames != [] {
        files.WriteTempAudio(Join(frames), wavWrite);
        ok := true;
      } else {
        ok := false;
      }
    }

    /** `is_recording`. */
    method IsRecording() returns (r: bool)
      ensures r == recording
    {
      r := recording;
    }

    /** `_record_audio`: the capture loop appends each chunk the stream
        delivers, in order, for as long as the flag is up; `incoming` is what
        the stream delivers before the flag goes down. */
    method RecordAudio(incoming: seq<Chunk>)
      requires Valid()
      modifies this`frames
      ensures frames == if recording then old(frames) + incoming else old(frames)
      ensures Join(frames) == if recording then Join(old(frames)) + Join(incoming) else Join(old(frames))
    {
      var i := 0;
      while recording && i < |incoming|
        invariant 0 <= i <= |incoming|
        invariant frames == old(frames) + incoming[..i]
        invariant !recording ==> i == 0
      {
        frames := frames + [incoming[i]];
        i := i + 1;
      }
      assert recording ==> incoming[..i] == incoming;
      JoinConcat(old(frames), if recording then incoming else []);
    }

    /** `cleanup`: drops the stream and the session; the flag and the buffer
        are untouched. */
    method Cleanup()
      modifies this`stream, this`audio
      ensures stream == None && audio == None
      ensures Valid() <==> !recording
    {
      stream := None;
      audio := None;
    }
  }

  /** One recording from start to stop on an idle recorder: the stop succeeds
      exactly when the stream delivered something, and the WAV file then holds
      exactly what was delivered during this recording. */
  method RecordOnce(recorder: AudioRecorder, files: FileStore, incoming: seq<Chunk>)
    returns (started: bool, stopped: bool)
    requires recorder.Valid() && !recorder.recording
    modifies recorder, files`tempAudio
    ensures started
    ensures stopped <==> incoming != []
    ensures stopped ==> files.tempAudio == Some(Join(incoming))
    ensures !recorder.recording && recorder.frames == incoming
  {
    started := recorder.StartRecording(Started);
    recorder.RecordAudio(incoming);
    assert recorder.frames == [] + incoming == incoming;
    stopped := recorder.StopRecording(files, Written);
  }
}
