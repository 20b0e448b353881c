/** src/transcriber.py: the clean-up applied to the text the speech model
    returns (`format_text`), and the `Transcriber` object whose model is either
    loaded or not. */
module Transcription {
  import opened Options

  // ---------------------------------------------------------------------------
  // Characters
  // ---------------------------------------------------------------------------

  /** The characters `str.strip()` removes: those for which `str.isspace()` holds. */
  predicate IsSpace(c: char) {
    ('\t' <= c <= '\r') || ('\U{1C}' <= c <= ' ') || c == '\U{85}' || c == '\U{A0}' ||
    c == '\U{1680}' || ('\U{2000}' <= c <= '\U{200A}') || c == '\U{2028}' || c == '\U{2029}' ||
    c == '\U{202F}' || c == '\U{205F}' || c == '\U{3000}'
  }

  /** The endings `format_text` accepts as already closing a sentence. */
  predicate IsTerminator(c: char) {
    c == '.' || c == '!' || c == '?'
  }

  /** `str.upper()` on one character, for the ASCII letters. */
  function Upper(c: char): (u: char)
    ensures 'a' <= c <= 'z' ==> u as int == c as int - 32
    ensures !('a' <= c <= 'z') ==> u == c
    ensures IsSpace(u) <==> IsSpace(c)
    ensures IsTerminator(u) <==> IsTerminator(c)
    ensures !('a' <= u <= 'z')
  {
    if 'a' <= c <= 'z' then (c as int - 32) as char else c
  }

  ghost predicate AllSpace(s: string) {
    forall i :: 0 <= i < |s| ==> IsSpace(s[i])
  }

  /** Neither end of `s` is whitespace. */
  ghost predicate NoOuterSpace(s: string) {
    s == [] || (!IsSpace(s[0]) && !IsSpace(s[|s| - 1]))
  }

  // ---------------------------------------------------------------------------
  // str.strip()
  // ---------------------------------------------------------------------------

  /** `s` without its leading whitespace. */
  function TrimStart(s: string): (r: string)
    ensures |r| <= |s| && r == s[|s| - |r|..]
    ensures AllSpace(s[..|s| - |r|])
    ensures r == [] || !IsSpace(r[0])
    decreases |s|
  {
    if s != [] && IsSpace(s[0]) then TrimStart(s[1..]) else s
  }

  /** `s` without its trailing whitespace. */
  function TrimEnd(s: string): (r: string)
    ensures |r| <= |s| && r == s[..|r|]
    ensures AllSpace(s[|r|..])
    ensures r == [] || !IsSpace(r[|r| - 1])
    decreases |s|
  {
    if s != [] && IsSpace(s[|s| - 1]) then
      var r := TrimEnd(s[..|s| - 1]);
      assert s[..|s| - 1][..|r|] == s[..|r|];
      assert s[|r|..] == s[..|s| - 1][|r|..] + [s[|s| - 1]];
      r
    else s
  }

  /** `s.strip()`. */
  function Strip(s: string): (r: string)
    ensures NoOuterSpace(r)
    ensures r == [] <==> AllSpace(s)
  {
    var t := TrimStart(s);
    TrimEnd(t)
  }

  /** `r` is what stripping `s` leaves: `s` is `r` with whitespace on either
      side, and `r` itself has none at its ends. */
  ghost predicate IsStripOf(s: string, r: string) {
    exists i, j :: 0 <= i <= j <= |s| && r == s[i..j] &&
      AllSpace(s[..i]) && AllSpace(s[j..]) && NoOuterSpace(r)
  }

  /** Once the leading whitespace ends at `i`, trimming the start leaves `s[i..]`. */
  lemma {:induction false} TrimStartAt(s: string, i: int)
    requires 0 <= i < |s| && AllSpace(s[..i]) && !IsSpace(s[i])
    ensures TrimStart(s) == s[i..]
  {
    if i > 0 {
      assert s[0] == s[..i][0];
      assert s[1..][..i - 1] == s[1..i];
      assert forall k :: 0 <= k < i - 1 ==> s[1..i][k] == s[..i][k + 1];
      TrimStartAt(s[1..], i - 1);
      assert s[1..][i - 1..] == s[i..];
    }
  }

  /** Once the trailing whitespace starts at `j`, trimming the end leaves `s[..j]`. */
  lemma {:induction false} TrimEndAt(s: string, j: int)
    requires 0 < j <= |s| && AllSpace(s[j..]) && !IsSpace(s[j - 1])
    ensures TrimEnd(s) == s[..j]
  {
    if j < |s| {
      var n := |s| - 1;
      assert s[n] == s[j..][n - j];
      assert s[..n][j..] == s[j..n];
      assert forall k :: 0 <= k < n - j ==> s[j..n][k] == s[j..][k];
      TrimEndAt(s[..n], j);
      assert s[..n][..j] == s[..j];
    }
  }

  /** What `Strip` returns is a core of its input in the sense of `IsStripOf`. */
  lemma {:induction false} StripIsStripOf(s: string)
    ensures IsStripOf(s, Strip(s))
  {
    var t := TrimStart(s);
    var r := TrimEnd(t);
    var i := |s| - |t|;
    var j := i + |r|;
    assert r == t[..|r|] && t == s[i..];
    assert r == s[i..j];
    assert s[j..] == t[|r|..];
  }

  /** Whitespace around an empty core means the whole input is whitespace. */
  lemma {:induction false} BlankAroundEmptyCore(s: string, i: int)
    requires 0 <= i <= |s| && AllSpace(s[..i]) && AllSpace(s[i..])
    ensures AllSpace(s)
  {
    forall k | 0 <= k < |s| ensures IsSpace(s[k]) {
      if k < i {
        assert s[k] == s[..i][k];
      } else {
        assert s[k] == s[i..][k - i];
      }
    }
  }

  /** Once a prefix is dropped from `s`, the core's last character and the
      trailing whitespace after it are where they were, shifted by `i`. */
  lemma {:induction false} CoreEndAfterDrop(s: string, i: int, j: int)
    requires 0 <= i < j <= |s| && AllSpace(s[j..]) && !IsSpace(s[j - 1])
    ensures AllSpace(s[i..][j - i..]) && !IsSpace(s[i..][j - i - 1])
  {
    assert s[i..][j - i..] == s[j..];
    assert s[i..][j - i - 1] == s[j - 1];
  }

  /** Trimming the end of `s[i..]` stops where the trailing whitespace of `s` starts. */
  lemma {:induction false} TrimEndOfDrop(s: string, i: int, j: int)
    requires 0 <= i < j <= |s| && AllSpace(s[j..]) && !IsSpace(s[j - 1])
    ensures TrimEnd(s[i..]) == s[i..j]
  {
    CoreEndAfterDrop(s, i, j);
    TrimEndAt(s[i..], j - i);
    SliceOfSlice(s, i, j);
  }

  /** Taking a prefix of a suffix is one slice. */
  lemma {:induction false} SliceOfSlice(s: string, i: int, j: int)
    requires 0 <= i <= j <= |s|
    ensures s[i..][..j - i] == s[i..j]
  {
  }

  /** A non-empty core found at `s[i..j]` is what `Strip` returns. */
  lemma {:induction false} StripAt(s: string, i: int, j: int)
    requires 0 <= i < j <= |s| && AllSpace(s[..i]) && AllSpace(s[j..])
    requires !IsSpace(s[i]) && !IsSpace(s[j - 1])
    ensures Strip(s) == s[i..j]
  {
    TrimStartAt(s, i);
    TrimEndOfDrop(s, i, j);
  }

  /** A core `s[i..j]` of `s`, given by its bounds, is what `Strip` returns. */
  lemma {:induction false} StripOfCore(s: string, r: string, i: int, j: int)
    requires 0 <= i <= j <= |s| && r == s[i..j]
    requires AllSpace(s[..i]) && AllSpace(s[j..]) && NoOuterSpace(r)
    ensures r == Strip(s)
  {
    if i == j {
      assert s[i..] == s[j..];
      BlankAroundEmptyCore(s, i);
    } else {
      assert r[0] == s[i] && r[|r| - 1] == s[j - 1];
      StripAt(s, i, j);
    }
  }

  /** A string has only one core in the sense of `IsStripOf`. */
  lemma {:induction false} StripOfUnique(s: string, r: string)
    requires IsStripOf(s, r)
    ensures r == Strip(s)
  {
    var i, j :| 0 <= i <= j <= |s| && r == s[i..j] &&
      AllSpace(s[..i]) && AllSpace(s[j..]) && NoOuterSpace(r);
    StripOfCore(s, r, i, j);
  }

  /** `Strip` computes exactly the core that `IsStripOf` describes, and that
      core is unique. */
  lemma {:induction false} StripCharacterisation(s: string, r: string)
    ensures IsStripOf(s, r) <==> r == Strip(s)
  {
    StripIsStripOf(s);
    if IsStripOf(s, r) {
      StripOfUnique(s, r);
    }
  }

  /** Stripping text without outer whitespace changes nothing. */
  lemma {:induction false} StripNoOuterSpace(s: string)
    requires NoOuterSpace(s)
    ensures Strip(s) == s
  {
    assert s[0..|s|] == s && s[..0] == [] && s[|s|..] == [];
    assert IsStripOf(s, s);
    StripCharacterisation(s, s);
  }

  /** Stripping twice is stripping once. */
  lemma StripIdempotent(s: string)
    ensures Strip(Strip(s)) == Strip(s)
  {
    StripNoOuterSpace(Strip(s));
  }

  // ---------------------------------------------------------------------------
  // format_text
  // ---------------------------------------------------------------------------

  /** The rest of `format_text`, applied to the stripped text: upper-case the
      first character and close with `.` unless the text already ends in `.`,
      `!` or `?`; empty text stays empty. */
  function Finish(s: string): (r: string)
    ensures s == [] ==> r == []
    ensures s != [] ==> r != [] && r[0] == Upper(s[0]) && IsTerminator(r[|r| - 1])
  {
    if s == [] then []
    else
      var capitalised := [Upper(s[0])] + s[1..];
      if IsTerminator(capitalised[|capitalised| - 1]) then capitalised else capitalised + "."
  }

  /** `Finish` upper-cases the first character, keeps the others in place, and
      appends one `.` exactly when the text did not end in a terminator. */
  lemma {:induction false} FinishShape(s: string)
    requires s != []
    ensures var r := Finish(s);
      |r| == |s| + (if IsTerminator(s[|s| - 1]) then 0 else 1) &&
      r[0] == Upper(s[0]) &&
      (forall k :: 1 <= k < |s| ==> r[k] == s[k]) &&
      (|r| > |s| ==> r[|s|] == '.') &&
      IsTerminator(r[|r| - 1])
  {
    var c := [Upper(s[0])] + s[1..];
    assert c[|c| - 1] == if |s| == 1 then Upper(s[0]) else s[|s| - 1];
  }

  /** `Finish` keeps text free of outer whitespace. */
  lemma {:induction false} FinishNoOuterSpace(s: string)
    requires s != [] && NoOuterSpace(s)
    ensures Finish(s) != [] && NoOuterSpace(Finish(s))
  {
    FinishShape(s);
    var r := Finish(s);
    assert IsTerminator(r[|r| - 1]);
  }

  /** `Transcriber.format_text`: strip both ends, upper-case the first
      character, and close with `.` unless the text already ends in `.`, `!`
      or `?`. Empty and all-whitespace text give the empty string. */
  function FormatText(text: string): (r: string)
    ensures r == [] <==> AllSpace(text)
    ensures r != [] ==> IsTerminator(r[|r| - 1])
    ensures NoOuterSpace(r)
  {
    if text == [] then []
    else
      var stripped := Strip(text);
      if stripped == [] then []
      else
        FinishShape(stripped);
        FinishNoOuterSpace(stripped);
        Finish(stripped)
  }

  /** The result is the stripped text with its first character upper-cased and
      every other character kept in place, followed by at most one `.`, which
      is added exactly when the stripped text did not end in a terminator. */
  lemma {:induction false} FormatTextShape(text: string)
    ensures var s, r := Strip(text), FormatText(text);
      (s == [] ==> r == []) &&
      (s != [] ==>
        |r| == |s| + (if IsTerminator(s[|s| - 1]) then 0 else 1) &&
        r[0] == Upper(s[0]) &&
        (forall k :: 1 <= k < |s| ==> r[k] == s[k]) &&
        (|r| > |s| ==> r[|s|] == '.'))
  {
    FormatTextIsFinish(text);
    var s := Strip(text);
    if s != [] {
      FinishShape(s);
    }
  }

  /** `format_text` is finishing the stripped text. */
  lemma {:induction false} FormatTextIsFinish(text: string)
    ensures FormatText(text) == Finish(Strip(text))
  {
    if text == [] {
      assert AllSpace(text);
    }
  }

  /** Text that already has the formatted shape is left as it is. */
  lemma {:induction false} FormatTextFixedPoint(r: string)
    requires r != [] && NoOuterSpace(r) && IsTerminator(r[|r| - 1]) && !('a' <= r[0] <= 'z')
    ensures FormatText(r) == r
  {
    StripNoOuterSpace(r);
    assert [Upper(r[0])] + r[1..] == r;
  }

  /** Formatting formatted text changes nothing (for ASCII upper-casing). */
  lemma {:induction false} FormatTextIdempotent(text: string)
    ensures FormatText(FormatText(text)) == FormatText(text)
  {
    var r := FormatText(text);
    if r != [] {
      FormatTextShape(text);
      FormatTextFixedPoint(r);
    }
  }

  /** `transcribe_audio` strips the model's text before formatting it; that
      first strip makes no difference. */
  lemma {:induction false} FormatTextOfStripped(text: string)
    ensures FormatText(Strip(text)) == FormatText(text)
  {
    var s := Strip(text);
    StripIdempotent(text);
  }

  // ---------------------------------------------------------------------------
  // The Transcriber object
  // ---------------------------------------------------------------------------

  /** The `WHISPER_MODEL` and `WHISPER_LANGUAGE` settings. */
  const WhisperModel: string := "base.en"
  const WhisperLanguage: string := "en"

  /** A Whisper model that `whisper.load_model` has returned. */
  datatype Model = Model(name: string)

  /** A value of the dictionary `get_model_info` returns. */
  datatype InfoValue = Text(text: string) | Flag(flag: bool)

  class Transcriber {
    var model: Option<Model>
    var modelLoaded: bool

    /** The flag says whether a model is held. */
    ghost predicate Valid()
      reads this
    {
      modelLoaded <==> model.Some?
    }

    constructor ()
      ensures Valid() && model == None && !modelLoaded
    {
      model, modelLoaded := None, false;
    }

    /** `load_model`: `loadOk` is whether `whisper.load_model` returns a model.
        Only a successful load sets the flag; a failed one changes nothing. */
    method LoadModel(loadOk: bool) returns (ok: bool)
      requires Valid()
      modifies this
      ensures Valid()
      ensures ok == loadOk
      ensures ok ==> modelLoaded && model == Some(Model(WhisperModel))
      ensures !ok ==> model == old(model) && modelLoaded == old(modelLoaded)
    {
      if loadOk {
        model := Some(Model(WhisperModel));
        modelLoaded := true;
        ok := true;
      } else {
        ok := false;
      }
    }

    /** `transcribe_audio`: loads the model first if it is not loaded; gives
        `None` when that load fails, when the audio file is absent, or when the
        model raises (`recognised` is `None`); otherwise the formatted text the
        model recognised. */
    method TranscribeAudio(audioFileExists: bool, loadOk: bool, recognised: Option<string>)
      returns (transcript: Option<string>)
      requires Valid()
      modifies this
      ensures Valid()
      ensures modelLoaded == (old(modelLoaded) || loadOk)
      ensures old(modelLoaded) ==> model == old(model)
      ensures transcript.Some? <==> modelLoaded && audioFileExists && recognised.Some?
      ensures transcript.Some? ==> transcript.value == FormatText(recognised.value)
    {
      if !modelLoaded {
        var loaded := LoadModel(loadOk);
        if !loaded {
          return None;
        }
      }
      if !audioFileExists {
        return None;
      }
      if recognised.None? {
        return None;
      }
      var rawText := Strip(recognised.value);
      FormatTextOfStripped(recognised.value);
      transcript := Some(FormatText(rawText));
    }

    /** `is_model_loaded`. */
    method IsModelLoaded() returns (loaded: bool)
      ensures loaded == modelLoaded
    {
      loaded := modelLoaded;
    }

    /** `get_model_info`: the model's name and language when it is loaded, and
        always a `loaded` entry that is false exactly when it is not. */
    method GetModelInfo() returns (info: map<string, InfoValue>)
      ensures "loaded" in info && info["loaded"] == Flag(modelLoaded)
      ensures modelLoaded ==> info.Keys == {"model_name", "language", "loaded"} &&
                              info["model_name"] == Text(WhisperModel) &&
                              info["language"] == Text(WhisperLanguage)
      ensures !modelLoaded ==> info.Keys == {"loaded"}
    {
      if modelLoaded {
        info := map["model_name" := Text(WhisperModel), "language" := Text(WhisperLanguage), "loaded" := Flag(true)];
      } else {
        info := map["loaded" := Flag(false)];
      }
    }
  }
}
