/** The transcript store of src/file_manager.py: the time-stamped name under
    which a transcript is written, the `transcript_*.txt` pattern that counts
    transcripts, and the two directories the application writes to. */
module FileManager {
  import opened Options

  /** The fields of a Python `datetime` that `strftime` reads for a file name. */
  datatype DateTime = DateTime(year: int, month: int, day: int, hour: int, minute: int, second: int)

  predicate IsLeapYear(y: int) {
    y % 4 == 0 && (y % 100 != 0 || y % 400 == 0)
  }

  function DaysInMonth(y: int, m: int): (n: int)
    requires 1 <= m <= 12
    ensures 28 <= n <= 31
  {
    if m == 2 then (if IsLeapYear(y) then 29 else 28)
    else if m == 4 || m == 6 || m == 9 || m == 11 then 30
    else 31
  }

  /** The values a `datetime` can hold: years MINYEAR (1) to MAXYEAR (9999). */
  predicate ValidDateTime(dt: DateTime) {
    1 <= dt.year <= 9999 && 1 <= dt.month <= 12 && 1 <= dt.day <= DaysInMonth(dt.year, dt.month) &&
    0 <= dt.hour < 24 && 0 <= dt.minute < 60 && 0 <= dt.second < 60
  }

  // ---------------------------------------------------------------------------
  // Zero-padded decimal fields
  // ---------------------------------------------------------------------------

  function Pow10(k: nat): (p: nat)
    ensures p >= 1
  {
    if k == 0 then 1 else 10 * Pow10(k - 1)
  }

  predicate IsDigit(c: char) {
    '0' <= c <= '9'
  }

  function DigitChar(d: nat): (c: char)
    requires d < 10
    ensures IsDigit(c) && c as int - '0' as int == d
  {
    ('0' as int + d) as char
  }

  /** The value of a string of decimal digits, most significant first. */
  function ParseDigits(s: string): int {
    if s == [] then 0 else 10 * ParseDigits(s[..|s| - 1]) + (s[|s| - 1] as int - '0' as int)
  }

  /** `n` in decimal, zero-padded to exactly `width` digits: how `strftime`
      writes `%m`, `%d`, `%H`, `%M`, `%S` (width 2) and `%Y` (width 4). */
  function PadDigits(n: nat, width: nat): (s: string)
    requires n < Pow10(width)
    ensures |s| == width
    ensures forall i :: 0 <= i < |s| ==> IsDigit(s[i])
  {
    if width == 0 then [] else PadDigits(n / 10, width - 1) + [DigitChar(n % 10)]
  }

  /** Reading a padded field back gives the number written. */
  lemma {:induction false} ParsePadDigits(n: nat, width: nat)
    requires n < Pow10(width)
    ensures ParseDigits(PadDigits(n, width)) == n
  {
    if width > 0 {
      ParsePadDigits(n / 10, width - 1);
      var s := PadDigits(n, width);
      assert s[..|s| - 1] == PadDigits(n / 10, width - 1);
    }
  }

  // ---------------------------------------------------------------------------
  // Transcript file names
  // ---------------------------------------------------------------------------

  const TranscriptPrefix: string := "transcript_"
  const TranscriptSuffix: string := ".txt"
  /** The pattern `get_transcript_count` hands to `glob`. */
  const TranscriptPattern: string := "transcript_*.txt"

  /** `now.strftime("%Y-%m-%d")`. */
  function DateString(dt: DateTime): (s: string)
    requires ValidDateTime(dt)
    ensures |s| == 10
  {
    PadDigits(dt.year, 4) + "-" + PadDigits(dt.month, 2) + "-" + PadDigits(dt.day, 2)
  }

  /** `now.strftime("%H-%M-%S")`. */
  function TimeString(dt: DateTime): (s: string)
    requires ValidDateTime(dt)
    ensures |s| == 8
  {
    PadDigits(dt.hour, 2) + "-" + PadDigits(dt.minute, 2) + "-" + PadDigits(dt.second, 2)
  }

  /** The name `save_transcript` gives the file for a transcript saved at `dt`. */
  function TranscriptFileName(dt: DateTime): (name: string)
    requires ValidDateTime(dt)
    ensures |name| == 34
    ensures name[..|TranscriptPrefix|] == TranscriptPrefix
    ensures name[|name| - |TranscriptSuffix|..] == TranscriptSuffix
  {
    TranscriptPrefix + DateString(dt) + "_" + TimeString(dt) + TranscriptSuffix
  }

  /** Reads the date and time back out of a name of the transcript shape;
      `None` for any other name. */
  function ParseTranscriptFileName(name: string): (r: Option<DateTime>)
    ensures r.Some? ==> GlobMatch(TranscriptPattern, name)
  {
    MatchesTranscriptPattern(name);
    if |name| == 34 && name[..11] == TranscriptPrefix && name[30..] == TranscriptSuffix &&
       name[15] == '-' && name[18] == '-' && name[21] == '_' && name[24] == '-' && name[27] == '-'
    then Some(DateTime(ParseDigits(name[11..15]), ParseDigits(name[16..18]), ParseDigits(name[19..21]),
                       ParseDigits(name[22..24]), ParseDigits(name[25..27]), ParseDigits(name[28..30])))
    else None
  }

  /** Every field of a transcript name sits at a fixed offset. */
  lemma TranscriptFileNameLayout(dt: DateTime)
    requires ValidDateTime(dt)
    ensures var name := TranscriptFileName(dt);
      name[11..15] == PadDigits(dt.year, 4) && name[16..18] == PadDigits(dt.month, 2) &&
      name[19..21] == PadDigits(dt.day, 2) && name[22..24] == PadDigits(dt.hour, 2) &&
      name[25..27] == PadDigits(dt.minute, 2) && name[28..30] == PadDigits(dt.second, 2) &&
      name[15] == '-' && name[18] == '-' && name[21] == '_' && name[24] == '-' && name[27] == '-'
  {
    var name := TranscriptFileName(dt);
    var d, t := DateString(dt), TimeString(dt);
    assert name == TranscriptPrefix + d + "_" + t + TranscriptSuffix;
    assert name[11..21] == d;
    assert name[22..30] == t;
    assert d[0..4] == PadDigits(dt.year, 4) && d[5..7] == PadDigits(dt.month, 2) && d[8..10] == PadDigits(dt.day, 2);
    assert t[0..2] == PadDigits(dt.hour, 2) && t[3..5] == PadDigits(dt.minute, 2) && t[6..8] == PadDigits(dt.second, 2);
    assert name[11..15] == name[11..21][0..4];
    assert name[16..18] == name[11..21][5..7];
    assert name[19..21] == name[11..21][8..10];
    assert name[22..24] == name[22..30][0..2];
    assert name[25..27] == name[22..30][3..5];
    assert name[28..30] == name[22..30][6..8];
  }

  /** The date and time can be read back from a transcript name. */
  lemma ParseTranscriptFileNameRoundTrip(dt: DateTime)
    requires ValidDateTime(dt)
    ensures ParseTranscriptFileName(TranscriptFileName(dt)) == Some(dt)
  {
    TranscriptFileNameLayout(dt);
    ParsePadDigits(dt.year, 4);
    ParsePadDigits(dt.month, 2);
    ParsePadDigits(dt.day, 2);
    ParsePadDigits(dt.hour, 2);
    ParsePadDigits(dt.minute, 2);
    ParsePadDigits(dt.second, 2);
  }

  /** Distinct moments (to the second) give distinct names; two saves within
      the same second get the same name. */
  lemma TranscriptFileNameInjective(a: DateTime, b: DateTime)
    requires ValidDateTime(a) && ValidDateTime(b)
    ensures TranscriptFileName(a) == TranscriptFileName(b) <==> a == b
  {
    if TranscriptFileName(a) == TranscriptFileName(b) {
      ParseTranscriptFileNameRoundTrip(a);
      ParseTranscriptFileNameRoundTrip(b);
    }
  }

  /** A transcript name is made of letters, digits, `_`, `-` and `.` only;
      in particular it never contains `:`. */
  lemma TranscriptFileNameCharacters(dt: DateTime)
    requires ValidDateTime(dt)
    ensures forall c :: c in TranscriptFileName(dt) ==>
      IsDigit(c) || ('a' <= c <= 'z') || c == '_' || c == '-' || c == '.'
    ensures ':' !in TranscriptFileName(dt)
  {
    var name := TranscriptFileName(dt);
    TranscriptFileNameLayout(dt);
    forall i | 0 <= i < |name|
      ensures IsDigit(name[i]) || ('a' <= name[i] <= 'z') || name[i] == '_' || name[i] == '-' || name[i] == '.'
    {
      if 11 <= i < 15 {
        assert name[i] == name[11..15][i - 11];
      } else if 16 <= i < 18 {
        assert name[i] == name[16..18][i - 16];
      } else if 19 <= i < 21 {
        assert name[i] == name[19..21][i - 19];
      } else if 22 <= i < 24 {
        assert name[i] == name[22..24][i - 22];
      } else if 25 <= i < 27 {
        assert name[i] == name[25..27][i - 25];
      } else if 28 <= i < 30 {
        assert name[i] == name[28..30][i - 28];
      } else if i < 11 {
        assert name[i] == name[..11][i];
      } else if i >= 30 {
        assert name[i] == name[30..][i - 30];
      }
    }
  }

  // ---------------------------------------------------------------------------
  // The `glob` pattern
  // ---------------------------------------------------------------------------

  /** Shell-style matching of a whole file name against a pattern in which `*`
      stands for any run of characters and every other character for itself. */
  function GlobMatch(pattern: string, name: string): (r: bool)
    ensures pattern == "*" ==> r
    ensures r && '*' !in pattern ==> |name| == |pattern|
    decreases |pattern| + |name|
  {
    if pattern == [] then name == []
    else if pattern[0] == '*' then GlobMatch(pattern[1..], name) || (name != [] && GlobMatch(pattern, name[1..]))
    else name != [] && name[0] == pattern[0] && GlobMatch(pattern[1..], name[1..])
  }

  /** A pattern that starts with star-free text matches exactly the names that
      start with that text and whose rest matches the rest of the pattern. */
  lemma {:induction false} GlobLiteralPrefix(lit: string, rest: string, name: string)
    requires '*' !in lit
    ensures GlobMatch(lit + rest, name) <==>
      |lit| <= |name| && name[..|lit|] == lit && GlobMatch(rest, name[|lit|..])
  {
    if lit != [] {
      assert (lit + rest)[0] == lit[0] && (lit + rest)[1..] == lit[1..] + rest;
      GlobLiteralPrefix(lit[1..], rest, if name == [] then [] else name[1..]);
      if name != [] && |lit| <= |name| {
        assert name[1..][..|lit| - 1] == name[1..|lit|];
        assert name[1..][|lit| - 1..] == name[|lit|..];
      }
    } else {
      assert lit + rest == rest;
    }
  }

  /** A star-free pattern matches exactly itself. */
  lemma {:induction false} GlobLiteral(lit: string, name: string)
    requires '*' !in lit
    ensures GlobMatch(lit, name) <==> name == lit
  {
    GlobLiteralPrefix(lit, [], name);
    assert lit + [] == lit;
  }

  /** `*` followed by star-free text matches exactly the names ending in that text. */
  lemma {:induction false} GlobStarSuffix(lit: string, name: string)
    requires '*' !in lit
    ensures GlobMatch("*" + lit, name) <==> |lit| <= |name| && name[|name| - |lit|..] == lit
  {
    var p := "*" + lit;
    assert p[0] == '*' && p[1..] == lit;
    GlobLiteral(lit, name);
    if name != [] {
      GlobStarSuffix(lit, name[1..]);
      if |lit| <= |name| - 1 {
        assert name[1..][|name| - 1 - |lit|..] == name[|name| - |lit|..];
      }
    }
  }

  /** A pattern of star-free text, one `*` and star-free text matches exactly
      the names that hold both texts, one at each end, without overlap. */
  lemma {:induction false} GlobPrefixStarSuffix(pre: string, suf: string, name: string)
    requires '*' !in pre && '*' !in suf
    ensures GlobMatch(pre + ("*" + suf), name) <==>
      |name| >= |pre| + |suf| && name[..|pre|] == pre && name[|name| - |suf|..] == suf
  {
    GlobLiteralPrefix(pre, "*" + suf, name);
    if |pre| <= |name| {
      var rest := name[|pre|..];
      GlobStarSuffix(suf, rest);
      if |suf| <= |rest| {
        assert rest[|rest| - |suf|..] == name[|name| - |suf|..];
      }
    }
  }

  /** The names the counting pattern picks up: long enough to hold both ends,
      starting with `transcript_` and ending with `.txt`. */
  lemma {:induction false} MatchesTranscriptPattern(name: string)
    ensures GlobMatch(TranscriptPattern, name) <==>
      |name| >= |TranscriptPrefix| + |TranscriptSuffix| &&
      name[..|TranscriptPrefix|] == TranscriptPrefix &&
      name[|name| - |TranscriptSuffix|..] == TranscriptSuffix
  {
    assert TranscriptPattern == TranscriptPrefix + ("*" + TranscriptSuffix);
    GlobPrefixStarSuffix(TranscriptPrefix, TranscriptSuffix, name);
  }

  /** Every name `save_transcript` writes is counted by `get_transcript_count`. */
  lemma TranscriptFileNameCounted(dt: DateTime)
    requires ValidDateTime(dt)
    ensures GlobMatch(TranscriptPattern, TranscriptFileName(dt))
  {
    MatchesTranscriptPattern(TranscriptFileName(dt));
  }

  /** The names in a directory listing that the counting pattern picks up. */
  function CountedNames(files: map<string, string>): (names: set<string>)
    ensures names <= files.Keys
    ensures forall n :: n in files ==> (n in names <==> GlobMatch(TranscriptPattern, n))
  {
    set n | n in files.Keys && GlobMatch(TranscriptPattern, n)
  }

  /** The counted names, described without the matcher: the names in the
      directory long enough to hold `transcript_` and `.txt`, one at each end. */
  lemma {:induction false} CountedNamesByPrefixSuffix(files: map<string, string>)
    ensures CountedNames(files) ==
              set n | n in files.Keys && |n| >= |TranscriptPrefix| + |TranscriptSuffix| &&
                      n[..|TranscriptPrefix|] == TranscriptPrefix &&
                      n[|n| - |TranscriptSuffix|..] == TranscriptSuffix
  {
    forall n | n in files.Keys {
      MatchesTranscriptPattern(n);
    }
  }

  /** Writing a file under a name the pattern matches adds that name to the
      counted ones, and only that name. */
  lemma {:induction false} CountedNamesAfterWrite(files: map<string, string>, name: string, text: string)
    requires GlobMatch(TranscriptPattern, name)
    ensures CountedNames(files[name := text]) == CountedNames(files) + {name}
    ensures |CountedNames(files[name := text])| == |CountedNames(files)| + (if name in files then 0 else 1)
  {
    var after, before := CountedNames(files[name := text]), CountedNames(files);
    forall n | n in after ensures n in before + {name} {
      assert n in files[name := text];
    }
    forall n | n in before + {name} ensures n in after {
      assert n in files[name := text];
    }
    if name in files {
      assert before + {name} == before;
    } else {
      assert name !in before;
    }
  }

  // ---------------------------------------------------------------------------
  // The file system the application touches
  // ---------------------------------------------------------------------------

  /** How writing one file fares. `open` (or creating the directory it needs)
      fails and nothing is touched; or `open` creates or truncates the file and
      the write then goes through, or stops after its first `kept` items
      (a full disk, an encoding error), leaving them in the file. */
  datatype WriteOutcome = Written | OpenFails | WriteFails(kept: nat)

  /** What a file holds after `data` was written to it with outcome `w`, once
      `open` succeeded: all of `data`, or a prefix of it when the write failed. */
  function WrittenContent<T>(data: seq<T>, w: WriteOutcome): (r: seq<T>)
    requires !w.OpenFails?
    ensures |r| <= |data| && r == data[..|r|]
    ensures w.Written? ==> r == data
    ensures w.WriteFails? ==> |r| == if w.kept < |data| then w.kept else |data|
  {
    if w.WriteFails? && w.kept < |data| then data[..w.kept] else data
  }

  /** The transcripts directory (file name to text) and the temporary WAV file
      (`/tmp/audio_recording.wav`, holding the recorded sample bytes). */
  class FileStore {
    var transcriptsDirExists: bool
    var transcripts: map<string, string>
    var tempAudio: Option<seq<bv8>>

    /** Files can only be in a directory that exists. */
    ghost predicate Valid()
      reads this
    {
      !transcriptsDirExists ==> transcripts == map[]
    }

    constructor (dirExists: bool, existing: map<string, string>, temp: Option<seq<bv8>>)
      requires dirExists || existing == map[]
      ensures Valid()
      ensures transcriptsDirExists == dirExists && transcripts == existing && tempAudio == temp
    {
      transcriptsDirExists, transcripts, tempAudio := dirExists, existing, temp;
    }

    /** `ensure_transcripts_dir`: `mkdirOk` is whether `mkdir(parents=True,
        exist_ok=True)` succeeds. */
    method EnsureTranscriptsDir(mkdirOk: bool) returns (ok: bool)
      requires Valid()
      modifies this`transcriptsDirExists
      ensures Valid()
      ensures ok == mkdirOk
      ensures transcriptsDirExists == (old(transcriptsDirExists) || mkdirOk)
    {
      if mkdirOk {
        transcriptsDirExists := true;
      }
      ok := mkdirOk;
    }

    /** `save_transcript`: opens the file named for `now` for writing and
        writes `text`; returns that name when both succeed. `None` when `open`
        fails (no transcripts directory, or `write` is `OpenFails`): nothing
        changes. `None` too when the write fails after `open`: the file, new
        or an earlier one of the same name, is left holding a prefix of
        `text`. */
    method SaveTranscript(text: string, now: DateTime, write: WriteOutcome) returns (saved: Option<string>)
      requires Valid() && ValidDateTime(now)
      modifies this`transcripts
      ensures Valid()
      ensures saved.Some? <==> transcriptsDirExists && write.Written?
      ensures saved.Some? ==> saved.value == TranscriptFileName(now)
      ensures transcripts ==
                if transcriptsDirExists && !write.OpenFails?
                then old(transcripts)[TranscriptFileName(now) := WrittenContent(text, write)]
                else old(transcripts)
    {
      var filename := TranscriptFileName(now);
      if !transcriptsDirExists || write.OpenFails? {
        return None;
      }
      transcripts := transcripts[filename := WrittenContent(text, write)];
      if write.Written? {
        saved := Some(filename);
      } else {
        saved := None;
      }
    }

    /** `get_transcript_count`: the number of files matching
        `transcript_*.txt`, or 0 when the directory is missing or listing it
        fails (`listOk` false). */
    method GetTranscriptCount(listOk: bool) returns (count: int)
      ensures count >= 0
      ensures count == if transcriptsDirExists && listOk then |CountedNames(transcripts)| else 0
    {
      if transcriptsDirExists && listOk {
        count := |CountedNames(transcripts)|;
      } else {
        count := 0;
      }
    }

    /** `_save_audio`: writes the recorded bytes to the temporary WAV file.
        Every failure is swallowed: when the directory or `wave.open` fails the
        file is left as it was; once `wave.open` has created or truncated it,
        a failed write leaves a prefix of the bytes. */
    method WriteTempAudio(data: seq<bv8>, write: WriteOutcome)
      modifies this`tempAudio
      ensures tempAudio == if write.OpenFails? then old(tempAudio) else Some(WrittenContent(data, write))
    {
      if !write.OpenFails? {
        tempAudio := Some(WrittenContent(data, write));
      }
    }

    /** `cleanup_temp_files`: removes the temporary WAV file if there is one;
        false when removing it fails (`unlinkOk` false). */
    method CleanupTempFiles(unlinkOk: bool) returns (ok: bool)
      modifies this`tempAudio
      ensures ok == (old(tempAudio).None? || unlinkOk)
      ensures tempAudio == if ok then None else old(tempAudio)
    {
      if tempAudio.Some? {
        if unlinkOk {
          tempAudio := None;
          ok := true;
        } else {
          ok := false;
        }
      } else {
        ok := true;
      }
    }
  }

  /** Two saves within one second target one file. When the first succeeds,
      the file afterwards holds the second text if that save succeeds, a
      prefix of it (possibly empty, wiping the first text) if it fails after
      `open`, and the first text if its `open` fails. */
  method SaveTwiceInOneSecond(store: FileStore, now: DateTime, first: string, second: string,
                              secondWrite: WriteOutcome)
    returns (a: Option<string>, b: Option<string>)
    requires store.Valid() && ValidDateTime(now) && store.transcriptsDirExists
    modifies store
    ensures a == Some(TranscriptFileName(now))
    ensures b == if secondWrite.Written? then a else None
    ensures store.transcripts ==
              old(store.transcripts)[TranscriptFileName(now) :=
                if secondWrite.OpenFails? then first else WrittenContent(second, secondWrite)]
  {
    a := store.SaveTranscript(first, now, Written);
    b := store.SaveTranscript(second, now, secondWrite);
  }
}
