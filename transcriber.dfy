/**
 * The whisper.cpp wrapper of the transcription server (server/transcriber.py):
 * the command line it runs, how it reads the tool's standard output, and the
 * result it returns. Running the process is an oracle: the caller passes what
 * the run produced.
 */
module Transcription {
  import opened Wrappers
  import opened Strings

  /** `task`, either plain transcription or translation. */
  const Translate: string := "translate"

  /** The fixed head of the command: executable, model, audio file, plain text, no timestamps. */
  function BaseCommand(exe: string, model: string, audio: string): seq<string>
  {
    [exe, "-m", model, "-f", audio, "--output-txt", "--no-timestamps"]
  }

  /** `if language:`: a language is given when it is present and not empty. */
  predicate Given(language: Option<string>)
  {
    language.Some? && language.value != ""
  }

  /** The whisper.cpp argument list. */
  function Command(exe: string, model: string, audio: string, language: Option<string>, task: string): (cmd: seq<string>)
    ensures |cmd| == 7 + (if Given(language) then 2 else 0) + (if task == Translate then 1 else 0)
    ensures cmd[..7] == BaseCommand(exe, model, audio)
    ensures Given(language) ==> cmd[7] == "-l" && cmd[8] == language.value
    ensures !Given(language) && |cmd| > 7 ==> cmd[7] != "-l"
    ensures task == Translate ==> cmd[|cmd| - 1] == "--translate"
    ensures task != Translate && !Given(language) ==> cmd == BaseCommand(exe, model, audio)
  {
    BaseCommand(exe, model, audio)
      + (if Given(language) then ["-l", language.value] else [])
      + (if task == Translate then ["--translate"] else [])
  }

  /** The command builder of `transcribe`, extending the list as the source does. */
  method BuildCommand(exe: string, model: string, audio: string, language: Option<string>, task: string)
    returns (cmd: seq<string>)
    ensures cmd == Command(exe, model, audio, language, task)
  {
    cmd := [exe, "-m", model, "-f", audio, "--output-txt", "--no-timestamps"];
    if language.Some? && language.value != "" {
      cmd := cmd + ["-l", language.value];
    }
    if task == "translate" {
      cmd := cmd + ["--translate"];
    }
  }

  // ------------------------------------------------------------ the transcript text

  /** A stripped line is text unless it is empty or a bracketed tag or progress line. */
  predicate IsTextLine(line: string)
  {
    line != "" && line[0] != '['
  }

  /** The stripped text lines, in order. */
  function TextLines(lines: seq<string>): (r: seq<string>)
    ensures |r| <= |lines|
    ensures forall k :: 0 <= k < |r| ==> IsTextLine(r[k])
    decreases |lines|
  {
    if lines == [] then []
    else
      var line := Strip(lines[|lines| - 1]);
      TextLines(lines[..|lines| - 1]) + (if IsTextLine(line) then [line] else [])
  }

  /** Every kept line is the stripped form of some input line. */
  lemma {:induction false} TextLinesSound(lines: seq<string>, x: string)
    requires x in TextLines(lines)
    ensures IsTextLine(x) && exists i :: 0 <= i < |lines| && Strip(lines[i]) == x
    decreases |lines|
  {
    var init := lines[..|lines| - 1];
    var last := Strip(lines[|lines| - 1]);
    if x in TextLines(init) {
      TextLinesSound(init, x);
      var i :| 0 <= i < |init| && Strip(init[i]) == x;
      assert lines[i] == init[i];
    } else {
      assert x == last;
    }
  }

  /** Every input line whose stripped form is a text line is kept. */
  lemma {:induction false} TextLinesComplete(lines: seq<string>, i: nat)
    requires i < |lines| && IsTextLine(Strip(lines[i]))
    ensures Strip(lines[i]) in TextLines(lines)
    decreases |lines|
  {
    var init := lines[..|lines| - 1];
    if i < |init| {
      assert init[i] == lines[i];
      TextLinesComplete(init, i);
    }
  }

  /** `_parse_output`: the text lines of the output, joined by single spaces. */
  function ParsedText(output: string): string
  {
    Join(TextLines(Split(output, '\n')), " ")
  }

  /** `_parse_output`, with its loop over the lines. */
  method ParseOutput(output: string) returns (text: string)
    ensures text == ParsedText(output)
  {
    var lines := Split(output, '\n');
    var kept: seq<string> := [];
    for k := 0 to |lines|
      invariant kept == TextLines(lines[..k])
    {
      assert lines[..k + 1][..k] == lines[..k];
      var line := Strip(lines[k]);
      if line != "" && line[0] != '[' {
        kept := kept + [line];
      }
    }
    assert lines[..|lines|] == lines;
    text := Join(kept, " ");
  }

  // ------------------------------------------------------------ the detected language

  /** The pattern `detected language:` (matched ignoring case). */
  const Marker: string := "detected language:"

  /** The greedy `\w+` run at the start of `s`. */
  function WordRun(s: string): (r: string)
    ensures |r| <= |s| && r == s[..|r|]
    ensures forall k :: 0 <= k < |r| ==> IsWordChar(r[k])
    ensures |r| < |s| ==> !IsWordChar(s[|r|])
    decreases |s|
  {
    if s == [] || !IsWordChar(s[0]) then [] else [s[0]] + WordRun(s[1..])
  }

  /** `detected language:\s*(\w+)` matched at position `i`: the captured word. */
  function MatchAt(output: string, i: nat): (r: Option<string>)
    ensures r.Some? ==> (r.value != [] && i + |Marker| <= |output| && Lower(output[i..i + |Marker|]) == Marker)
  {
    if i + |Marker| <= |output| && Lower(output[i..i + |Marker|]) == Marker then
      var w := WordRun(StripLeft(output[i + |Marker|..]));
      if w != [] then Some(w) else None
    else None
  }

  /** `re.search`: the capture of the leftmost position where the whole pattern matches. */
  function SearchFrom(output: string, i: nat): (r: Option<string>)
    requires i <= |output|
    ensures r.Some? ==> exists j :: i <= j <= |output| && MatchAt(output, j) == r
    ensures r.None? ==> forall j :: i <= j <= |output| ==> MatchAt(output, j).None?
    decreases |output| - i
  {
    if MatchAt(output, i).Some? then MatchAt(output, i)
    else if i == |output| then None
    else SearchFrom(output, i + 1)
  }

  /** The search answers with the capture at the leftmost matching position. */
  lemma {:induction false} SearchLeftmost(output: string, i: nat)
    requires i <= |output| && SearchFrom(output, i).Some?
    ensures exists j :: (i <= j <= |output| && MatchAt(output, j) == SearchFrom(output, i)
      && forall k :: i <= k < j ==> MatchAt(output, k).None?)
    decreases |output| - i
  {
    if MatchAt(output, i).None? {
      SearchLeftmost(output, i + 1);
      var j :| i + 1 <= j <= |output| && MatchAt(output, j) == SearchFrom(output, i + 1)
        && forall k :: i + 1 <= k < j ==> MatchAt(output, k).None?;
      assert forall k :: i <= k < j ==> MatchAt(output, k).None?;
    }
  }

  /** The seven language names whisper.cpp reports that the server maps to their codes. */
  const LanguageCodes: map<string, string> := map[
    "chinese" := "zh", "english" := "en", "japanese" := "ja", "korean" := "ko",
    "spanish" := "es", "french" := "fr", "german" := "de"]

  /** `lang_map.get(name, name)` on the lower-cased name. */
  function LanguageCode(word: string): (r: string)
    ensures Lower(word) in LanguageCodes ==> r == LanguageCodes[Lower(word)]
    ensures Lower(word) !in LanguageCodes ==> r == Lower(word)
    ensures word != [] ==> r != []
  {
    var name := Lower(word);
    if name in LanguageCodes then LanguageCodes[name] else name
  }

  /** `_detect_language`. */
  function DetectLanguage(output: string): (r: Option<string>)
    ensures r.None? <==> forall j :: 0 <= j <= |output| ==> MatchAt(output, j).None?
    ensures r.Some? ==> r.value != [] && r == Some(LanguageCode(SearchFrom(output, 0).value))
  {
    var m := SearchFrom(output, 0);
    if m.Some? then Some(LanguageCode(m.value)) else None
  }

  /** `detected_lang or language or "unknown"`. */
  function ResultLanguage(detected: Option<string>, language: Option<string>): (r: string)
    ensures Given(detected) ==> r == detected.value
    ensures !Given(detected) && Given(language) ==> r == language.value
    ensures !Given(detected) && !Given(language) ==> r == "unknown"
    ensures r != ""
  {
    if Given(detected) then detected.value else if Given(language) then language.value else "unknown"
  }

  // ------------------------------------------------------------ one transcription

  /** What running the command produced: a timeout, or an exit code with both output streams. */
  datatype RunOutcome = TimedOut | Exited(code: int, stdout: string, stderr: string)

  /** The result dictionary without `processing_time`. */
  datatype Transcript = Transcript(text: string, language: string)

  /** `transcribe`, given whether the audio file exists and what the command run produced. */
  function TranscribeResult(audio: string, language: Option<string>, audioExists: bool, run: RunOutcome): (r: Result<Transcript>)
    ensures !audioExists ==> r == Err("Audio file not found: " + audio)
    ensures audioExists && run.TimedOut? ==> r == Err("Transcription timeout (>5 minutes)")
    ensures audioExists && run.Exited? && run.code != 0 ==>
      r == Err("Transcription failed: " + (if run.stderr != "" then run.stderr else run.stdout))
    ensures r.Ok? <==> audioExists && run.Exited? && run.code == 0
    ensures r.Ok? ==> (r.value.text == Strip(ParsedText(run.stdout))
      && r.value.language == ResultLanguage(DetectLanguage(run.stdout), language))
  {
    if !audioExists then Err("Audio file not found: " + audio)
    else if run.TimedOut? then Err("Transcription timeout (>5 minutes)")
    else if run.code != 0 then Err("Transcription failed: " + (if run.stderr != "" then run.stderr else run.stdout))
    else Ok(Transcript(Strip(ParsedText(run.stdout)), ResultLanguage(DetectLanguage(run.stdout), language)))
  }

  /**
   * `WhisperTranscriber.transcribe`: builds the command, hands it to the
   * runner (the `run` oracle answers for it) and reads the output.
   */
  method Transcribe(exe: string, model: string, audio: string, language: Option<string>, task: string,
                    audioExists: bool, run: RunOutcome) returns (cmd: seq<string>, r: Result<Transcript>)
    ensures audioExists ==> cmd == Command(exe, model, audio, language, task)
    ensures r == TranscribeResult(audio, language, audioExists, run)
  {
    cmd := [];
    if !audioExists {
      return cmd, Err("Audio file not found: " + audio);
    }
    cmd := BuildCommand(exe, model, audio, language, task);
    if run.TimedOut? {
      return cmd, Err("Transcription timeout (>5 minutes)");
    }
    if run.code != 0 {
      var message := if run.stderr != "" then run.stderr else run.stdout;
      return cmd, Err("Transcription failed: " + message);
    }
    var text := ParseOutput(run.stdout);
    var detected := DetectLanguage(run.stdout);
    return cmd, Ok(Transcript(Strip(text), ResultLanguage(detected, language)));
  }

  /** Once the language is reported, the reported one wins over the requested one. */
  lemma {:induction false} DetectedLanguageWins(output: string, language: Option<string>)
    requires exists j :: 0 <= j <= |output| && MatchAt(output, j).Some?
    ensures ResultLanguage(DetectLanguage(output), language) == DetectLanguage(output).value
  {
  }
}
