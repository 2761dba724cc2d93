/**
 * How PatcherUtils reads the patcher's output: the marker filter that turns
 * the `EXITFAIL:` / `EXITSUCCESS:` lines on standard error into the message
 * and failed entries of the command result, the listener that captures the
 * whole of standard output for the commands without markers, and the result
 * `patchFile` assembles.
 */
module PatcherOutput {
  import opened Wrappers
  import opened JavaStrings
  import opened PatchCommand

  datatype Stream = Stdout | Stderr

  /** One line the running command printed, with the stream it came on. */
  datatype OutputLine = OutputLine(stream: Stream, text: string)

  /** `System.getProperty("line.separator")` on the device. */
  const LINE_SEPARATOR: string := "\n"

  const FAIL_MARKER: string := "EXITFAIL:"
  const SUCCESS_MARKER: string := "EXITSUCCESS:"

  // ---------------------------------------------------------------------
  // The marker filter
  // ---------------------------------------------------------------------

  /** The `message` and `failed` entries of the result's data bundle; None is an absent entry. */
  datatype ResultData = ResultData(message: Option<string>, failed: Option<bool>)

  const NO_DATA: ResultData := ResultData(None, None)

  /** What `onStderrLine` does to the data for one line; the failure marker is looked for first. */
  function StderrLine(data: ResultData, line: string): ResultData {
    if Contains(line, FAIL_MARKER) then
      data.(message := Some(ReplaceAll(line, FAIL_MARKER, "")), failed := Some(true))
    else if Contains(line, SUCCESS_MARKER) then
      data.(message := Some(ReplaceAll(line, SUCCESS_MARKER, "")), failed := Some(false))
    else data
  }

  /** The filter on one line of either stream; `onStdoutLine` does nothing. */
  function FilterLine(data: ResultData, line: OutputLine): ResultData {
    if line.stream == Stderr then StderrLine(data, line.text) else data
  }

  /** The filter over the lines in arrival order. */
  function Replay(data: ResultData, lines: seq<OutputLine>): ResultData
    decreases |lines|
  {
    if lines == [] then data else Replay(FilterLine(data, lines[0]), lines[1..])
  }

  predicate IsMarkerLine(line: OutputLine) {
    line.stream == Stderr && (Contains(line.text, FAIL_MARKER) || Contains(line.text, SUCCESS_MARKER))
  }

  /** The last standard-error line that holds a marker, searched from the end. */
  function LastMarkerLine(lines: seq<OutputLine>): (r: Option<string>)
    ensures r.Some? ==> Contains(r.value, FAIL_MARKER) || Contains(r.value, SUCCESS_MARKER)
    ensures r.Some? <==> exists i :: 0 <= i < |lines| && IsMarkerLine(lines[i])
    decreases |lines|
  {
    if lines == [] then None
    else if IsMarkerLine(lines[|lines| - 1]) then Some(lines[|lines| - 1].text)
    else LastMarkerLine(lines[..|lines| - 1])
  }

  lemma {:induction false} ReplaySnoc(data: ResultData, lines: seq<OutputLine>, line: OutputLine)
    ensures Replay(data, lines + [line]) == FilterLine(Replay(data, lines), line)
    decreases |lines|
  {
    if lines != [] {
      assert (lines + [line])[1..] == lines[1..] + [line];
      ReplaySnoc(FilterLine(data, lines[0]), lines[1..], line);
    }
  }

  /**
   * Last marker wins: after any sequence of lines the data is what the last
   * marker line alone writes, and with no marker line at all it is what it
   * was before. Lines without a marker, and every line on standard output,
   * leave it alone.
   */
  lemma {:induction false} ReplayIsLastMarker(data: ResultData, lines: seq<OutputLine>)
    ensures match LastMarkerLine(lines)
            case None => Replay(data, lines) == data
            case Some(line) => Replay(data, lines) == StderrLine(NO_DATA, line)
    decreases |lines|
  {
    if lines != [] {
      var init, last := lines[..|lines| - 1], lines[|lines| - 1];
      assert lines == init + [last];
      ReplaySnoc(data, init, last);
      ReplayIsLastMarker(data, init);
    }
  }

  /** The lines that came on one stream, in arrival order. */
  function OnStream(lines: seq<OutputLine>, stream: Stream): (r: seq<OutputLine>)
    ensures forall i :: 0 <= i < |r| ==> r[i].stream == stream
    ensures |r| <= |lines|
    decreases |lines|
  {
    if lines == [] then []
    else (if lines[0].stream == stream then [lines[0]] else []) + OnStream(lines[1..], stream)
  }

  /** Standard output plays no part in the filter: only the standard-error lines count. */
  lemma {:induction false} ReplayIgnoresStdout(data: ResultData, lines: seq<OutputLine>)
    ensures Replay(data, lines) == Replay(data, OnStream(lines, Stderr))
    decreases |lines|
  {
    if lines != [] {
      var rest := OnStream(lines[1..], Stderr);
      ReplayIgnoresStdout(FilterLine(data, lines[0]), lines[1..]);
      if lines[0].stream == Stderr {
        assert OnStream(lines, Stderr) == [lines[0]] + rest;
        assert ([lines[0]] + rest)[1..] == rest;
      } else {
        assert OnStream(lines, Stderr) == rest;
      }
    }
  }

  // ---------------------------------------------------------------------
  // The filter as the command runner drives it
  // ---------------------------------------------------------------------

  /** The command result whose data bundle the filter writes into (its other fields are not modelled). */
  class CommandResult {
    var data: ResultData

    constructor ()
      ensures data == NO_DATA
    {
      data := NO_DATA;
    }
  }

  /** `PatcherOutputFilter.onStderrLine`. */
  method OnStderrLine(result: CommandResult, line: string)
    modifies result
    ensures result.data == StderrLine(old(result.data), line)
  {
    if Contains(line, FAIL_MARKER) {
      var message := ReplaceAll(line, FAIL_MARKER, "");
      result.data := result.data.(message := Some(message));
      result.data := result.data.(failed := Some(true));
    } else if Contains(line, SUCCESS_MARKER) {
      var message := ReplaceAll(line, SUCCESS_MARKER, "");
      result.data := result.data.(message := Some(message));
      result.data := result.data.(failed := Some(false));
    }
  }

  /**
   * The command runner handing every line, in arrival order, to the filter:
   * standard-error lines to `onStderrLine`, standard-output lines to the
   * empty `onStdoutLine`.
   */
  method FilterAll(result: CommandResult, lines: seq<OutputLine>)
    modifies result
    ensures result.data == Replay(old(result.data), lines)
  {
    for i := 0 to |lines|
      invariant result.data == Replay(old(result.data), lines[..i])
    {
      if lines[i].stream == Stderr {
        OnStderrLine(result, lines[i].text);
      }
      assert lines[..i + 1] == lines[..i] + [lines[i]];
      ReplaySnoc(old(result.data), lines[..i], lines[i]);
    }
    assert lines[..|lines|] == lines;
  }

  // ---------------------------------------------------------------------
  // Full output capture
  // ---------------------------------------------------------------------

  /** What the listener appends for one line: a standard-output line and a separator. */
  function Echo(line: OutputLine): string {
    if line.stream == Stdout then line.text + LINE_SEPARATOR else ""
  }

  /** The text captured from the lines in arrival order. */
  function Captured(lines: seq<OutputLine>): string
    decreases |lines|
  {
    if lines == [] then "" else Captured(lines[..|lines| - 1]) + Echo(lines[|lines| - 1])
  }

  /** `FullOutputListener`: a string builder that keeps standard output. */
  class FullOutputListener {
    var output: string

    constructor ()
      ensures output == ""
    {
      output := "";
    }

    /** `onNewOutputLine`. */
    method OnNewOutputLine(line: string, stream: Stream)
      modifies this
      ensures output == old(output) + Echo(OutputLine(stream, line))
    {
      if stream == Stdout {
        output := output + line;
        output := output + LINE_SEPARATOR;
      }
    }
  }

  /** The command runner handing every line, in arrival order, to the listener. */
  method CaptureAll(listener: FullOutputListener, lines: seq<OutputLine>)
    modifies listener
    ensures listener.output == old(listener.output) + Captured(lines)
  {
    for i := 0 to |lines|
      invariant listener.output == old(listener.output) + Captured(lines[..i])
    {
      listener.OnNewOutputLine(lines[i].text, lines[i].stream);
      assert lines[..i + 1][..i] == lines[..i];
    }
    assert lines[..|lines|] == lines;
  }

  /** Captured text read from the front: the first line's echo, then the rest. */
  lemma {:induction false} CapturedFront(lines: seq<OutputLine>)
    requires lines != []
    ensures Captured(lines) == Echo(lines[0]) + Captured(lines[1..])
    decreases |lines|
  {
    if |lines| > 1 {
      var init := lines[..|lines| - 1];
      CapturedFront(init);
      assert init[1..] == lines[1..][..|lines[1..]| - 1];
      assert init[0] == lines[0];
    } else {
      assert lines[..0] == [];
      assert lines[1..] == [];
    }
  }

  /** Standard error plays no part in the captured text. */
  lemma {:induction false} CapturedIgnoresStderr(lines: seq<OutputLine>)
    ensures Captured(lines) == Captured(OnStream(lines, Stdout))
    decreases |lines|
  {
    if lines != [] {
      var rest := OnStream(lines[1..], Stdout);
      CapturedFront(lines);
      CapturedIgnoresStderr(lines[1..]);
      if lines[0].stream == Stdout {
        assert OnStream(lines, Stdout) == [lines[0]] + rest;
        assert ([lines[0]] + rest)[1..] == rest;
        CapturedFront([lines[0]] + rest);
      } else {
        assert OnStream(lines, Stdout) == rest;
      }
    }
  }

  /** The first line printed on standard output. */
  function FirstStdoutLine(lines: seq<OutputLine>): Option<string>
    decreases |lines|
  {
    if lines == [] then None
    else if lines[0].stream == Stdout then Some(lines[0].text)
    else FirstStdoutLine(lines[1..])
  }

  const SUPPORTED: string := "supported"

  /** A line and its separator start with a word free of separators exactly when the line does. */
  lemma StartsWithBeforeSeparator(line: string, rest: string, word: string)
    requires forall i :: 0 <= i < |word| ==> word[i] != LINE_SEPARATOR[0]
    ensures StartsWith(line + LINE_SEPARATOR + rest, word) <==> StartsWith(line, word)
  {
    var s := line + LINE_SEPARATOR + rest;
    if |word| <= |line| {
      assert s[..|word|] == line[..|word|];
    } else if |word| <= |s| {
      assert s[..|word|][|line|] == LINE_SEPARATOR[0];
    }
  }

  /**
   * The captured output starts with "supported" exactly when the command
   * printed a first line on standard output and that line starts with
   * "supported"; what comes on standard error plays no part.
   */
  lemma {:induction false} SupportedIffFirstLine(lines: seq<OutputLine>)
    ensures StartsWith(Captured(lines), SUPPORTED)
        <==> (FirstStdoutLine(lines).Some? && StartsWith(FirstStdoutLine(lines).value, SUPPORTED))
    decreases |lines|
  {
    if lines == [] {
    } else {
      CapturedFront(lines);
      if lines[0].stream == Stdout {
        StartsWithBeforeSeparator(lines[0].text, Captured(lines[1..]), SUPPORTED);
        assert Captured(lines) == lines[0].text + LINE_SEPARATOR + Captured(lines[1..]);
      } else {
        SupportedIffFirstLine(lines[1..]);
        assert Captured(lines) == Captured(lines[1..]);
      }
    }
  }

  // ---------------------------------------------------------------------
  // The patch result
  // ---------------------------------------------------------------------

  /** What `patchFile` returns: the new file name, the message and whether it failed. */
  datatype PatchResult = PatchResult(newFile: string, message: string, failed: bool)

  /** A String operand of `+`: a null reference reads as "null". */
  function ConcatOperand(s: JString): string {
    match s
    case Some(v) => v
    case None => "null"
  }

  /** Every ".zip" in the name becomes "_<partconfig>.zip". */
  function NewFileName(filename: string, partConfig: JString): string {
    ReplaceAll(filename, ZIP, "_" + ConcatOperand(partConfig) + ZIP)
  }

  /**
   * The bundle `patchFile` returns: an absent message reads as the empty
   * string and an absent failed entry as true.
   */
  function PatchResultOf(filename: string, partConfig: JString, data: ResultData): PatchResult {
    PatchResult(NewFileName(filename, partConfig), data.message.GetOr(""), data.failed.GetOr(true))
  }

  /**
   * The result of a run follows its last marker line: the message is that
   * line with the marker removed and the run failed exactly when it is a
   * failure line; a run without any marker line failed with an empty message.
   */
  lemma PatchResultFollowsLastMarker(filename: string, partConfig: JString, lines: seq<OutputLine>)
    ensures var r := PatchResultOf(filename, partConfig, Replay(NO_DATA, lines));
      match LastMarkerLine(lines)
      case None => r.message == "" && r.failed
      case Some(line) =>
        && r.failed == Contains(line, FAIL_MARKER)
        && r.message == (if Contains(line, FAIL_MARKER) then ReplaceAll(line, FAIL_MARKER, "")
                         else ReplaceAll(line, SUCCESS_MARKER, ""))
  {
    ReplayIsLastMarker(NO_DATA, lines);
  }

  /** A failure line in the protocol's own form, `EXITFAIL:<msg>`, reports msg. */
  lemma FailLineMessage(msg: string)
    requires !Contains(msg, FAIL_MARKER)
    ensures StderrLine(NO_DATA, FAIL_MARKER + msg) == ResultData(Some(msg), Some(true))
  {
    assert StartsWith(FAIL_MARKER + msg, FAIL_MARKER) by {
      assert (FAIL_MARKER + msg)[..|FAIL_MARKER|] == FAIL_MARKER;
    }
    assert Contains(FAIL_MARKER + msg, FAIL_MARKER);
    ReplaceLeading(FAIL_MARKER, msg, "");
    ReplaceAbsent(msg, FAIL_MARKER, "");
    assert ReplaceAll(FAIL_MARKER + msg, FAIL_MARKER, "") == "" + msg == msg;
  }

  /** No failure marker begins inside the success marker, whatever follows it. */
  lemma NoFailMarkerInSuccessMarker(msg: string)
    requires !Contains(msg, FAIL_MARKER)
    ensures !Contains(SUCCESS_MARKER + msg, FAIL_MARKER)
  {
    forall i | 0 <= i < |SUCCESS_MARKER|
      ensures !StartsWith(SUCCESS_MARKER[i..] + msg, FAIL_MARKER)
    {
      var s := SUCCESS_MARKER[i..] + msg;
      assert s[0] == SUCCESS_MARKER[i];
      if i == 0 {
        assert s[4] == 'S';
      } else if i == 8 {
        assert s[1] == 'S';
      } else {
        assert SUCCESS_MARKER[i] != 'E';
      }
    }
    NotContainsConcat(SUCCESS_MARKER, msg, FAIL_MARKER);
  }

  /** A success line in the protocol's own form, `EXITSUCCESS:<msg>`, reports msg. */
  lemma SuccessLineMessage(msg: string)
    requires !Contains(msg, FAIL_MARKER) && !Contains(msg, SUCCESS_MARKER)
    ensures StderrLine(NO_DATA, SUCCESS_MARKER + msg) == ResultData(Some(msg), Some(false))
  {
    NoFailMarkerInSuccessMarker(msg);
    assert StartsWith(SUCCESS_MARKER + msg, SUCCESS_MARKER) by {
      assert (SUCCESS_MARKER + msg)[..|SUCCESS_MARKER|] == SUCCESS_MARKER;
    }
    assert Contains(SUCCESS_MARKER + msg, SUCCESS_MARKER);
    ReplaceLeading(SUCCESS_MARKER, msg, "");
    ReplaceAbsent(msg, SUCCESS_MARKER, "");
    assert ReplaceAll(SUCCESS_MARKER + msg, SUCCESS_MARKER, "") == "" + msg == msg;
  }

  /**
   * Noise, then a failure line, then a success line on standard error: the
   * later success line wins, whatever the noise and the failure message say.
   */
  lemma SuccessAfterFailureWins(filename: string, partConfig: JString, noise: string, failure: string, msg: string)
    requires !Contains(msg, FAIL_MARKER) && !Contains(msg, SUCCESS_MARKER)
    ensures var r := PatchResultOf(filename, partConfig, Replay(NO_DATA,
              [OutputLine(Stderr, noise), OutputLine(Stderr, FAIL_MARKER + failure),
               OutputLine(Stderr, SUCCESS_MARKER + msg)]));
            r.message == msg && !r.failed
  {
    var lines := [OutputLine(Stderr, noise), OutputLine(Stderr, FAIL_MARKER + failure),
                  OutputLine(Stderr, SUCCESS_MARKER + msg)];
    SuccessLineMessage(msg);
    assert Contains(SUCCESS_MARKER + msg, SUCCESS_MARKER) by {
      assert (SUCCESS_MARKER + msg)[..|SUCCESS_MARKER|] == SUCCESS_MARKER;
    }
    assert IsMarkerLine(lines[|lines| - 1]);
    ReplayIsLastMarker(NO_DATA, lines);
  }

  /** The line "EXITSUCCESS:ok" after "EXITFAIL:bad device" reports success with message "ok". */
  lemma OkAfterBadDevice(filename: string, partConfig: JString)
    ensures var r := PatchResultOf(filename, partConfig, Replay(NO_DATA,
              [OutputLine(Stderr, "noise"), OutputLine(Stderr, FAIL_MARKER + "bad device"),
               OutputLine(Stderr, SUCCESS_MARKER + "ok")]));
            r.message == "ok" && !r.failed
  {
    NotContainsWithoutFirstChar("ok", FAIL_MARKER);
    NotContainsWithoutFirstChar("ok", SUCCESS_MARKER);
    SuccessAfterFailureWins(filename, partConfig, "noise", "bad device", "ok");
  }

  const ZIP: string := ".zip"

  /** A file without ".zip" in its name keeps its name. */
  lemma NewFileNameWithoutZip(filename: string, partConfig: JString)
    requires !Contains(filename, ZIP)
    ensures NewFileName(filename, partConfig) == filename
  {
    ReplaceAbsent(filename, ZIP, "_" + ConcatOperand(partConfig) + ZIP);
  }

  /**
   * Every ".zip" gets the partition configuration inserted before it, from
   * left to right: the text up to the first ".zip" is kept, that ".zip"
   * becomes "_<partconfig>.zip", and the rest is renamed the same way.
   */
  lemma NewFileNameAtFirstZip(stem: string, rest: string, partConfig: JString)
    requires !Contains(stem, ZIP)
    ensures NewFileName(stem + ZIP + rest, partConfig)
         == stem + "_" + ConcatOperand(partConfig) + ZIP + NewFileName(rest, partConfig)
  {
    assert ZIP[0] !in ZIP[1..] by {
      assert ZIP[1..] == "zip";
    }
    ReplaceAfterClean(stem, ZIP, rest, "_" + ConcatOperand(partConfig) + ZIP);
  }

  /**
   * A name that ends in its only ".zip" gets the partition configuration
   * inserted before the extension ("rom.zip" with "dual" gives
   * "rom_dual.zip"; a null configuration gives "rom_null.zip").
   */
  lemma NewFileNameOfZip(stem: string, partConfig: JString)
    requires !Contains(stem, ZIP)
    ensures NewFileName(stem + ZIP, partConfig) == stem + "_" + ConcatOperand(partConfig) + ZIP
  {
    NewFileNameAtFirstZip(stem, "", partConfig);
    assert stem + ZIP + "" == stem + ZIP;
  }

  /** "rom.zip" patched for "dual" becomes "rom_dual.zip". */
  lemma RomZipForDual()
    ensures NewFileName("rom" + ZIP, Some("dual")) == "rom_dual" + ZIP
  {
    NotContainsWithoutFirstChar("rom", ZIP);
    NewFileNameOfZip("rom", Some("dual"));
  }
}
