// The Warp agent tools: the guard in front of running a shell command, the
// guard in front of writing a file, and the text that reports what the
// actions did.
//
// Running the process, the editor and the file system are the host's: the
// process's outcome is a parameter, and the files are a map from path to
// content that the write updates.
module AgentTools {
  import opened Wrappers
  import Text

  /** `WarpActionResult` */
  datatype ActionResult = ActionResult(success: bool, action: string, output: Option<string>, error: Option<string>)

  // ---- execute_terminal_command ----

  /** The substrings that get a command refused, compared with the lowered command. */
  const Dangerous: seq<string> := ["rm -rf /", "sudo rm", "mkfs", "dd if=", "format"]

  predicate Rejected(command: string)
  {
    exists k :: 0 <= k < |Dangerous| && Text.Contains(Text.Lower(command), Dangerous[k])
  }

  /** How the shell run ended, as `subprocess.run` reports it. */
  datatype ProcessOutcome =
    | Exited(returnCode: int, stdout: string, stderr: string)
    | TimedOut
    | Crashed(message: string)

  const Refusal := ActionResult(false, "execute_command", None, Some("Command rejected for security reasons"))

  /** The captured output: stdout, then stderr on its own line when there is any. */
  function Captured(stdout: string, stderr: string): string
  {
    if stderr != "" then stdout + "\nSTDERR: " + stderr else stdout
  }

  /** `execute_terminal_command`; `run` stands for the shell run of the command. */
  function ExecuteTerminalCommand(command: string, timeoutSeconds: int, captureOutput: bool,
                                  run: string -> ProcessOutcome): ActionResult
  {
    if Rejected(command) then Refusal
    else
      match run(command)
      case Exited(code, stdout, stderr) =>
        ActionResult(code == 0, "execute_command",
                     if captureOutput then Some(Captured(stdout, stderr)) else None,
                     if code == 0 then None else Some("Command failed with exit code " + Text.IntToString(code)))
      case TimedOut =>
        ActionResult(false, "execute_command", None,
                     Some("Command timed out after " + Text.IntToString(timeoutSeconds) + " seconds"))
      case Crashed(message) => ActionResult(false, "execute_command", None, Some(message))
  }

  lemma {:induction false} ContainsInfix(x: string, s: string, y: string)
    ensures Text.Contains(x + s + y, s)
  {
    if |x| > 0 {
      assert (x + s + y)[1..] == x[1..] + s + y;
      ContainsInfix(x[1..], s, y);
    } else {
      assert x + s + y == s + y;
    }
  }

  /**
   * A refused command is never run, whatever the shell would have done. A
   * command that is run succeeds exactly when it exits with status 0.
   */
  lemma CommandGuard(command: string, timeoutSeconds: int, captureOutput: bool, run: string -> ProcessOutcome)
    ensures var r := ExecuteTerminalCommand(command, timeoutSeconds, captureOutput, run);
      && (Rejected(command) ==> r == Refusal)
      && (r.success <==> !Rejected(command) && run(command).Exited? && run(command).returnCode == 0)
      && (r.success ==> r.error.None?)
      && (!r.success ==> r.error.Some?)
      && r.action == "execute_command"
  {
  }

  /**
   * The test is a plain substring test on the lowered text: a command with
   * any listed pattern anywhere in it, even inside a longer word, is refused.
   */
  lemma SubstringRefused(before: string, k: nat, after: string)
    requires k < |Dangerous|
    ensures Rejected(before + Dangerous[k] + after)
  {
    var d := Dangerous[k];
    assert forall i :: 0 <= i < |d| ==> !('A' <= d[i] <= 'Z') && d[i] != '\U{212a}' && d[i] != '\U{130}';
    Text.LowerFixesLowerAscii(d);
    Text.LowerAppend(before + d, after);
    Text.LowerAppend(before, d);
    ContainsInfix(Text.Lower(before), d, Text.Lower(after));
  }

  /** Upper case does not escape the filter: "FORMAT" lowers to "format". */
  lemma UpperCaseRefused(before: string, after: string)
    ensures Rejected(before + "FORMAT" + after)
  {
    Text.LowerAppend(before + "FORMAT", after);
    Text.LowerAppend(before, "FORMAT");
    assert Text.Lower("FORMAT") == "format";
    ContainsInfix(Text.Lower(before), "format", Text.Lower(after));
    assert Dangerous[4] == "format";
  }

  // ---- create_file_from_response ----

  /** The files the host holds, by path. */
  type Files = map<string, string>

  /**
   * What can go wrong once the guard has passed. Creating the parent
   * directories or opening the file can fail before anything is written;
   * `open(path, 'w')` creates or truncates the file first, so a failure
   * while writing or closing leaves the path holding what got out before
   * it: the first `written` characters of the content.
   */
  datatype WriteError =
    | OpenFailed(message: string)
    | WriteFailed(message: string, written: nat)
  {
    function Message(): string
    {
      match this
      case OpenFailed(m) => m
      case WriteFailed(m, _) => m
    }
  }

  /** What a failed write left at the path: a prefix of the content. */
  function Partial(content: string, written: nat): string
  {
    if written <= |content| then content[..written] else content
  }

  /**
   * `create_file_from_response`: the files afterwards and the result.
   * `writeError` is what making the directories, opening or writing would
   * raise, if anything.
   */
  function CreateFileFromResponse(files: Files, filePath: string, content: string, overwrite: bool,
                                  writeError: Option<WriteError>): (Files, ActionResult)
  {
    if filePath in files && !overwrite then
      (files, ActionResult(false, "create_file", None, Some("File " + filePath + " already exists and overwrite=False")))
    else if writeError.Some? then
      var after := match writeError.value
        case OpenFailed(_) => files
        case WriteFailed(_, n) => files[filePath := Partial(content, n)];
      (after, ActionResult(false, "create_file", None, Some(writeError.value.Message())))
    else
      (files[filePath := content], ActionResult(true, "create_file", Some("Successfully created file: " + filePath), None))
  }

  /**
   * An existing file is never replaced unless overwrite is asked for. The
   * write succeeds exactly when the guard passes and no error occurs, and
   * then the path holds the content. A failure before the open changes
   * nothing; a failure after it leaves the path holding a prefix of the
   * content (empty when nothing got out), so an overwritten file has lost
   * its old text. No other file ever changes.
   */
  lemma OverwriteGuard(files: Files, filePath: string, content: string, overwrite: bool, writeError: Option<WriteError>)
    ensures var (after, r) := CreateFileFromResponse(files, filePath, content, overwrite, writeError);
      && (filePath in files && !overwrite ==> after == files && !r.success)
      && (r.success <==> (filePath !in files || overwrite) && writeError.None?)
      && (r.success ==> after == files[filePath := content] && after[filePath] == content)
      && (!r.success && (writeError.None? || writeError.value.OpenFailed? || (filePath in files && !overwrite)) ==>
            after == files)
      && ((filePath !in files || overwrite) && writeError.Some? && writeError.value.WriteFailed? ==>
            && !r.success
            && filePath in after
            && |after[filePath]| <= |content| && after[filePath] == content[..|after[filePath]|]
            && (writeError.value.written == 0 ==> after[filePath] == ""))
      && (forall p :: p != filePath ==> (p in after <==> p in files) && (p in after ==> after[p] == files[p]))
  {
  }

  // ---- format_action_results ----

  const NoActions := "No actions were detected or executed."

  function Mark(r: ActionResult): string
  {
    if r.success then "✓" else "✗"
  }

  /** The lines of the entry numbered `i`: its head, then output and error when set. */
  function EntryLines(i: nat, r: ActionResult): (lines: seq<string>)
    ensures |lines| >= 1 && lines[0] == Text.NatToString(i) + ". " + Mark(r) + " " + r.action
  {
    [Text.NatToString(i) + ". " + Mark(r) + " " + r.action]
    + (if r.output.Some? && r.output.value != "" then ["   Output: " + r.output.value] else [])
    + (if r.error.Some? && r.error.value != "" then ["   Error: " + r.error.value] else [])
  }

  function SuccessCount(results: seq<ActionResult>): (n: nat)
    ensures n <= |results|
  {
    if results == [] then 0 else (if results[0].success then 1 else 0) + SuccessCount(results[1..])
  }

  function Header(results: seq<ActionResult>): seq<string>
  {
    ["Executed " + Text.NatToString(|results|) + " actions (" + Text.NatToString(SuccessCount(results)) + " successful)",
     Text.Repeat('=', 50)]
  }

  /** The entries of the first `k` results, each followed by a blank line unless it is the last result. */
  function Body(results: seq<ActionResult>, k: nat): seq<string>
    requires k <= |results|
  {
    if k == 0 then []
    else Body(results, k - 1) + EntryLines(k, results[k - 1]) + (if k < |results| then [""] else [])
  }

  /** `format_action_results` */
  function FormatActionResults(results: seq<ActionResult>): string
  {
    if results == [] then NoActions
    else Text.Join(Header(results) + Body(results, |results|), "\n")
  }

  /** Where the entry of result `k` starts in the body. */
  function Start(results: seq<ActionResult>, k: nat): nat
    requires k <= |results|
  {
    if k == 0 then 0 else Start(results, k - 1) + |EntryLines(k, results[k - 1])| + 1
  }

  lemma {:induction false} BodyGrows(results: seq<ActionResult>, k: nat, m: nat)
    requires k <= m <= |results|
    ensures Body(results, k) <= Body(results, m)
    decreases m - k
  {
    if k < m {
      BodyGrows(results, k, m - 1);
    }
  }

  lemma {:induction false} BodyLength(results: seq<ActionResult>, k: nat)
    requires k <= |results|
    ensures |Body(results, k)| == Start(results, k) - (if 0 < k == |results| then 1 else 0)
  {
    if k > 0 {
      BodyLength(results, k - 1);
    }
  }

  /**
   * Every result has an entry, in order: the entry of the k-th result
   * (counting from 0) starts with its number k+1, its mark and its action.
   */
  lemma EntryHeads(results: seq<ActionResult>, k: nat)
    requires k < |results|
    ensures Start(results, k) < |Body(results, |results|)|
    ensures Body(results, |results|)[Start(results, k)] == Text.NatToString(k + 1) + ". " + Mark(results[k]) + " " + results[k].action
  {
    BodyLength(results, k);
    BodyGrows(results, k + 1, |results|);
    var prev := Body(results, k);
    assert Body(results, k + 1) == prev + EntryLines(k + 1, results[k]) + (if k + 1 < |results| then [""] else []);
    assert |prev| == Start(results, k);
    assert Body(results, k + 1)[Start(results, k)] == EntryLines(k + 1, results[k])[0];
  }

  /**
   * Entries are separated by exactly one blank line: the line before each
   * entry but the first is blank, and the body does not end with one.
   */
  lemma Separators(results: seq<ActionResult>, k: nat)
    requires 0 < k < |results|
    ensures 0 < Start(results, k) < |Body(results, |results|)|
    ensures Body(results, |results|)[Start(results, k) - 1] == ""
    ensures Body(results, |results|)[|Body(results, |results|)| - 1] != ""
  {
    BodyLength(results, k);
    BodyGrows(results, k, |results|);
    var n := |results|;
    assert Body(results, k)[Start(results, k) - 1] == "";
    var last := EntryLines(n, results[n - 1]);
    assert Body(results, n) == Body(results, n - 1) + last + [];
    var line := last[|last| - 1];
    assert line[0] == ' ' || line[0] == Text.NatToString(n)[0];
  }

  /**
   * No results gives exactly the fixed notice; otherwise the text opens with
   * the count of results and of successes, then a rule of 50 '='.
   */
  lemma FormatCases(results: seq<ActionResult>)
    ensures results == [] ==> FormatActionResults(results) == NoActions
    ensures results != [] ==>
      Header(results)[0] + "\n" + Text.Repeat('=', 50) <= FormatActionResults(results)
      && FormatActionResults(results) != NoActions
  {
    if results != [] {
      var lines := Header(results) + Body(results, |results|);
      assert lines == [Header(results)[0]] + ([Header(results)[1]] + Body(results, |results|));
      Text.JoinPrepend(Header(results)[0], [Header(results)[1]] + Body(results, |results|), "\n");
      JoinStartsWith([Header(results)[1]] + Body(results, |results|), "\n");
      assert FormatActionResults(results)[0] == 'E';
    }
  }

  lemma JoinStartsWith(parts: seq<string>, sep: string)
    requires |parts| >= 1
    ensures parts[0] <= Text.Join(parts, sep)
  {
  }

  lemma BodyStep(results: seq<ActionResult>, i: nat)
    requires i < |results|
    ensures Body(results, i + 1) == Body(results, i) + (EntryLines(i + 1, results[i]) + (if i + 1 < |results| then [""] else []))
  {
  }

  lemma AppendAssoc(a: seq<string>, b: seq<string>, c: seq<string>)
    ensures a + b + c == a + (b + c)
  {
  }

  /** One turn of the loop of `format_action_results`: the entry's lines appended to `output`. */
  method AppendEntry(output: seq<string>, i: nat, result: ActionResult) returns (r: seq<string>)
    ensures r == output + EntryLines(i, result)
  {
    var status := if result.success then "✓" else "✗";
    r := output + [Text.NatToString(i) + ". " + status + " " + result.action];
    if result.output.Some? && result.output.value != "" {
      r := r + ["   Output: " + result.output.value];
    }
    if result.error.Some? && result.error.value != "" {
      r := r + ["   Error: " + result.error.value];
    }
  }

  /** The loop of `format_action_results`, numbering the results from 1. */
  method FormatResults(results: seq<ActionResult>) returns (text: string)
    ensures text == FormatActionResults(results)
  {
    if results == [] {
      return NoActions;
    }
    var successCount := SuccessCount(results);
    var output := ["Executed " + Text.NatToString(|results|) + " actions (" + Text.NatToString(successCount) + " successful)"];
    output := output + [Text.Repeat('=', 50)];
    ghost var header := Header(results);
    assert output == header + Body(results, 0);
    var i := 0;
    while i < |results|
      invariant 0 <= i <= |results|
      invariant output == header + Body(results, i)
    {
      output := AppendEntry(output, i + 1, results[i]);
      ghost var separator: seq<string> := if i + 1 < |results| then [""] else [];
      if i + 1 < |results| {
        output := output + [""];
      }
      BodyStep(results, i);
      AppendAssoc(header, Body(results, i), EntryLines(i + 1, results[i]) + separator);
      assert output == header + Body(results, i + 1);
      i := i + 1;
    }
    text := Text.Join(output, "\n");
  }
}
