// The client's file helpers: validation that also settles a MIME type,
// classification that trusts the MIME guess first, a read that wraps every
// failure in one error and reports binary files by name, and the fixed
// extension-to-MIME table.
//
// File-system facts, the MIME guess, the decoding probe and the whole-file
// read are parameters, with the same shapes as in FileUtils.
module ClientFileUtils {
  import opened Wrappers
  import Text
  import OsPath
  import FileUtils

  const DefaultMime := "application/octet-stream"

  /** `validate_file`: the path and its MIME type, or the first check that fails. */
  function ValidateFile(path: string, facts: FileUtils.FileFacts, maxSizeMb: int, mimeGuess: Option<string>)
    : Result<(string, string), string>
  {
    if !facts.present then Failure("File not found: " + path)
    else if !facts.isFile then Failure("Not a regular file: " + path)
    else if FileUtils.TooLarge(facts.sizeBytes, maxSizeMb) then Failure(FileUtils.SizeMessage(facts.sizeBytes, maxSizeMb))
    else Success((path, if mimeGuess.Some? && mimeGuess.value != "" then mimeGuess.value else DefaultMime))
  }

  /**
   * Missing, then not regular, then larger than the limit (a file of exactly
   * the limit passes); a valid file comes back with its path and the guessed
   * MIME type, or "application/octet-stream" when there is no guess.
   */
  lemma ValidateFileOrder(path: string, facts: FileUtils.FileFacts, maxSizeMb: int, mimeGuess: Option<string>)
    ensures var r := ValidateFile(path, facts, maxSizeMb, mimeGuess);
      var bigger := facts.sizeBytes > maxSizeMb * FileUtils.BytesPerMb;
      && (!facts.present ==> r == Failure("File not found: " + path))
      && (facts.present && !facts.isFile ==> r == Failure("Not a regular file: " + path))
      && (facts.present && facts.isFile && bigger ==> r == Failure(FileUtils.SizeMessage(facts.sizeBytes, maxSizeMb)))
      && (r.Success? <==> facts.present && facts.isFile && !bigger)
      && (r.Success? ==> r.value.0 == path && r.value.1 != "")
      && (r.Success? && mimeGuess.Some? && mimeGuess.value != "" ==> r.value.1 == mimeGuess.value)
      && (r.Success? && (mimeGuess.None? || mimeGuess.value == "") ==> r.value.1 == DefaultMime)
  {
    FileUtils.TooLargeExactly(facts.sizeBytes, maxSizeMb);
  }

  const TextExtensions: seq<string> := [
    ".txt", ".md", ".csv", ".json", ".xml", ".html", ".htm",
    ".css", ".js", ".py", ".java", ".c", ".cpp", ".h", ".hpp",
    ".sh", ".bat", ".ps1", ".yaml", ".yml", ".toml", ".ini",
    ".cfg", ".conf", ".log", ".sql", ".r", ".rb", ".pl", ".php"]

  /** `is_text_file`: the MIME guess first, then the extension of the lowered path, then a decoding probe. */
  function IsTextFile(path: string, mimeGuess: Option<string>, probe: FileUtils.Probe): Result<bool, FileUtils.Error>
  {
    if mimeGuess.Some? && "text/" <= mimeGuess.value then Success(true)
    else if OsPath.Ext(Text.Lower(path)) in TextExtensions then Success(true)
    else
      match probe
      case Decodes => Success(true)
      case DecodeFails => Success(false)
      case ProbeError(message) => Failure(FileUtils.Raised(message))
  }

  /**
   * A "text/" guess or a listed extension makes a file text with no probe;
   * a file is binary only when neither holds and its first chunk does not
   * decode.
   */
  lemma TextBeforeProbe(path: string, mimeGuess: Option<string>, probe: FileUtils.Probe)
    ensures (mimeGuess.Some? && "text/" <= mimeGuess.value) || OsPath.Ext(Text.Lower(path)) in TextExtensions
      ==> IsTextFile(path, mimeGuess, probe) == Success(true)
    ensures IsTextFile(path, mimeGuess, probe) == Success(false) <==>
      !(mimeGuess.Some? && "text/" <= mimeGuess.value) && OsPath.Ext(Text.Lower(path)) !in TextExtensions
      && probe == FileUtils.DecodeFails
  {
  }

  /** `read_file_content`: (content, true) for text, (base name, false) otherwise. */
  function ReadFileContent(path: string, facts: FileUtils.FileFacts, maxSizeMb: int, mimeGuess: Option<string>,
                           probe: FileUtils.Probe, read: Result<string, string>): Result<(string, bool), string>
  {
    match ValidateFile(path, facts, maxSizeMb, mimeGuess)
    case Failure(e) => Failure("Error reading file: " + e)
    case Success(_) =>
      match IsTextFile(path, mimeGuess, probe)
      case Failure(e) => Failure("Error reading file: " + e.message)
      case Success(isText) =>
        if isText then
          match read
          case Success(content) => Success((content, true))
          case Failure(e) => Failure("Error reading file: " + e)
        else Success((OsPath.BaseName(path), false))
  }

  /**
   * Every failure comes out as one `FileHandlingError` whose text starts
   * "Error reading file: " and carries the original message; the flag says
   * whether the first half is the content or only the file's base name, and
   * a binary file is never read.
   */
  lemma ReadResultShape(path: string, facts: FileUtils.FileFacts, maxSizeMb: int, mimeGuess: Option<string>,
                        probe: FileUtils.Probe, read: Result<string, string>)
    ensures var r := ReadFileContent(path, facts, maxSizeMb, mimeGuess, probe, read);
      var v := ValidateFile(path, facts, maxSizeMb, mimeGuess);
      && (r.Failure? ==> "Error reading file: " <= r.error)
      && (v.Failure? ==> r == Failure("Error reading file: " + v.error))
      && (r.Success? && r.value.1 ==> read == Success(r.value.0) && IsTextFile(path, mimeGuess, probe) == Success(true))
      && (r.Success? && !r.value.1 ==> r.value.0 == OsPath.BaseName(path) && IsTextFile(path, mimeGuess, probe) == Success(false))
      && (v.Success? && IsTextFile(path, mimeGuess, probe) == Success(false) ==> r == Success((OsPath.BaseName(path), false)))
  {
  }

  /** `get_common_mime_types` */
  const CommonMimeTypes: seq<(string, string)> := [
    (".txt", "text/plain"),
    (".html", "text/html"),
    (".htm", "text/html"),
    (".css", "text/css"),
    (".csv", "text/csv"),
    (".json", "application/json"),
    (".pdf", "application/pdf"),
    (".doc", "application/msword"),
    (".docx", "application/vnd.openxmlformats-officedocument.wordprocessingml.document"),
    (".xls", "application/vnd.ms-excel"),
    (".xlsx", "application/vnd.openxmlformats-officedocument.spreadsheetml.sheet"),
    (".ppt", "application/vnd.ms-powerpoint"),
    (".pptx", "application/vnd.openxmlformats-officedocument.presentationml.presentation"),
    (".zip", "application/zip"),
    (".xml", "application/xml"),
    (".jpg", "image/jpeg"),
    (".jpeg", "image/jpeg"),
    (".png", "image/png"),
    (".gif", "image/gif"),
    (".svg", "image/svg+xml"),
    (".webp", "image/webp"),
    (".mp3", "audio/mpeg"),
    (".wav", "audio/wav"),
    (".ogg", "audio/ogg"),
    (".mp4", "video/mp4"),
    (".avi", "video/x-msvideo"),
    (".webm", "video/webm"),
    (".py", "text/x-python"),
    (".js", "text/javascript"),
    (".java", "text/x-java"),
    (".c", "text/x-c"),
    (".cpp", "text/x-c++"),
    (".rb", "text/x-ruby"),
    (".go", "text/x-go"),
    (".rs", "text/x-rust"),
    (".php", "text/x-php")]

  /** The dictionary's `get`: the first entry for the key. */
  function MimeFor(table: seq<(string, string)>, extension: string): (r: Option<string>)
    ensures r.Some? ==> exists k :: 0 <= k < |table| && table[k] == (extension, r.value)
    ensures r.None? ==> forall k :: 0 <= k < |table| ==> table[k].0 != extension
  {
    if table == [] then None
    else if table[0].0 == extension then Some(table[0].1)
    else MimeFor(table[1..], extension)
  }

  /** The entry at `k` is the one found when no earlier entry has its key. */
  lemma {:induction false} MimeForAt(table: seq<(string, string)>, k: nat)
    requires k < |table|
    requires forall j :: 0 <= j < k ==> table[j].0 != table[k].0
    ensures MimeFor(table, table[k].0) == Some(table[k].1)
  {
    if k > 0 {
      MimeForAt(table[1..], k - 1);
    }
  }

  /** ".py" maps to "text/x-python". */
  lemma PythonMime()
    ensures MimeFor(CommonMimeTypes, ".py") == Some("text/x-python")
  {
    var t := CommonMimeTypes;
    assert t[27] == (".py", "text/x-python");
    assert forall j :: 0 <= j < 27 ==> t[j].0 != ".py";
    MimeForAt(t, 27);
  }

  /** ".json" maps to "application/json". */
  lemma JsonMime()
    ensures MimeFor(CommonMimeTypes, ".json") == Some("application/json")
  {
    var t := CommonMimeTypes;
    assert t[5] == (".json", "application/json");
    MimeForAt(t, 5);
  }
}
