// The server-side file helpers: a file is validated by a fixed sequence of
// checks that stops at the first failure, classified as text by its
// extension before anything else, and read only when it is text.
//
// What the file system says about a path (existence, kind, size), the MIME
// type `mimetypes` guesses, the outcome of decoding the file's first chunk
// and of reading it whole are parameters.
module FileUtils {
  import opened Wrappers
  import Text
  import OsPath

  const DefaultMaxFileSizeMb := 10

  const TextExtensions: seq<string> := [
    ".txt", ".md", ".py", ".js", ".html", ".css", ".json", ".xml", ".csv",
    ".yaml", ".yml", ".ini", ".cfg", ".conf", ".sh", ".bat", ".ps1", ".c",
    ".cpp", ".h", ".hpp", ".java", ".rb", ".php", ".go", ".rs", ".ts",
    ".jsx", ".tsx", ".vue", ".sql", ".log", ".tex", ".bib", ".rst"]

  const BinaryExtensions: seq<string> := [
    ".pdf", ".png", ".jpg", ".jpeg", ".gif", ".bmp", ".svg", ".webp",
    ".doc", ".docx", ".xls", ".xlsx", ".ppt", ".pptx", ".odt", ".ods",
    ".odp", ".zip", ".tar", ".gz", ".7z", ".rar"]

  /** `ALLOWED_EXTENSIONS`: the text list followed by the binary list. */
  const AllowedExtensions: seq<string> := TextExtensions + BinaryExtensions

  const BytesPerMb := 1048576

  /** What the file system reports for a path. */
  datatype FileFacts = FileFacts(present: bool, isFile: bool, sizeBytes: nat)

  /** A `FileHandlingError`, or another exception that escapes unwrapped. */
  datatype Error = FileHandling(message: string) | Raised(message: string)

  /** How reading the first chunk as UTF-8 went. */
  datatype Probe = Decodes | DecodeFails | ProbeError(message: string)

  // ---- the size check and its message ----

  /** The float test `size / (1024 * 1024) > max_size_mb`, on exact values. */
  predicate TooLarge(sizeBytes: nat, maxSizeMb: int)
  {
    (sizeBytes as real) / (BytesPerMb as real) > maxSizeMb as real
  }

  /** The size limit is a whole number of MB, and a file of exactly that size passes. */
  lemma TooLargeExactly(sizeBytes: nat, maxSizeMb: int)
    ensures TooLarge(sizeBytes, maxSizeMb) <==> sizeBytes > maxSizeMb * BytesPerMb
  {
    var x := (sizeBytes as real) / (BytesPerMb as real);
    assert x * (BytesPerMb as real) == sizeBytes as real;
    assert (maxSizeMb * BytesPerMb) as real == (maxSizeMb as real) * (BytesPerMb as real);
  }

  /** The size in hundredths of a MB, rounded to nearest with ties to even, as `:.2f` rounds. */
  function CentiMb(sizeBytes: nat): nat
  {
    var q := 100 * sizeBytes / BytesPerMb;
    var r := 100 * sizeBytes % BytesPerMb;
    if 2 * r > BytesPerMb || (2 * r == BytesPerMb && q % 2 == 1) then q + 1 else q
  }

  /** The rounded size is within half a hundredth of a MB of the exact size. */
  lemma CentiMbIsNearest(sizeBytes: nat)
    ensures -BytesPerMb / 2 <= CentiMb(sizeBytes) * BytesPerMb - 100 * sizeBytes <= BytesPerMb / 2
  {
    var q := 100 * sizeBytes / BytesPerMb;
    var r := 100 * sizeBytes % BytesPerMb;
    assert 100 * sizeBytes == q * BytesPerMb + r;
  }

  function TwoDecimals(centi: nat): string
  {
    Text.NatToString(centi / 100) + "." + (if centi % 100 < 10 then "0" else "") + Text.NatToString(centi % 100)
  }

  function SizeMessage(sizeBytes: nat, maxSizeMb: int): string
  {
    "File size (" + TwoDecimals(CentiMb(sizeBytes)) + " MB) exceeds maximum allowed size (" + Text.IntToString(maxSizeMb) + " MB)"
  }

  // ---- validate_file ----

  function ExtensionMessage(extension: string, allowed: seq<string>): string
  {
    "File extension " + extension + " not allowed. Allowed extensions: " + Text.Join(allowed, ", ")
  }

  /** `validate_file` */
  function ValidateFile(path: string, facts: FileFacts, maxSizeMb: int, allowed: Option<seq<string>>): Result<bool, Error>
  {
    if !facts.present then Failure(FileHandling("File not found: " + path))
    else if !facts.isFile then Failure(FileHandling("Not a file: " + path))
    else if TooLarge(facts.sizeBytes, maxSizeMb) then Failure(FileHandling(SizeMessage(facts.sizeBytes, maxSizeMb)))
    else if allowed.Some? && Text.Lower(OsPath.Ext(path)) !in allowed.value then
      Failure(FileHandling(ExtensionMessage(Text.Lower(OsPath.Ext(path)), allowed.value)))
    else Success(true)
  }

  /**
   * The checks run in the order existence, kind, size, extension, and the
   * first that fails decides the error; the extension is checked, lowered,
   * only when a list is given. A file passes exactly when no check fails,
   * and a file of exactly the maximum size passes.
   */
  lemma ValidateFileOrder(path: string, facts: FileFacts, maxSizeMb: int, allowed: Option<seq<string>>)
    ensures var r := ValidateFile(path, facts, maxSizeMb, allowed);
      var bigger := facts.sizeBytes > maxSizeMb * BytesPerMb;
      var badExt := allowed.Some? && Text.Lower(OsPath.Ext(path)) !in allowed.value;
      && (!facts.present ==> r == Failure(FileHandling("File not found: " + path)))
      && (facts.present && !facts.isFile ==> r == Failure(FileHandling("Not a file: " + path)))
      && (facts.present && facts.isFile && bigger ==> r == Failure(FileHandling(SizeMessage(facts.sizeBytes, maxSizeMb))))
      && (facts.present && facts.isFile && !bigger && badExt ==>
            r == Failure(FileHandling(ExtensionMessage(Text.Lower(OsPath.Ext(path)), allowed.value))))
      && (r.Success? <==> facts.present && facts.isFile && !bigger && !badExt)
      && (r.Success? ==> r.value)
  {
    TooLargeExactly(facts.sizeBytes, maxSizeMb);
  }

  /** The allowed list is the text list followed by the binary list. */
  lemma AllowedIsTextThenBinary()
    ensures AllowedExtensions[..|TextExtensions|] == TextExtensions
    ensures AllowedExtensions[|TextExtensions|..] == BinaryExtensions
    ensures forall e :: e in AllowedExtensions <==> e in TextExtensions || e in BinaryExtensions
  {
  }

  // ---- is_text_file and read_file_content ----

  /** `is_text_file`: the extension list first, then the MIME guess, then a decoding probe. */
  function IsTextFile(path: string, mimeGuess: Option<string>, probe: Probe): Result<bool, Error>
  {
    if Text.Lower(OsPath.Ext(path)) in TextExtensions then Success(true)
    else if mimeGuess.Some? && "text/" <= mimeGuess.value then Success(true)
    else
      match probe
      case Decodes => Success(true)
      case DecodeFails => Success(false)
      case ProbeError(message) => Failure(Raised(message))
  }

  /**
   * A listed extension makes a file text whatever its MIME guess and
   * contents, with no probe; only a decoding failure makes a file binary,
   * and any other probe error escapes.
   */
  lemma TextByExtensionFirst(path: string, mimeGuess: Option<string>, probe: Probe)
    ensures Text.Lower(OsPath.Ext(path)) in TextExtensions ==> IsTextFile(path, mimeGuess, probe) == Success(true)
    ensures IsTextFile(path, mimeGuess, probe) == Success(false) <==>
      Text.Lower(OsPath.Ext(path)) !in TextExtensions && !(mimeGuess.Some? && "text/" <= mimeGuess.value) && probe == DecodeFails
    ensures IsTextFile(path, mimeGuess, probe).Failure? ==> probe.ProbeError? && IsTextFile(path, mimeGuess, probe).error == Raised(probe.message)
  {
  }

  /** `read_file_content`; `read` is what reading the whole file gives. */
  function ReadFileContent(path: string, facts: FileFacts, maxSizeMb: int, mimeGuess: Option<string>, probe: Probe,
                           read: Result<string, string>): Result<string, Error>
  {
    match ValidateFile(path, facts, maxSizeMb, None)
    case Failure(e) => Failure(e)
    case Success(_) =>
      match IsTextFile(path, mimeGuess, probe)
      case Failure(e) => Failure(e)
      case Success(isText) =>
        if !isText then Failure(FileHandling("Not a text file: " + path))
        else
          match read
          case Success(content) => Success(content)
          case Failure(e) => Failure(FileHandling("Error reading file: " + e))
  }

  /**
   * A file that passes validation (with no extension list) but is not text
   * is refused as such; the content comes back only for a valid text file
   * that reads.
   */
  lemma ReadRefusesBinary(path: string, facts: FileFacts, maxSizeMb: int, mimeGuess: Option<string>, probe: Probe,
                          read: Result<string, string>)
    ensures var valid := ValidateFile(path, facts, maxSizeMb, None).Success?;
      var r := ReadFileContent(path, facts, maxSizeMb, mimeGuess, probe, read);
      && (valid && IsTextFile(path, mimeGuess, probe) == Success(false) ==> r == Failure(FileHandling("Not a text file: " + path)))
      && (r.Success? <==> valid && IsTextFile(path, mimeGuess, probe) == Success(true) && read.Success?)
      && (r.Success? ==> r.value == read.value)
      && (!valid ==> r == Failure(ValidateFile(path, facts, maxSizeMb, None).error))
  {
  }
}
