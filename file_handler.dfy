/**
 * The upload checks of the web application's `FileHandler`: the size and type
 * test of each uploaded file, the limits on the number of files, the
 * extension test inside archives, the type guess from a file's content and
 * the content validation that reports errors and warnings.
 */
module FileHandling {
  import opened Wrappers
  import opened Text
  import opened Paths
  import opened Requests
  import Security

  /** The errors the handler raises; all of them are `FileProcessingError`s. */
  datatype UploadError =
    | FileTooLarge(size: nat, maxSize: nat)
    | UnsupportedFileType(extension: string)
    | TooManyFiles(count: nat, maxFiles: nat)
    | FileProcessing(message: string)

  /**
   * What loading one upload can end in: one of the handler's own errors,
   * which is passed on unchanged, or any other exception, which is wrapped.
   */
  datatype LoadError = Raised(error: UploadError) | Other(message: string)

  /** An upload as the framework hands it over: its name and declared size, either possibly missing. */
  datatype Upload = Upload(filename: Option<string>, size: Option<nat>)

  /** `Path(name).suffix.lower()`. */
  function LowerSuffix(name: string): (r: string)
    ensures r == "" || r[0] == '.'
    ensures r == ToLower(Suffix(name))
  {
    ToLower(Suffix(name))
  }

  /** The upload has a non-empty name ending in `.zip`, in any case. */
  predicate IsArchiveName(filename: Option<string>)
  {
    filename.Some? && filename.value != "" && EndsWith(ToLower(filename.value), ".zip")
  }

  /** Python's `len(s.encode("utf-8"))`: one to four bytes per character. */
  function Utf8Length(s: string): (n: nat)
    ensures |s| <= n <= 4 * |s|
    ensures (forall k :: 0 <= k < |s| ==> s[k] as int < 0x80) ==> n == |s|
  {
    if s == [] then 0
    else
      var c := s[0] as int;
      (if c < 0x80 then 1 else if c < 0x800 then 2 else if c < 0x10000 then 3 else 4) + Utf8Length(s[1..])
  }

  /** A control character other than tab, line feed and carriage return. */
  predicate IsNonPrintable(c: char)
  {
    (c as int) < 32 && c != '\t' && c != '\n' && c != '\r'
  }

  /** The number of non-printable characters in `s`. */
  function NonPrintableCount(s: string): (n: nat)
    ensures n <= |s|
    ensures n == 0 <==> forall k :: 0 <= k < |s| ==> !IsNonPrintable(s[k])
  {
    if s == [] then 0 else (if IsNonPrintable(s[0]) then 1 else 0) + NonPrintableCount(s[1..])
  }

  lemma NonPrintableCountSnoc(s: string, c: char)
    ensures NonPrintableCount(s + [c]) == NonPrintableCount(s) + (if IsNonPrintable(c) then 1 else 0)
    decreases |s|
  {
    if s == [] {
      assert s + [c] == [c];
    } else {
      assert (s + [c])[1..] == s[1..] + [c];
      NonPrintableCountSnoc(s[1..], c);
    }
  }

  /** The first 1000 characters, `content[:1000]`. */
  function Head(s: string): (r: string)
    ensures |r| == if |s| < 1000 then |s| else 1000
  {
    if |s| <= 1000 then s else s[..1000]
  }

  /**
   * The binary heuristic: more than 100 characters, and non-printable
   * characters are more than a tenth of the first 1000. The comparison is
   * written in whole numbers; for prefixes of at most 1000 characters it
   * agrees with the floating-point `count > len * 0.1`.
   */
  predicate LooksBinary(content: string)
  {
    |content| > 100 && 10 * NonPrintableCount(Head(content)) > |Head(content)|
  }

  function TooLargeMessage(filename: string, size: nat): string
  {
    "File " + filename + " is too large (" + NatToString(size) + " bytes)"
  }

  function EmptyMessage(filename: string): string
  {
    "File " + filename + " appears to be empty"
  }

  function BinaryMessage(filename: string): string
  {
    "File " + filename + " might contain binary content"
  }

  lemma MessagesDiffer(filename: string, size: nat)
    ensures TooLargeMessage(filename, size) != EmptyMessage(filename)
    ensures TooLargeMessage(filename, size) != BinaryMessage(filename)
    ensures EmptyMessage(filename) != BinaryMessage(filename)
  {
    var n := 5 + |filename|;
    var t := TooLargeMessage(filename, size);
    var e := EmptyMessage(filename);
    var b := BinaryMessage(filename);
    assert t[n + 1] == 'i' && e[n + 1] == 'a' && b[n + 1] == 'm';
  }

  class FileHandler {
    /** `max_file_size_bytes` of the settings. */
    const maxFileSize: nat
    /** `max_files_per_request` of the settings. */
    const maxFiles: nat
    /** `set(allowed_file_types)`. */
    const allowedExtensions: set<string>

    constructor(maxFileSize: nat, maxFiles: nat, allowedFileTypes: seq<string>)
      ensures this.maxFileSize == maxFileSize && this.maxFiles == maxFiles
      ensures forall e :: e in this.allowedExtensions <==> e in allowedFileTypes
    {
      this.maxFileSize := maxFileSize;
      this.maxFiles := maxFiles;
      this.allowedExtensions := set k | 0 <= k < |allowedFileTypes| :: allowedFileTypes[k];
    }

    /**
     * `_validate_uploaded_file`: too large when a declared, non-zero size is
     * over the limit; otherwise, for a named upload, unsupported when its
     * suffix is neither `.zip` nor allowed.
     */
    function ValidateUploadedFile(u: Upload): (r: Option<UploadError>)
      ensures r.Some? && r.value.FileTooLarge? <==> u.size.Some? && u.size.value > 0 && u.size.value > maxFileSize
      ensures r.Some? && r.value.FileTooLarge? ==> r.value == FileTooLarge(u.size.value, maxFileSize)
      ensures r.Some? && r.value.UnsupportedFileType?
              <==> !(u.size.Some? && u.size.value > maxFileSize) && u.filename.Some? && u.filename.value != ""
                   && LowerSuffix(u.filename.value) != ".zip" && LowerSuffix(u.filename.value) !in allowedExtensions
      ensures r.Some? ==> r.value.FileTooLarge? || r.value.UnsupportedFileType?
    {
      if u.size.Some? && u.size.value > 0 && u.size.value > maxFileSize then
        Some(FileTooLarge(u.size.value, maxFileSize))
      else if u.filename.Some? && u.filename.value != "" then
        var ext := LowerSuffix(u.filename.value);
        if ext != ".zip" && ext !in allowedExtensions then Some(UnsupportedFileType(ext)) else None
      else None
    }

    /** `_is_supported_file_in_zip`: the lower-cased suffix is an allowed extension. */
    function IsSupportedFileInZip(path: string): (r: bool)
      ensures r ==> LowerSuffix(path) != "" || "" in allowedExtensions
    {
      LowerSuffix(path) in allowedExtensions
    }

    /** The count check made on the uploads and again on the files they expand to. */
    function CheckFileCount(n: nat): (r: Option<UploadError>)
      ensures r.None? <==> n <= maxFiles
      ensures r.Some? ==> r.value == TooManyFiles(n, maxFiles) && n > maxFiles
    {
      if n > maxFiles then Some(TooManyFiles(n, maxFiles)) else None
    }

    /** An error from loading one upload, as the loop passes it on. */
    function Rewrap(u: Upload, e: LoadError): (r: UploadError)
      ensures e.Raised? ==> r == e.error
      ensures e.Other? ==> r.FileProcessing?
    {
      match e
      case Raised(err) => err
      case Other(m) =>
        FileProcessing("Failed to process file " + u.filename.GetOr("None") + ": " + m)
    }

    /**
     * The loop of `process_uploaded_files` over the uploads, with reading,
     * archive extraction and record creation given as `load`: every upload
     * is validated, then loaded, and the first failure ends the loop.
     */
    function Gather(files: seq<Upload>, extract: bool, load: (Upload, bool) -> Result<seq<FileContent>, LoadError>)
      : (r: Result<seq<FileContent>, UploadError>)
      ensures r.Success? <==> forall k :: 0 <= k < |files| ==>
                ValidateUploadedFile(files[k]).None? && load(files[k], extract && IsArchiveName(files[k].filename)).Success?
      ensures r.Failure? ==> exists k :: (0 <= k < |files| &&
                (r.error == ValidateUploadedFile(files[k]).GetOr(r.error)
                 || load(files[k], extract && IsArchiveName(files[k].filename)).Failure?))
    {
      if files == [] then Success([])
      else
        var u := files[0];
        match ValidateUploadedFile(u)
        case Some(e) => Failure(e)
        case None =>
          match load(u, extract && IsArchiveName(u.filename))
          case Failure(e) => Failure(Rewrap(u, e))
          case Success(loaded) =>
            var rest := Gather(files[1..], extract, load);
            GatherTail(files, extract, load, rest);
            match rest
            case Failure(e) => Failure(e)
            case Success(more) => Success(loaded + more)
    }

    /** The loaded files, in upload order, when every upload loads. */
    function Loaded(files: seq<Upload>, extract: bool, load: (Upload, bool) -> Result<seq<FileContent>, LoadError>)
      : seq<FileContent>
      requires forall k :: 0 <= k < |files| ==> load(files[k], extract && IsArchiveName(files[k].filename)).Success?
    {
      if files == [] then []
      else load(files[0], extract && IsArchiveName(files[0].filename)).value + Loaded(files[1..], extract, load)
    }

    lemma GatherTail(files: seq<Upload>, extract: bool, load: (Upload, bool) -> Result<seq<FileContent>, LoadError>,
                     rest: Result<seq<FileContent>, UploadError>)
      requires files != [] && rest == Gather(files[1..], extract, load)
      ensures rest.Success? ==> forall k :: 1 <= k < |files| ==>
                ValidateUploadedFile(files[k]).None? && load(files[k], extract && IsArchiveName(files[k].filename)).Success?
      ensures rest.Failure? ==> exists k :: (1 <= k < |files| &&
                (rest.error == ValidateUploadedFile(files[k]).GetOr(rest.error)
                 || load(files[k], extract && IsArchiveName(files[k].filename)).Failure?))
    {
      if rest.Success? {
        forall k | 1 <= k < |files|
          ensures ValidateUploadedFile(files[k]).None? && load(files[k], extract && IsArchiveName(files[k].filename)).Success?
        {
          assert files[1..][k - 1] == files[k];
        }
      } else {
        var k :| 0 <= k < |files[1..]| &&
                (rest.error == ValidateUploadedFile(files[1..][k]).GetOr(rest.error)
                 || load(files[1..][k], extract && IsArchiveName(files[1..][k].filename)).Failure?);
        assert files[1..][k] == files[k + 1];
      }
    }

    /** What a successful `Gather` returns is what `Loaded` describes. */
    lemma {:induction false} GatherLoads(files: seq<Upload>, extract: bool, load: (Upload, bool) -> Result<seq<FileContent>, LoadError>)
      requires Gather(files, extract, load).Success?
      ensures Gather(files, extract, load).value == Loaded(files, extract, load)
    {
      if files != [] {
        GatherLoads(files[1..], extract, load);
      }
    }

    /** The files gathered so far, followed by the outcome of the remaining uploads. */
    function Continue(prefix: seq<FileContent>, rest: Result<seq<FileContent>, UploadError>): Result<seq<FileContent>, UploadError>
    {
      match rest
      case Failure(e) => Failure(e)
      case Success(more) => Success(prefix + more)
    }

    lemma ContinueAppend(prefix: seq<FileContent>, loaded: seq<FileContent>, rest: Result<seq<FileContent>, UploadError>)
      ensures Continue(prefix, match rest case Failure(e) => Failure(e) case Success(more) => Success(loaded + more))
           == Continue(prefix + loaded, rest)
    {
      if rest.Success? {
        assert prefix + (loaded + rest.value) == prefix + loaded + rest.value;
      }
    }

    lemma ContinueNothing(rest: Result<seq<FileContent>, UploadError>)
      ensures Continue([], rest) == rest
    {
      if rest.Success? {
        assert [] + rest.value == rest.value;
      }
    }

    /** One step of `Gather` at position `i`. */
    lemma GatherUnfold(files: seq<Upload>, i: nat, extract: bool, load: (Upload, bool) -> Result<seq<FileContent>, LoadError>)
      requires i < |files|
      ensures Gather(files[i..], extract, load)
           == match ValidateUploadedFile(files[i])
              case Some(e) => Failure(e)
              case None =>
                match load(files[i], extract && IsArchiveName(files[i].filename))
                case Failure(e) => Failure(Rewrap(files[i], e))
                case Success(loaded) =>
                  match Gather(files[i + 1..], extract, load)
                  case Failure(e) => Failure(e)
                  case Success(more) => Success(loaded + more)
    {
      assert files[i..][0] == files[i] && files[i..][1..] == files[i + 1..];
    }

    /**
     * `process_uploaded_files`: too many uploads are refused before any is
     * looked at; otherwise every upload is validated and loaded in order, and
     * the files they expand to are counted once more.
     */
    method ProcessUploadedFiles(files: seq<Upload>, extract: bool, load: (Upload, bool) -> Result<seq<FileContent>, LoadError>)
      returns (r: Result<seq<FileContent>, UploadError>)
      ensures |files| > maxFiles ==> r == Failure(TooManyFiles(|files|, maxFiles))
      ensures r.Success? ==> |files| <= maxFiles && |r.value| <= maxFiles
      ensures r.Success? ==> forall k :: 0 <= k < |files| ==>
                ValidateUploadedFile(files[k]).None? && load(files[k], extract && IsArchiveName(files[k].filename)).Success?
      ensures r.Success? ==> r.value == Loaded(files, extract, load)
      ensures |files| <= maxFiles && Gather(files, extract, load).Success? ==>
                r == (match CheckFileCount(|Gather(files, extract, load).value|)
                      case Some(e) => Failure(e)
                      case None => Gather(files, extract, load))
      ensures |files| <= maxFiles && Gather(files, extract, load).Failure? ==> r == Gather(files, extract, load)
    {
      if |files| > maxFiles {
        return Failure(TooManyFiles(|files|, maxFiles));
      }
      var all: seq<FileContent> := [];
      var i := 0;
      assert files[0..] == files;
      ContinueNothing(Gather(files, extract, load));
      while i < |files|
        invariant 0 <= i <= |files|
        invariant Gather(files, extract, load) == Continue(all, Gather(files[i..], extract, load))
      {
        var u := files[i];
        GatherUnfold(files, i, extract, load);
        match ValidateUploadedFile(u) {
          case Some(e) =>
            return Failure(e);
          case None =>
        }
        match load(u, extract && IsArchiveName(u.filename)) {
          case Failure(e) =>
            return Failure(Rewrap(u, e));
          case Success(loaded) =>
            ContinueAppend(all, loaded, Gather(files[i + 1..], extract, load));
            all := all + loaded;
        }
        i := i + 1;
      }
      assert files[i..] == [];
      if |all| > maxFiles {
        return Failure(TooManyFiles(|all|, maxFiles));
      }
      GatherLoads(files, extract, load);
      r := Success(all);
    }

    /**
     * `get_file_type_from_content`: the lower-cased suffix when there is
     * one; otherwise the first rule that fits the lower-cased, stripped
     * content, and `.txt` when none does.
     */
    function GetFileTypeFromContent(content: string, filename: string): (r: string)
      ensures |r| >= 2 && r[0] == '.'
      ensures LowerSuffix(filename) != "" ==> r == LowerSuffix(filename)
      ensures LowerSuffix(filename) == "" ==> r in {".html", ".xml", ".js", ".py", ".java", ".txt"}
    {
      var ext := LowerSuffix(filename);
      if ext != "" then ext
      else GuessFromContent(Strip(ToLower(content)))
    }

    /** The content rules, tried in order on the prepared text. */
    function GuessFromContent(c: string): (r: string)
      ensures r in {".html", ".xml", ".js", ".py", ".java", ".txt"}
      ensures r == ".txt" <==> !StartsWith(c, "<") && !Contains(c, "<html") && !Contains(c, "\"use strict\"")
                               && !Contains(c, "function(") && !Contains(c, "def ") && !Contains(c, "import ")
                               && !(Contains(c, "class ") && Contains(c, "{"))
      ensures StartsWith(c, "<") ==> r == ".html" || r == ".xml"
    {
      if StartsWith(c, "<!doctype html") || Contains(c, "<html") then ".html"
      else if StartsWith(c, "<?xml") || StartsWith(c, "<") then ".xml"
      else if Contains(c, "\"use strict\"") || Contains(c, "function(") then ".js"
      else if Contains(c, "def ") || Contains(c, "import ") then ".py"
      else if Contains(c, "class ") && Contains(c, "{") then ".java"
      else ".txt"
    }

    /**
     * `validate_file_content`: valid exactly when the UTF-8 encoding fits
     * the size limit; the messages are the error, if any, followed by the
     * empty-content and binary-content warnings that apply.
     */
    method ValidateFileContent(f: FileContent) returns (valid: bool, messages: seq<string>)
      ensures valid <==> Utf8Length(f.content) <= maxFileSize
      ensures messages == ContentErrors(f) + ContentWarnings(f)
    {
      var errors: seq<string> := [];
      var warnings: seq<string> := [];
      var contentSize := Utf8Length(f.content);
      if contentSize > maxFileSize {
        errors := errors + [TooLargeMessage(f.filename, contentSize)];
      }
      ErrorsAsComputed(f, contentSize, errors);
      var blank := Strip(f.content) == "";
      if blank {
        warnings := warnings + [EmptyMessage(f.filename)];
      }
      var binary := false;
      if |f.content| > 100 {
        var head := Head(f.content);
        var count := CountNonPrintable(head);
        if 10 * count > |head| {
          warnings := warnings + [BinaryMessage(f.filename)];
          binary := true;
        }
      }
      WarningsInOrder(f, blank, binary, warnings);
      valid := |errors| == 0;
      messages := errors + warnings;
    }

    lemma ErrorsAsComputed(f: FileContent, contentSize: nat, errors: seq<string>)
      requires contentSize == Utf8Length(f.content)
      requires errors == if contentSize > maxFileSize then [TooLargeMessage(f.filename, contentSize)] else []
      ensures errors == ContentErrors(f)
    {
    }

    lemma WarningsInOrder(f: FileContent, blank: bool, binary: bool, warnings: seq<string>)
      requires blank == (Strip(f.content) == "") && binary == LooksBinary(f.content)
      requires warnings == (if blank then [EmptyMessage(f.filename)] else [])
                           + (if binary then [BinaryMessage(f.filename)] else [])
      ensures warnings == ContentWarnings(f)
    {
    }

    /** The generator sum over `content[:1000]`, one character at a time. */
    static method CountNonPrintable(head: string) returns (count: nat)
      ensures count == NonPrintableCount(head)
    {
      count := 0;
      for k := 0 to |head|
        invariant count == NonPrintableCount(head[..k])
      {
        assert head[..k + 1] == head[..k] + [head[k]];
        NonPrintableCountSnoc(head[..k], head[k]);
        if IsNonPrintable(head[k]) {
          count := count + 1;
        }
      }
      assert head[..|head|] == head;
    }

    /** The error `validate_file_content` reports: the UTF-8 size is over the limit. */
    function ContentErrors(f: FileContent): (r: seq<string>)
      ensures r != [] <==> Utf8Length(f.content) > maxFileSize
      ensures r != [] ==> r == [TooLargeMessage(f.filename, Utf8Length(f.content))]
    {
      if Utf8Length(f.content) > maxFileSize then [TooLargeMessage(f.filename, Utf8Length(f.content))] else []
    }

    /** The warnings: blank content, then content that looks binary. */
    function ContentWarnings(f: FileContent): (r: seq<string>)
      ensures |r| <= 2
      ensures EmptyMessage(f.filename) in r <==> Strip(f.content) == ""
      ensures BinaryMessage(f.filename) in r <==> LooksBinary(f.content)
    {
      MessagesDiffer(f.filename, 0);
      (if Strip(f.content) == "" then [EmptyMessage(f.filename)] else [])
      + (if LooksBinary(f.content) then [BinaryMessage(f.filename)] else [])
    }

    /** Errors come first: a message is the error exactly when it stands before the warnings. */
    lemma ErrorsBeforeWarnings(f: FileContent)
      ensures forall k :: 0 <= k < |ContentErrors(f) + ContentWarnings(f)| ==>
                ((ContentErrors(f) + ContentWarnings(f))[k] in ContentErrors(f) <==> k < |ContentErrors(f)|)
    {
      MessagesDiffer(f.filename, Utf8Length(f.content));
    }

    /** Blank content is valid (it is far under any limit) and never an error, only a warning. */
    lemma EmptyContentOnlyWarns(f: FileContent)
      requires f.content == ""
      ensures ContentErrors(f) == []
      ensures ContentWarnings(f) == [EmptyMessage(f.filename)]
    {
    }

    /** Content without control characters never looks binary. */
    lemma PrintableNeverBinary(f: FileContent)
      requires forall k :: 0 <= k < |f.content| ==> !IsNonPrintable(f.content[k])
      ensures BinaryMessage(f.filename) !in ContentWarnings(f)
    {
      var head := Head(f.content);
      assert forall k :: 0 <= k < |head| ==> head[k] == f.content[k];
    }

    /**
     * Blank and binary are not exclusive: 101 form feeds are whitespace to
     * `strip()` and control characters to the binary test, so both warnings
     * are given.
     */
    lemma FormFeedsWarnTwice(f: FileContent)
      requires |f.content| == 101 && forall k :: 0 <= k < 101 ==> f.content[k] as int == 12
      ensures ContentWarnings(f) == [EmptyMessage(f.filename), BinaryMessage(f.filename)]
    {
      StripEmptyIffAllSpace(f.content);
      AllNonPrintable(f.content);
    }

    lemma {:induction false} AllNonPrintable(s: string)
      requires forall k :: 0 <= k < |s| ==> IsNonPrintable(s[k])
      ensures NonPrintableCount(s) == |s|
    {
      if s != [] {
        AllNonPrintable(s[1..]);
      }
    }

    /** A file accepted inside an archive is also accepted as a named upload of unknown size. */
    lemma ZipSupportedIsUploadable(path: string)
      requires path != "" && IsSupportedFileInZip(path)
      ensures ValidateUploadedFile(Upload(Some(path), None)).None?
    {
    }

    /** Conversely a named upload that is accepted and is not an archive has an allowed suffix. */
    lemma UploadableIsZipSupported(path: string)
      requires path != "" && ValidateUploadedFile(Upload(Some(path), None)).None? && LowerSuffix(path) != ".zip"
      ensures IsSupportedFileInZip(path)
    {
    }

    /** A declared size of zero, or none at all, is never checked against the limit. */
    lemma UndeclaredSizeNotChecked(name: Option<string>, size: Option<nat>)
      requires size.None? || size.value == 0
      ensures ValidateUploadedFile(Upload(name, size)) == ValidateUploadedFile(Upload(name, None))
    {
    }
  }

  /**
   * The file record built for an upload carries the sanitised name, which
   * always passes the 1 to 255 character check of `FileContent`.
   */
  lemma SanitizedNameFitsFileContent(filename: string)
    requires filename != ""
    ensures CheckFilename(Security.SanitizeFilename(filename).value) == []
  {
  }

  /**
   * With the reserved-name prefix added after the length limit, the name
   * built from `"CON." + "a" * 251` is refused by the same check.
   */
  lemma AsWrittenNameRefused(filename: string)
    requires filename == "CON." + Security.Rep('a', 251)
    ensures CheckFilename(Security.SanitizeFilenameAsWritten(filename).value) != []
  {
    Security.PrefixAfterLimitOverflows(filename);
  }
}
