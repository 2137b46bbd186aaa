/**
 * The request bodies the web application accepts, and the field constraints
 * and validators that decide whether a body is accepted. Each `Check...`
 * function lists the constraints a value breaks; a body is accepted exactly
 * when that list is empty.
 */
module Requests {
  import opened Wrappers

  /** One broken constraint, named by the field it belongs to. */
  datatype Violation =
    | TooShort(field: string, min: nat)
    | TooLong(field: string, max: nat)
    | OutOfRange(field: string)
    | NoPatternMatch(field: string)
    /** A validator raised `ValueError` with this message. */
    | Rejected(field: string, message: string)

  /** A file handed in for analysis; `fileType` is the optional extension. */
  datatype FileContent = FileContent(filename: string, content: string, fileType: Option<string>)

  const MaxFilenameLength: nat := 255
  const MaxContentLength: nat := 1000000

  /** The `filename` validator: 1 to 255 characters. */
  function CheckFilename(v: string): (r: seq<Violation>)
    ensures r == [] <==> 0 < |v| <= MaxFilenameLength
    ensures forall x :: x in r ==> x.field == "filename"
  {
    if v == "" || |v| > MaxFilenameLength then [Rejected("filename", "Filename must be 1-255 characters")] else []
  }

  /** The `content` validator: at most 1,000,000 characters. */
  function CheckContent(v: string): (r: seq<Violation>)
    ensures r == [] <==> |v| <= MaxContentLength
    ensures forall x :: x in r ==> x.field == "content"
  {
    if |v| > MaxContentLength then [Rejected("content", "File content too large (max 1MB)")] else []
  }

  /** `FileContent(...)`: the record, or every field validator that failed. */
  function NewFileContent(filename: string, content: string, fileType: Option<string>): (r: Result<FileContent, seq<Violation>>)
    ensures r.Success? <==> 0 < |filename| <= MaxFilenameLength && |content| <= MaxContentLength
    ensures r.Success? ==> r.value == FileContent(filename, content, fileType)
    ensures r.Failure? ==> r.error != [] && forall x :: x in r.error ==> x.field in {"filename", "content"}
  {
    var errors := CheckFilename(filename) + CheckContent(content);
    if errors == [] then Success(FileContent(filename, content, fileType)) else Failure(errors)
  }

  predicate ValidFileContent(f: FileContent)
  {
    0 < |f.filename| <= MaxFilenameLength && |f.content| <= MaxContentLength
  }

  // ------------------------------------------------------------ duplicates

  function Filenames(files: seq<FileContent>): (r: seq<string>)
    ensures |r| == |files| && forall k :: 0 <= k < |files| ==> r[k] == files[k].filename
  {
    seq(|files|, k requires 0 <= k < |files| => files[k].filename)
  }

  /** `set(names)`. */
  function SetOf(names: seq<string>): set<string>
  {
    set k | 0 <= k < |names| :: names[k]
  }

  /** The same name at two positions. */
  predicate Repeats(names: seq<string>)
  {
    exists i, j :: 0 <= i < j < |names| && names[i] == names[j]
  }

  lemma SetOfCons(names: seq<string>)
    requires names != []
    ensures SetOf(names) == {names[0]} + SetOf(names[1..])
  {
    forall x | x in SetOf(names)
      ensures x in {names[0]} + SetOf(names[1..])
    {
      var k :| 0 <= k < |names| && names[k] == x;
      if k > 0 {
        assert names[1..][k - 1] == x;
      }
    }
    forall x | x in SetOf(names[1..])
      ensures x in SetOf(names)
    {
      var k :| 0 <= k < |names[1..]| && names[1..][k] == x;
      assert names[k + 1] == x;
    }
  }

  /**
   * `len(filenames) != len(set(filenames))` holds exactly when some name
   * occurs twice; otherwise the set has one element per name.
   */
  lemma {:induction false} DuplicatesIffRepeated(names: seq<string>)
    ensures |SetOf(names)| <= |names|
    ensures |SetOf(names)| != |names| <==> Repeats(names)
  {
    if names == [] {
      assert SetOf(names) == {};
    } else {
      var rest := names[1..];
      SetOfCons(names);
      DuplicatesIffRepeated(rest);
      if names[0] in SetOf(rest) {
        var k :| 0 <= k < |rest| && rest[k] == names[0];
        assert names[0] == names[k + 1];
      } else {
        assert Repeats(names) ==> Repeats(rest) by {
          if Repeats(names) {
            var i, j :| 0 <= i < j < |names| && names[i] == names[j];
            assert rest[j - 1] in SetOf(rest);
            assert rest[i - 1] == rest[j - 1];
          }
        }
        assert Repeats(rest) ==> Repeats(names) by {
          if Repeats(rest) {
            var i, j :| 0 <= i < j < |rest| && rest[i] == rest[j];
            assert names[i + 1] == names[j + 1];
          }
        }
      }
    }
  }

  /**
   * The `files` validator, as written: an empty list and repeated file names
   * are rejected.
   */
  function FilesValidator(files: seq<FileContent>): (r: Option<Violation>)
    ensures r.None? <==> files != [] && !Repeats(Filenames(files))
  {
    DuplicatesIffRepeated(Filenames(files));
    if |files| == 0 then Some(Rejected("files", "At least one file is required"))
    else if |Filenames(files)| != |SetOf(Filenames(files))| then Some(Rejected("files", "Duplicate filenames not allowed"))
    else None
  }

  /**
   * The `files` field: between 1 and `maxItems` entries, each a valid file,
   * and no name twice. The length bounds are checked before the validator
   * runs, so its own empty-list message is never produced.
   */
  function CheckFiles(files: seq<FileContent>, maxItems: nat): (r: seq<Violation>)
    ensures r == [] <==> 1 <= |files| <= maxItems && (forall k :: 0 <= k < |files| ==> ValidFileContent(files[k]))
                         && !Repeats(Filenames(files))
    ensures Rejected("files", "At least one file is required") !in r
  {
    var items := CheckItems(files);
    if |files| < 1 then [TooShort("files", 1)]
    else if |files| > maxItems then [TooLong("files", maxItems)] + items
    else if items != [] then items
    else match FilesValidator(files)
      case Some(v) => [v]
      case None => []
  }

  /** The field validators of each entry, in order. */
  function CheckItems(files: seq<FileContent>): (r: seq<Violation>)
    ensures r == [] <==> forall k :: 0 <= k < |files| ==> ValidFileContent(files[k])
    ensures forall x :: x in r ==> x.field in {"filename", "content"}
  {
    if files == [] then []
    else CheckFilename(files[0].filename) + CheckContent(files[0].content) + CheckItems(files[1..])
  }

  // ------------------------------------------------------------ overrides

  /** Optional per-request configuration; a missing field keeps the server's setting. */
  datatype ConfigOverrides = ConfigOverrides(
    llmModel: Option<string>,
    llmMaxTokens: Option<int>,
    llmTemperature: Option<real>,
    enableBatchProcessing: Option<bool>,
    maxBatchSize: Option<int>,
    enableMarkdownOutput: Option<bool>,
    excludePatterns: Option<seq<string>>)

  /** A missing value, or one within `lo..hi`. */
  predicate InRange(v: Option<int>, lo: int, hi: int)
  {
    v.None? || lo <= v.value <= hi
  }

  predicate ValidOverrides(c: ConfigOverrides)
  {
    && InRange(c.llmMaxTokens, 1, 8000)
    && (c.llmTemperature.None? || 0.0 <= c.llmTemperature.value <= 2.0)
    && InRange(c.maxBatchSize, 1, 100)
    && (c.excludePatterns.None? || |c.excludePatterns.value| <= 50)
  }

  /** The bounds of `ConfigOverrides`, field by field, and its `exclude_patterns` validator. */
  function CheckOverrides(c: ConfigOverrides): (r: seq<Violation>)
    ensures r == [] <==> ValidOverrides(c)
    ensures forall x :: x in r ==> x.field in {"llm_max_tokens", "llm_temperature", "max_batch_size", "exclude_patterns"}
  {
    (if InRange(c.llmMaxTokens, 1, 8000) then [] else [OutOfRange("llm_max_tokens")])
    + (if c.llmTemperature.None? || 0.0 <= c.llmTemperature.value <= 2.0 then [] else [OutOfRange("llm_temperature")])
    + (if InRange(c.maxBatchSize, 1, 100) then [] else [OutOfRange("max_batch_size")])
    + (if c.excludePatterns.None? || |c.excludePatterns.value| <= 50 then []
       else [Rejected("exclude_patterns", "Too many exclude patterns (max 50)")])
  }

  /** Every field may be left out: the empty overrides are valid. */
  lemma EmptyOverridesValid()
    ensures CheckOverrides(ConfigOverrides(None, None, None, None, None, None, None)) == []
  {
  }

  function CheckOptionalOverrides(c: Option<ConfigOverrides>): (r: seq<Violation>)
    ensures r == [] <==> c.None? || ValidOverrides(c.value)
  {
    if c.None? then [] else CheckOverrides(c.value)
  }

  // ------------------------------------------------------------ requests

  const OutputFormats: set<string> := {"json", "markdown", "both"}
  const DefaultOutputFormat: string := "json"

  /** `pattern="^(json|markdown|both)$"`: the whole value is one of the three words. */
  function CheckOutputFormat(v: string): (r: seq<Violation>)
    ensures r == [] <==> v == "json" || v == "markdown" || v == "both"
  {
    if v in OutputFormats then [] else [NoPatternMatch("output_format")]
  }

  lemma DefaultOutputFormatValid()
    ensures CheckOutputFormat(DefaultOutputFormat) == []
  {
  }

  datatype AnalysisRequest = AnalysisRequest(
    files: seq<FileContent>,
    configOverrides: Option<ConfigOverrides>,
    outputFormat: string,
    verbose: bool)

  datatype BatchAnalysisRequest = BatchAnalysisRequest(
    files: seq<FileContent>,
    configOverrides: Option<ConfigOverrides>,
    outputFormat: string,
    verbose: bool,
    forceBatch: bool)

  datatype AnalysisFromPathRequest = AnalysisFromPathRequest(
    paths: seq<string>,
    configOverrides: Option<ConfigOverrides>,
    outputFormat: string,
    verbose: bool,
    recursive: bool)

  const MaxAnalysisFiles: nat := 100
  const MaxBatchFiles: nat := 500
  const MaxPaths: nat := 10

  predicate ValidFiles(files: seq<FileContent>, maxItems: nat)
  {
    1 <= |files| <= maxItems && (forall k :: 0 <= k < |files| ==> ValidFileContent(files[k])) && !Repeats(Filenames(files))
  }

  function CheckAnalysisRequest(req: AnalysisRequest): (r: seq<Violation>)
    ensures r == [] <==> ValidFiles(req.files, MaxAnalysisFiles) && CheckOptionalOverrides(req.configOverrides) == []
                         && req.outputFormat in OutputFormats
  {
    CheckFiles(req.files, MaxAnalysisFiles) + CheckOptionalOverrides(req.configOverrides) + CheckOutputFormat(req.outputFormat)
  }

  function CheckBatchAnalysisRequest(req: BatchAnalysisRequest): (r: seq<Violation>)
    ensures r == [] <==> ValidFiles(req.files, MaxBatchFiles) && CheckOptionalOverrides(req.configOverrides) == []
                         && req.outputFormat in OutputFormats
  {
    CheckFiles(req.files, MaxBatchFiles) + CheckOptionalOverrides(req.configOverrides) + CheckOutputFormat(req.outputFormat)
  }

  /** The `paths` field: 1 to 10 entries; the validator's own empty check is again unreachable. */
  function CheckPaths(paths: seq<string>): (r: seq<Violation>)
    ensures r == [] <==> 1 <= |paths| <= MaxPaths
    ensures Rejected("paths", "At least one path is required") !in r
  {
    if |paths| < 1 then [TooShort("paths", 1)]
    else if |paths| > MaxPaths then [TooLong("paths", MaxPaths)]
    else []
  }

  function CheckAnalysisFromPathRequest(req: AnalysisFromPathRequest): (r: seq<Violation>)
    ensures r == [] <==> 1 <= |req.paths| <= MaxPaths && CheckOptionalOverrides(req.configOverrides) == []
                         && req.outputFormat in OutputFormats
  {
    CheckPaths(req.paths) + CheckOptionalOverrides(req.configOverrides) + CheckOutputFormat(req.outputFormat)
  }

  /** Every accepted single analysis request is also an accepted batch request with the same fields. */
  lemma AnalysisRequestIsBatchRequest(req: AnalysisRequest, forceBatch: bool)
    requires CheckAnalysisRequest(req) == []
    ensures CheckBatchAnalysisRequest(BatchAnalysisRequest(req.files, req.configOverrides, req.outputFormat, req.verbose, forceBatch)) == []
  {
  }

  /** Two files with the same name are refused by both request kinds, whatever else they hold. */
  lemma DuplicateNamesRejected(files: seq<FileContent>, i: nat, j: nat)
    requires i < j < |files| && files[i].filename == files[j].filename
    ensures CheckFiles(files, MaxAnalysisFiles) != [] && CheckFiles(files, MaxBatchFiles) != []
  {
    assert Filenames(files)[i] == Filenames(files)[j];
  }

  /** Distinct names within the bounds are accepted, as long as each file is valid. */
  lemma DistinctValidFilesAccepted(files: seq<FileContent>, maxItems: nat)
    requires 1 <= |files| <= maxItems
    requires forall k :: 0 <= k < |files| ==> ValidFileContent(files[k])
    requires forall i, j :: 0 <= i < j < |files| ==> files[i].filename != files[j].filename
    ensures CheckFiles(files, maxItems) == []
  {
  }
}
