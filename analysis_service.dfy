/**
 * `AnalysisService`, the web application's pipeline: uploaded files become
 * file records, the context manager batches them, every batch goes to the
 * language model, and the replies are gathered into one response. The
 * language model, the analysis identifier and the clock are parameters; the
 * service's components only ever read their configuration, so they are
 * parameters too.
 */
module AnalysisService {
  import opened Wrappers
  import opened Text
  import opened Paths
  import opened Records
  import opened Languages
  import Requests
  import Batching
  import Tokens
  import Markdown
  import ContextManagement

  // ------------------------------------------------------------ file records

  /** `file_path.suffix or file_content.file_type or ""`. */
  function ExtensionOf(fc: Requests.FileContent): (r: string)
    ensures Suffix(fc.filename) != "" ==> r == Suffix(fc.filename)
    ensures Suffix(fc.filename) == "" ==> r == fc.fileType.GetOr("")
    ensures r == "" <==> Suffix(fc.filename) == "" && (fc.fileType.None? || fc.fileType.value == "")
  {
    if Suffix(fc.filename) != "" then Suffix(fc.filename) else fc.fileType.GetOr("")
  }

  /** The record `_convert_file_content_to_legacy_format` builds for one uploaded file. */
  function LegacyRecord(fc: Requests.FileContent): (f: FileRecord)
    ensures f.path == fc.filename && f.absolutePath == fc.filename && f.content == fc.content
    ensures f.name == Name(fc.filename) && '/' !in f.name
    ensures f.size == |fc.content| && f.lines == |SplitLines(fc.content)|
    ensures f.extension == ExtensionOf(fc) && f.language == Some(ServiceLanguage(f.extension))
    ensures f.truncation.None?
  {
    var extension := ExtensionOf(fc);
    FileRecord(fc.filename, fc.filename, Name(fc.filename), extension, fc.content,
               |fc.content|, |SplitLines(fc.content)|, Some(ServiceLanguage(extension)), None)
  }

  /** `f` applied to every element, in order. */
  function MapSeq<A, B>(f: A -> B, xs: seq<A>): (ys: seq<B>)
    ensures |ys| == |xs| && forall i :: 0 <= i < |xs| ==> ys[i] == f(xs[i])
  {
    if xs == [] then [] else MapSeq(f, xs[..|xs| - 1]) + [f(xs[|xs| - 1])]
  }

  lemma MapSeqSnoc<A, B>(f: A -> B, xs: seq<A>, i: nat)
    requires i < |xs|
    ensures MapSeq(f, xs[..i + 1]) == MapSeq(f, xs[..i]) + [f(xs[i])]
  {
    assert xs[..i + 1][..i] == xs[..i];
  }

  /** The records of all uploaded files: one per file, in order. */
  function LegacyRecords(files: seq<Requests.FileContent>): (rs: seq<FileRecord>)
    ensures |rs| == |files| && forall i :: 0 <= i < |files| ==> rs[i] == LegacyRecord(files[i])
  {
    MapSeq(LegacyRecord, files)
  }

  /** `_convert_file_content_to_legacy_format`: the loop that appends one record per uploaded file. */
  method ConvertFiles(files: seq<Requests.FileContent>) returns (records: seq<FileRecord>)
    ensures records == LegacyRecords(files)
    ensures |records| == |files|
    ensures forall i :: 0 <= i < |files| ==> records[i] == LegacyRecord(files[i])
  {
    records := [];
    for i := 0 to |files|
      invariant records == MapSeq(LegacyRecord, files[..i])
    {
      MapSeqSnoc(LegacyRecord, files, i);
      records := records + [LegacyRecord(files[i])];
    }
    assert files[..|files|] == files;
  }

  /** A file's `lines` is the number of lines it was written as, when its last line is not empty. */
  lemma RecordCountsLines(fc: Requests.FileContent, lines: seq<string>)
    requires forall k :: 0 <= k < |lines| ==> NoBreaks(lines[k])
    requires lines != [] ==> lines[|lines| - 1] != ""
    requires fc.content == Join("\n", lines)
    ensures LegacyRecord(fc).lines == |lines|
  {
    SplitJoinedLines(lines);
  }

  /** The unit test's first file: an absolute path keeps its last component as the name and its suffix. */
  lemma ConvertsAbsolutePath(fc: Requests.FileContent, comps: seq<string>)
    requires comps == ["path", "to", "test.py"]
    requires fc.filename == AbsolutePath(comps)
    ensures LegacyRecord(fc).name == "test.py"
    ensures LegacyRecord(fc).extension == ".py"
    ensures LegacyRecord(fc).language == Some("python")
  {
    PartsOfAbsolute(comps);
    var name := comps[2];
    assert |name| == 7 && name[4] == '.' && name[5] == 'p' && name[6] == 'y';
    assert LastDot(name) == 4;
    assert name[4..] == ".py";
    LowerCaseExtensions();
  }

  /** Without a suffix in the name, the declared file type is the extension. */
  lemma FileTypeStandsInForSuffix(fc: Requests.FileContent, t: string)
    requires fc.filename == "Makefile" && fc.fileType == Some(t)
    ensures LegacyRecord(fc).extension == t
  {
    assert Segments("Makefile") == ["Makefile"];
    assert Components("Makefile") == ["Makefile"];
    assert LastDot("Makefile") == -1;
  }

  /** `_guess_language_from_extension` on the unit test's four extensions. */
  lemma GuessLanguageExamples()
    ensures ServiceLanguage(".py") == "python" && ServiceLanguage(".js") == "javascript"
    ensures ServiceLanguage(".ts") == "typescript"
  {
    LowerCaseExtensions();
  }

  /** An unmapped extension gives the lower-case `"unknown"`. */
  lemma GuessUnknownLanguage()
    ensures ServiceLanguage(".unknown") == "unknown"
  {
    LowerCaseExtensions();
  }

  /** The service's table is looked up after lower-casing: `.PY` is Python too. */
  lemma GuessLanguageIgnoresCase(ext: string)
    ensures ServiceLanguage(ext) == ServiceLanguage(ToLower(ext))
  {
    LookupIgnoresCase(ServiceTable, ext, ServiceUnknown);
  }

  // ------------------------------------------------------------ batch analysis

  /** One element of the reply's `individual_analyses`; `analysis` is passed through untouched. */
  datatype RawFileAnalysis = RawFileAnalysis(
    filename: Option<string>,
    fileType: Option<string>,
    language: Option<string>,
    analysis: Option<map<string, string>>,
    tokensUsed: Option<int>)

  /**
   * What `LLMClient.analyze_batch` returns: the dictionary the markdown
   * formatter reads (or something that is not a dictionary), with the keys
   * `tokens_used` and `individual_analyses` the service reads as well. The
   * reply is well-typed; a reply the service would fail on is the language
   * model's `Failure` with the message of the exception it causes.
   */
  datatype Reply = Reply(
    answer: Markdown.AnalysisResult,
    tokensUsed: Option<int>,
    individualAnalyses: Option<seq<RawFileAnalysis>>)

  /** The language model: a reply, or the message of the exception it raised. */
  type LanguageModel = seq<FileRecord> -> Result<Reply, string>

  datatype FileAnalysisResult = FileAnalysisResult(
    filename: string,
    fileType: string,
    language: string,
    analysis: map<string, string>,
    tokensUsed: int)

  /** `BatchAnalysisResult` without its timing; a missing `batch_summary` is the empty dictionary `None`. */
  datatype BatchAnalysisResult = BatchAnalysisResult(
    batchId: string,
    filesCount: nat,
    batchSummary: Option<Markdown.BatchSummary>,
    individualAnalyses: seq<FileAnalysisResult>,
    totalTokensUsed: int)

  datatype ServiceError = FileProcessingError(message: string) | LLMServiceError(message: string)

  const Missing: string := "unknown"

  /** The `FileAnalysisResult` built from one element of `individual_analyses`. */
  function FileResultOf(raw: RawFileAnalysis): (r: FileAnalysisResult)
    ensures r.filename == raw.filename.GetOr(Missing) && r.tokensUsed == raw.tokensUsed.GetOr(0)
    ensures raw.filename.None? && raw.fileType.None? && raw.language.None?
            ==> r.filename == r.fileType == r.language == Missing
  {
    FileAnalysisResult(raw.filename.GetOr(Missing), raw.fileType.GetOr(Missing), raw.language.GetOr(Missing),
                       raw.analysis.GetOr(map[]), raw.tokensUsed.GetOr(0))
  }

  function FileResultsOf(raws: seq<RawFileAnalysis>): (rs: seq<FileAnalysisResult>)
    ensures |rs| == |raws| && forall k :: 0 <= k < |raws| ==> rs[k] == FileResultOf(raws[k])
  {
    seq(|raws|, k requires 0 <= k < |raws| => FileResultOf(raws[k]))
  }

  /** `f"{analysis_id}_batch_{i}"`. */
  function BatchId(analysisId: string, i: nat): (r: string)
    ensures StartsWith(r, analysisId + "_batch_")
  {
    StartsWithConcat(analysisId + "_batch_", NatToString(i));
    analysisId + "_batch_" + NatToString(i)
  }

  lemma StartsWithConcat(a: string, b: string)
    ensures StartsWith(a + b, a)
  {
    assert (a + b)[..|a|] == a;
  }

  /** Two batches of one analysis never share an identifier. */
  lemma BatchIdsDistinct(analysisId: string, i: nat, j: nat)
    requires i != j
    ensures BatchId(analysisId, i) != BatchId(analysisId, j)
  {
    var p := analysisId + "_batch_";
    if BatchId(analysisId, i) == BatchId(analysisId, j) {
      assert (p + NatToString(i))[|p|..] == NatToString(i);
      assert (p + NatToString(j))[|p|..] == NatToString(j);
      NatToStringInjective(i, j);
    }
  }

  /** One iteration of `_analyze_batches`: the reply turned into a batch result, or the exception's message. */
  function BatchOutcome(analysisId: string, i: nat, batch: seq<FileRecord>, llm: LanguageModel)
    : (r: Result<BatchAnalysisResult, string>)
    ensures r.Success? <==> llm(batch).Success? && llm(batch).value.answer.Answer?
    ensures r.Success? ==> r.value.batchId == BatchId(analysisId, i) && r.value.filesCount == |batch|
                           && r.value.totalTokensUsed == llm(batch).value.tokensUsed.GetOr(0)
  {
    match llm(batch)
    case Failure(e) => Failure(e)
    case Success(reply) =>
      if reply.answer.NotADict? then Failure("'result' is not a dictionary")
      else
        Success(BatchAnalysisResult(BatchId(analysisId, i), |batch|, reply.answer.batchSummary,
                                    FileResultsOf(reply.individualAnalyses.GetOr([])),
                                    reply.tokensUsed.GetOr(0)))
  }

  /** `total_tokens`: the sum of the batches' `tokens_used`. */
  function SumTokens(results: seq<BatchAnalysisResult>): (t: int)
    ensures (forall i :: 0 <= i < |results| ==> results[i].totalTokensUsed >= 0) ==> t >= 0
  {
    if results == [] then 0
    else
      var init := results[..|results| - 1];
      assert forall i :: 0 <= i < |init| ==> init[i] == results[i];
      SumTokens(init) + results[|results| - 1].totalTokensUsed
  }

  /** One more batch adds its tokens to the total. */
  lemma SumTokensSnoc(results: seq<BatchAnalysisResult>, last: BatchAnalysisResult)
    ensures SumTokens(results + [last]) == SumTokens(results) + last.totalTokensUsed
  {
    assert (results + [last])[..|results|] == results;
  }

  const BatchFailed: string := "Batch analysis failed: "

  /**
   * `_analyze_batches`: the results of all batches in order with the summed
   * tokens, or the `LLMServiceError` of the first batch that failed.
   */
  function AnalyzeBatchesSpec(batches: seq<seq<FileRecord>>, analysisId: string, llm: LanguageModel)
    : (r: Result<(seq<BatchAnalysisResult>, int), ServiceError>)
    ensures r.Failure? ==> r.error.LLMServiceError?
  {
    if batches == [] then Success(([], 0))
    else
      var n := |batches| - 1;
      var prefix := AnalyzeBatchesSpec(batches[..n], analysisId, llm);
      assert forall i :: 0 <= i < n ==> batches[..n][i] == batches[i];
      if prefix.Failure? then prefix
      else
        match BatchOutcome(analysisId, n, batches[n], llm)
        case Failure(e) => Failure(LLMServiceError(BatchFailed + e))
        case Success(result) =>
          Success((prefix.value.0 + [result], prefix.value.1 + result.totalTokensUsed))
  }

  /** The analysis succeeds exactly when every batch does. */
  lemma {:induction false} SucceedsIffEveryBatch(batches: seq<seq<FileRecord>>, analysisId: string, llm: LanguageModel)
    ensures AnalyzeBatchesSpec(batches, analysisId, llm).Success?
            <==> forall i :: 0 <= i < |batches| ==> BatchOutcome(analysisId, i, batches[i], llm).Success?
  {
    if batches != [] {
      var n := |batches| - 1;
      SucceedsIffEveryBatch(batches[..n], analysisId, llm);
      assert forall i :: 0 <= i < n ==> batches[..n][i] == batches[i];
    }
  }

  /** On success batch `i`'s result is that batch's outcome. */
  lemma {:induction false} SuccessResults(batches: seq<seq<FileRecord>>, analysisId: string, llm: LanguageModel)
    requires forall i :: 0 <= i < |batches| ==> BatchOutcome(analysisId, i, batches[i], llm).Success?
    ensures var r := AnalyzeBatchesSpec(batches, analysisId, llm);
      && r.Success? && |r.value.0| == |batches|
      && forall i :: 0 <= i < |batches| ==> r.value.0[i] == BatchOutcome(analysisId, i, batches[i], llm).value
  {
    if batches != [] {
      var n := |batches| - 1;
      assert forall i :: 0 <= i < n ==> batches[..n][i] == batches[i];
      var prefix := AnalyzeBatchesSpec(batches[..n], analysisId, llm);
      SuccessResults(batches[..n], analysisId, llm);
      var last := BatchOutcome(analysisId, n, batches[n], llm).value;
      var results := prefix.value.0 + [last];
      assert AnalyzeBatchesSpec(batches, analysisId, llm) == Success((results, prefix.value.1 + last.totalTokensUsed));
      forall i | 0 <= i < |batches|
        ensures results[i] == BatchOutcome(analysisId, i, batches[i], llm).value
      {
        if i < n {
          assert results[i] == prefix.value.0[i];
        }
      }
    }
  }

  /** A successful analysis reports the sum of its batches' tokens. */
  lemma {:induction false} SuccessTotal(batches: seq<seq<FileRecord>>, analysisId: string, llm: LanguageModel)
    requires AnalyzeBatchesSpec(batches, analysisId, llm).Success?
    ensures var r := AnalyzeBatchesSpec(batches, analysisId, llm);
      r.value.1 == SumTokens(r.value.0)
  {
    if batches != [] {
      var n := |batches| - 1;
      var prefix := AnalyzeBatchesSpec(batches[..n], analysisId, llm);
      assert prefix.Success?;
      SuccessTotal(batches[..n], analysisId, llm);
      var last := BatchOutcome(analysisId, n, batches[n], llm).value;
      assert AnalyzeBatchesSpec(batches, analysisId, llm)
          == Success((prefix.value.0 + [last], prefix.value.1 + last.totalTokensUsed));
      SumTokensSnoc(prefix.value.0, last);
    }
  }

  /**
   * The analysis succeeds exactly when every batch does; then batch `i`'s
   * result is that batch's outcome and the total is the sum of their tokens.
   */
  lemma AllBatchesAnalysed(batches: seq<seq<FileRecord>>, analysisId: string, llm: LanguageModel)
    ensures var r := AnalyzeBatchesSpec(batches, analysisId, llm);
      && (r.Success? <==> forall i :: 0 <= i < |batches| ==> BatchOutcome(analysisId, i, batches[i], llm).Success?)
      && (r.Success? ==> |r.value.0| == |batches| && r.value.1 == SumTokens(r.value.0)
                         && forall i :: 0 <= i < |batches|
                              ==> r.value.0[i] == BatchOutcome(analysisId, i, batches[i], llm).value)
  {
    SucceedsIffEveryBatch(batches, analysisId, llm);
    if AnalyzeBatchesSpec(batches, analysisId, llm).Success? {
      SuccessResults(batches, analysisId, llm);
      SuccessTotal(batches, analysisId, llm);
    }
  }

  /** A failure is that of the first batch whose analysis raised, with its message. */
  lemma {:induction false} FirstFailingBatch(batches: seq<seq<FileRecord>>, analysisId: string, llm: LanguageModel)
    requires AnalyzeBatchesSpec(batches, analysisId, llm).Failure?
    ensures exists i :: 0 <= i < |batches| && BatchOutcome(analysisId, i, batches[i], llm).Failure?
              && (forall j :: 0 <= j < i ==> BatchOutcome(analysisId, j, batches[j], llm).Success?)
              && AnalyzeBatchesSpec(batches, analysisId, llm).error
                 == LLMServiceError(BatchFailed + BatchOutcome(analysisId, i, batches[i], llm).error)
  {
    var n := |batches| - 1;
    var prefix := AnalyzeBatchesSpec(batches[..n], analysisId, llm);
    assert forall i :: 0 <= i < n ==> batches[..n][i] == batches[i];
    if prefix.Failure? {
      FirstFailingBatch(batches[..n], analysisId, llm);
    } else {
      AllBatchesAnalysed(batches[..n], analysisId, llm);
      assert forall j :: 0 <= j < n ==> BatchOutcome(analysisId, j, batches[j], llm).Success?;
    }
  }

  /** The loop of `_analyze_batches`. */
  method AnalyzeBatches(batches: seq<seq<FileRecord>>, analysisId: string, llm: LanguageModel)
    returns (r: Result<(seq<BatchAnalysisResult>, int), ServiceError>)
    ensures r == AnalyzeBatchesSpec(batches, analysisId, llm)
  {
    var batchResults: seq<BatchAnalysisResult> := [];
    var totalTokens := 0;
    for i := 0 to |batches|
      invariant AnalyzeBatchesSpec(batches[..i], analysisId, llm) == Success((batchResults, totalTokens))
    {
      assert batches[..i + 1][..i] == batches[..i];
      var reply := llm(batches[i]);
      if reply.Failure? {
        AnalyzeBatchesFailsFrom(batches, analysisId, llm, i + 1);
        return Failure(LLMServiceError(BatchFailed + reply.error));
      }
      var result := reply.value;
      if result.answer.NotADict? {
        AnalyzeBatchesFailsFrom(batches, analysisId, llm, i + 1);
        return Failure(LLMServiceError(BatchFailed + "'result' is not a dictionary"));
      }
      var batchResult := BatchAnalysisResult(BatchId(analysisId, i), |batches[i]|, result.answer.batchSummary,
                                             [], result.tokensUsed.GetOr(0));
      if result.individualAnalyses.Some? {
        var analyses := result.individualAnalyses.value;
        var individual: seq<FileAnalysisResult> := [];
        for k := 0 to |analyses|
          invariant individual == FileResultsOf(analyses[..k])
        {
          individual := individual + [FileResultOf(analyses[k])];
        }
        assert analyses[..|analyses|] == analyses;
        batchResult := batchResult.(individualAnalyses := individual);
      }
      batchResults := batchResults + [batchResult];
      totalTokens := totalTokens + result.tokensUsed.GetOr(0);
    }
    assert batches[..|batches|] == batches;
    r := Success((batchResults, totalTokens));
  }

  /** Once a prefix fails, every longer prefix fails with the same error. */
  lemma {:induction false} AnalyzeBatchesFailsFrom(batches: seq<seq<FileRecord>>, analysisId: string,
                                                  llm: LanguageModel, i: nat)
    requires i <= |batches|
    requires AnalyzeBatchesSpec(batches[..i], analysisId, llm).Failure?
    ensures AnalyzeBatchesSpec(batches, analysisId, llm) == AnalyzeBatchesSpec(batches[..i], analysisId, llm)
  {
    if i < |batches| {
      var n := |batches| - 1;
      assert batches[..n][..i] == batches[..i];
      AnalyzeBatchesFailsFrom(batches[..n], analysisId, llm, i);
      assert AnalyzeBatchesSpec(batches[..n], analysisId, llm).Failure?;
    } else {
      assert batches[..i] == batches;
    }
  }

  // ------------------------------------------------------------ the response

  /**
   * `file_results`: every batch's individual analyses, batch after batch. The body
   * is that concatenation in batch order; the `ensures` states only membership,
   * and FileResultsLength adds that nothing is dropped or duplicated.
   */
  function FileResults(results: seq<BatchAnalysisResult>): (r: seq<FileAnalysisResult>)
    ensures forall x :: x in r <==> exists i :: 0 <= i < |results| && x in results[i].individualAnalyses
  {
    if results == [] then []
    else
      var n := |results| - 1;
      assert forall i :: 0 <= i < n ==> results[..n][i] == results[i];
      FileResults(results[..n]) + results[n].individualAnalyses
  }

  /** The loop that builds `file_results`. */
  method CollectFileResults(results: seq<BatchAnalysisResult>) returns (fileResults: seq<FileAnalysisResult>)
    ensures fileResults == FileResults(results)
  {
    fileResults := [];
    for i := 0 to |results|
      invariant fileResults == FileResults(results[..i])
    {
      assert results[..i + 1][..i] == results[..i];
      fileResults := fileResults + results[i].individualAnalyses;
    }
    assert results[..|results|] == results;
  }

  /** The number of individual analyses over all batches, summed batch by batch. */
  function AnalysisCount(results: seq<BatchAnalysisResult>): nat
  {
    if results == [] then 0
    else AnalysisCount(results[..|results| - 1]) + |results[|results| - 1].individualAnalyses|
  }

  /** Nothing is dropped or duplicated: `file_results` is as long as all the lists together. */
  lemma {:induction false} FileResultsLength(results: seq<BatchAnalysisResult>)
    ensures |FileResults(results)| == AnalysisCount(results)
  {
    if results != [] {
      FileResultsLength(results[..|results| - 1]);
    }
  }

  /** A JSON value, as `json.loads` hands it back. */
  datatype Json =
    | JNull
    | JBool(b: bool)
    | JNumber(n: int)
    | JString(s: string)
    | JArray(items: seq<Json>)
    | JObject(entries: map<string, Json>)

  /** What `LLMClient.generate_project_summary` returns: the JSON object of the model's reply. */
  type SummaryReply = map<string, Json>

  /** The `ProjectSummary` model of app/models/responses.py, once pydantic has validated it. */
  datatype ProjectSummary = ProjectSummary(
    totalFiles: nat,
    languagesDetected: seq<string>,
    projectStructure: map<string, Json>,
    keyInsights: seq<string>,
    recommendations: seq<string>,
    technicalDebt: map<string, Json>,
    dependencies: map<string, seq<string>>)

  /** The summarizer: a reply, or the message of the exception it raised. */
  type Summarizer = (seq<FileRecord>, seq<Option<Markdown.BatchSummary>>) -> Result<SummaryReply, string>

  /** `reply.get(key, default)`. */
  function Get(reply: SummaryReply, key: string, default: Json): (v: Json)
    ensures key in reply ==> v == reply[key]
    ensures key !in reply ==> v == default
  {
    if key in reply then reply[key] else default
  }

  /** Validation of a `list[str]` field: an array whose every item is a string. */
  function AsStrings(v: Json): (r: Option<seq<string>>)
    ensures r.Some? <==> v.JArray? && forall k :: 0 <= k < |v.items| ==> v.items[k].JString?
    ensures r.Some? ==> |r.value| == |v.items| && forall k :: 0 <= k < |r.value| ==> v.items[k] == JString(r.value[k])
  {
    if v.JArray? && forall k :: 0 <= k < |v.items| ==> v.items[k].JString? then
      Some(seq(|v.items|, k requires 0 <= k < |v.items| => v.items[k].s))
    else None
  }

  /** Validation of a `dict[str, Any]` field: any object. */
  function AsObject(v: Json): (r: Option<map<string, Json>>)
    ensures r.Some? <==> v.JObject?
    ensures r.Some? ==> JObject(r.value) == v
  {
    if v.JObject? then Some(v.entries) else None
  }

  /** Validation of a `dict[str, list[str]]` field: an object whose every value is an array of strings. */
  function AsStringLists(v: Json): (r: Option<map<string, seq<string>>>)
    ensures r.Some? <==> v.JObject? && forall key :: key in v.entries ==> AsStrings(v.entries[key]).Some?
    ensures r.Some? ==> r.value.Keys == v.entries.Keys
                        && forall key :: key in r.value ==> AsStrings(v.entries[key]) == Some(r.value[key])
  {
    if v.JObject? && forall key :: key in v.entries ==> AsStrings(v.entries[key]).Some? then
      Some(map key | key in v.entries :: AsStrings(v.entries[key]).value)
    else None
  }

  const EmptyArray: Json := JArray([])
  const EmptyObject: Json := JObject(map[])

  /**
   * `ProjectSummary(total_files=..., languages_detected=reply.get("languages_detected", []), ...)`:
   * the summary when every field passes pydantic's validation, and nothing when one
   * fails, which the `except Exception` turns into `None`.
   */
  function ValidateSummary(totalFiles: nat, reply: SummaryReply): (r: Option<ProjectSummary>)
    ensures r.Some? <==>
              && AsStrings(Get(reply, "languages_detected", EmptyArray)).Some?
              && AsObject(Get(reply, "project_structure", EmptyObject)).Some?
              && AsStrings(Get(reply, "key_insights", EmptyArray)).Some?
              && AsStrings(Get(reply, "recommendations", EmptyArray)).Some?
              && AsObject(Get(reply, "technical_debt", EmptyObject)).Some?
              && AsStringLists(Get(reply, "dependencies", EmptyObject)).Some?
    ensures r.Some? ==> r.value.totalFiles == totalFiles
    ensures r.Some? && "dependencies" !in reply ==> r.value.dependencies == map[]
    ensures r.Some? && "languages_detected" !in reply ==> r.value.languagesDetected == []
  {
    var languages := AsStrings(Get(reply, "languages_detected", EmptyArray));
    var structure := AsObject(Get(reply, "project_structure", EmptyObject));
    var insights := AsStrings(Get(reply, "key_insights", EmptyArray));
    var recommendations := AsStrings(Get(reply, "recommendations", EmptyArray));
    var debt := AsObject(Get(reply, "technical_debt", EmptyObject));
    var dependencies := AsStringLists(Get(reply, "dependencies", EmptyObject));
    if languages.Some? && structure.Some? && insights.Some? && recommendations.Some? && debt.Some? && dependencies.Some? then
      Some(ProjectSummary(totalFiles, languages.value, structure.value, insights.value,
                          recommendations.value, debt.value, dependencies.value))
    else None
  }

  function StringsJson(xs: seq<string>): (v: Json)
  {
    JArray(seq(|xs|, k requires 0 <= k < |xs| => JString(xs[k])))
  }

  /** The JSON object a summary is serialised to, as pydantic's `model_dump` would give it. */
  function ReplyOf(p: ProjectSummary): (reply: SummaryReply)
  {
    map["languages_detected" := StringsJson(p.languagesDetected),
        "project_structure" := JObject(p.projectStructure),
        "key_insights" := StringsJson(p.keyInsights),
        "recommendations" := StringsJson(p.recommendations),
        "technical_debt" := JObject(p.technicalDebt),
        "dependencies" := JObject(map key | key in p.dependencies :: StringsJson(p.dependencies[key]))]
  }

  lemma StringsRoundTrip(xs: seq<string>)
    ensures AsStrings(StringsJson(xs)) == Some(xs)
  {
    var v := StringsJson(xs);
    assert forall k :: 0 <= k < |v.items| ==> v.items[k] == JString(xs[k]);
    assert AsStrings(v).value == xs;
  }

  /** A well-typed summary's own JSON validates back to that summary. */
  lemma ValidateReplyOf(p: ProjectSummary)
    ensures ValidateSummary(p.totalFiles, ReplyOf(p)) == Some(p)
  {
    var reply := ReplyOf(p);
    StringsRoundTrip(p.languagesDetected);
    StringsRoundTrip(p.keyInsights);
    StringsRoundTrip(p.recommendations);
    var deps := Get(reply, "dependencies", EmptyObject);
    forall key | key in p.dependencies
      ensures AsStrings(deps.entries[key]) == Some(p.dependencies[key])
    {
      StringsRoundTrip(p.dependencies[key]);
    }
    assert AsStringLists(deps).value == p.dependencies;
  }

  /** A `dependencies` value holding a string where a list of strings belongs fails validation. */
  lemma StringDependencyRejected(totalFiles: nat, reply: SummaryReply, language: string, dependency: string)
    requires "dependencies" in reply && reply["dependencies"] == JObject(map[language := JString(dependency)])
    ensures ValidateSummary(totalFiles, reply).None?
  {
    var deps := Get(reply, "dependencies", EmptyObject);
    assert language in deps.entries && !AsStrings(deps.entries[language]).Some?;
    assert AsStringLists(deps).None?;
  }

  /** `[br.batch_summary for br in batch_results]`. */
  function BatchSummaries(results: seq<BatchAnalysisResult>): (r: seq<Option<Markdown.BatchSummary>>)
    ensures |r| == |results| && forall i :: 0 <= i < |results| ==> r[i] == results[i].batchSummary
  {
    seq(|results|, i requires 0 <= i < |results| => results[i].batchSummary)
  }

  /**
   * `_generate_project_summary`: nothing for a single file; otherwise the
   * summarizer's reply validated as a `ProjectSummary` with the file count, or
   * nothing when the summarizer raised or a field of its reply failed validation.
   */
  function GenerateProjectSummary(files: seq<FileRecord>, results: seq<BatchAnalysisResult>, summarize: Summarizer)
    : (r: Option<ProjectSummary>)
    ensures |files| <= 1 ==> r.None?
    ensures |files| > 1 ==> (r.Some? <==> var reply := summarize(files, BatchSummaries(results));
                                           reply.Success? && ValidateSummary(|files|, reply.value).Some?)
    ensures r.Some? ==> r.value.totalFiles == |files|
  {
    if |files| <= 1 then None
    else
      match summarize(files, BatchSummaries(results))
      case Failure(_) => None
      case Success(reply) => ValidateSummary(|files|, reply)
  }

  /** The summary step ends with no summary when the reply's dependencies are not lists of strings. */
  lemma StringDependenciesGiveNoSummary(files: seq<FileRecord>, results: seq<BatchAnalysisResult>, summarize: Summarizer,
                                        language: string, dependency: string)
    requires |files| > 1
    requires var reply := summarize(files, BatchSummaries(results));
             reply.Success? && "dependencies" in reply.value
             && reply.value["dependencies"] == JObject(map[language := JString(dependency)])
    ensures GenerateProjectSummary(files, results, summarize).None?
  {
    StringDependencyRejected(|files|, summarize(files, BatchSummaries(results)).value, language, dependency);
  }

  /** `output_format in ["markdown", "both"]`. */
  predicate WantsMarkdown(outputFormat: string)
    ensures WantsMarkdown(outputFormat) <==> outputFormat == "markdown" || outputFormat == "both"
  {
    outputFormat in ["markdown", "both"]
  }

  lemma WantsMarkdownExactly(outputFormat: string)
    ensures !WantsMarkdown("json") && !WantsMarkdown("")
  {
  }

  /**
   * The replies the markdown formatter is given: the language model is asked
   * again for each of the first `n` batches; `None` when a batch is missing or
   * a call raises.
   */
  function LegacyResults(batches: seq<seq<FileRecord>>, n: nat, llm: LanguageModel)
    : (r: Option<seq<Markdown.AnalysisResult>>)
    ensures r.Some? <==> n <= |batches| && forall i :: 0 <= i < n ==> llm(batches[i]).Success?
    ensures r.Some? ==> |r.value| == n && forall i :: 0 <= i < n ==> r.value[i] == llm(batches[i]).value.answer
  {
    if n == 0 then Some([])
    else
      var prefix := LegacyResults(batches, n - 1, llm);
      if prefix.None? || n - 1 >= |batches| then None
      else
        match llm(batches[n - 1])
        case Failure(_) => None
        case Success(reply) => Some(prefix.value + [reply.answer])
  }

  /** `format_results(files_data, legacy_analysis_results)`. */
  function Report(files: seq<FileRecord>, results: seq<Markdown.AnalysisResult>,
                  now: string, today: string, formatBytes: nat -> string): (r: string)
    ensures StartsWith(r, Markdown.Header(Markdown.ProjectInfoOf(files), now))
  {
    var sections := Markdown.ReportSections(files, results, Markdown.ProjectInfoOf(files), now, today, formatBytes);
    JoinStartsWithFirst("\n\n", sections);
    Join("\n\n", sections)
  }

  /** `_generate_markdown_output`. */
  function MarkdownOutput(outputFormat: string, files: seq<FileRecord>, batches: seq<seq<FileRecord>>, n: nat,
                          llm: LanguageModel, now: string, today: string, formatBytes: nat -> string)
    : (r: Option<string>)
    ensures !WantsMarkdown(outputFormat) ==> r.None?
    ensures WantsMarkdown(outputFormat) ==> (r.Some? <==> LegacyResults(batches, n, llm).Some?)
  {
    if !WantsMarkdown(outputFormat) then None
    else
      var results := LegacyResults(batches, n, llm);
      if results.None? then None else Some(Report(files, results.value, now, today, formatBytes))
  }

  /** The loop of `_generate_markdown_output`, then the formatter. */
  method GenerateMarkdownOutput(outputFormat: string, files: seq<FileRecord>, batches: seq<seq<FileRecord>>,
                                results: seq<BatchAnalysisResult>, llm: LanguageModel,
                                now: string, today: string, formatBytes: nat -> string)
    returns (md: Option<string>)
    ensures md == MarkdownOutput(outputFormat, files, batches, |results|, llm, now, today, formatBytes)
  {
    if outputFormat !in ["markdown", "both"] {
      return None;
    }
    var legacy: seq<Markdown.AnalysisResult> := [];
    for i := 0 to |results|
      invariant LegacyResults(batches, i, llm) == Some(legacy)
    {
      if i >= |batches| {
        LegacyResultsStayNone(batches, i + 1, |results|, llm);
        return None;
      }
      var reply := llm(batches[i]);
      if reply.Failure? {
        LegacyResultsStayNone(batches, i + 1, |results|, llm);
        return None;
      }
      legacy := legacy + [reply.value.answer];
    }
    var report := Markdown.FormatResults(files, legacy, now, today, formatBytes);
    md := Some(report);
  }

  /** Once the re-analysis fails for some prefix, it fails for every longer one. */
  lemma {:induction false} LegacyResultsStayNone(batches: seq<seq<FileRecord>>, i: nat, n: nat, llm: LanguageModel)
    requires i <= n && LegacyResults(batches, i, llm).None?
    ensures LegacyResults(batches, n, llm).None?
  {
    if i < n {
      LegacyResultsStayNone(batches, i, n - 1, llm);
    }
  }

  // ------------------------------------------------------------ analyze_files

  /** `AnalysisResponse` without the timing and the configuration echo. */
  datatype AnalysisResponse = AnalysisResponse(
    success: bool,
    analysisId: string,
    filesAnalyzed: nat,
    fileResults: seq<FileAnalysisResult>,
    batchResults: seq<BatchAnalysisResult>,
    projectSummary: Option<ProjectSummary>,
    totalTokensUsed: int,
    markdownOutput: Option<string>)

  const NoValidFiles: string := "No valid files to analyze"

  /** The response `analyze_files` builds once the batches have been analysed. */
  function Respond(analysisId: string, records: seq<FileRecord>, batches: seq<seq<FileRecord>>,
                   results: seq<BatchAnalysisResult>, totalTokens: int, outputFormat: string,
                   llm: LanguageModel, summarize: Summarizer, now: string, today: string,
                   formatBytes: nat -> string): (r: AnalysisResponse)
    ensures r.success && r.analysisId == analysisId && r.filesAnalyzed == |records|
    ensures r.fileResults == FileResults(results) && r.batchResults == results && r.totalTokensUsed == totalTokens
    ensures r.projectSummary == GenerateProjectSummary(records, results, summarize)
    ensures r.markdownOutput == MarkdownOutput(outputFormat, records, batches, |results|, llm, now, today, formatBytes)
  {
    AnalysisResponse(true, analysisId, |records|, FileResults(results), results,
                     GenerateProjectSummary(records, results, summarize), totalTokens,
                     MarkdownOutput(outputFormat, records, batches, |results|, llm, now, today, formatBytes))
  }

  /**
   * `analyze_files`: no uploaded file is a `FileProcessingError`; a failing
   * batch is the `LLMServiceError` of `_analyze_batches`; otherwise the
   * response. `enc` and `budget` are the context manager's.
   */
  function AnalyzeFilesSpec(files: seq<Requests.FileContent>, outputFormat: string, analysisId: string,
                            enc: Tokens.Encoder, budget: int, llm: LanguageModel, summarize: Summarizer,
                            now: string, today: string, formatBytes: nat -> string)
    : (r: Result<AnalysisResponse, ServiceError>)
    ensures files == [] <==> r == Failure(FileProcessingError(NoValidFiles))
    ensures r.Success? ==> r.value.filesAnalyzed == |files| && r.value.analysisId == analysisId
  {
    var records := LegacyRecords(files);
    if records == [] then Failure(FileProcessingError(NoValidFiles))
    else
      var batches := Batching.Batches(enc, budget, records);
      match AnalyzeBatchesSpec(batches, analysisId, llm)
      case Failure(e) =>
        assert e.LLMServiceError?;
        Failure(e)
      case Success(v) =>
        Success(Respond(analysisId, records, batches, v.0, v.1, outputFormat, llm, summarize, now, today, formatBytes))
  }

  method AnalyzeFiles(files: seq<Requests.FileContent>, outputFormat: string, analysisId: string,
                      cm: ContextManagement.ContextManager, llm: LanguageModel, summarize: Summarizer,
                      now: string, today: string, formatBytes: nat -> string)
    returns (r: Result<AnalysisResponse, ServiceError>)
    ensures r == AnalyzeFilesSpec(files, outputFormat, analysisId, cm.encoder, cm.availableTokens,
                                  llm, summarize, now, today, formatBytes)
  {
    var records := ConvertFiles(files);
    assert records == LegacyRecords(files);
    if records == [] {
      return Failure(FileProcessingError(NoValidFiles));
    }
    var batches := cm.CreateBatches(records);
    var analysed := AnalyzeBatches(batches, analysisId, llm);
    if analysed.Failure? {
      return Failure(analysed.error);
    }
    var batchResults := analysed.value.0;
    var projectSummary := GenerateProjectSummary(records, batchResults, summarize);
    var markdownOutput := GenerateMarkdownOutput(outputFormat, records, batches, batchResults, llm,
                                                 now, today, formatBytes);
    var fileResults := CollectFileResults(batchResults);
    r := Success(AnalysisResponse(true, analysisId, |records|, fileResults, batchResults, projectSummary,
                                  analysed.value.1, markdownOutput));
  }

  /**
   * Every uploaded file is counted in exactly one batch: the batches'
   * `files_count` add up to the number of files.
   */
  lemma FilesCountsAddUp(files: seq<Requests.FileContent>, outputFormat: string, analysisId: string,
                         enc: Tokens.Encoder, budget: int, llm: LanguageModel, summarize: Summarizer,
                         now: string, today: string, formatBytes: nat -> string)
    requires AnalyzeFilesSpec(files, outputFormat, analysisId, enc, budget, llm, summarize, now, today, formatBytes).Success?
    ensures var r := AnalyzeFilesSpec(files, outputFormat, analysisId, enc, budget, llm, summarize, now, today, formatBytes);
            FilesCountSum(r.value.batchResults) == |files|
  {
    var records := LegacyRecords(files);
    var batches := Batching.Batches(enc, budget, records);
    var results := AnalyzeBatchesSpec(batches, analysisId, llm).value.0;
    AllBatchesAnalysed(batches, analysisId, llm);
    Batching.BatchesCoverEveryFileOnce(enc, budget, records);
    assert |multiset(Batching.Flatten(batches))| == |records|;
    FilesCountMatchesFlatten(batches, results);
  }

  function FilesCountSum(results: seq<BatchAnalysisResult>): nat
  {
    if results == [] then 0 else FilesCountSum(results[..|results| - 1]) + results[|results| - 1].filesCount
  }

  lemma {:induction false} FilesCountMatchesFlatten(batches: seq<seq<FileRecord>>, results: seq<BatchAnalysisResult>)
    requires |results| == |batches|
    requires forall i :: 0 <= i < |batches| ==> results[i].filesCount == |batches[i]|
    ensures FilesCountSum(results) == |Batching.Flatten(batches)|
  {
    if batches != [] {
      var n := |batches| - 1;
      FilesCountMatchesFlatten(batches[..n], results[..n]);
    }
  }

  /** A single uploaded file never gets a project summary. */
  lemma SingleFileHasNoSummary(files: seq<Requests.FileContent>, outputFormat: string, analysisId: string,
                               enc: Tokens.Encoder, budget: int, llm: LanguageModel, summarize: Summarizer,
                               now: string, today: string, formatBytes: nat -> string)
    requires |files| == 1
    ensures var r := AnalyzeFilesSpec(files, outputFormat, analysisId, enc, budget, llm, summarize, now, today, formatBytes);
            r.Success? ==> r.value.projectSummary.None?
  {
  }

  /** A JSON request never carries markdown. */
  lemma JsonHasNoMarkdown(files: seq<Requests.FileContent>, analysisId: string,
                          enc: Tokens.Encoder, budget: int, llm: LanguageModel, summarize: Summarizer,
                          now: string, today: string, formatBytes: nat -> string)
    ensures var r := AnalyzeFilesSpec(files, "json", analysisId, enc, budget, llm, summarize, now, today, formatBytes);
            r.Success? ==> r.value.markdownOutput.None?
  {
    WantsMarkdownExactly("json");
  }

  /** When every batch is analysed, markdown is produced for `markdown` and `both` as long as the re-analysis succeeds. */
  lemma MarkdownWhenRequested(files: seq<Requests.FileContent>, outputFormat: string, analysisId: string,
                              enc: Tokens.Encoder, budget: int, llm: LanguageModel, summarize: Summarizer,
                              now: string, today: string, formatBytes: nat -> string)
    requires outputFormat == "markdown" || outputFormat == "both"
    requires AnalyzeFilesSpec(files, outputFormat, analysisId, enc, budget, llm, summarize, now, today, formatBytes).Success?
    ensures var r := AnalyzeFilesSpec(files, outputFormat, analysisId, enc, budget, llm, summarize, now, today, formatBytes);
            r.value.markdownOutput.Some?
  {
    var records := LegacyRecords(files);
    var batches := Batching.Batches(enc, budget, records);
    AllBatchesAnalysed(batches, analysisId, llm);
    forall i | 0 <= i < |batches|
      ensures llm(batches[i]).Success?
    {
      assert BatchOutcome(analysisId, i, batches[i], llm).Success?;
    }
  }
}
