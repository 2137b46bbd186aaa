/**
 * `ContextManager`: the token budget fixed at construction and the three
 * operations that work step by step (batching, truncation, batch summary).
 * What they compute is specified in the `Batching` and `Truncation` modules.
 */
module ContextManagement {
  import opened Wrappers
  import opened Text
  import opened Records
  import opened Tokens
  import opened Truncation
  import opened Batching
  import opened Languages

  /** Tokens reserved for the prompt template. */
  const PromptOverhead: int := 2000
  const DefaultMaxContextTokens: int := 128000
  const DefaultMaxTokens: int := 4000

  /** The `llm` section of the configuration: `max_context_tokens` and `max_tokens`, when present. */
  datatype LlmConfig = LlmConfig(maxContextTokens: Option<int>, maxTokens: Option<int>)

  /** `max_context_tokens - 2000 - max_tokens`, with the defaults filled in. */
  function AvailableTokens(config: LlmConfig): (n: int)
    ensures config.maxContextTokens.None? && config.maxTokens.None? ==> n == 122000
    ensures n + PromptOverhead + config.maxTokens.GetOr(DefaultMaxTokens)
         == config.maxContextTokens.GetOr(DefaultMaxContextTokens)
  {
    config.maxContextTokens.GetOr(DefaultMaxContextTokens) - PromptOverhead - config.maxTokens.GetOr(DefaultMaxTokens)
  }

  /** One entry of the `files` list of `get_batch_info`. */
  datatype FileSummary = FileSummary(name: string, lines: nat, size: nat)

  /** The dictionary `get_batch_info` returns; its language list is modelled as the set it is built from. */
  datatype BatchInfo = BatchInfo(
    totalFiles: nat,
    totalTokens: nat,
    totalLines: nat,
    languages: set<string>,
    files: seq<FileSummary>)

  function Summaries(b: seq<FileRecord>): (s: seq<FileSummary>)
    ensures |s| == |b|
    ensures forall k :: 0 <= k < |b| ==> s[k] == FileSummary(b[k].name, b[k].lines, b[k].size)
  {
    seq(|b|, k requires 0 <= k < |b| => FileSummary(b[k].name, b[k].lines, b[k].size))
  }

  class ContextManager {
    const maxContextTokens: int
    const responseTokens: int
    /** The budget every batch is packed against. */
    const availableTokens: int
    /** The tokenizer chosen for the configured model. */
    const encoder: Encoder

    constructor(config: LlmConfig, encoder: Encoder)
      ensures maxContextTokens == config.maxContextTokens.GetOr(DefaultMaxContextTokens)
      ensures responseTokens == config.maxTokens.GetOr(DefaultMaxTokens)
      ensures availableTokens == AvailableTokens(config)
      ensures this.encoder == encoder
    {
      maxContextTokens := config.maxContextTokens.GetOr(DefaultMaxContextTokens);
      responseTokens := config.maxTokens.GetOr(DefaultMaxTokens);
      availableTokens := config.maxContextTokens.GetOr(DefaultMaxContextTokens) - PromptOverhead
                         - config.maxTokens.GetOr(DefaultMaxTokens);
      this.encoder := encoder;
    }

    /** `create_batches`: the batches `Batching.Batches` describes. */
    method CreateBatches(files: seq<FileRecord>) returns (batches: seq<seq<FileRecord>>)
      ensures batches == Batches(encoder, availableTokens, files)
    {
      if files == [] {
        return [];
      }
      var fileTokens := EstimateAll(files);
      var sorted := SortEntries(fileTokens);
      batches := PackEntries(sorted);
    }

    /** The loop that pairs every file with its estimate, in input order. */
    method EstimateAll(files: seq<FileRecord>) returns (fileTokens: seq<Entry>)
      ensures fileTokens == Entries(encoder, files)
    {
      fileTokens := [];
      for i := 0 to |files|
        invariant fileTokens == Entries(encoder, files)[..i]
      {
        var tokens := EstimateFileTokens(encoder, files[i]);
        fileTokens := fileTokens + [Entry(i, files[i], tokens)];
      }
      assert fileTokens == Entries(encoder, files);
    }

    /**
     * The packing loop over the sorted pairs and the final append of the open
     * batch: oversized files go alone and truncated, the others greedily.
     */
    method PackEntries(sorted: seq<Entry>) returns (batches: seq<seq<FileRecord>>)
      ensures batches == Close(Pack(encoder, availableTokens, sorted))
    {
      batches := [];
      var currentBatch: seq<FileRecord> := [];
      var currentTokens: int := 0;
      for i := 0 to |sorted|
        invariant Packing(batches, currentBatch, currentTokens) == Pack(encoder, availableTokens, sorted[..i])
      {
        PackSnoc(encoder, availableTokens, sorted, i);
        var e := sorted[i];
        if e.tokens > availableTokens {
          var truncated := TruncateFileContent(e.file, availableTokens);
          batches := batches + [[truncated]];
        } else if currentTokens + e.tokens > availableTokens && currentBatch != [] {
          batches := batches + [currentBatch];
          currentBatch := [e.file];
          currentTokens := e.tokens;
        } else {
          currentBatch := currentBatch + [e.file];
          currentTokens := currentTokens + e.tokens;
        }
      }
      assert sorted[..|sorted|] == sorted;
      if currentBatch != [] {
        batches := batches + [currentBatch];
      }
    }

    /** `_truncate_file_content`: the copy `Truncation.TruncateFile` describes. */
    method TruncateFileContent(file: FileRecord, maxTokens: int) returns (truncated: FileRecord)
      ensures truncated == TruncateFile(encoder, file, maxTokens)
      ensures truncated.truncation
           == Some(Truncation(file.lines, KeptCount(encoder, SplitLines(file.content), Allowance(encoder, maxTokens))))
    {
      var truncationTokens := CountTokens(encoder, Notice);
      var availableForContent := maxTokens - MetadataReserve - truncationTokens;
      var lines := SplitLines(file.content);

      var truncatedLines: seq<string> := [];
      var currentTokens: nat := 0;
      var i := 0;
      while i < |lines|
        invariant 0 <= i <= |lines|
        invariant truncatedLines == lines[..i]
        invariant currentTokens == Cost(encoder, lines[..i])
        invariant i > 0 ==> currentTokens <= availableForContent
      {
        var lineTokens := CountTokens(encoder, lines[i] + "\n");
        CostExtend(encoder, lines, i);
        if currentTokens + lineTokens > availableForContent {
          break;
        }
        truncatedLines := truncatedLines + [lines[i]];
        currentTokens := currentTokens + lineTokens;
        i := i + 1;
      }
      KeptCountUnique(encoder, lines, availableForContent, i);
      assert availableForContent == Allowance(encoder, maxTokens);

      var truncatedContent := Join("\n", truncatedLines) + Notice;
      truncated := file.(content := truncatedContent, truncation := Some(Truncation(file.lines, |truncatedLines|)));
    }

    /** `get_batch_info`. */
    method GetBatchInfo(batch: seq<FileRecord>) returns (info: BatchInfo)
      ensures info.totalFiles == |batch|
      ensures info.totalTokens == SumEst(encoder, batch)
      ensures info.totalLines == SumLines(batch)
      ensures info.languages == set k | 0 <= k < |batch| :: ContextLanguage(batch[k].extension)
      ensures info.files == Summaries(batch)
    {
      var languages: set<string> := {};
      for i := 0 to |batch|
        invariant languages == set k | 0 <= k < i :: ContextLanguage(batch[k].extension)
      {
        var ext := ToLower(batch[i].extension);
        var lang := ContextLanguage(ext);
        LookupIgnoresCase(ContextTable, batch[i].extension, Unknown);
        if lang != "" {
          languages := languages + {lang};
        }
      }
      info := BatchInfo(|batch|, SumEst(encoder, batch), SumLines(batch), languages, Summaries(batch));
    }
  }
}
