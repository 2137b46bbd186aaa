# code-summarizer, modelled in Dafny

code-summarizer reads a project's source files and sends them to a language
model in batches that fit its context window. It then collects the model's
analyses into a JSON response or a Markdown report. This project models the
parts of that pipeline that decide what is sent and what comes back:

- the context manager of the command-line tool
  (`src/code_summarizer/context_manager.py`). It estimates each file's tokens,
  sorts the files largest first and packs them greedily into batches within
  the budget. A file that is too large on its own is truncated to whole lines
  and sent alone. `Batching` and `Truncation` hold the specification;
  `ContextManagement.ContextManager` holds the imperative class, proved
  against it.
- the two file processors. `FileSelection` covers the web service
  (`app/utils/file_processor.py`) and `LegacyFileSelection` the command-line
  tool (`src/code_summarizer/file_processor.py`). They cover which files are
  supported or excluded, the shape of the record for each file
  (`Records.Plain`), and the project summary (`ProjectInfo`). Building the
  record from a file on disk (`_create_file_data`) is left out with the
  other file-system I/O.
- the security helpers (`Security`, `app/core/security.py`): filename
  sanitising and the request-path check.
- the upload handler (`FileHandling`, `app/utils/file_handler.py`): per-file
  checks, the counting loop over uploads, and content validation.
- the request models' validation rules (`Requests`, `app/models/requests.py`).
- the Markdown report (`Markdown`, `app/utils/markdown_formatter.py`).
- the analysis service (`AnalysisService`,
  `app/services/analysis_service.py`): it converts files to records, analyses
  the batches, collects the per-file results, and produces the project
  summary and the Markdown output.
- the prompt loader (`PromptLoading`, `app/utils/prompt_loader.py`).

Shared vocabulary lives in `Text` (ASCII case, lines, joins, stripping, decimal
numerals, sorted lists), `Paths` (POSIX path components, names, suffixes),
`Languages` (the extension tables) and `Records` (the file record dictionary).

The model makes these choices:

- The tokenizer is a function value `string -> Option<nat>`. `None` stands
  for an encoder that raises, in which case `count_tokens` falls back to
  `len(text) // 4`.
- The language model is a deterministic function from a batch of records to
  a reply or an error message.
- File contents, clocks, identifiers and byte formatting are parameters.
- Python sets whose iteration order reaches the output are modelled in
  first-occurrence order. Only their membership is stated.

## Model

| member | source | states |
|---|---|---|
| Tokens.CountTokens | src/code_summarizer/context_manager.py:37-43 | the tokenizer's count when encoding succeeds, otherwise the floor of a quarter of the length |
| Tokens.Header | src/code_summarizer/context_manager.py:50-52 | the metadata block starts with the `File:`, `Path:` and `Lines:` lines naming the record |
| Tokens.HeaderLineCount | src/code_summarizer/context_manager.py:51 | the block ends with the line count in decimal and a newline, and those digits read back as the count |
| Tokens.EstimateFileTokens | src/code_summarizer/context_manager.py:45-54 | the estimate is at least the content's tokens and at least the header's tokens |
| Tokens.EstimateReadsFourKeys | src/code_summarizer/context_manager.py:45-54 | records that agree on name, path, lines and content get the same estimate |
| Tokens.FallbackSuperAdditive | src/code_summarizer/context_manager.py:41-43 | under the fallback, the count of a concatenation is at least the sum of the parts' counts |
| Tokens.FallbackStrictlySuperAdditive | src/code_summarizer/context_manager.py:41-43 | under the fallback, two pieces can cost strictly more together than apart |
| Truncation.Allowance | src/code_summarizer/context_manager.py:108-113 | the tokens left for content are at most the limit minus the 200 reserved for metadata |
| Truncation.LineCost | src/code_summarizer/context_manager.py:124 | under the length-over-four fallback a kept line costs a quarter of its length plus its newline, rounded down |
| Truncation.Cost | src/code_summarizer/context_manager.py:121-128 | no single line costs more than the lines together |
| Truncation.CostConcat | src/code_summarizer/context_manager.py:123-128 | the summed line costs of two line lists add up |
| Truncation.CostExtend | src/code_summarizer/context_manager.py:123-128 | keeping one more line adds exactly that line's cost, counted with its newline |
| Truncation.CostMonotone | src/code_summarizer/context_manager.py:123-128 | a longer prefix of lines never costs less |
| Truncation.KeptCount | src/code_summarizer/context_manager.py:120-128 | the loop keeps a prefix that fits the allowance, and the next line would have exceeded it |
| Truncation.KeptIsLongest | src/code_summarizer/context_manager.py:120-128 | the kept prefix is the longest prefix that fits: every longer prefix exceeds the allowance |
| Truncation.KeptCountUnique | src/code_summarizer/context_manager.py:123-126 | the break condition determines the kept count uniquely |
| Truncation.TruncateFile | src/code_summarizer/context_manager.py:104-139 | the copy's content is the kept lines joined by newlines plus the notice; it records the original line count and the kept count; every other key is unchanged |
| Truncation.TruncateFileKeepsLongest | src/code_summarizer/context_manager.py:119-137 | the recorded kept count is the loop's count: the longest prefix of lines whose costs fit the allowance, which fits whenever the allowance is not negative |
| Truncation.JoinCostBound | src/code_summarizer/context_manager.py:123-131 | for a sub-additive, append-monotone tokenizer, the joined kept lines cost no more than their per-line costs |
| Truncation.TruncatedFitsUnderAssumptions | src/code_summarizer/context_manager.py:104-139 | under those tokenizer assumptions, with a header of at most 200 tokens and a non-negative allowance, the truncated copy's estimate is within the limit |
| Truncation.FallbackTruncationCanOverflow | src/code_summarizer/context_manager.py:104-139 | under the length-over-four fallback, a content of one-letter lines is kept whole and its truncated copy exceeds the limit |
| Batching.Entries | src/code_summarizer/context_manager.py:66-70 | one pair per file, in input order, each carrying that file's estimate |
| Batching.Insert | src/code_summarizer/context_manager.py:72-73 | inserting a pair adds exactly that pair to the multiset |
| Batching.SortEntries | src/code_summarizer/context_manager.py:72-73 | the sorted pairs are a permutation of the input pairs |
| Batching.InsertSorted | src/code_summarizer/context_manager.py:72-73 | inserting into a sorted list keeps it sorted: more tokens first, input order among ties |
| Batching.SortEntriesSorted | src/code_summarizer/context_manager.py:72-73 | the stable descending sort yields sorted pairs |
| Batching.TokensMatchPermutation | src/code_summarizer/context_manager.py:66-73 | after the sort every pair still carries its file's estimate |
| Batching.Emit | src/code_summarizer/context_manager.py:80-85 | a pair within the budget is output as is; an oversized one is output as a truncated copy with the same name and path |
| Batching.Close | src/code_summarizer/context_manager.py:98-102 | closing the loop keeps every batch already emitted, in order, and may add the open one |
| Batching.Step | src/code_summarizer/context_manager.py:79-96 | one iteration keeps every closed batch unchanged and in order, and closes at most one more |
| Batching.Pack | src/code_summarizer/context_manager.py:75-96 | after n pairs the closed batches and a non-empty open one number at most n, and some batch exists once a pair was seen |
| Batching.Batches | src/code_summarizer/context_manager.py:56-102 | no batches exactly when there are no files, and never more batches than files |
| Batching.SumEst | src/code_summarizer/context_manager.py:143 | the summed estimates of a batch are at least its first file's estimate |
| Batching.OptimizeBatchingStrategy | src/code_summarizer/context_manager.py:192-204 | a single batch exactly when the summed estimates fit the budget, and then every file fits on its own; file-by-file only for at most ten files; smart batching only for more than ten |
| Batching.SumEstConcat | src/code_summarizer/context_manager.py:143 | summed estimates add up over concatenation |
| Batching.LeadingOversized | src/code_summarizer/context_manager.py:79-85 | counts the oversized pairs at the front; the pair after them is within the budget |
| Batching.RestAreRegular | src/code_summarizer/context_manager.py:79-85 | with oversized pairs first, every pair after the leading ones is within the budget |
| Batching.SortedOversizedFirst | src/code_summarizer/context_manager.py:72-85 | after the descending sort, all oversized pairs come before all the others |
| Batching.StepCovers | src/code_summarizer/context_manager.py:79-96 | each iteration adds exactly the pair's output file, truncated when oversized, to the batches read in order |
| Batching.StepFront | src/code_summarizer/context_manager.py:80-85 | each iteration keeps the oversized files, truncated and one per batch, at the front |
| Batching.StepOversized | src/code_summarizer/context_manager.py:81-85 | an oversized pair keeps every later batch within the budget |
| Batching.StepNewBatch | src/code_summarizer/context_manager.py:88-92 | closing the open batch and starting a new one keeps the later batches within the budget, each overflowing its predecessor |
| Batching.StepStartFirstBatch | src/code_summarizer/context_manager.py:93-96 | adding a pair to an empty open batch keeps the later batches within the budget |
| Batching.StepExtendBatch | src/code_summarizer/context_manager.py:93-96 | adding a pair that fits to the open batch keeps the later batches within the budget, each overflowing its predecessor |
| Batching.ExtendLastBatch | src/code_summarizer/context_manager.py:93-96 | appending to the open batch changes only the last batch, only at its end |
| Batching.PackInvariant | src/code_summarizer/context_manager.py:75-100 | the invariant holds after every prefix of a pass over pairs with oversized ones first |
| Batching.BatchesInvariant | src/code_summarizer/context_manager.py:56-102 | the batches come from the sorted pairs, which are a permutation of the input pairs and satisfy the invariant |
| Batching.NoFilesNoBatches | src/code_summarizer/context_manager.py:63-64 | no files give no batches |
| Batching.BatchesCoverEveryFileOnce | src/code_summarizer/context_manager.py:56-102 | read batch by batch, the output is the sorted files, each oversized one truncated; as a multiset it is every input file exactly once |
| Batching.EmitsInsert | src/code_summarizer/context_manager.py:72-85 | output records of an insertion are the old ones plus the new pair's |
| Batching.EmitsPermutation | src/code_summarizer/context_manager.py:72-85 | sorting does not change the multiset of output records |
| Batching.BatchesShape | src/code_summarizer/context_manager.py:56-102 | no batch is empty; the first batches hold the oversized files, one each, truncated; every later batch fits the budget; and each later batch was closed only because the next file did not fit |
| Batching.InvariantShape | src/code_summarizer/context_manager.py:75-102 | the loop invariant of a pass with the oversized pairs first yields the batch shape `BatchesShape` states |
| Batching.OversizedBatchRecordsLines | src/code_summarizer/context_manager.py:81-85 | an oversized file's batch holds only its truncated copy, which records the original line count |
| Batching.SumEstElement | src/code_summarizer/context_manager.py:197 | one file's estimate is at most the files' summed estimates |
| Batching.SumEstPermutation | src/code_summarizer/context_manager.py:143 | summed estimates do not depend on the order of the files |
| Batching.TwoBatchesSum | src/code_summarizer/context_manager.py:88-92 | the summed estimates of all batches are at least the first batch plus the next batch's first file |
| Batching.NothingOversizedWhenAllFit | src/code_summarizer/context_manager.py:79-85 | when all files fit together, none is oversized and none is truncated |
| Batching.SecondBatchOverflowsFirst | src/code_summarizer/context_manager.py:88-92 | with nothing oversized, a second batch exists only because the first could not take its first file |
| Batching.SingleBatchMeansOneBatch | src/code_summarizer/context_manager.py:192-204 | when the strategy says `single_batch`, the batcher returns exactly one batch: all files, sorted |
| Batching.ScenarioEstimates | tests/test_context_manager.py:118-137 | the scenario files are estimated at 600, 300, 500, 400 and 1500 tokens |
| Batching.ScenarioThreeSorted | tests/test_context_manager.py:129-137 | files of 600, 300 and 500 tokens sort as 600, 500, 300 |
| Batching.ScenarioThreePacked | tests/test_context_manager.py:129-137 | with budget 1000, the pass packs the 600 file alone and then 500 with 300 |
| Batching.ScenarioLargestFirst | tests/test_context_manager.py:118-137 | with budget 1000, files of 600, 300 and 500 tokens make two batches: one file, then two |
| Batching.ScenarioExactFit | src/code_summarizer/context_manager.py:88 | with budget 1000, files of 600 and 400 tokens fit exactly and share one batch |
| Batching.ScenarioOversized | tests/test_context_manager.py:139-160 | with budget 1000, a 1500-token file comes back alone, as its copy truncated with limit 1000 |
| ContextManagement.AvailableTokens | src/code_summarizer/context_manager.py:13-20 | the budget plus the 2000 overhead plus the response tokens is the context size; the defaults give 122000 |
| ContextManagement.Summaries | src/code_summarizer/context_manager.py:159 | one summary per file: its name, lines and size |
| ContextManagement.ContextManager.constructor | src/code_summarizer/context_manager.py:9-27 | the fields are set from the configuration with defaults 128000 and 4000, and the budget is `AvailableTokens` |
| ContextManagement.ContextManager.CreateBatches | src/code_summarizer/context_manager.py:56-102 | the imperative loop returns exactly the batches `Batching.Batches` specifies |
| ContextManagement.ContextManager.EstimateAll | src/code_summarizer/context_manager.py:66-70 | the loop pairs every file with its estimate and its input position, in input order |
| ContextManagement.ContextManager.PackEntries | src/code_summarizer/context_manager.py:75-100 | the packing loop and the final append return the closed packing of the sorted pairs |
| Batching.PackSnoc | src/code_summarizer/context_manager.py:79-96 | packing one more pair is one more loop step |
| ContextManagement.ContextManager.TruncateFileContent | src/code_summarizer/context_manager.py:104-139 | the imperative loop returns exactly the copy `Truncation.TruncateFile` specifies, recording the original line count and the longest fitting prefix `KeptCount` as the kept count |
| ContextManagement.ContextManager.GetBatchInfo | src/code_summarizer/context_manager.py:141-160 | file count, summed estimates, summed lines, the set of language names, and one summary per file |
| Records.Plain | src/code_summarizer/file_processor.py:124-132 | a record without the optional keys carries the given path, name, content and lines |
| Records.SumsSnoc | src/code_summarizer/context_manager.py:145 | appending a record adds its lines and its size to the sums |
| Records.SumLines | app/utils/file_processor.py:353 | no file has more lines than the files together |
| Records.SumSize | app/utils/file_processor.py:354 | no file is larger than the files together |
| Languages.Lookup | src/code_summarizer/context_manager.py:190 | the result is the default or a table value, and the default whenever the lower-cased extension is missing |
| Languages.ProcessorLanguage | app/utils/file_processor.py:373-402 | never empty; "Unknown" exactly when the lower-cased extension is not in the table; otherwise the table's entry |
| Languages.ContextLanguage | src/code_summarizer/context_manager.py:162-190 | never empty; "Unknown" exactly when the lower-cased extension is not in the table; otherwise the table's entry |
| Languages.ServiceLanguage | app/services/analysis_service.py:243-271 | never empty; "unknown" exactly when the lower-cased extension is not in the table; otherwise the table's entry |
| Languages.LookupIgnoresCase | src/code_summarizer/context_manager.py:190 | looking up an extension and its lower-cased form give the same answer |
| Languages.ProcessorLanguageExamples | app/utils/file_processor.py:373-402 | `.PY` is Python, `.Jsx` is JavaScript (React), `.xyz` is unknown |
| Languages.ContextLanguageExamples | src/code_summarizer/context_manager.py:164-190 | `.jsx` is JavaScript, `.mm` is unknown |
| Languages.ServiceLanguageExamples | app/services/analysis_service.py:243-271 | `.PY` is python, `.sh` is unknown |
| Text.ToLower | app/utils/file_processor.py:61 | `str.lower()` keeps the length and lower-cases each ASCII letter, position by position |
| Text.ToUpper | app/core/security.py:246 | `str.upper()` keeps the length and upper-cases each ASCII letter, position by position |
| Text.ToLowerIdempotent | app/utils/file_processor.py:402 | lower-casing twice is lower-casing once |
| Text.TitleCase | app/utils/markdown_formatter.py:202 | `str.title()` keeps the length; a letter is upper-cased when it is first or follows a non-letter and lower-cased when it follows a letter; every other character is kept |
| Text.TitleCaseExamples | app/utils/markdown_formatter.py:202 | `"medium"` becomes `"Medium"` and `"HIGH"` becomes `"High"` |
| Text.Contains | src/code_summarizer/file_processor.py:45 | `sub in s` holds exactly when `sub` occurs at some position of `s` |
| Text.NatToString | app/services/analysis_service.py:314 | `str(n)` is a non-empty string of decimal digits |
| Text.ParseNatToString | app/services/analysis_service.py:314 | reading back `str(n)` gives `n` |
| Text.NatToStringInjective | app/services/analysis_service.py:314 | distinct numbers render differently |
| Text.FirstBreak | src/code_summarizer/context_manager.py:117 | the first line boundary: no boundary before it, and a boundary at it when inside the text |
| Text.SplitLines | src/code_summarizer/context_manager.py:117 | `str.splitlines()`: no piece holds a line boundary, and only the empty text has no lines |
| Text.FirstBreakAfterLine | src/code_summarizer/context_manager.py:131 | the first boundary of `line + "\n" + rest` is right after the line when the line has none |
| Text.SplitJoinedLines | src/code_summarizer/context_manager.py:117-131 | splitting lines joined by `"\n"` gives them back, when no line holds a boundary and the last is not empty |
| Text.StripLeft | app/utils/file_handler.py:234 | removes exactly the leading whitespace |
| Text.StripRight | app/utils/markdown_formatter.py:190 | removes exactly the trailing whitespace |
| Text.StripEmptyIffAllSpace | app/utils/file_handler.py:265-266 | `not s.strip()` holds exactly when every character is whitespace |
| Text.LexLessIrreflexive | app/utils/file_processor.py:357 | no string sorts before itself |
| Text.LexLessTransitive | app/utils/file_processor.py:357 | string order is transitive |
| Text.LexLessTotal | app/utils/file_processor.py:357 | of two different strings one sorts first |
| Text.InsertSorted | app/utils/file_processor.py:357 | inserting into a strictly sorted list keeps it strictly sorted and adds exactly that string |
| Text.SortedList | app/utils/file_processor.py:357 | `sorted(list(s))` is strictly increasing and holds exactly the members of the set |
| Text.Dedup | app/utils/markdown_formatter.py:317-319 | the distinct members of a list, each once; empty exactly when the list is |
| Paths.Segments | app/utils/file_processor.py:69-82 | `split('/')` gives at least one piece, none holding a slash |
| Paths.FirstSlash | app/utils/file_processor.py:69-82 | the first slash: none before it |
| Paths.SegmentsCons | app/utils/file_processor.py:69-82 | splitting at the first slash |
| Paths.SegmentsOfJoin | app/utils/file_processor.py:69-82 | slash-free pieces joined by `/` split back into themselves |
| Paths.KeepComponents | app/utils/file_processor.py:69-82 | keeps only named components taken from the segments |
| Paths.Components | app/utils/file_processor.py:69-82 | every component of a path is named and free of slashes |
| Paths.AbsolutePath | app/utils/file_processor.py:69-82 | the path built from components is absolute |
| Paths.ComponentsOfAbsolute | app/utils/file_processor.py:69-82 | the components of `/c1/.../cn` are `c1 ... cn` |
| Paths.PartsOfAbsolute | app/utils/file_processor.py:69-82 | the parts of `/c1/.../cn` are the anchor and the components, and its name is `cn` |
| Paths.KeepNamed | app/utils/file_processor.py:69-82 | named components are kept, and a leading empty segment is dropped |
| Paths.Name | app/utils/file_processor.py:89-93 | `Path.name` holds no slash and, when not empty, is one of the parts |
| Paths.LastDot | app/services/analysis_service.py:225 | the position of the last dot, or -1 when there is none |
| Paths.Suffix | app/services/analysis_service.py:225 | `Path.suffix` is empty or a dot followed by at least one character and no further dot |
| Paths.Stem | app/utils/markdown_formatter.py:92 | the stem followed by the suffix is the name |
| Paths.PartsRelativeTo | app/utils/file_processor.py:72-82 | the parts checked are always parts of the file's path |
| FileSelection.AnyEndsWith | app/utils/file_processor.py:61 | holds exactly when some configured extension ends the text |
| FileSelection.IsSupportedFile | app/utils/file_processor.py:59-61 | holds exactly when the lower-cased path ends with one of the configured extensions, compared as written; the command-line tool's check at src/code_summarizer/file_processor.py:38-40 is the same |
| FileSelection.IsSupportedIgnoresCase | app/utils/file_processor.py:59-61 | a path and its lower-cased form are treated alike |
| FileSelection.IsSupportedFileExamples | tests/unit/utils/test_file_processor.py:27-34 | with `.py`, `.js`, `.ts`: `test.py` and `test.JS` are supported, `test.txt` is not |
| FileSelection.CheckParts | app/utils/file_processor.py:69-82 | without a base directory all the path's parts are checked; with one, only parts of the path |
| FileSelection.AnyPatternMatches | app/utils/file_processor.py:84-99 | the early-return loop holds exactly when some pattern matches |
| FileSelection.ShouldExclude | app/utils/file_processor.py:63-101 | holds exactly when some pattern matches: a `*rest` pattern by the name's ending, any other by the name or a checked part |
| FileSelection.BaseDirOnlyNarrows | app/utils/file_processor.py:69-99 | a file excluded relative to a base directory is also excluded without one |
| FileSelection.WildcardIgnoresBase | app/utils/file_processor.py:86-90 | a wildcard pattern depends only on the file's name, not on the base directory |
| FileSelection.ExcludesCacheDirectory | tests/unit/utils/test_file_processor.py:36-41 | `/path/__pycache__/file.py` is excluded by the directory pattern |
| FileSelection.ExcludesCompiledFile | tests/unit/utils/test_file_processor.py:36-42 | `/path/file.pyc` is excluded by the wildcard pattern |
| FileSelection.KeepsSourceFile | tests/unit/utils/test_file_processor.py:36-44 | `/path/src/main.py` is kept |
| FileSelection.BaseComponentsAreNotChecked | app/utils/file_processor.py:72-76 | components of the base directory itself are not checked: a pattern naming one excludes without the base but not with it |
| LegacyFileSelection.RemoveStars | src/code_summarizer/file_processor.py:45 | `replace("*", "")` leaves no star, and changes nothing in a pattern without stars |
| LegacyFileSelection.RemoveStarsOfStars | src/code_summarizer/file_processor.py:45 | a pattern made only of stars becomes empty |
| LegacyFileSelection.ShouldExclude | src/code_summarizer/file_processor.py:42-47 | holds exactly when some pattern, stars removed, occurs in the path |
| LegacyFileSelection.StarsExcludeEverything | src/code_summarizer/file_processor.py:42-47 | a pattern of stars alone excludes every path |
| LegacyFileSelection.MissingCharacterKeeps | src/code_summarizer/file_processor.py:45 | a pattern holding a character the path lacks never matches it |
| LegacyFileSelection.RemoveStarsConcat | src/code_summarizer/file_processor.py:45 | removing stars distributes over concatenation |
| LegacyFileSelection.RemoveStarsAround | src/code_summarizer/file_processor.py:45 | `*core*` searches for `core` |
| LegacyFileSelection.ExcludesModuleFile | tests/test_file_processor.py:57-62 | `/path/node_modules/file.js` is excluded |
| LegacyFileSelection.KeepsSourceFile | tests/test_file_processor.py:57-64 | `/path/src/file.py` is kept |
| ProjectInfo.LanguagesUpToStep | app/utils/file_processor.py:344-349 | each loop iteration adds exactly the current file's language to the set |
| ProjectInfo.LanguageOf | app/utils/file_processor.py:346-347 | never empty; `Unknown` exactly when the lower-cased extension is not in the table |
| ProjectInfo.LanguagesOf | app/utils/file_processor.py:344-349 | every file's language is in the set, and every member is some file's language |
| ProjectInfo.CountLanguage | app/utils/file_processor.py:361-369 | at most the number of files, and positive exactly for the languages of the files |
| ProjectInfo.GetProjectInfo | app/utils/file_processor.py:338-371 | nothing for no files; otherwise the languages sorted and distinct, exactly the files' languages, the count and the sums of lines and sizes, and per language its number of files; the command-line tool's version at src/code_summarizer/file_processor.py:183-216 is the same |
| ProjectInfo.Occurrences | app/utils/file_processor.py:361-370 | at most the length of the list |
| ProjectInfo.OccursOnce | app/utils/file_processor.py:357 | a member of a duplicate-free list occurs once |
| ProjectInfo.NotOccurring | app/utils/file_processor.py:357 | a non-member occurs zero times |
| ProjectInfo.SumCountsDropFirst | app/utils/file_processor.py:361-370 | dropping the first file takes one from its language's count |
| ProjectInfo.FileTypesSumToTotal | app/utils/file_processor.py:352-370 | the per-language counts add up to the number of files, Unknown included |
| ProjectInfo.ZeroCounts | app/utils/file_processor.py:361-370 | no files give zero counts |
| ProjectInfo.SortedIsDistinct | app/utils/file_processor.py:357 | the sorted language list holds no duplicates |
| ProjectInfo.CountsOfThree | tests/unit/utils/test_file_processor.py:248-281 | two Python files and one JavaScript file are counted 2 and 1 |
| ProjectInfo.SumsOfThree | app/utils/file_processor.py:353-354 | the sums of three records are the sums of their fields |
| ProjectInfo.ProjectInfoExample | tests/unit/utils/test_file_processor.py:248-281 | 50, 30 and 20 lines and 1000, 800 and 500 bytes make 100 lines and 2300 bytes, with languages Python and JavaScript counted 2 and 1 |
| Security.ReplaceUnsafe | app/core/security.py:206 | keeps the length; keeps each safe character; replaces each other character by exactly one underscore |
| Security.ReplaceUnsafeKeepsSafe | app/core/security.py:206 | a name of safe characters passes through unchanged |
| Security.CollapseDots | app/core/security.py:209 | the result has no two dots in a row, is no longer than the input, keeps its first and last characters and keeps safe text safe |
| Security.CollapseDotsStep | app/core/security.py:209 | one left-to-right step: a dot followed by a dot is dropped |
| Security.CollapseDotsSnoc | app/core/security.py:209 | appending a character appends it unless it is a dot after a dot |
| Security.CollapseDotsIsSquash | app/core/security.py:209 | the left-to-right rewrite equals the right-to-left reading: every run of dots becomes one dot and nothing else changes |
| Security.CollapseDotsKeepsSingleDots | app/core/security.py:209 | text without double dots is left alone |
| Security.TruncateAsWritten | app/core/security.py:211-218 | the length limit as written leaves names of at most 255 characters alone |
| Security.Truncate | app/core/security.py:211-218 | the intended limit: a longer name is cut to exactly 255 characters, keeping its final extension when that has 1 to 254 characters, otherwise keeping the first 255 characters |
| Security.TruncateAgreesWhenExtensionFits | app/core/security.py:211-218 | wherever the extension fits, the code as written computes the intended value |
| Security.EmptyExtensionAgrees | app/core/security.py:213-218 | with a trailing dot, both keep the first 255 characters |
| Security.ExtensionFitsAgrees | app/core/security.py:213-218 | with an extension of 1 to 254 characters, both keep it after the front of the name |
| Security.AsWrittenKeepsExtension | app/core/security.py:213-218 | the code as written keeps a fitting extension after 255 minus its length of the name |
| Security.TruncateAsWrittenOverflows | app/core/security.py:212-218 | `"a." + "b" * 300` becomes 301 characters as written, while the intended limit gives 255 |
| Security.ReservedNamesAreShort | app/core/security.py:221-244 | every reserved device name has at most four characters |
| Security.BeforeFirstDot | app/core/security.py:246 | `split(".")[0]` is the dot-free prefix up to the first dot |
| Security.PrefixReserved | app/core/security.py:246-248 | a name that is not reserved is unchanged; otherwise at most five characters are added and the name survives as the suffix |
| Security.Unreserve | app/core/security.py:246-248 | a name that is not reserved is unchanged; with room for the prefix the step is exactly the prefix step; a changed name is within 255 characters |
| Security.BeforeFirstDotPrefix | app/core/security.py:246 | dot-free text in front belongs to the first part |
| Security.PrefixedIsNotReserved | app/core/security.py:246-248 | a name prefixed with `file_` is no longer reserved |
| Security.SanitizeFilenameAsWritten | app/core/security.py:199-250 | the sanitiser as written fails exactly on the empty name |
| Security.SanitizeFilename | app/core/security.py:199-250 | fails exactly on the empty name; otherwise returns a non-empty name of safe characters, at most 255 long and never reserved, without double dots when the input has at most 250 characters |
| Security.TruncateKeepsSafe | app/core/security.py:211-218 | the length limit keeps characters safe and a non-empty name non-empty |
| Security.PrefixKeepsSafe | app/core/security.py:248 | the prefix keeps characters safe |
| Security.PrefixKeepsSingleDots | app/core/security.py:248 | the prefix adds no double dot |
| Security.UnreserveKeepsSafe | app/core/security.py:246-248 | prefixing and re-limiting keep the name safe, non-empty and within 255 |
| Security.UnreserveKeepsSingleDots | app/core/security.py:246-248 | for a name short enough to take the prefix, no double dot appears |
| Security.ReservedNamesStart | app/core/security.py:221-244 | no reserved name is empty or starts with `F` |
| Security.LongFrontNotReserved | app/core/security.py:246-247 | a first part of five or more characters is never reserved |
| Security.StartsWithPrefixNotReserved | app/core/security.py:246-247 | a name starting with `file_` is not reserved |
| Security.ShortFrontNotReserved | app/core/security.py:246-247 | fewer than five characters of `file_` before a dot are not reserved |
| Security.TruncatedPrefixNotReserved | app/core/security.py:211-248 | cutting a name that starts with `file_` never leaves a reserved name |
| Security.UnreservedIsNotReserved | app/core/security.py:246-248 | after the prefix step, the name is not reserved |
| Security.Rep | app/core/security.py:212-218 | `c * n` has length `n` and is made of `c` |
| Security.TruncationCanJoinDots | app/core/security.py:209-218 | dots are collapsed before the cut, so cutting can bring two dots together again |
| Security.LastDotAt | app/core/security.py:214 | the last dot is the dot after which none follows |
| Security.SanitizeKeepsCleanNames | app/core/security.py:199-250 | a safe, short, unreserved name without double dots comes back unchanged |
| Security.SanitizeIdempotent | app/core/security.py:199-250 | sanitising a sanitised name without double dots changes nothing |
| Security.SanitizeOfClean | app/core/security.py:206-250 | once replaced, a short name without double dots is only checked against the reserved names |
| Security.PrefixAfterLimitOverflows | app/core/security.py:212-248 | `"CON." + "a" * 251` comes back with 260 characters as written, while the corrected sanitiser stays within 255 |
| Security.LongReservedIsClean | app/core/security.py:206-218 | that 255-character name is safe and has no double dots |
| Security.LongReservedIsReserved | app/core/security.py:246-247 | that name is reserved |
| Security.SanitizeReservedExample | test_security_fixes.py:121 | `CON.txt` becomes `file_CON.txt` |
| Security.PrefixedExample | app/core/security.py:248 | `file_CON.txt` is within the limit and unchanged by it |
| Security.ReservedExampleIsClean | test_security_fixes.py:121 | `CON.txt` is safe, short and free of double dots |
| Security.ReservedExampleIsReserved | test_security_fixes.py:121 | `CON.txt` is reserved |
| Security.SanitizeSpecialCharactersExample | test_security_fixes.py:117-121 | each of the nine characters of `file<>:"/\|?*.txt` becomes one underscore |
| Security.SpecialCharactersReplaced | app/core/security.py:206 | the replacement step alone gives `file_________.txt` |
| Security.SpecialCharactersUnsafe | app/core/security.py:206 | the nine special characters are unsafe |
| Security.SpecialCharactersSafeEnds | app/core/security.py:206 | the characters around them are safe |
| Security.SpecialCharactersResultIsClean | app/core/security.py:209-218 | the replaced name has no double dots and fits the limit |
| Security.SpecialCharactersResultNotReserved | app/core/security.py:246-248 | the replaced name is not reserved, so the prefix step leaves it alone |
| Security.AnyPatternIn | app/core/security.py:92-93 | holds exactly when some listed pattern occurs in the text |
| Security.HasDangerousPattern | app/core/security.py:92-93 | holds exactly when some listed pattern occurs in the lower-cased path |
| Security.ValidateRequestPath | app/core/security.py:77-103 | accepted exactly when no dangerous pattern occurs and the path has at most 1000 characters; 400 exactly when a pattern occurs; 414 exactly when none occurs and the path is longer |
| Security.OccursAfterLower | app/core/security.py:93 | lower-casing keeps an occurrence of lower-case text |
| Security.UpperCaseEncodingRejected | app/core/security.py:85-98 | the check ignores case: `%2E%2E%2F` is rejected like `%2e%2e%2f` |
| Security.TraversalRejectedFirst | app/core/security.py:83-98 | any `../` is rejected with 400, however long the path |
| Requests.CheckFilename | app/models/requests.py:51-56 | no violation exactly when the filename has 1 to 255 characters |
| Requests.CheckContent | app/models/requests.py:58-63 | no violation exactly when the content has at most 1,000,000 characters |
| Requests.NewFileContent | app/models/requests.py:44-63 | the record is built exactly when both validators pass; otherwise the errors name only those two fields |
| Requests.Filenames | app/models/requests.py:87 | the file names, one per file, in order |
| Requests.SetOfCons | app/models/requests.py:88 | the set of a list is its first name plus the set of the rest |
| Requests.DuplicatesIffRepeated | app/models/requests.py:86-89 | the set is never larger than the list, and smaller exactly when some name occurs twice |
| Requests.FilesValidator | app/models/requests.py:80-91 | the validator passes exactly when there is a file and no name repeats |
| Requests.CheckFiles | app/models/requests.py:69-71 | no violation exactly when there are 1 to `max_items` valid files with distinct names; the validator's own empty-list message never appears, because the length bound is checked first |
| Requests.CheckItems | app/models/requests.py:44-63 | no violation exactly when every file is valid |
| Requests.CheckOverrides | app/models/requests.py:8-41 | no violation exactly when each present bound holds (tokens 1..8000, temperature 0..2, batch size 1..100, at most 50 patterns) |
| Requests.EmptyOverridesValid | app/models/requests.py:8-41 | every field is optional: empty overrides are valid |
| Requests.CheckOptionalOverrides | app/models/requests.py:72-74 | no overrides, or valid ones |
| Requests.CheckOutputFormat | app/models/requests.py:75-77 | accepted exactly when the whole value is `json`, `markdown` or `both` |
| Requests.DefaultOutputFormatValid | app/models/requests.py:75-77 | the default `json` is accepted |
| Requests.CheckAnalysisRequest | app/models/requests.py:66-91 | accepted exactly when 1 to 100 valid files with distinct names, valid overrides and an allowed format are given |
| Requests.CheckBatchAnalysisRequest | app/models/requests.py:94-122 | accepted exactly when 1 to 500 valid files with distinct names, valid overrides and an allowed format are given |
| Requests.CheckPaths | app/models/requests.py:128-145 | no violation exactly when 1 to 10 paths are given; the validator's own empty-list message never appears |
| Requests.CheckAnalysisFromPathRequest | app/models/requests.py:125-145 | accepted exactly when 1 to 10 paths, valid overrides and an allowed format are given |
| Requests.AnalysisRequestIsBatchRequest | app/models/requests.py:66-122 | every accepted single-analysis request is an accepted batch request |
| Requests.DuplicateNamesRejected | app/models/requests.py:86-89 | two files with the same name are refused by both request kinds |
| Requests.DistinctValidFilesAccepted | app/models/requests.py:69-91 | valid files with distinct names, within the bounds, are accepted |
| FileHandling.LowerSuffix | app/utils/file_handler.py:91 | the lower-cased suffix: empty or starting with a dot |
| FileHandling.Utf8Length | app/utils/file_handler.py:257 | one to four bytes per character, and one per ASCII character |
| FileHandling.NonPrintableCount | app/utils/file_handler.py:270-274 | at most the length, and zero exactly when no control character other than tab, line feed and carriage return occurs |
| FileHandling.NonPrintableCountSnoc | app/utils/file_handler.py:270-274 | appending a character adds one exactly when it is non-printable |
| FileHandling.Head | app/utils/file_handler.py:272 | `content[:1000]` has the length of the content, at most 1000 |
| FileHandling.MessagesDiffer | app/utils/file_handler.py:259-278 | the too-large, empty and binary messages are pairwise different |
| FileHandling.FileHandler.constructor | app/utils/file_handler.py:26-31 | the limits are the settings' limits and the allowed extensions are the configured ones |
| FileHandling.FileHandler.ValidateUploadedFile | app/utils/file_handler.py:83-95 | too large exactly when a non-zero declared size exceeds the limit; unsupported exactly when it is not too large, is named, and its lower-cased suffix is neither `.zip` nor allowed; no other error |
| FileHandling.FileHandler.IsSupportedFileInZip | app/utils/file_handler.py:221-224 | a supported archive member has a suffix, unless the empty extension is itself allowed |
| FileHandling.FileHandler.CheckFileCount | app/utils/file_handler.py:37-38 | no error exactly when the count is at most the limit; otherwise too many files, with the count and the limit |
| FileHandling.FileHandler.Rewrap | app/utils/file_handler.py:67-75 | the handler's own errors pass unchanged; any other failure becomes a file-processing error |
| FileHandling.FileHandler.Gather | app/utils/file_handler.py:42-75 | succeeds exactly when every upload validates and loads; a failure comes from some upload's validation or loading |
| FileHandling.FileHandler.GatherLoads | app/utils/file_handler.py:42-75 | a successful pass returns the loaded files of every upload, in upload order |
| FileHandling.FileHandler.GatherUnfold | app/utils/file_handler.py:42-75 | one step: validate, load, then go on with the rest |
| FileHandling.FileHandler.ProcessUploadedFiles | app/utils/file_handler.py:33-81 | too many uploads are refused first; a success has at most the limit of files, all uploads validated and loaded, in order; the files they expand to are counted again; otherwise the first failure is returned |
| FileHandling.FileHandler.GetFileTypeFromContent | app/utils/file_handler.py:226-247 | the lower-cased suffix when there is one; otherwise one of `.html`, `.xml`, `.js`, `.py`, `.java`, `.txt` |
| FileHandling.FileHandler.GuessFromContent | app/utils/file_handler.py:234-247 | `.txt` exactly when no rule fits; text starting with `<` is HTML or XML |
| FileHandling.FileHandler.ValidateFileContent | app/utils/file_handler.py:249-280 | valid exactly when the UTF-8 size fits the limit; the messages are the errors followed by the warnings |
| FileHandling.FileHandler.ErrorsAsComputed | app/utils/file_handler.py:256-261 | the error list the method builds is the specified one |
| FileHandling.FileHandler.WarningsInOrder | app/utils/file_handler.py:263-278 | the warning list the method builds is the specified one, in order |
| FileHandling.FileHandler.ContentErrors | app/utils/file_handler.py:256-261 | an error exactly when the UTF-8 size exceeds the limit, naming the file and its size |
| FileHandling.FileHandler.ContentWarnings | app/utils/file_handler.py:263-278 | at most two warnings: empty exactly when the stripped content is empty, binary exactly when the heuristic holds |
| FileHandling.FileHandler.ErrorsBeforeWarnings | app/utils/file_handler.py:280 | a message is an error exactly when it stands before the warnings |
| FileHandling.FileHandler.EmptyContentOnlyWarns | app/utils/file_handler.py:263-265 | empty content gives no error, only the empty warning |
| FileHandling.FileHandler.PrintableNeverBinary | app/utils/file_handler.py:267-278 | content without control characters never gets the binary warning |
| FileHandling.FileHandler.FormFeedsWarnTwice | app/utils/file_handler.py:263-278 | 101 form feeds are blank and binary at once, so both warnings are given |
| FileHandling.FileHandler.AllNonPrintable | app/utils/file_handler.py:270-274 | text of control characters counts each of them |
| FileHandling.FileHandler.ZipSupportedIsUploadable | app/utils/file_handler.py:89-95 | a file accepted inside an archive is accepted as a named upload of unknown size |
| FileHandling.FileHandler.UploadableIsZipSupported | app/utils/file_handler.py:221-224 | a named upload that is accepted and is not an archive has an allowed suffix |
| FileHandling.FileHandler.UndeclaredSizeNotChecked | app/utils/file_handler.py:86 | a declared size of zero, or none, is not checked against the limit |
| FileHandling.SanitizedNameFitsFileContent | app/utils/file_handler.py:111-119 | the sanitised name of an upload always passes the 1-to-255 filename check |
| FileHandling.AsWrittenNameRefused | app/utils/file_handler.py:111-119 | with the sanitiser as written, the name built from `"CON." + "a" * 251` fails that check |
| Markdown.Concat | app/utils/markdown_formatter.py:295-314 | a value is in the concatenation exactly when some answer's part holds it |
| Markdown.ConcatSnoc | app/utils/markdown_formatter.py:299-314 | going through one more answer appends that answer's part to what was collected |
| Markdown.ConcatEmpty | app/utils/markdown_formatter.py:321-337 | the collected list is empty exactly when every answer contributes nothing |
| Markdown.SortedKnown | app/utils/markdown_formatter.py:71-98 | the listed languages are strictly sorted and are exactly the known names that occur |
| Markdown.ProjectName | app/utils/markdown_formatter.py:87-94 | `Code Analysis` without files; otherwise a component of the first file's path or that file's stem |
| Markdown.ListedStep | app/utils/markdown_formatter.py:77-80 | adding one file's language keeps the list sorted and adds exactly that language unless it is `Unknown` |
| Markdown.FileLanguages | app/utils/markdown_formatter.py:75-78 | the languages met are those of the files' extensions |
| Markdown.InsertMembers | app/utils/markdown_formatter.py:98 | inserting a new name into a sorted list adds that name and nothing else |
| Markdown.ProjectInfoOf | app/utils/markdown_formatter.py:69-102 | the languages are sorted, contain no `Unknown` and are exactly the known languages of the files; the file count is the number of files |
| Markdown.SortedListsEqual | app/utils/markdown_formatter.py:98 | two strictly sorted lists with the same members are equal, so `sorted(set(...))` is determined by its members |
| Markdown.ExtractProjectInfo | app/utils/markdown_formatter.py:69-102 | the loop yields the project information, with the lines and sizes summed over all files |
| Markdown.LanguageStep | app/utils/markdown_formatter.py:77-80 | one iteration keeps the language set equal to the known languages of the files seen so far |
| Markdown.SumsStep | app/utils/markdown_formatter.py:82-83 | one iteration adds that file's lines and size to the totals |
| Markdown.ProjectNameOfNestedPath | app/utils/markdown_formatter.py:86-90 | a relative path with several components names the project after its first component (the unit test's `src/main.py` gives `src`) |
| Markdown.ProjectNameOfBareName | app/utils/markdown_formatter.py:91-92 | a bare file name names the project after its stem |
| Markdown.AbsolutePathNamesRoot | app/utils/markdown_formatter.py:88-90 | an absolute path's first part is the anchor `/`, which becomes the project name |
| Markdown.NoFilesInfo | app/utils/markdown_formatter.py:93-94 | with no files the project is `Code Analysis` with no languages and zero totals (tests/unit/utils/test_markdown_formatter.py:52-60) |
| Markdown.Grouped | app/utils/markdown_formatter.py:124 | `{n:,}` of a number below 1000 is its plain decimal form |
| Markdown.ThreeDigits | app/utils/markdown_formatter.py:124 | a group of three digits holds no comma |
| Markdown.DropCommas | app/utils/markdown_formatter.py:124 | removing commas leaves a comma-free string unchanged |
| Markdown.DropCommasConcat | app/utils/markdown_formatter.py:124 | removing commas distributes over concatenation |
| Markdown.LastThreeDigits | app/utils/markdown_formatter.py:124 | the decimal form of a number of at least 1000 is that of its thousands followed by its last three digits |
| Markdown.ThousandsArithmetic | app/utils/markdown_formatter.py:124 | the three low decimal digits of a number are those of its remainder modulo 1000 |
| Markdown.GroupedDigits | app/utils/markdown_formatter.py:124 | removing the thousands separators from `{n:,}` gives back `str(n)` |
| Markdown.Bullets | app/utils/markdown_formatter.py:251-252 | the bullet text is empty exactly when there are no items |
| Markdown.Header | app/utils/markdown_formatter.py:104-108 | starts with the `# Code Analysis:` title naming the project and ends with the generation time |
| Markdown.Overview | app/utils/markdown_formatter.py:110-126 | starts with the Overview heading and ends with the analysis date line |
| Markdown.BulletList | app/utils/markdown_formatter.py:250-252 | the loop writes one `- item` line per item, in order |
| Markdown.StripKeepsHeading | app/utils/markdown_formatter.py:176-190 | stripping trailing whitespace never eats into a heading that ends in a visible character |
| Markdown.LineInfo | app/utils/markdown_formatter.py:218-220 | ` (line N)` is printed exactly when the line number is present and truthy |
| Markdown.DescriptionLine | app/utils/markdown_formatter.py:223-225 | the description line is printed exactly when the description is non-empty and differs from the purpose (or its default) |
| Markdown.ParametersLine | app/utils/markdown_formatter.py:227-230 | the parameters line is printed exactly when there are parameters |
| Markdown.ListLine | app/utils/markdown_formatter.py:232-245 | a `**Field**: a, b` line is printed exactly when the list is non-empty |
| Markdown.BulletBlock | app/utils/markdown_formatter.py:247-259 | a titled bullet block is printed exactly when the list is non-empty |
| Markdown.FileHead | app/utils/markdown_formatter.py:194-206 | a file's text starts with its heading line |
| Markdown.SingleFile | app/utils/markdown_formatter.py:192-261 | every file's text starts with its heading line |
| Markdown.MissingFieldsTakeDefaults | app/utils/markdown_formatter.py:194-215 | a missing field prints exactly as its default value `Unknown`, `No description available`, `unknown`, `unnamed`, `function` or `No description` would |
| Markdown.FunctionList | app/utils/markdown_formatter.py:212-230 | the loop writes one entry per function, in order |
| Markdown.FunctionEntriesSnoc | app/utils/markdown_formatter.py:212-230 | one more function appends exactly its entry |
| Markdown.FormatSingleFile | app/utils/markdown_formatter.py:192-261 | the step-by-step text equals the file's specified text |
| Markdown.FalsyLineNumbers | app/utils/markdown_formatter.py:218-220 | line number 0, the empty string and a missing line number print no ` (line ...)` |
| Markdown.DescriptionSameAsPurpose | app/utils/markdown_formatter.py:224 | a description equal to the purpose is not repeated |
| Markdown.FileEntriesSnoc | app/utils/markdown_formatter.py:186-188 | one more file appends its text and a newline |
| Markdown.FileAnalysisSection | app/utils/markdown_formatter.py:178-190 | the section starts with its heading |
| Markdown.FormatFileAnalysis | app/utils/markdown_formatter.py:178-190 | the loop over answers and their files, skipping answers without `files`, equals the specified section |
| Markdown.RelationshipLine | app/utils/markdown_formatter.py:276-284 | every relationship line ends with a newline |
| Markdown.RelationshipLinesSnoc | app/utils/markdown_formatter.py:275-284 | one more relationship appends exactly its line |
| Markdown.DependenciesSection | app/utils/markdown_formatter.py:263-288 | the section starts with its heading, and is the heading plus the fallback sentence exactly when no answer lists a relationship |
| Markdown.FormatDependencies | app/utils/markdown_formatter.py:263-288 | the loops equal the specified section |
| Markdown.EmptyRelationshipsFallBack | app/utils/markdown_formatter.py:285-286 | an answer with an empty relationship list yields the fallback sentence (tests/unit/utils/test_markdown_formatter.py:244-253) |
| Markdown.RelationshipWithoutDescription | app/utils/markdown_formatter.py:281-284 | a relationship without a description ends right after its target |
| Markdown.Listing | app/utils/markdown_formatter.py:321-337 | a titled list is printed exactly when it is non-empty |
| Markdown.TechnicalBody | app/utils/markdown_formatter.py:321-337 | the body is empty exactly when all three lists are empty |
| Markdown.TechnicalDetailsSection | app/utils/markdown_formatter.py:290-339 | the section is `""` exactly when no answer contributes a pattern, technology or dependency, and otherwise starts with its heading |
| Markdown.CollectTechnicalDetails | app/utils/markdown_formatter.py:295-314 | the loop gathers every answer's patterns (technical details, then batch summary), technologies and dependencies, in order |
| Markdown.ListingOf | app/utils/markdown_formatter.py:321-337 | the loop writes the specified titled list |
| Markdown.FormatTechnicalDetails | app/utils/markdown_formatter.py:290-339 | the step-by-step text equals the specified section |
| Markdown.NoDetailsForEmptyAnswer | app/utils/markdown_formatter.py:339 | a single answer with no key yields `""` (tests/unit/utils/test_markdown_formatter.py:282-290) |
| Markdown.BatchPatternIsListed | app/utils/markdown_formatter.py:312-324 | a pattern of any batch summary is among the listed design patterns, so the section is not empty |
| Markdown.FirstProjectSummary | app/utils/markdown_formatter.py:131-135 | the result is the `project_summary` of the first answer carrying one, and is absent exactly when no answer carries one |
| Markdown.FirstSummaryIgnoresLater | app/utils/markdown_formatter.py:135 | answers after the first carrying a summary do not change the choice |
| Markdown.SummaryFromBatches | app/utils/markdown_formatter.py:137-154 | the fallback summary starts with the section heading |
| Markdown.FieldLine | app/utils/markdown_formatter.py:159-166 | a `**Field**: value` line is printed exactly when the key is present |
| Markdown.ComponentsBlock | app/utils/markdown_formatter.py:168-174 | the components block is printed exactly when the key is present with a non-empty list |
| Markdown.SummaryDetails | app/utils/markdown_formatter.py:156-176 | the detailed summary starts with the section heading |
| Markdown.ProjectSummarySection | app/utils/markdown_formatter.py:128-176 | the section always starts with its heading |
| Markdown.SummaryIgnoresLaterAnswers | app/utils/markdown_formatter.py:131-176 | once an answer carries a non-empty project summary, later answers do not change the section |
| Markdown.EmptySummaryFallsBack | app/utils/markdown_formatter.py:135-154 | an empty first project summary hides later ones and the batch summaries are used |
| Markdown.SummaryDefaults | app/utils/markdown_formatter.py:150-154 | with no project summary and no batch summary the section holds the two default sentences |
| Markdown.NoBatchSummaries | app/utils/markdown_formatter.py:142-148 | answers without batch summaries contribute no purpose and no pattern |
| Markdown.DefaultBatchLines | app/utils/markdown_formatter.py:152-154 | empty purpose and pattern lists print `Code analysis and documentation` and `Standard code organization` |
| Markdown.FindProjectSummary | app/utils/markdown_formatter.py:131-135 | the loop stops at the first answer carrying a project summary |
| Markdown.CollectBatchSummaries | app/utils/markdown_formatter.py:139-148 | the loop gathers every batch summary's purpose and patterns, in order |
| Markdown.FormatProjectSummary | app/utils/markdown_formatter.py:128-176 | the step-by-step text equals the specified section |
| Markdown.ReportSections | app/utils/markdown_formatter.py:45-67 | six sections for more than one file, four otherwise, the header first |
| Markdown.FormatResults | app/utils/markdown_formatter.py:29-67 | the report is the sections joined by blank lines, built from the extracted project information |
| Markdown.SingleFileReportSections | app/utils/markdown_formatter.py:53-65 | a one-file report is header, overview, file analysis and technical details, with no project summary (tests/unit/utils/test_markdown_formatter.py:292-333) |
| Markdown.MultiFileReportSections | app/utils/markdown_formatter.py:53-65 | a report on several files has the project summary third and the dependencies fifth |
| Markdown.ExtensionToLanguageExamples | app/utils/markdown_formatter.py:341-370 | `.py`, `.js` and `.ts` map to Python, JavaScript and TypeScript (tests/unit/utils/test_markdown_formatter.py:335-343) |
| Markdown.UnlistedExtensionIsUnknown | app/utils/markdown_formatter.py:370 | an extension outside the table maps to `Unknown` |
| AnalysisService.ExtensionOf | app/services/analysis_service.py:224-225 | the extension is the name's suffix when there is one, otherwise the declared file type, and is empty exactly when both are |
| AnalysisService.LegacyRecord | app/services/analysis_service.py:228-237 | the record keeps the filename as both paths and the content, names the last path component, counts characters and `splitlines` lines, and guesses the language from the extension |
| AnalysisService.ConvertFiles | app/services/analysis_service.py:217-241 | the loop builds one record per uploaded file, in order |
| AnalysisService.LegacyRecords | app/services/analysis_service.py:217-241 | the records of all uploads, one per file, in order |
| AnalysisService.RecordCountsLines | app/services/analysis_service.py:235 | content written as N newline-joined lines, the last one not empty, counts N lines |
| AnalysisService.ConvertsAbsolutePath | app/services/analysis_service.py:224-236 | `/path/to/test.py` is named `test.py` with extension `.py` and language `python` (tests/unit/services/test_analysis_service.py:276-293) |
| AnalysisService.FileTypeStandsInForSuffix | app/services/analysis_service.py:225 | a name without a suffix takes the declared file type as its extension |
| AnalysisService.GuessLanguageExamples | app/services/analysis_service.py:243-271 | `.py`, `.js` and `.ts` give `python`, `javascript` and `typescript` (tests/unit/services/test_analysis_service.py:295-302) |
| AnalysisService.GuessUnknownLanguage | app/services/analysis_service.py:271 | an unmapped extension gives `unknown` |
| AnalysisService.GuessLanguageIgnoresCase | app/services/analysis_service.py:271 | the lookup lower-cases the extension first |
| AnalysisService.FileResultOf | app/services/analysis_service.py:326-333 | each file result takes the reply's filename and tokens, with `unknown` and 0 for missing keys |
| AnalysisService.FileResultsOf | app/services/analysis_service.py:323-334 | one file result per individual analysis, in order |
| AnalysisService.BatchId | app/services/analysis_service.py:314 | a batch id starts with the analysis id followed by `_batch_` |
| AnalysisService.BatchIdsDistinct | app/services/analysis_service.py:314 | two batches of one analysis never share an id |
| AnalysisService.BatchOutcome | app/services/analysis_service.py:308-340 | a batch succeeds exactly when the model replies with a dictionary, replies being well-typed; its result then carries its id, its file count and the reply's tokens |
| AnalysisService.AnalyzeBatchesSpec | app/services/analysis_service.py:293-342 | every failure is an `LLMServiceError` |
| AnalysisService.SumTokens | app/services/analysis_service.py:337 | the total is not negative when no batch reports negative tokens |
| AnalysisService.SumTokensSnoc | app/services/analysis_service.py:337 | one more batch adds its tokens to the total |
| AnalysisService.AllBatchesAnalysed | app/services/analysis_service.py:303-342 | the analysis succeeds exactly when every batch does; then batch i's result is that batch's outcome and the total is the sum of their tokens |
| AnalysisService.SucceedsIffEveryBatch | app/services/analysis_service.py:303-340 | the analysis succeeds exactly when every batch does |
| AnalysisService.SuccessResults | app/services/analysis_service.py:303-336 | when every batch succeeds, result i is batch i's outcome and there is one result per batch |
| AnalysisService.SuccessTotal | app/services/analysis_service.py:301-342 | a successful analysis reports the sum of its batches' tokens |
| AnalysisService.FirstFailingBatch | app/services/analysis_service.py:339-340 | a failure carries `Batch analysis failed: ` and the message of the first batch that raised, every earlier batch having succeeded |
| AnalysisService.AnalyzeBatches | app/services/analysis_service.py:293-342 | the loop returns the specified results and total, or the first failure |
| AnalysisService.AnalyzeBatchesFailsFrom | app/services/analysis_service.py:339-340 | once some prefix of the batches fails, the whole analysis fails with the same error |
| AnalysisService.FileResults | app/services/analysis_service.py:133-135 | a file result is listed exactly when some batch holds it |
| AnalysisService.CollectFileResults | app/services/analysis_service.py:133-135 | the loop concatenates every batch's individual analyses, batch after batch |
| AnalysisService.FileResultsLength | app/services/analysis_service.py:133-135 | nothing is dropped or duplicated: the list is as long as all the batches' lists together |
| AnalysisService.BatchSummaries | app/services/analysis_service.py:356 | one batch summary per batch result, in order |
| AnalysisService.Get | app/services/analysis_service.py:360 | `reply.get(key, default)`: the entry when the key is present, the default otherwise |
| AnalysisService.AsStrings | app/models/responses.py:65-67 | a `list[str]` field accepts exactly an array of strings, and gives those strings in order |
| AnalysisService.AsObject | app/models/responses.py:68-70 | a `dict[str, Any]` field accepts exactly an object, unchanged |
| AnalysisService.AsStringLists | app/models/responses.py:78-80 | a `dict[str, list[str]]` field accepts exactly an object whose every value is an array of strings, with the same keys |
| AnalysisService.ValidateSummary | app/services/analysis_service.py:358-366 | a summary exactly when all six fields validate, each missing one taking its empty default, with the given file count |
| AnalysisService.StringsRoundTrip | app/models/responses.py:65-67 | a list of strings written as JSON validates back to itself |
| AnalysisService.ValidateReplyOf | app/models/responses.py:61-80 | a well-typed summary's own JSON validates back to that summary |
| AnalysisService.StringDependencyRejected | app/models/responses.py:78-80 | a `dependencies` object holding a string instead of a list fails validation |
| AnalysisService.StringDependenciesGiveNoSummary | app/services/analysis_service.py:354-370 | such a reply ends the summary step with no summary, through the `except` at lines 367-370 |
| AnalysisService.GenerateProjectSummary | app/services/analysis_service.py:344-370 | no summary for at most one file; otherwise a summary exactly when the summariser replies and the reply passes `ProjectSummary` validation, and it counts all files |
| AnalysisService.WantsMarkdown | app/services/analysis_service.py:381 | markdown is wanted exactly for `markdown` and `both` |
| AnalysisService.WantsMarkdownExactly | app/services/analysis_service.py:381 | markdown is never wanted for `json`, the default, or an empty format |
| AnalysisService.LegacyResults | app/services/analysis_service.py:387-392 | the re-analysis succeeds exactly when each of the first n batches exists and is answered; it then holds those answers in order |
| AnalysisService.MarkdownOutput | app/services/analysis_service.py:372-400 | no markdown unless requested; when requested, markdown exactly when the re-analysis succeeds |
| AnalysisService.Report | app/services/analysis_service.py:394-396 | the report starts with the header naming the project |
| AnalysisService.GenerateMarkdownOutput | app/services/analysis_service.py:372-400 | the loop and the formatter give the specified markdown output |
| AnalysisService.LegacyResultsStayNone | app/services/analysis_service.py:397-400 | a re-analysis that fails for some prefix fails for every longer one |
| AnalysisService.Respond | app/services/analysis_service.py:123-148 | the response is successful, carries the analysis id, the file count, all file results, the batch results, their tokens, the summary and the markdown |
| AnalysisService.AnalyzeFilesSpec | app/services/analysis_service.py:95-161 | no uploaded file is exactly the `No valid files to analyze` error; a success counts every file under its analysis id (tests/unit/services/test_analysis_service.py:86-94) |
| AnalysisService.AnalyzeFiles | app/services/analysis_service.py:95-161 | the step-by-step analysis, batched by the context manager, gives the specified outcome |
| AnalysisService.FilesCountsAddUp | app/services/analysis_service.py:118-121 | the batches' file counts add up to the number of uploaded files |
| AnalysisService.FilesCountMatchesFlatten | app/services/analysis_service.py:315 | the file counts of the batch results sum to the number of files in the batches |
| AnalysisService.SingleFileHasNoSummary | app/services/analysis_service.py:351-352 | a single uploaded file never gets a project summary |
| AnalysisService.JsonHasNoMarkdown | app/services/analysis_service.py:381-382 | a `json` request never carries markdown |
| AnalysisService.MarkdownWhenRequested | app/services/analysis_service.py:381-396 | when every batch was analysed, `markdown` and `both` requests always carry markdown, because the model answers the same batches the same way again |
| PromptLoading.Lookup | app/utils/prompt_loader.py:64-70 | a name is found exactly when some entry carries it, and the value found is one of its entries (the last, as YAML loading keeps) |
| PromptLoading.Keys | app/utils/prompt_loader.py:65 | the listed names are exactly the names that can be looked up |
| PromptLoading.LoadPrompts | app/utils/prompt_loader.py:21-50 | loading succeeds exactly for an existing file holding a non-empty mapping, and returns that mapping; a missing file is `FileNotFoundError`, every other failure a `ValueError` |
| PromptLoading.EmptyDocumentIsEmpty | app/utils/prompt_loader.py:41-42 | an empty document, mapping, list or string is reported as `Prompts file is empty` |
| PromptLoading.ListIsNotPrompts | app/utils/prompt_loader.py:44-45 | a non-empty list is reported as not being a dictionary |
| PromptLoading.PromptText | app/utils/prompt_loader.py:72-81 | a string entry is its own prompt; an entry that is neither a string nor a mapping has none |
| PromptLoading.GetPrompt | app/utils/prompt_loader.py:52-85 | an unknown name is exactly the `KeyError` case; every failure is a `KeyError` or `ValueError`; a prompt is returned exactly when the entry has a prompt text, and it is that text |
| PromptLoading.MissingPromptField | app/utils/prompt_loader.py:74-75 | a mapping without `prompt` gives the missing-field `ValueError` |
| PromptLoading.NonStringPromptValue | app/utils/prompt_loader.py:76-78 | a mapping whose `prompt` is not a string gives the must-be-a-string `ValueError` |
| PromptLoading.InvalidPromptFormat | app/utils/prompt_loader.py:82-85 | an entry that is neither a string nor a mapping gives the invalid-format `ValueError` naming the prompt |
| PromptLoading.UnknownNameListsAvailable | app/utils/prompt_loader.py:64-68 | the `KeyError` names the missing prompt and lists exactly the available names |
| PromptLoading.LaterEntryWins | app/utils/prompt_loader.py:37-81 | a later string entry for a name replaces any earlier one |
| PromptLoading.OtherEntriesIrrelevant | app/utils/prompt_loader.py:64-85 | entries under other names do not change the lookup, nor the prompt of a known name (tests/unit/utils/test_prompt_loader.py:78-179) |
| PromptLoading.KeyOf | app/utils/prompt_loader.py:94-112 | each property's key is a non-empty name other than `prompt` |
| PromptLoading.KeysDistinct | app/utils/prompt_loader.py:94-112 | the four properties read four different keys |
| PromptLoading.PropertyPrompt | app/utils/prompt_loader.py:94-112 | a property returns its key's string entry, and is a `KeyError` when its key is missing |
| PromptLoading.AllPropertiesServed | app/utils/prompt_loader.py:94-112 | a file with the four keys as strings serves each property its own string (tests/unit/utils/test_prompt_loader.py:203-258) |
| PromptLoading.PropertiesMissing | app/utils/prompt_loader.py:94-112 | a file without the four keys makes every property a `KeyError` |

## Left out

- The tokenizer (tiktoken) is a function parameter; only its `len(text) // 4` fallback is concrete.
- Truncation.TruncatedFitsUnderAssumptions: the docstrings of `create_batches` and `_truncate_file_content` (src/code_summarizer/context_manager.py:60-61 and 105-106) promise that every batch, and so every truncated copy, fits the limit. The lemma proves that promise only for a tokenizer that is sub-additive and append-monotone, with a file header of at most 200 tokens and a non-negative allowance; the code never re-estimates the copy, and under the `len(text) // 4` fallback the promise fails (see Findings).
- `app/core/context_manager.py` is not part of this model; its source was not available, so the command-line tool's context manager is modelled instead.
- File-system and archive I/O are out: directory walks, encoding-fallback reads, zip extraction, temporary files and upload reading (`_create_file_data`, `process_input`, `_scan_directory`, `_extract_zip`). Whatever the upload handler reads is given by a `load` parameter.
- `validate_file_path` is out, because it depends on `Path.resolve()` and the working directory.
- Configuration loading (`app/core/config.py`, the YAML formatter config) is out; the settings are parameters.
- `_apply_config_overrides` has no effect in the source and is not modelled.
- `analyze_from_paths` reads the file system and is not modelled.
- The language model client (`app/services/llm_client.py`) is a network client. Here it is a deterministic function from a batch to a reply or an error message, so the second `analyze_batch` call made for the Markdown output returns the same reply as the first.
- AnalysisService.AnalyzeFilesSpec: wrapping unexpected exceptions in `AnalysisError` (app/services/analysis_service.py:150-161) is not modelled, since the modelled operations raise nothing else.
- The processing-time fields, `config_used`, the clock and the `uuid` analysis id are left out or passed in as parameters.
- `_format_bytes` and the `datetime.now()` timestamps are parameters. Floating-point formatting is not modelled.
- Python sets whose iteration order reaches the Markdown text (`set(purposes)`, `set(patterns)` and the technical-detail lists) are modelled in first-occurrence order, because Python leaves that order unspecified. Only membership is stated about them.
- Case conversion (`lower`, `upper`, `title`) is modelled on ASCII letters only; other characters are left unchanged.
- Paths are POSIX paths; Windows drive letters and backslash separators are not modelled.
- HTTP plumbing is out: routes, dependency injection, the security middleware's dispatch, content-length check, headers and API key, and the exception handlers. Only the path predicate of `_validate_request_path` is modelled.
- Requests: only which field constraints are violated is modelled, not the order or wording of pydantic's error messages.
- The YAML parser is a parameter that yields a parsed document or an error; keys that are not strings are not modelled.
- `PromptLoader.reload` re-reads the file and is not modelled.
- Markdown.ReportSections: the contract gives only the number of sections and the header as the first. The exact lists are stated by Markdown.SingleFileReportSections and Markdown.MultiFileReportSections.
- Markdown.SingleFile: the contract says only that the text starts with the file's heading. The full text is fixed by Markdown.FormatSingleFile and Markdown.MissingFieldsTakeDefaults.
- Markdown.ProjectSummarySection: the contract says only that the section starts with its heading. The choice between sources is stated by Markdown.SummaryIgnoresLaterAnswers, Markdown.EmptySummaryFallsBack and Markdown.SummaryDefaults.
- AnalysisService.AnalyzeBatchesSpec: the contract says only that a failure is an `LLMServiceError`. The rest is stated by AnalysisService.AllBatchesAnalysed and AnalysisService.FirstFailingBatch.
- A `project_summary` value that is not a mapping is not modelled; the formatter would fail on it.
- AnalysisService.ValidateSummary: the summariser's reply is a JSON object whose numbers are integers only. Pydantic's lax coercions that JSON cannot produce, such as a tuple for a list, are not modelled, and neither is the wording of its validation errors, which the service discards.
- AnalysisService.BatchOutcome: replies of the language model are assumed well-typed. `tokens_used` is an integer, `batch_summary` a mapping, `individual_analyses` a list of mappings and each `analysis` a mapping whose values are narrowed to strings. In the source, a reply of the wrong type makes the `try` at app/services/analysis_service.py:308-337 raise: pydantic rejects a null `batch_summary` or a non-dict `analysis`, `.get` fails on a non-dict analysis entry, iterating a null `individual_analyses` fails, and `total_tokens += "5"` fails. Lines 339-340 then wrap the exception as `LLMServiceError("Batch analysis failed: ...")`. The model represents such a reply as the language model's `Failure` carrying that exception's message, so the error kind and the "Batch analysis failed: " prefix stay faithful. The `NotADict` case gives the message "'result' is not a dictionary" where Python would raise an `AttributeError`; the real client never returns a non-dictionary (app/services/llm_client.py:95-125).

## Findings

| source | as written | input that shows it | evidently intended | confidence | as-written member | corrected member |
|---|---|---|---|---|---|---|
| app/core/security.py:212-218 | the name is cut to `255 - len(ext) - 1` characters, and that bound is negative when the extension has more than 254 characters | `"a." + "b" * 300` becomes `"." + "b" * 300`, which has 301 characters | a name over 255 characters is cut to exactly 255 | not executed | Security.TruncateAsWrittenOverflows | Security.Truncate |
| app/core/security.py:212-248 | the `file_` prefix for a reserved device name is added after the length limit | `"CON." + "a" * 251` (255 characters) becomes `"file_CON." + "a" * 251`, which has 260 characters | the sanitised name never exceeds 255 characters | not executed | Security.PrefixAfterLimitOverflows | Security.SanitizeFilename |
| src/code_summarizer/context_manager.py:119-139 | lines are kept while their separate `count_tokens(line + "\n")` costs fit, and the truncated copy is never re-estimated against `max_tokens` | with the `len(text) // 4` fallback, `max_tokens = 1000` and a content of 2002 lines `a`: each line costs `2 // 4 = 0`, so every line is kept; the copy's content has 4052 characters, 1013 tokens, over 1000 | every batch, including a truncated copy, fits the limit, as the docstrings at lines 60-61 and 105-106 say | not executed | Truncation.FallbackTruncationCanOverflow | Truncation.TruncatedFitsUnderAssumptions |
