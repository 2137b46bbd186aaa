/**
 * `FileProcessor.get_project_info`, identical in both processors: the sorted
 * languages of the files, the totals and the number of files per language.
 */
module ProjectInfo {
  import opened Wrappers
  import opened Text
  import opened Records
  import opened Languages

  /** The dictionary `get_project_info` returns for a non-empty file list. */
  datatype ProjectSummary = ProjectSummary(
    languages: seq<string>,
    totalFiles: nat,
    totalLines: nat,
    totalSize: nat,
    fileTypes: map<string, nat>)

  /** The language of one record, from its extension. */
  function LanguageOf(f: FileRecord): (l: string)
    ensures l != ""
    ensures l == Unknown <==> ToLower(f.extension) !in ProcessorTable
  {
    ProcessorLanguage(f.extension)
  }

  /** The languages of the files, as a set. */
  function LanguagesOf(files: seq<FileRecord>): (ls: set<string>)
    ensures forall f :: f in files ==> LanguageOf(f) in ls
    ensures forall l :: l in ls ==> exists k :: 0 <= k < |files| && LanguageOf(files[k]) == l
  {
    LanguagesUpTo(files, |files|)
  }

  /** The languages of the first `i` files. */
  function LanguagesUpTo(files: seq<FileRecord>, i: nat): set<string>
    requires i <= |files|
  {
    set k | 0 <= k < i :: LanguageOf(files[k])
  }

  lemma LanguagesUpToStep(files: seq<FileRecord>, i: nat)
    requires i < |files|
    ensures LanguagesUpTo(files, i + 1) == LanguagesUpTo(files, i) + {LanguageOf(files[i])}
  {
  }

  /** `len([f for f in files if language(f) == lang])`. */
  function CountLanguage(files: seq<FileRecord>, lang: string): (n: nat)
    ensures n <= |files|
    ensures n > 0 <==> lang in LanguagesOf(files)
  {
    if files == [] then 0
    else
      var rest := CountLanguage(files[1..], lang);
      assert LanguagesOf(files) == {LanguageOf(files[0])} + LanguagesOf(files[1..]) by {
        forall l | l in LanguagesOf(files)
          ensures l in {LanguageOf(files[0])} + LanguagesOf(files[1..])
        {
          var k :| 0 <= k < |files| && l == LanguageOf(files[k]);
          if k > 0 {
            assert l == LanguageOf(files[1..][k - 1]);
          }
        }
        forall l | l in LanguagesOf(files[1..])
          ensures l in LanguagesOf(files)
        {
          var k :| 0 <= k < |files[1..]| && l == LanguageOf(files[1..][k]);
          assert l == LanguageOf(files[k + 1]);
        }
      }
      (if LanguageOf(files[0]) == lang then 1 else 0) + rest
  }

  /**
   * `get_project_info`: `None` for an empty list (the empty dictionary);
   * otherwise the languages sorted and distinct, the three totals, and for
   * every language the number of files in it.
   */
  method GetProjectInfo(files: seq<FileRecord>) returns (info: Option<ProjectSummary>)
    ensures info.None? <==> files == []
    ensures info.Some? ==> StrictlySorted(info.value.languages)
    ensures info.Some? ==> forall l :: l in info.value.languages <==> l in LanguagesOf(files)
    ensures info.Some? ==> info.value.totalFiles == |files|
    ensures info.Some? ==> info.value.totalLines == SumLines(files)
    ensures info.Some? ==> info.value.totalSize == SumSize(files)
    ensures info.Some? ==> info.value.fileTypes.Keys == LanguagesOf(files)
    ensures info.Some? ==> forall l :: l in info.value.fileTypes ==> info.value.fileTypes[l] == CountLanguage(files, l)
  {
    if files == [] {
      return None;
    }
    var languages: set<string> := {};
    for i := 0 to |files|
      invariant languages == LanguagesUpTo(files, i)
    {
      var lang := ProcessorLanguage(ToLower(files[i].extension));
      LookupIgnoresCase(ProcessorTable, files[i].extension, Unknown);
      LanguagesUpToStep(files, i);
      if lang != "" {
        languages := languages + {lang};
      }
    }
    var sorted := SortedList(languages);
    var fileTypes := map lang | lang in languages :: CountLanguage(files, lang);
    info := Some(ProjectSummary(sorted, |files|, SumLines(files), SumSize(files), fileTypes));
  }

  /** How many entries of `langs` are `lang`. */
  function Occurrences(langs: seq<string>, lang: string): (n: nat)
    ensures n <= |langs|
  {
    if langs == [] then 0
    else (if langs[0] == lang then 1 else 0) + Occurrences(langs[1..], lang)
  }

  lemma {:induction false} OccursOnce(langs: seq<string>, lang: string)
    requires forall i, j :: 0 <= i < j < |langs| ==> langs[i] != langs[j]
    requires lang in langs
    ensures Occurrences(langs, lang) == 1
  {
    if langs[0] == lang {
      NotOccurring(langs[1..], lang);
    } else {
      OccursOnce(langs[1..], lang);
    }
  }

  lemma {:induction false} NotOccurring(langs: seq<string>, lang: string)
    requires lang !in langs
    ensures Occurrences(langs, lang) == 0
  {
    if langs != [] {
      NotOccurring(langs[1..], lang);
    }
  }

  /** The per-language counts of `langs`, summed in order. */
  function SumCounts(files: seq<FileRecord>, langs: seq<string>): nat
  {
    if langs == [] then 0 else CountLanguage(files, langs[0]) + SumCounts(files, langs[1..])
  }

  /** Dropping the first file takes one from the count of its own language. */
  lemma {:induction false} SumCountsDropFirst(files: seq<FileRecord>, langs: seq<string>)
    requires files != []
    ensures SumCounts(files, langs) == SumCounts(files[1..], langs) + Occurrences(langs, LanguageOf(files[0]))
  {
    if langs != [] {
      SumCountsDropFirst(files, langs[1..]);
    }
  }

  /**
   * The counts of `file_types` add up to `total_files`: summed over any list
   * of distinct languages that includes every file's language, such as the
   * sorted `languages`, every file is counted exactly once.
   */
  lemma {:induction false} FileTypesSumToTotal(files: seq<FileRecord>, langs: seq<string>)
    requires forall i, j :: 0 <= i < j < |langs| ==> langs[i] != langs[j]
    requires forall k :: 0 <= k < |files| ==> LanguageOf(files[k]) in langs
    ensures SumCounts(files, langs) == |files|
  {
    if files == [] {
      ZeroCounts(langs);
    } else {
      SumCountsDropFirst(files, langs);
      OccursOnce(langs, LanguageOf(files[0]));
      forall k | 0 <= k < |files[1..]|
        ensures LanguageOf(files[1..][k]) in langs
      {
        assert files[1..][k] == files[k + 1];
      }
      FileTypesSumToTotal(files[1..], langs);
    }
  }

  lemma {:induction false} ZeroCounts(langs: seq<string>)
    ensures SumCounts([], langs) == 0
  {
    if langs != [] {
      ZeroCounts(langs[1..]);
    }
  }

  /** Strictly sorted lists, like the `languages` entry, hold no duplicates. */
  lemma SortedIsDistinct(langs: seq<string>)
    requires StrictlySorted(langs)
    ensures forall i, j :: 0 <= i < j < |langs| ==> langs[i] != langs[j]
  {
    forall i, j | 0 <= i < j < |langs|
      ensures langs[i] != langs[j]
    {
      if langs[i] == langs[j] {
        LexLessIrreflexive(langs[i]);
      }
    }
  }

  /** The counts of three files whose languages are Python, JavaScript and Python. */
  lemma CountsOfThree(files: seq<FileRecord>)
    requires |files| == 3
    requires LanguageOf(files[0]) == "Python" && LanguageOf(files[1]) == "JavaScript"
    requires LanguageOf(files[2]) == "Python"
    ensures CountLanguage(files, "Python") == 2
    ensures CountLanguage(files, "JavaScript") == 1
  {
    var last := files[2..];
    assert last[1..] == [];
    assert CountLanguage(last, "Python") == 1 && CountLanguage(last, "JavaScript") == 0;
    var tail := files[1..];
    assert tail[1..] == last;
    assert CountLanguage(tail, "Python") == 1 && CountLanguage(tail, "JavaScript") == 1;
    assert files[1..] == tail;
  }

  lemma SumsOfThree(files: seq<FileRecord>)
    requires |files| == 3
    ensures SumLines(files) == files[0].lines + files[1].lines + files[2].lines
    ensures SumSize(files) == files[0].size + files[1].size + files[2].size
  {
    var last := files[2..];
    assert last[1..] == [];
    assert SumLines(last) == files[2].lines && SumSize(last) == files[2].size;
    var tail := files[1..];
    assert tail[1..] == last;
    assert SumLines(tail) == files[1].lines + files[2].lines;
    assert SumSize(tail) == files[1].size + files[2].size;
  }

  /**
   * Two Python files and one JavaScript file with 50, 30 and 20 lines and
   * 1000, 800 and 500 bytes: 100 lines, 2300 bytes, two Python files and
   * one JavaScript file.
   */
  lemma ProjectInfoExample(main: FileRecord, script: FileRecord, utils: FileRecord)
    requires main.extension == ".py" && main.lines == 50 && main.size == 1000
    requires script.extension == ".js" && script.lines == 30 && script.size == 800
    requires utils.extension == ".py" && utils.lines == 20 && utils.size == 500
    ensures SumLines([main, script, utils]) == 100
    ensures SumSize([main, script, utils]) == 2300
    ensures LanguagesOf([main, script, utils]) == {"Python", "JavaScript"}
    ensures CountLanguage([main, script, utils], "Python") == 2
    ensures CountLanguage([main, script, utils], "JavaScript") == 1
  {
    var files := [main, script, utils];
    assert ToLower(".py") == ".py" && ToLower(".js") == ".js";
    assert LanguageOf(main) == "Python" && LanguageOf(utils) == "Python";
    assert LanguageOf(script) == "JavaScript";
    assert files[1..] == [script, utils] && files[1..][1..] == [utils] && files[1..][1..][1..] == [];
    assert LanguagesOf(files) == {"Python", "JavaScript"} by {
      assert files[0] == main && files[1] == script && files[2] == utils;
    }
    CountsOfThree(files);
    SumsOfThree(files);
  }
}
