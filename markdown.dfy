/**
 * `MarkdownFormatter`: the Markdown report built from the file records and
 * the answers the language model gave for each batch. Every section has a
 * specification function; the methods build the text step by step as the
 * formatter does and are proved to produce exactly that function's value.
 */
module Markdown {
  import opened Wrappers
  import opened Text
  import opened Paths
  import opened Records
  import opened Languages
  import ProjectInfo

  // ------------------------------------------------------------ the model's answers

  /** A JSON scalar the report prints as it finds it: a number or a string. */
  datatype Scalar = Int(i: int) | Str(s: string)

  /** Python truthiness of a scalar. */
  predicate Truthy(v: Scalar)
  {
    match v
    case Int(i) => i != 0
    case Str(s) => s != ""
  }

  /** `f"{v}"`. */
  function Show(v: Scalar): string
  {
    match v
    case Int(i) => IntToString(i)
    case Str(s) => s
  }

  /** One entry of a file's `functions`; a missing `description` reads as `""`, missing `parameters` as `[]`. */
  datatype FunctionInfo = FunctionInfo(
    name: Option<string>,
    kind: Option<string>,
    purpose: Option<string>,
    description: string,
    parameters: seq<string>,
    lineNumber: Option<Scalar>)

  /** One entry of an answer's `files`; a missing list reads as `[]`. */
  datatype FileAnalysis = FileAnalysis(
    filename: Option<string>,
    language: Option<string>,
    purpose: Option<string>,
    complexity: Option<string>,
    lineCount: Option<Scalar>,
    functions: seq<FunctionInfo>,
    globalVariables: seq<string>,
    imports: seq<string>,
    dependencies: seq<string>,
    keyFeatures: seq<string>,
    potentialIssues: seq<string>)

  /** One entry of an answer's `relationships` (`from`, `to`, `type`, `description`). */
  datatype Relationship = Relationship(
    source: Option<string>,
    target: Option<string>,
    kind: Option<string>,
    description: string)

  /**
   * A `project_summary` dictionary: the keys the report reads, and whether it
   * has any other key (a dictionary without keys is falsy in Python).
   */
  datatype ProjectSummaryInfo = ProjectSummaryInfo(
    mainPurpose: Option<string>,
    kind: Option<string>,
    architecture: Option<string>,
    keyComponents: Option<seq<string>>,
    technologies: Option<seq<string>>,
    otherKeys: bool)

  /** `not project_summary`: the dictionary has no key at all. */
  predicate IsEmptyDict(p: ProjectSummaryInfo)
  {
    p.mainPurpose.None? && p.kind.None? && p.architecture.None? && p.keyComponents.None?
    && p.technologies.None? && !p.otherKeys
  }

  /** A `batch_summary` dictionary; missing `patterns` read as `[]`. */
  datatype BatchSummary = BatchSummary(mainPurpose: Option<string>, patterns: seq<string>)

  /** A `technical_details` dictionary; missing lists read as `[]`. */
  datatype TechnicalDetails = TechnicalDetails(patterns: seq<string>, dependencies: seq<string>)

  /** The answer for one batch: a dictionary with optional keys, or something else the report skips. */
  datatype AnalysisResult =
    | Answer(
        projectSummary: Option<ProjectSummaryInfo>,
        batchSummary: Option<BatchSummary>,
        technicalDetails: Option<TechnicalDetails>,
        files: seq<FileAnalysis>,
        relationships: seq<Relationship>)
    | NotADict

  /** The values one part of every answer contributes, answer after answer. */
  function Concat<T(!new)>(results: seq<AnalysisResult>, part: AnalysisResult -> seq<T>): (r: seq<T>)
    ensures forall x :: x in r <==> exists k :: 0 <= k < |results| && x in part(results[k])
  {
    if results == [] then []
    else
      var n := |results| - 1;
      var init := Concat(results[..n], part);
      assert forall k :: 0 <= k < n ==> results[..n][k] == results[k];
      init + part(results[n])
  }

  lemma ConcatSnoc<T(!new)>(results: seq<AnalysisResult>, i: nat, part: AnalysisResult -> seq<T>)
    requires i < |results|
    ensures Concat(results[..i + 1], part) == Concat(results[..i], part) + part(results[i])
  {
    assert results[..i + 1][..i] == results[..i];
  }

  /** The concatenation is empty exactly when every part is. */
  lemma {:induction false} ConcatEmpty<T(!new)>(results: seq<AnalysisResult>, part: AnalysisResult -> seq<T>)
    ensures Concat(results, part) == [] <==> forall k :: 0 <= k < |results| ==> part(results[k]) == []
  {
    if results != [] {
      var n := |results| - 1;
      ConcatEmpty(results[..n], part);
      assert forall k :: 0 <= k < n ==> results[..n][k] == results[k];
    }
  }

  // ------------------------------------------------------------ project information

  /** The dictionary `_extract_project_info` returns. */
  datatype ReportInfo = ReportInfo(
    name: string,
    languages: seq<string>,
    totalFiles: nat,
    totalLines: nat,
    totalSize: nat)

  const DefaultProjectName: string := "Code Analysis"

  /** The first component of the first file's path when it has several, else that file's stem. */
  function ProjectName(files: seq<FileRecord>): (r: string)
    ensures files == [] ==> r == DefaultProjectName
    ensures files != [] ==> r in Parts(files[0].path) || r + Suffix(files[0].path) == Name(files[0].path)
  {
    if files == [] then DefaultProjectName
    else
      var parts := Parts(files[0].path);
      if |parts| > 1 then parts[0] else Stem(files[0].path)
  }

  /** `sorted(set(names))` without `Unknown`: the distinct known names, in order. */
  function SortedKnown(names: seq<string>): (r: seq<string>)
    ensures StrictlySorted(r)
    ensures forall l :: l in r <==> l in names && l != Unknown
  {
    if names == [] then []
    else
      var n := |names| - 1;
      var init := SortedKnown(names[..n]);
      var r := if names[n] == Unknown || names[n] in init then init else InsertSorted(names[n], init);
      assert names == names[..n] + [names[n]];
      ListedStep(init, names[n], names[..n], r);
      r
  }

  lemma ListedStep(init: seq<string>, lang: string, earlier: seq<string>, r: seq<string>)
    requires StrictlySorted(init)
    requires forall l :: l in init <==> l in earlier && l != Unknown
    requires r == if lang == Unknown || lang in init then init else InsertSorted(lang, init)
    ensures StrictlySorted(r)
    ensures forall l :: l in r <==> (l in earlier || l == lang) && l != Unknown
  {
    if !(lang == Unknown || lang in init) {
      InsertMembers(lang, init);
    }
  }

  /** The language of every file, in order. */
  function FileLanguages(files: seq<FileRecord>): (r: seq<string>)
    ensures forall l :: l in r <==> l in ProjectInfo.LanguagesOf(files)
  {
    var r := seq(|files|, k requires 0 <= k < |files| => ProjectInfo.LanguageOf(files[k]));
    assert forall l :: l in ProjectInfo.LanguagesOf(files) ==> l in r by {
      forall l | l in ProjectInfo.LanguagesOf(files)
        ensures l in r
      {
        var k :| 0 <= k < |files| && l == ProjectInfo.LanguageOf(files[k]);
        assert r[k] == l;
      }
    }
    r
  }

  lemma InsertMembers(x: string, s: seq<string>)
    requires StrictlySorted(s) && x !in s
    ensures forall l :: l in InsertSorted(x, s) <==> l == x || l in s
  {
    var r := InsertSorted(x, s);
    forall l
      ensures l in r <==> l in multiset(r)
      ensures l in s <==> l in multiset(s)
    {
    }
  }

  /** The report's project information: name, sorted known languages and totals. */
  function ProjectInfoOf(files: seq<FileRecord>): (info: ReportInfo)
    ensures StrictlySorted(info.languages) && Unknown !in info.languages
    ensures forall l :: l in info.languages <==> l in ProjectInfo.LanguagesOf(files) && l != Unknown
    ensures info.totalFiles == |files|
  {
    ReportInfo(ProjectName(files), SortedKnown(FileLanguages(files)), |files|, SumLines(files), SumSize(files))
  }

  /** Two strictly sorted lists with the same members are the same list. */
  lemma {:induction false} SortedListsEqual(a: seq<string>, b: seq<string>)
    requires StrictlySorted(a) && StrictlySorted(b)
    requires forall x :: x in a <==> x in b
    ensures a == b
  {
    assert a != [] ==> a[0] in b;
    assert b != [] ==> b[0] in a;
    if a != [] {
      assert b[0] in b && a[0] in a;
      var i :| 0 <= i < |a| && a[i] == b[0];
      var j :| 0 <= j < |b| && b[j] == a[0];
      assert a[0] == b[0] by {
        if i > 0 && j > 0 {
          LexLessTransitive(a[0], b[0], a[0]);
          LexLessIrreflexive(a[0]);
        }
      }
      forall x | x in a[1..]
        ensures x in b[1..]
      {
        var k :| 1 <= k < |a| && a[k] == x;
        LexLessIrreflexive(a[0]);
        assert x != b[0] && x in b;
      }
      forall x | x in b[1..]
        ensures x in a[1..]
      {
        var k :| 1 <= k < |b| && b[k] == x;
        LexLessIrreflexive(b[0]);
        assert x != a[0] && x in a;
      }
      SortedListsEqual(a[1..], b[1..]);
      assert a == [a[0]] + a[1..] && b == [b[0]] + b[1..];
    }
  }

  /**
   * `_extract_project_info`: a loop over the files that collects the known
   * languages in a set and sums the lines and sizes; then the project name.
   */
  method ExtractProjectInfo(files: seq<FileRecord>) returns (info: ReportInfo)
    ensures info == ProjectInfoOf(files)
    ensures info.totalLines == SumLines(files) && info.totalSize == SumSize(files)
  {
    var languages: set<string> := {};
    var totalLines := 0;
    var totalSize := 0;
    for i := 0 to |files|
      invariant languages == ProjectInfo.LanguagesUpTo(files, i) - {Unknown}
      invariant totalLines == SumLines(files[..i]) && totalSize == SumSize(files[..i])
    {
      var lang := ProcessorLanguage(ToLower(files[i].extension));
      LanguageStep(files, i, languages, lang);
      if lang != Unknown {
        languages := languages + {lang};
      }
      SumsStep(files, i);
      totalLines := totalLines + files[i].lines;
      totalSize := totalSize + files[i].size;
    }
    assert files[..|files|] == files;
    var name := DefaultProjectName;
    if files != [] {
      var parts := Parts(files[0].path);
      if |parts| > 1 {
        name := parts[0];
      } else {
        name := Stem(files[0].path);
      }
    }
    var sorted := SortedList(languages);
    SortedListsEqual(sorted, SortedKnown(FileLanguages(files)));
    info := ReportInfo(name, sorted, |files|, totalLines, totalSize);
  }

  lemma LanguageStep(files: seq<FileRecord>, i: nat, languages: set<string>, lang: string)
    requires i < |files| && lang == ProcessorLanguage(ToLower(files[i].extension))
    requires languages == ProjectInfo.LanguagesUpTo(files, i) - {Unknown}
    ensures (if lang != Unknown then languages + {lang} else languages)
            == ProjectInfo.LanguagesUpTo(files, i + 1) - {Unknown}
  {
    LookupIgnoresCase(ProcessorTable, files[i].extension, Unknown);
    ProjectInfo.LanguagesUpToStep(files, i);
  }

  lemma SumsStep(files: seq<FileRecord>, i: nat)
    requires i < |files|
    ensures SumLines(files[..i + 1]) == SumLines(files[..i]) + files[i].lines
    ensures SumSize(files[..i + 1]) == SumSize(files[..i]) + files[i].size
  {
    assert files[..i + 1] == files[..i] + [files[i]];
    SumsSnoc(files[..i], files[i]);
  }

  /** A relative path `dir/.../name` names the project after its first directory. */
  lemma ProjectNameOfNestedPath(files: seq<FileRecord>, comps: seq<string>)
    requires files != [] && |comps| >= 2
    requires forall k :: 0 <= k < |comps| ==> comps[k] != "" && comps[k] != "." && '/' !in comps[k]
    requires files[0].path == Join("/", comps)
    ensures ProjectName(files) == comps[0]
  {
    SegmentsOfJoin(comps);
    KeepNamed(comps);
    assert files[0].path[0] == comps[0][0] by {
      assert Join("/", comps) == comps[0] + "/" + Join("/", comps[1..]);
    }
  }

  /** A bare file name names the project after its stem. */
  lemma ProjectNameOfBareName(files: seq<FileRecord>)
    requires files != []
    requires files[0].path != "" && files[0].path != "." && '/' !in files[0].path
    ensures ProjectName(files) == Stem(files[0].path)
  {
    KeepNamed([files[0].path]);
  }

  /** An absolute path has the anchor `/` as its first part, so the project is named `/`. */
  lemma AbsolutePathNamesRoot(files: seq<FileRecord>, comps: seq<string>)
    requires files != [] && |comps| >= 1
    requires forall k :: 0 <= k < |comps| ==> comps[k] != "" && comps[k] != "." && '/' !in comps[k]
    requires files[0].path == AbsolutePath(comps)
    ensures ProjectName(files) == "/"
  {
    PartsOfAbsolute(comps);
  }

  /** With no files the project is called `Code Analysis`, lists no language and counts nothing. */
  lemma NoFilesInfo()
    ensures ProjectInfoOf([]) == ReportInfo("Code Analysis", [], 0, 0, 0)
  {
    assert FileLanguages([]) == [];
  }

  // ------------------------------------------------------------ header and overview

  /** `f"{n:,}"`: decimal digits grouped by three with commas. */
  function Grouped(n: nat): (r: string)
    ensures n < 1000 ==> r == NatToString(n)
  {
    if n < 1000 then NatToString(n) else Grouped(n / 1000) + "," + ThreeDigits(n % 1000)
  }

  function ThreeDigits(m: nat): (r: string)
    requires m < 1000
    ensures ',' !in r
  {
    [DigitChar(m / 10 / 10), DigitChar(m / 10 % 10), DigitChar(m % 10)]
  }

  function DropCommas(s: string): (r: string)
    ensures ',' !in s ==> r == s
  {
    if s == [] then [] else (if s[0] == ',' then [] else [s[0]]) + DropCommas(s[1..])
  }

  lemma {:induction false} DropCommasConcat(a: string, b: string)
    ensures DropCommas(a + b) == DropCommas(a) + DropCommas(b)
  {
    if a != [] {
      assert (a + b)[0] == a[0] && (a + b)[1..] == a[1..] + b;
      DropCommasConcat(a[1..], b);
    } else {
      assert a + b == b;
    }
  }

  /** The last three digits of a number of at least 1000. */
  lemma LastThreeDigits(n: nat)
    requires n >= 1000
    ensures NatToString(n) == NatToString(n / 1000) + ThreeDigits(n % 1000)
  {
    ThousandsArithmetic(n);
    assert NatToString(n) == NatToString(n / 10) + [DigitChar(n % 10)];
    assert NatToString(n / 10) == NatToString(n / 10 / 10) + [DigitChar(n / 10 % 10)];
    assert NatToString(n / 10 / 10) == NatToString(n / 10 / 10 / 10) + [DigitChar(n / 10 / 10 % 10)];
  }

  lemma DivTen(n: nat, a: nat, b: nat)
    requires n == 10 * a + b && b < 10
    ensures n / 10 == a && n % 10 == b
  {
  }

  lemma ThousandsArithmetic(n: nat)
    ensures n % 10 == n % 1000 % 10
    ensures n / 10 % 10 == n % 1000 / 10 % 10
    ensures n / 10 / 10 % 10 == n % 1000 / 10 / 10
    ensures n / 10 / 10 / 10 == n / 1000
  {
    var q, m := n / 1000, n % 1000;
    var a := m / 10;
    assert n == 1000 * q + m;
    DivTen(m, a, m % 10);
    DivTen(n, 100 * q + a, m % 10);
    DivTen(a, a / 10, a % 10);
    DivTen(100 * q + a, 10 * q + a / 10, a % 10);
    DivTen(10 * q + a / 10, q, a / 10);
  }

  /** Removing the separators gives back `str(n)`. */
  lemma {:induction false} GroupedDigits(n: nat)
    ensures DropCommas(Grouped(n)) == NatToString(n)
  {
    if n >= 1000 {
      GroupedDigits(n / 1000);
      DropCommasConcat(Grouped(n / 1000) + ",", ThreeDigits(n % 1000));
      DropCommasConcat(Grouped(n / 1000), ",");
      LastThreeDigits(n);
    }
  }

  /** `_format_header`; the timestamp is a parameter. */
  function Header(info: ReportInfo, now: string): (h: string)
    ensures StartsWith(h, "# Code Analysis: " + info.name + "\n\n")
    ensures EndsWith(h, now + "*")
  {
    var title := "# Code Analysis: " + info.name + "\n\n*Generated on ";
    StartsWithConcat("# Code Analysis: " + info.name + "\n\n", "*Generated on ");
    StartsWithLonger(title, "# Code Analysis: " + info.name + "\n\n", now + "*");
    EndsWithConcat(title, now + "*");
    title + (now + "*")
  }

  /** `_format_overview`; the date and `_format_bytes` are parameters. */
  function Overview(info: ReportInfo, today: string, formatBytes: nat -> string): (o: string)
    ensures StartsWith(o, OverviewHeading)
    ensures EndsWith(o, "\n- **Analysis Date**: " + today)
  {
    var body := "\n\n- **Languages**: "
      + (if info.languages == [] then "Unknown" else Join(", ", info.languages))
      + "\n- **Total Files**: " + NatToString(info.totalFiles)
      + "\n- **Total Lines**: " + Grouped(info.totalLines)
      + "\n- **Total Size**: " + formatBytes(info.totalSize);
    var last := "\n- **Analysis Date**: " + today;
    StartsWithConcat(OverviewHeading, body);
    StartsWithLonger(OverviewHeading + body, OverviewHeading, last);
    EndsWithConcat(OverviewHeading + body, last);
    OverviewHeading + body + last
  }

  const OverviewHeading: string := "## 📊 Overview"

  // ------------------------------------------------------------ shared pieces

  /** `"".join(f"- {item}\n" for item in items)`. */
  function Bullets(items: seq<string>): (r: string)
    ensures r == "" <==> items == []
  {
    if items == [] then ""
    else Bullets(items[..|items| - 1]) + "- " + items[|items| - 1] + "\n"
  }

  /** The loop that writes one bullet per item. */
  method BulletList(items: seq<string>) returns (r: string)
    ensures r == Bullets(items)
  {
    r := "";
    for i := 0 to |items|
      invariant r == Bullets(items[..i])
    {
      assert items[..i + 1][..i] == items[..i];
      r := r + "- " + items[i] + "\n";
    }
    assert items[..|items|] == items;
  }

  /** Stripping trailing whitespace keeps a heading that ends in a visible character. */
  lemma StripKeepsHeading(heading: string, rest: string)
    requires heading != [] && !IsSpace(heading[|heading| - 1])
    ensures StartsWith(StripRight(heading + rest), heading)
  {
    var s := heading + rest;
    assert s[|heading| - 1] == heading[|heading| - 1];
    var r := StripRight(s);
    assert |r| >= |heading|;
    assert r[..|heading|] == s[..|heading|];
  }

  // ------------------------------------------------------------ one file

  const UnknownField: string := "Unknown"
  const DefaultPurpose: string := "No description available"
  const DefaultComplexity: string := "unknown"
  const DefaultFunctionName: string := "unnamed"
  const DefaultFunctionKind: string := "function"
  const DefaultFunctionPurpose: string := "No description"

  /** `f" (line {line_num})" if line_num else ""`: present exactly for a truthy line number. */
  function LineInfo(lineNumber: Option<Scalar>): (r: string)
    ensures r != "" <==> lineNumber.Some? && Truthy(lineNumber.value)
  {
    if lineNumber.Some? && Truthy(lineNumber.value) then " (line " + Show(lineNumber.value) + ")" else ""
  }

  /** The first line of a function's entry. */
  function FunctionHeadline(f: FunctionInfo): string
  {
    "- **`" + f.name.GetOr(DefaultFunctionName) + "`** (" + f.kind.GetOr(DefaultFunctionKind) + ")"
    + LineInfo(f.lineNumber) + ": " + f.purpose.GetOr(DefaultFunctionPurpose) + "\n"
  }

  /** The description line: only for a non-empty description that differs from the purpose. */
  function DescriptionLine(f: FunctionInfo): (r: string)
    ensures r != "" <==> f.description != "" && f.description != f.purpose.GetOr(DefaultFunctionPurpose)
  {
    if f.description != "" && f.description != f.purpose.GetOr(DefaultFunctionPurpose)
    then "  - *Description*: " + f.description + "\n"
    else ""
  }

  /** The parameters line: only for a non-empty parameter list. */
  function ParametersLine(f: FunctionInfo): (r: string)
    ensures r != "" <==> f.parameters != []
  {
    if f.parameters != [] then "  - *Parameters*: `" + Join(", ", f.parameters) + "`\n" else ""
  }

  function FunctionEntry(f: FunctionInfo): string
  {
    FunctionHeadline(f) + DescriptionLine(f) + ParametersLine(f)
  }

  function FunctionEntries(fs: seq<FunctionInfo>): string
  {
    if fs == [] then "" else FunctionEntries(fs[..|fs| - 1]) + FunctionEntry(fs[|fs| - 1])
  }

  /** `f"\n**{field}**: {', '.join(items)}\n"` when there are items. */
  function ListLine(field: string, items: seq<string>): (r: string)
    ensures r == "" <==> items == []
  {
    if items == [] then "" else "\n**" + field + "**: " + Join(", ", items) + "\n"
  }

  /** A title followed by one bullet per item, when there are items. */
  function BulletBlock(title: string, items: seq<string>): (r: string)
    ensures r == "" <==> items == []
  {
    if items == [] then "" else title + Bullets(items)
  }

  const FunctionsTitle: string := "\n**Functions/Methods/Classes**:\n\n"
  const FeaturesTitle: string := "\n**Key Features**:\n"
  const IssuesTitle: string := "\n⚠️ **Potential Issues**:\n"

  /** The file's heading line. */
  function FileTitle(fa: FileAnalysis): string
  {
    "### `" + fa.filename.GetOr(UnknownField) + "`\n\n"
  }

  /** The heading and the fields every file shows. */
  function FileHead(fa: FileAnalysis): (r: string)
    ensures StartsWith(r, FileTitle(fa))
  {
    var fields := "**Language**: " + fa.language.GetOr(UnknownField) + "  \n"
      + "**Purpose**: " + fa.purpose.GetOr(DefaultPurpose) + "  \n"
      + "**Complexity**: " + TitleCase(fa.complexity.GetOr(DefaultComplexity)) + "  \n"
      + (if fa.lineCount.Some? then "**Lines**: " + Show(fa.lineCount.value) + "  \n" else "");
    StartsWithConcat(FileTitle(fa), fields);
    FileTitle(fa) + fields
  }

  lemma StartsWithConcat(a: string, b: string)
    ensures StartsWith(a + b, a)
  {
    assert (a + b)[..|a|] == a;
  }

  lemma EndsWithConcat(a: string, b: string)
    ensures EndsWith(a + b, b)
  {
    assert (a + b)[|a|..] == b;
  }

  lemma StartsWithLonger(s: string, p: string, t: string)
    requires StartsWith(s, p)
    ensures StartsWith(s + t, p)
  {
    assert (s + t)[..|p|] == s[..|p|];
  }

  /** The functions block: a title, then one entry per function, when there are functions. */
  function FunctionsBlock(fs: seq<FunctionInfo>): string
  {
    if fs == [] then "" else FunctionsTitle + FunctionEntries(fs)
  }

  /** The blocks after the functions, in the order the formatter adds them. */
  function FileLists(fa: FileAnalysis): string
  {
    ListLine("Global Variables", fa.globalVariables)
    + ListLine("Imports", fa.imports)
    + ListLine("External Dependencies", fa.dependencies)
    + BulletBlock(FeaturesTitle, fa.keyFeatures)
    + BulletBlock(IssuesTitle, fa.potentialIssues)
  }

  /** `_format_single_file`: the heading, the fixed fields, the functions and the optional lists. */
  function SingleFile(fa: FileAnalysis): (r: string)
    ensures StartsWith(r, FileTitle(fa))
  {
    var head := FileHead(fa);
    StartsWithLonger(head, FileTitle(fa), FunctionsBlock(fa.functions) + FileLists(fa));
    head + (FunctionsBlock(fa.functions) + FileLists(fa))
  }

  /** The same analysis with every missing field replaced by the value the formatter prints for it. */
  function WithDefaults(fa: FileAnalysis): FileAnalysis
  {
    fa.(filename := Some(fa.filename.GetOr(UnknownField)),
        language := Some(fa.language.GetOr(UnknownField)),
        purpose := Some(fa.purpose.GetOr(DefaultPurpose)),
        complexity := Some(fa.complexity.GetOr(DefaultComplexity)))
  }

  /** Missing fields print exactly as their defaults would. */
  lemma MissingFieldsTakeDefaults(fa: FileAnalysis)
    ensures SingleFile(WithDefaults(fa)) == SingleFile(fa)
    ensures WithDefaults(fa).filename.Some? && WithDefaults(fa).complexity.Some?
  {
    assert FileHead(WithDefaults(fa)) == FileHead(fa);
  }

  /** The loop over a file's functions. */
  method FunctionList(fs: seq<FunctionInfo>) returns (r: string)
    ensures r == FunctionEntries(fs)
  {
    r := "";
    for i := 0 to |fs|
      invariant r == FunctionEntries(fs[..i])
    {
      FunctionEntriesSnoc(fs, i);
      r := r + FunctionEntry(fs[i]);
    }
    assert fs[..|fs|] == fs;
  }

  lemma FunctionEntriesSnoc(fs: seq<FunctionInfo>, i: nat)
    requires i < |fs|
    ensures FunctionEntries(fs[..i + 1]) == FunctionEntries(fs[..i]) + FunctionEntry(fs[i])
  {
    assert fs[..i + 1][..i] == fs[..i];
  }

  /** `_format_single_file`: the fixed fields, then one entry per function and the optional blocks. */
  method FormatSingleFile(fa: FileAnalysis) returns (md: string)
    ensures md == SingleFile(fa)
  {
    var head := FileHead(fa);
    var functions := "";
    if fa.functions != [] {
      var entries := FunctionList(fa.functions);
      functions := FunctionsTitle + entries;
    }
    var globals := ListLine("Global Variables", fa.globalVariables);
    var imports := ListLine("Imports", fa.imports);
    var dependencies := ListLine("External Dependencies", fa.dependencies);
    var features := "";
    if fa.keyFeatures != [] {
      var bullets := BulletList(fa.keyFeatures);
      features := FeaturesTitle + bullets;
    }
    var issues := "";
    if fa.potentialIssues != [] {
      var bullets := BulletList(fa.potentialIssues);
      issues := IssuesTitle + bullets;
    }
    md := head + (functions + (globals + imports + dependencies + features + issues));
  }

  /** Line number 0 and the empty string are falsy: no `(line ...)` is printed for them. */
  lemma FalsyLineNumbers()
    ensures LineInfo(Some(Int(0))) == "" && LineInfo(Some(Str(""))) == "" && LineInfo(None) == ""
  {
  }

  /** A description equal to the purpose is not repeated. */
  lemma DescriptionSameAsPurpose(f: FunctionInfo, text: string)
    requires f.purpose == Some(text) && f.description == text
    ensures FunctionEntry(f) == FunctionHeadline(f) + ParametersLine(f)
  {
  }

  // ------------------------------------------------------------ the file analysis section

  function FilesOf(r: AnalysisResult): seq<FileAnalysis>
  {
    if r.Answer? then r.files else []
  }

  /** Each analysed file's text followed by a newline. */
  function FileEntries(fas: seq<FileAnalysis>): string
  {
    if fas == [] then "" else FileEntries(fas[..|fas| - 1]) + (SingleFile(fas[|fas| - 1]) + "\n")
  }

  lemma FileEntriesSnoc(done: seq<FileAnalysis>, fs: seq<FileAnalysis>, j: nat)
    requires j < |fs|
    ensures FileEntries(done + fs[..j + 1]) == FileEntries(done + fs[..j]) + (SingleFile(fs[j]) + "\n")
  {
    assert (done + fs[..j + 1])[..|done + fs[..j + 1]| - 1] == done + fs[..j];
  }

  const FileAnalysisHeading: string := "## 📁 File Analysis"

  /** `_format_file_analysis`: every analysed file of every answer, in order, without trailing whitespace. */
  function FileAnalysisSection(results: seq<AnalysisResult>): (r: string)
    ensures StartsWith(r, FileAnalysisHeading)
  {
    var rest := "\n\n" + FileEntries(Concat(results, FilesOf));
    StripKeepsHeading(FileAnalysisHeading, rest);
    StripRight(FileAnalysisHeading + rest)
  }

  method FormatFileAnalysis(results: seq<AnalysisResult>) returns (md: string)
    ensures md == FileAnalysisSection(results)
  {
    var entries := "";
    for i := 0 to |results|
      invariant entries == FileEntries(Concat(results[..i], FilesOf))
    {
      ConcatSnoc(results, i, FilesOf);
      var done := Concat(results[..i], FilesOf);
      var fs := FilesOf(results[i]);
      assert done + fs[..0] == done;
      for j := 0 to |fs|
        invariant entries == FileEntries(done + fs[..j])
      {
        FileEntriesSnoc(done, fs, j);
        var entry := FormatSingleFile(fs[j]);
        entries := entries + (entry + "\n");
      }
      assert fs[..|fs|] == fs;
    }
    assert results[..|results|] == results;
    md := StripRight(FileAnalysisHeading + ("\n\n" + entries));
  }

  // ------------------------------------------------------------ dependencies

  function RelationshipsOf(r: AnalysisResult): seq<Relationship>
  {
    if r.Answer? then r.relationships else []
  }

  /** One relationship; the `: description` part only when the description is non-empty. */
  function RelationshipLine(rel: Relationship): (r: string)
    ensures EndsWith(r, "\n")
  {
    var link := "- **`" + rel.source.GetOr("unknown") + "`** " + rel.kind.GetOr("unknown")
      + " **`" + rel.target.GetOr("unknown") + "`**";
    var line := link + (if rel.description != "" then ": " + rel.description else "");
    assert (line + "\n")[|line|..] == "\n";
    line + "\n"
  }

  function RelationshipLines(rels: seq<Relationship>): string
  {
    if rels == [] then "" else RelationshipLines(rels[..|rels| - 1]) + RelationshipLine(rels[|rels| - 1])
  }

  lemma RelationshipLinesSnoc(rels: seq<Relationship>, i: nat)
    requires i < |rels|
    ensures RelationshipLines(rels[..i + 1]) == RelationshipLines(rels[..i]) + RelationshipLine(rels[i])
  {
    assert rels[..i + 1][..i] == rels[..i];
  }

  const DependenciesHeading: string := "## 🔗 Dependencies & Relationships\n\n"
  const RelationshipsTitle: string := "### Inter-file Relationships\n\n"
  /** The sentence that stands in for an empty list of relationships; the two literals make one line. */
  const NoRelationships: string := "No explicit " + "inter-file relationships detected.\n"

  lemma ConcatCancel(h: string, a: string, b: string)
    ensures h + a == h + b <==> a == b
  {
    if h + a == h + b {
      assert (h + a)[|h|..] == a && (h + b)[|h|..] == b;
    }
  }

  /** `_format_dependencies`: the relationships of every answer, or the fallback sentence when there are none. */
  function DependenciesSection(results: seq<AnalysisResult>): (r: string)
    ensures StartsWith(r, DependenciesHeading)
    ensures r == DependenciesHeading + NoRelationships <==> Concat(results, RelationshipsOf) == []
  {
    var rels := Concat(results, RelationshipsOf);
    var body := if rels == [] then NoRelationships else RelationshipsTitle + RelationshipLines(rels);
    assert NoRelationships[0] == 'N' && RelationshipsTitle[0] == '#';
    assert rels != [] ==> body[0] == '#';
    ConcatCancel(DependenciesHeading, body, NoRelationships);
    StartsWithConcat(DependenciesHeading, body);
    DependenciesHeading + body
  }

  method FormatDependencies(results: seq<AnalysisResult>) returns (md: string)
    ensures md == DependenciesSection(results)
  {
    var relationships: seq<Relationship> := [];
    for i := 0 to |results|
      invariant relationships == Concat(results[..i], RelationshipsOf)
    {
      ConcatSnoc(results, i, RelationshipsOf);
      if results[i].Answer? {
        relationships := relationships + results[i].relationships;
      }
    }
    assert results[..|results|] == results;
    var body := NoRelationships;
    if relationships != [] {
      var lines := "";
      for i := 0 to |relationships|
        invariant lines == RelationshipLines(relationships[..i])
      {
        RelationshipLinesSnoc(relationships, i);
        lines := lines + RelationshipLine(relationships[i]);
      }
      assert relationships[..|relationships|] == relationships;
      body := RelationshipsTitle + lines;
    }
    md := DependenciesHeading + body;
  }

  /** An answer whose relationship list is empty yields the fallback sentence. */
  lemma EmptyRelationshipsFallBack(results: seq<AnalysisResult>)
    requires results == [Answer(None, None, None, [], [])]
    ensures DependenciesSection(results) == DependenciesHeading + NoRelationships
  {
    ConcatEmpty(results, RelationshipsOf);
  }

  /** A relationship without a description ends right after its target. */
  lemma RelationshipWithoutDescription(rel: Relationship)
    requires rel == Relationship(Some("app.py"), Some("config.py"), Some("imports"), "")
    ensures RelationshipLine(rel) == "- **`app.py`** imports **`config.py`**\n"
  {
  }

  // ------------------------------------------------------------ technical details

  /** The patterns one answer contributes: those of `technical_details`, then those of `batch_summary`. */
  function PatternsOf(r: AnalysisResult): seq<string>
  {
    if r.NotADict? then []
    else
      (if r.technicalDetails.Some? then r.technicalDetails.value.patterns else [])
      + (if r.batchSummary.Some? then r.batchSummary.value.patterns else [])
  }

  function TechnologiesOf(r: AnalysisResult): seq<string>
  {
    if r.Answer? && r.projectSummary.Some? then r.projectSummary.value.technologies.GetOr([]) else []
  }

  function DependenciesOf(r: AnalysisResult): seq<string>
  {
    if r.Answer? && r.technicalDetails.Some? then r.technicalDetails.value.dependencies else []
  }

  const TechnicalTitle: string := "## 🔧 Technical Details"

  /** A titled list followed by a blank line, when the list is not empty. */
  function Listing(title: string, items: seq<string>): (r: string)
    ensures r == "" <==> items == []
  {
    if items == [] then "" else title + Bullets(items) + "\n"
  }

  /** What follows the heading, from the distinct patterns, technologies and dependencies. */
  function TechnicalBody(patterns: seq<string>, technologies: seq<string>, dependencies: seq<string>): (r: string)
    ensures r == "" <==> patterns == [] && technologies == [] && dependencies == []
  {
    Listing("### Design Patterns\n", patterns)
    + Listing("### Technologies & Frameworks\n", technologies)
    + Listing("### External Dependencies\n", dependencies)
  }

  /**
   * `_format_technical_details`: `""` when nothing was collected (the text is
   * then the bare heading), otherwise the heading and the non-empty lists,
   * without trailing whitespace. `list(set(xs))` is modelled as the distinct
   * values in first-occurrence order.
   */
  function TechnicalDetailsSection(results: seq<AnalysisResult>): (r: string)
    ensures r == "" <==> Concat(results, PatternsOf) == [] && Concat(results, TechnologiesOf) == []
                         && Concat(results, DependenciesOf) == []
    ensures r != "" ==> StartsWith(r, TechnicalTitle)
  {
    var body := TechnicalBody(Dedup(Concat(results, PatternsOf)), Dedup(Concat(results, TechnologiesOf)),
                              Dedup(Concat(results, DependenciesOf)));
    if body == "" then ""
    else
      StripKeepsHeading(TechnicalTitle, "\n\n" + body);
      StripRight(TechnicalTitle + ("\n\n" + body))
  }

  /** The loop of `_format_technical_details` that gathers the three lists. */
  method CollectTechnicalDetails(results: seq<AnalysisResult>)
    returns (patterns: seq<string>, technologies: seq<string>, dependencies: seq<string>)
    ensures patterns == Concat(results, PatternsOf)
    ensures technologies == Concat(results, TechnologiesOf)
    ensures dependencies == Concat(results, DependenciesOf)
  {
    patterns, technologies, dependencies := [], [], [];
    for i := 0 to |results|
      invariant patterns == Concat(results[..i], PatternsOf)
      invariant technologies == Concat(results[..i], TechnologiesOf)
      invariant dependencies == Concat(results[..i], DependenciesOf)
    {
      ConcatSnoc(results, i, PatternsOf);
      ConcatSnoc(results, i, TechnologiesOf);
      ConcatSnoc(results, i, DependenciesOf);
      var r := results[i];
      if r.Answer? {
        var fromDetails: seq<string> := [];
        var fromBatch: seq<string> := [];
        if r.technicalDetails.Some? {
          fromDetails := r.technicalDetails.value.patterns;
          dependencies := dependencies + r.technicalDetails.value.dependencies;
        }
        if r.projectSummary.Some? {
          technologies := technologies + r.projectSummary.value.technologies.GetOr([]);
        }
        if r.batchSummary.Some? {
          fromBatch := r.batchSummary.value.patterns;
        }
        patterns := patterns + (fromDetails + fromBatch);
      }
    }
    assert results[..|results|] == results;
  }

  method ListingOf(title: string, items: seq<string>) returns (r: string)
    ensures r == Listing(title, items)
  {
    r := "";
    if items != [] {
      var bullets := BulletList(items);
      r := title + bullets + "\n";
    }
  }

  method FormatTechnicalDetails(results: seq<AnalysisResult>) returns (md: string)
    ensures md == TechnicalDetailsSection(results)
  {
    var patterns, technologies, dependencies := CollectTechnicalDetails(results);
    var patternsText := ListingOf("### Design Patterns\n", Dedup(patterns));
    var technologiesText := ListingOf("### Technologies & Frameworks\n", Dedup(technologies));
    var dependenciesText := ListingOf("### External Dependencies\n", Dedup(dependencies));
    var body := patternsText + technologiesText + dependenciesText;
    md := if body != "" then StripRight(TechnicalTitle + ("\n\n" + body)) else "";
  }

  /** A list holding one answer with no key at all yields no technical details. */
  lemma NoDetailsForEmptyAnswer(results: seq<AnalysisResult>)
    requires results == [Answer(None, None, None, [], [])]
    ensures TechnicalDetailsSection(results) == ""
  {
    ConcatSnoc(results, 0, PatternsOf);
    ConcatSnoc(results, 0, TechnologiesOf);
    ConcatSnoc(results, 0, DependenciesOf);
    assert results[..1] == results && results[..0] == [];
  }

  /** A pattern named in a batch summary is listed among the design patterns. */
  lemma BatchPatternIsListed(results: seq<AnalysisResult>, k: nat, pattern: string)
    requires k < |results| && results[k].Answer? && results[k].batchSummary.Some?
    requires pattern in results[k].batchSummary.value.patterns
    ensures pattern in Dedup(Concat(results, PatternsOf))
    ensures TechnicalDetailsSection(results) != ""
  {
    assert pattern in PatternsOf(results[k]);
  }

  // ------------------------------------------------------------ project summary

  predicate HasProjectSummary(r: AnalysisResult)
  {
    r.Answer? && r.projectSummary.Some?
  }

  /** The `project_summary` of the first answer that has one. */
  function FirstProjectSummary(results: seq<AnalysisResult>): (r: Option<ProjectSummaryInfo>)
    ensures r.None? <==> forall k :: 0 <= k < |results| ==> !HasProjectSummary(results[k])
    ensures r.Some? ==> exists k :: 0 <= k < |results| && HasProjectSummary(results[k])
                          && results[k].projectSummary == r
                          && forall j :: 0 <= j < k ==> !HasProjectSummary(results[j])
  {
    if results == [] then None
    else if HasProjectSummary(results[0]) then results[0].projectSummary
    else
      var r := FirstProjectSummary(results[1..]);
      assert forall k :: 1 <= k < |results| ==> results[k] == results[1..][k - 1];
      r
  }

  /** Answers after the first one carrying a summary never change the choice. */
  lemma {:induction false} FirstSummaryIgnoresLater(a: seq<AnalysisResult>, b: seq<AnalysisResult>)
    requires FirstProjectSummary(a).Some?
    ensures FirstProjectSummary(a + b) == FirstProjectSummary(a)
  {
    assert (a + b)[0] == a[0];
    if !HasProjectSummary(a[0]) {
      assert (a + b)[1..] == a[1..] + b;
      FirstSummaryIgnoresLater(a[1..], b);
    }
  }

  /** `purposes`: the `main_purpose` of every batch summary that has one. */
  function PurposesOf(r: AnalysisResult): seq<string>
  {
    if r.Answer? && r.batchSummary.Some? && r.batchSummary.value.mainPurpose.Some?
    then [r.batchSummary.value.mainPurpose.value] else []
  }

  function BatchPatternsOf(r: AnalysisResult): seq<string>
  {
    if r.Answer? && r.batchSummary.Some? then r.batchSummary.value.patterns else []
  }

  const SummaryHeading: string := "## 🎯 Project Summary"
  const DefaultMainPurpose: string := "Code analysis and documentation"
  const DefaultPatterns: string := "Standard code organization"

  /** The two lines built from the batch summaries: the defaults stand in for empty lists. */
  function BatchLines(purposes: seq<string>, patterns: seq<string>): string
  {
    var purposeText := if purposes == [] then DefaultMainPurpose else Join("; ", Dedup(purposes));
    var patternText := if patterns == [] then DefaultPatterns else Join(", ", Dedup(patterns));
    "\n\n**Main Purpose**: " + purposeText + "\n\n**Key Patterns**: " + patternText
  }

  /** The summary built from the batch summaries when no usable project summary exists. */
  function SummaryFromBatches(results: seq<AnalysisResult>): (r: string)
    ensures StartsWith(r, SummaryHeading)
  {
    var tail := BatchLines(Concat(results, PurposesOf), Concat(results, BatchPatternsOf));
    StartsWithConcat(SummaryHeading, tail);
    SummaryHeading + tail
  }

  /** `f"**{field}**: {value}\n\n"` when the key is present. */
  function FieldLine(field: string, value: Option<string>): (r: string)
    ensures r == "" <==> value.None?
  {
    if value.Some? then "**" + field + "**: " + value.value + "\n\n" else ""
  }

  function ComponentsBlock(components: Option<seq<string>>): (r: string)
    ensures r == "" <==> components.None? || components.value == []
  {
    if components.Some? && components.value != [] then "**Key Components**:\n" + Bullets(components.value) + "\n"
    else ""
  }

  /** The lines of a non-empty project summary, before trailing whitespace is removed. */
  function DetailLines(p: ProjectSummaryInfo): string
  {
    "\n\n" + FieldLine("Purpose", p.mainPurpose) + FieldLine("Type", p.kind)
    + FieldLine("Architecture", p.architecture) + ComponentsBlock(p.keyComponents)
  }

  /** The summary built from a non-empty project summary. */
  function SummaryDetails(p: ProjectSummaryInfo): (r: string)
    ensures StartsWith(r, SummaryHeading)
  {
    StripKeepsHeading(SummaryHeading, DetailLines(p));
    StripRight(SummaryHeading + DetailLines(p))
  }

  /**
   * `_format_project_summary`: the first answer carrying `project_summary`
   * decides; when there is none, or it is an empty dictionary, the batch
   * summaries of all answers are used instead.
   */
  function ProjectSummarySection(results: seq<AnalysisResult>): (r: string)
    ensures StartsWith(r, SummaryHeading)
  {
    var chosen := FirstProjectSummary(results);
    if chosen.None? || IsEmptyDict(chosen.value) then SummaryFromBatches(results)
    else SummaryDetails(chosen.value)
  }

  /** Once an answer carries a non-empty project summary, later answers do not change the section. */
  lemma SummaryIgnoresLaterAnswers(a: seq<AnalysisResult>, b: seq<AnalysisResult>)
    requires FirstProjectSummary(a).Some? && !IsEmptyDict(FirstProjectSummary(a).value)
    ensures ProjectSummarySection(a + b) == ProjectSummarySection(a)
  {
    FirstSummaryIgnoresLater(a, b);
  }

  /** An empty first project summary hides every later one: the batch summaries are used. */
  lemma EmptySummaryFallsBack(a: seq<AnalysisResult>, b: seq<AnalysisResult>)
    requires FirstProjectSummary(a).Some? && IsEmptyDict(FirstProjectSummary(a).value)
    ensures ProjectSummarySection(a + b) == SummaryFromBatches(a + b)
  {
    FirstSummaryIgnoresLater(a, b);
  }

  /** With no project summary and no batch summary, the section holds the two default sentences. */
  lemma SummaryDefaults(results: seq<AnalysisResult>)
    requires forall k :: 0 <= k < |results| ==> results[k].NotADict? || results[k].batchSummary.None?
    requires FirstProjectSummary(results).None?
    ensures ProjectSummarySection(results)
      == SummaryHeading + ("\n\n**Main Purpose**: " + DefaultMainPurpose + "\n\n**Key Patterns**: " + DefaultPatterns)
  {
    NoBatchSummaries(results);
    DefaultBatchLines();
  }

  lemma NoBatchSummaries(results: seq<AnalysisResult>)
    requires forall k :: 0 <= k < |results| ==> results[k].NotADict? || results[k].batchSummary.None?
    ensures Concat(results, PurposesOf) == [] && Concat(results, BatchPatternsOf) == []
  {
    ConcatEmpty(results, PurposesOf);
    ConcatEmpty(results, BatchPatternsOf);
  }

  lemma DefaultBatchLines()
    ensures BatchLines([], []) == "\n\n**Main Purpose**: " + DefaultMainPurpose + "\n\n**Key Patterns**: " + DefaultPatterns
  {
  }

  /** The loop that stops at the first answer carrying `project_summary`. */
  method FindProjectSummary(results: seq<AnalysisResult>) returns (summary: Option<ProjectSummaryInfo>)
    ensures summary == FirstProjectSummary(results)
  {
    summary := None;
    var i := 0;
    while i < |results|
      invariant 0 <= i <= |results|
      invariant FirstProjectSummary(results) == FirstProjectSummary(results[i..])
    {
      assert results[i..][1..] == results[i + 1..];
      if HasProjectSummary(results[i]) {
        summary := results[i].projectSummary;
        break;
      }
      i := i + 1;
    }
    assert summary.None? ==> results[i..] == [];
  }

  /** The loop that gathers the batch summaries' purposes and patterns. */
  method CollectBatchSummaries(results: seq<AnalysisResult>) returns (purposes: seq<string>, patterns: seq<string>)
    ensures purposes == Concat(results, PurposesOf)
    ensures patterns == Concat(results, BatchPatternsOf)
  {
    purposes, patterns := [], [];
    for k := 0 to |results|
      invariant purposes == Concat(results[..k], PurposesOf)
      invariant patterns == Concat(results[..k], BatchPatternsOf)
    {
      ConcatSnoc(results, k, PurposesOf);
      ConcatSnoc(results, k, BatchPatternsOf);
      if results[k].Answer? && results[k].batchSummary.Some? {
        var batch := results[k].batchSummary.value;
        if batch.mainPurpose.Some? {
          purposes := purposes + [batch.mainPurpose.value];
        }
        patterns := patterns + batch.patterns;
      }
    }
    assert results[..|results|] == results;
  }

  method FormatProjectSummary(results: seq<AnalysisResult>) returns (md: string)
    ensures md == ProjectSummarySection(results)
  {
    var summary := FindProjectSummary(results);
    if summary.None? || IsEmptyDict(summary.value) {
      var purposes, patterns := CollectBatchSummaries(results);
      var purposeText := if purposes != [] then Join("; ", Dedup(purposes)) else DefaultMainPurpose;
      var patternText := if patterns != [] then Join(", ", Dedup(patterns)) else DefaultPatterns;
      md := SummaryHeading + ("\n\n**Main Purpose**: " + purposeText + "\n\n**Key Patterns**: " + patternText);
    } else {
      var p := summary.value;
      var components := "";
      if p.keyComponents.Some? && p.keyComponents.value != [] {
        var bullets := BulletList(p.keyComponents.value);
        components := "**Key Components**:\n" + bullets + "\n";
      }
      var lines := "\n\n" + FieldLine("Purpose", p.mainPurpose) + FieldLine("Type", p.kind)
        + FieldLine("Architecture", p.architecture) + components;
      md := StripRight(SummaryHeading + lines);
    }
  }

  // ------------------------------------------------------------ the whole report

  /**
   * The sections of `format_results`, in order: header, overview, project
   * summary, file analysis, dependencies, technical details; the project
   * summary and the dependencies only when there is more than one file.
   */
  function ReportSections(files: seq<FileRecord>, results: seq<AnalysisResult>, info: ReportInfo,
                          now: string, today: string, formatBytes: nat -> string): (r: seq<string>)
    ensures |files| > 1 ==> |r| == 6
    ensures |files| <= 1 ==> |r| == 4
    ensures r[0] == Header(info, now)
  {
    var header := Header(info, now);
    var overview := Overview(info, today, formatBytes);
    var fileAnalysis := FileAnalysisSection(results);
    var technical := TechnicalDetailsSection(results);
    if |files| > 1 then
      [header, overview, ProjectSummarySection(results), fileAnalysis, DependenciesSection(results), technical]
    else
      [header, overview, fileAnalysis, technical]
  }

  /** `format_results`: the sections joined by blank lines; the clock and `_format_bytes` are parameters. */
  method FormatResults(files: seq<FileRecord>, results: seq<AnalysisResult>,
                       now: string, today: string, formatBytes: nat -> string) returns (md: string)
    ensures md == Join("\n\n", ReportSections(files, results, ProjectInfoOf(files), now, today, formatBytes))
  {
    var info := ExtractProjectInfo(files);
    var header := Header(info, now);
    var overview := Overview(info, today, formatBytes);
    var summary := "";
    if |files| > 1 {
      summary := FormatProjectSummary(results);
    }
    var fileAnalysis := FormatFileAnalysis(results);
    var dependencies := "";
    if |files| > 1 {
      dependencies := FormatDependencies(results);
    }
    var technical := FormatTechnicalDetails(results);
    var sections := if |files| > 1 then [header, overview, summary, fileAnalysis, dependencies, technical]
                    else [header, overview, fileAnalysis, technical];
    md := Join("\n\n", sections);
  }

  /** A single-file report has no project summary and no dependencies section. */
  lemma SingleFileReportSections(files: seq<FileRecord>, results: seq<AnalysisResult>,
                                 now: string, today: string, formatBytes: nat -> string)
    requires |files| == 1
    ensures var info := ProjectInfoOf(files);
      ReportSections(files, results, info, now, today, formatBytes)
      == [Header(info, now), Overview(info, today, formatBytes), FileAnalysisSection(results),
          TechnicalDetailsSection(results)]
  {
  }

  /** A report on several files carries the project summary third and the dependencies fifth. */
  lemma MultiFileReportSections(files: seq<FileRecord>, results: seq<AnalysisResult>,
                                now: string, today: string, formatBytes: nat -> string)
    requires |files| > 1
    ensures var info := ProjectInfoOf(files);
      ReportSections(files, results, info, now, today, formatBytes)
      == [Header(info, now), Overview(info, today, formatBytes), ProjectSummarySection(results),
          FileAnalysisSection(results), DependenciesSection(results), TechnicalDetailsSection(results)]
  {
  }

  /** `_extension_to_language` is the processors' table: the unit test's four lookups. */
  lemma ExtensionToLanguageExamples()
    ensures ProcessorLanguage(".py") == "Python" && ProcessorLanguage(".js") == "JavaScript"
    ensures ProcessorLanguage(".ts") == "TypeScript"
  {
    LowerCaseExtensions();
  }

  /** An extension outside the table is reported as `Unknown`. */
  lemma UnlistedExtensionIsUnknown()
    ensures ProcessorLanguage(".unknown") == Unknown
  {
    LowerCaseExtensions();
  }

}
