/**
 * The three extension-to-language tables of the code summarizer. The file
 * processors and the markdown formatter share one table, the context manager
 * has its own (no `.mm`, plain names for `.jsx`/`.tsx`/`.h`), and the analysis
 * service uses lower-case identifiers.
 */
module Languages {
  import opened Text

  /** The table of both `FileProcessor` versions and of `MarkdownFormatter`. */
  const ProcessorTable: map<string, string> := map[
    ".py" := "Python", ".js" := "JavaScript", ".ts" := "TypeScript",
    ".jsx" := "JavaScript (React)", ".tsx" := "TypeScript (React)",
    ".java" := "Java", ".cpp" := "C++", ".c" := "C", ".h" := "C/C++",
    ".hpp" := "C++", ".cs" := "C#", ".swift" := "Swift", ".go" := "Go",
    ".rs" := "Rust", ".php" := "PHP", ".rb" := "Ruby", ".scala" := "Scala",
    ".kt" := "Kotlin", ".dart" := "Dart", ".r" := "R", ".m" := "Objective-C",
    ".mm" := "Objective-C++", ".sh" := "Shell", ".sql" := "SQL"]

  /** The table of `ContextManager`. */
  const ContextTable: map<string, string> := map[
    ".py" := "Python", ".js" := "JavaScript", ".ts" := "TypeScript",
    ".jsx" := "JavaScript", ".tsx" := "TypeScript",
    ".java" := "Java", ".cpp" := "C++", ".c" := "C", ".h" := "C",
    ".hpp" := "C++", ".cs" := "C#", ".swift" := "Swift", ".go" := "Go",
    ".rs" := "Rust", ".php" := "PHP", ".rb" := "Ruby", ".scala" := "Scala",
    ".kt" := "Kotlin", ".dart" := "Dart", ".r" := "R", ".m" := "Objective-C",
    ".sh" := "Shell", ".sql" := "SQL"]

  /** The table of `AnalysisService`. */
  const ServiceTable: map<string, string> := map[
    ".py" := "python", ".js" := "javascript", ".ts" := "typescript",
    ".jsx" := "javascript", ".tsx" := "typescript",
    ".java" := "java", ".cpp" := "cpp", ".c" := "c", ".h" := "c",
    ".hpp" := "cpp", ".cs" := "csharp", ".swift" := "swift", ".go" := "go",
    ".rs" := "rust", ".php" := "php", ".rb" := "ruby", ".scala" := "scala",
    ".kt" := "kotlin", ".dart" := "dart", ".r" := "r", ".m" := "objective-c",
    ".mm" := "objective-c"]

  const Unknown: string := "Unknown"
  const ServiceUnknown: string := "unknown"

  /** `ext_map.get(extension.lower(), default)`. */
  function Lookup(table: map<string, string>, ext: string, default: string): (r: string)
    ensures r == default || r in table.Values
    ensures ToLower(ext) !in table ==> r == default
  {
    var key := ToLower(ext);
    if key in table then table[key] else default
  }

  /** `FileProcessor._extension_to_language` and `MarkdownFormatter._extension_to_language`. */
  function ProcessorLanguage(ext: string): (r: string)
    ensures r != ""
    ensures r == Unknown <==> ToLower(ext) !in ProcessorTable
    ensures ToLower(ext) in ProcessorTable ==> r == ProcessorTable[ToLower(ext)]
  {
    Lookup(ProcessorTable, ext, Unknown)
  }

  /** `ContextManager._extension_to_language`. */
  function ContextLanguage(ext: string): (r: string)
    ensures r != ""
    ensures r == Unknown <==> ToLower(ext) !in ContextTable
    ensures ToLower(ext) in ContextTable ==> r == ContextTable[ToLower(ext)]
  {
    Lookup(ContextTable, ext, Unknown)
  }

  /** `AnalysisService._guess_language_from_extension`. */
  function ServiceLanguage(ext: string): (r: string)
    ensures r != ""
    ensures r == ServiceUnknown <==> ToLower(ext) !in ServiceTable
    ensures ToLower(ext) in ServiceTable ==> r == ServiceTable[ToLower(ext)]
  {
    Lookup(ServiceTable, ext, ServiceUnknown)
  }

  /** Every lookup ignores the case of the extension. */
  lemma LookupIgnoresCase(table: map<string, string>, ext: string, default: string)
    ensures Lookup(table, ext, default) == Lookup(table, ToLower(ext), default)
  {
    ToLowerIdempotent(ext);
  }

  /** `.PY` is Python, `.Jsx` is the React variant, an unlisted extension is unknown. */
  lemma ProcessorLanguageExamples()
    ensures ProcessorLanguage(".PY") == "Python"
    ensures ProcessorLanguage(".Jsx") == "JavaScript (React)"
    ensures ProcessorLanguage(".xyz") == Unknown
  {
    assert ToLower(".PY") == ".py";
    assert ToLower(".Jsx") == ".jsx";
    assert ToLower(".xyz") == ".xyz";
  }

  /** The context manager's table names `.jsx` plainly and has no `.mm`. */
  lemma ContextLanguageExamples()
    ensures ContextLanguage(".jsx") == "JavaScript"
    ensures ContextLanguage(".mm") == Unknown
  {
    assert ToLower(".jsx") == ".jsx";
    assert ToLower(".mm") == ".mm";
  }

  /** The service's table answers in lower case and has no `.sh`. */
  lemma ServiceLanguageExamples()
    ensures ServiceLanguage(".PY") == "python"
    ensures ServiceLanguage(".sh") == ServiceUnknown
  {
    assert ToLower(".PY") == ".py";
    assert ToLower(".sh") == ".sh";
  }

  /** The extensions the unit tests look up are already in lower case. */
  lemma LowerCaseExtensions()
    ensures ToLower(".py") == ".py" && ToLower(".js") == ".js" && ToLower(".ts") == ".ts"
    ensures ToLower(".unknown") == ".unknown"
  {
  }
}
