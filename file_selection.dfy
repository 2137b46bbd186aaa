/**
 * Which files the web application's `FileProcessor` picks up while walking a
 * directory: a supported extension, and no exclude pattern matching the
 * file's name or one of its path components below the base directory.
 */
module FileSelection {
  import opened Wrappers
  import opened Text
  import opened Paths

  /** Some extension of `exts` ends `s`. */
  function AnyEndsWith(s: string, exts: seq<string>): (r: bool)
    ensures r <==> exists k :: 0 <= k < |exts| && EndsWith(s, exts[k])
  {
    if exts == [] then false
    else EndsWith(s, exts[0]) || AnyEndsWith(s, exts[1..])
  }

  /**
   * `_is_supported_file`: the lower-cased path ends with one of the configured
   * extensions (which are compared as they are written).
   */
  function IsSupportedFile(supported: seq<string>, path: string): (r: bool)
    ensures r <==> exists k :: 0 <= k < |supported| && EndsWith(ToLower(path), supported[k])
  {
    AnyEndsWith(ToLower(path), supported)
  }

  /** The check ignores the case of the path. */
  lemma IsSupportedIgnoresCase(supported: seq<string>, path: string)
    ensures IsSupportedFile(supported, path) == IsSupportedFile(supported, ToLower(path))
  {
    ToLowerIdempotent(path);
  }

  /** With `.py`, `.js`, `.ts` configured: `test.py` and `test.JS` are supported, `test.txt` is not. */
  lemma IsSupportedFileExamples()
    ensures IsSupportedFile([".py", ".js", ".ts"], "test.py")
    ensures IsSupportedFile([".py", ".js", ".ts"], "test.JS")
    ensures !IsSupportedFile([".py", ".js", ".ts"], "test.txt")
  {
    assert ToLower("test.py") == "test.py";
    assert ToLower("test.JS") == "test.js";
    assert ToLower("test.txt") == "test.txt";
    assert "test.js"[4..] == ".js";
    assert "test.txt"[5..] == "txt";
    assert "test.txt"[4..] == ".txt";
  }

  /** The parts a pattern is compared with: relative to a non-empty base directory when the file lies under it. */
  function CheckParts(path: string, baseDir: Option<string>): (r: seq<string>)
    ensures baseDir.None? ==> r == Parts(path)
    ensures forall k :: 0 <= k < |r| ==> r[k] in Parts(path)
  {
    PartsRelativeTo(path, baseDir.GetOr(""))
  }

  /**
   * One exclude pattern: `*rest` matches a name ending with `rest`; any other
   * pattern matches the file's own name or one of the checked parts.
   */
  predicate PatternMatches(pattern: string, path: string, checkParts: seq<string>)
  {
    if StartsWith(pattern, "*") then EndsWith(Name(path), pattern[1..])
    else pattern == Name(path) || pattern in checkParts
  }

  lemma NotWildcard(pattern: string)
    requires |pattern| > 0 && pattern[0] != '*'
    ensures !StartsWith(pattern, "*")
  {
    assert pattern[..1][0] == pattern[0];
  }

  /** The loop over the patterns, returning at the first that matches. */
  function AnyPatternMatches(patterns: seq<string>, path: string, checkParts: seq<string>): (r: bool)
    ensures r <==> exists k :: 0 <= k < |patterns| && PatternMatches(patterns[k], path, checkParts)
  {
    if patterns == [] then false
    else if PatternMatches(patterns[0], path, checkParts) then true
    else AnyPatternMatches(patterns[1..], path, checkParts)
  }

  /** `_should_exclude(file_path, base_dir)`: some pattern matches. */
  function ShouldExclude(patterns: seq<string>, path: string, baseDir: Option<string>): (r: bool)
    ensures r <==> exists k :: 0 <= k < |patterns| && PatternMatches(patterns[k], path, CheckParts(path, baseDir))
  {
    AnyPatternMatches(patterns, path, CheckParts(path, baseDir))
  }

  /**
   * A base directory can only narrow exclusion: the relative parts are some of
   * the file's parts, so a file excluded with a base is excluded without one.
   */
  lemma BaseDirOnlyNarrows(patterns: seq<string>, path: string, base: string)
    ensures ShouldExclude(patterns, path, Some(base)) ==> ShouldExclude(patterns, path, None)
  {
    if ShouldExclude(patterns, path, Some(base)) {
      var k :| 0 <= k < |patterns| && PatternMatches(patterns[k], path, CheckParts(path, Some(base)));
      assert PatternMatches(patterns[k], path, CheckParts(path, None));
    }
  }

  /** Wildcard patterns look at the file's name only, so the base directory does not matter to them. */
  lemma WildcardIgnoresBase(pattern: string, path: string, baseDir: Option<string>)
    requires StartsWith(pattern, "*")
    ensures ShouldExclude([pattern], path, baseDir) <==> ShouldExclude([pattern], path, None)
    ensures ShouldExclude([pattern], path, baseDir) <==> EndsWith(Name(path), pattern[1..])
  {
  }

  /** The exclude patterns of the unit test. */
  const ExamplePatterns: seq<string> := ["__pycache__", "*.pyc", "node_modules"]

  /** `/path/__pycache__/file.py` is excluded by the directory pattern. */
  lemma ExcludesCacheDirectory(comps: seq<string>)
    requires comps == ["path", "__pycache__", "file.py"]
    ensures ShouldExclude(ExamplePatterns, AbsolutePath(comps), None)
  {
    PartsOfAbsolute(comps);
    assert Parts(AbsolutePath(comps))[2] == "__pycache__";
    NotWildcard("__pycache__");
    assert PatternMatches(ExamplePatterns[0], AbsolutePath(comps), Parts(AbsolutePath(comps)));
  }

  /** `/path/file.pyc` is excluded by the wildcard pattern. */
  lemma ExcludesCompiledFile(comps: seq<string>)
    requires comps == ["path", "file.pyc"]
    ensures ShouldExclude(ExamplePatterns, AbsolutePath(comps), None)
  {
    PartsOfAbsolute(comps);
    assert "file.pyc"[4..] == ".pyc";
    assert PatternMatches(ExamplePatterns[1], AbsolutePath(comps), Parts(AbsolutePath(comps)));
  }

  /** `/path/src/main.py` is kept. */
  lemma KeepsSourceFile(comps: seq<string>)
    requires comps == ["path", "src", "main.py"]
    ensures !ShouldExclude(ExamplePatterns, AbsolutePath(comps), None)
  {
    PartsOfAbsolute(comps);
    assert Name(AbsolutePath(comps)) == "main.py";
    assert "main.py"[3..] == "n.py";
  }

  /**
   * Components of the base directory itself are not checked: under the base
   * `/w/node_modules/app`, a `node_modules` pattern does not exclude
   * `/w/node_modules/app/main.py`, which it excludes without a base.
   */
  lemma BaseComponentsAreNotChecked(fileComps: seq<string>, baseComps: seq<string>)
    requires fileComps == ["w", "node_modules", "app", "main.py"]
    requires baseComps == ["w", "node_modules", "app"]
    ensures !ShouldExclude(["node_modules"], AbsolutePath(fileComps), Some(AbsolutePath(baseComps)))
    ensures ShouldExclude(["node_modules"], AbsolutePath(fileComps), None)
  {
    var file := AbsolutePath(fileComps);
    var base := AbsolutePath(baseComps);
    PartsOfAbsolute(fileComps);
    PartsOfAbsolute(baseComps);
    assert Parts(file)[..|Parts(base)|] == Parts(base);
    assert CheckParts(file, Some(base)) == ["main.py"];
    assert Parts(file)[2] == "node_modules";
    NotWildcard("node_modules");
    assert PatternMatches("node_modules", file, Parts(file));
  }
}
