/**
 * The command-line `FileProcessor`'s file selection: the same extension test
 * as the web application, but an exclude pattern with its `*` characters
 * removed is searched for anywhere in the path.
 */
module LegacyFileSelection {
  import opened Text

  /** `pattern.replace("*", "")`. */
  function RemoveStars(pattern: string): (r: string)
    ensures '*' !in r
    ensures '*' !in pattern ==> r == pattern
    ensures |r| <= |pattern|
  {
    if pattern == [] then []
    else if pattern[0] == '*' then RemoveStars(pattern[1..])
    else [pattern[0]] + RemoveStars(pattern[1..])
  }

  /** Removing the stars keeps every other character, in order: the stars alone vanish. */
  lemma {:induction false} RemoveStarsOfStars(pattern: string)
    requires forall k :: 0 <= k < |pattern| ==> pattern[k] == '*'
    ensures RemoveStars(pattern) == ""
  {
    if pattern != [] {
      RemoveStarsOfStars(pattern[1..]);
    }
  }

  /** `_should_exclude(file_path)`: some pattern, stars removed, is a substring of the path. */
  function ShouldExclude(patterns: seq<string>, path: string): (r: bool)
    ensures r <==> exists k :: 0 <= k < |patterns| && Contains(path, RemoveStars(patterns[k]))
  {
    if patterns == [] then false
    else if Contains(path, RemoveStars(patterns[0])) then true
    else ShouldExclude(patterns[1..], path)
  }

  /** A pattern made only of stars becomes the empty string, which occurs in every path: everything is excluded. */
  lemma StarsExcludeEverything(patterns: seq<string>, k: nat, path: string)
    requires k < |patterns|
    requires forall i :: 0 <= i < |patterns[k]| ==> patterns[k][i] == '*'
    ensures ShouldExclude(patterns, path)
  {
    RemoveStarsOfStars(patterns[k]);
    assert OccursAt(path, "", 0);
  }

  /** A pattern with a character the path lacks never excludes it. */
  lemma MissingCharacterKeeps(path: string, sub: string, c: char)
    requires c in sub && c !in path
    ensures !Contains(path, sub)
  {
    var j :| 0 <= j < |sub| && sub[j] == c;
    forall i: nat | i + |sub| <= |path|
      ensures !OccursAt(path, sub, i)
    {
      assert path[i..i + |sub|][j] == path[i + j];
      assert path[i + j] != c;
    }
  }

  lemma {:induction false} RemoveStarsConcat(a: string, b: string)
    ensures RemoveStars(a + b) == RemoveStars(a) + RemoveStars(b)
  {
    if a == [] {
      assert a + b == b;
    } else {
      assert (a + b)[0] == a[0] && (a + b)[1..] == a[1..] + b;
      RemoveStarsConcat(a[1..], b);
    }
  }

  /** A pattern `*core*` searches for `core`. */
  lemma RemoveStarsAround(core: string)
    requires '*' !in core
    ensures RemoveStars("*" + core + "*") == core
  {
    RemoveStarsConcat("*" + core, "*");
    RemoveStarsConcat("*", core);
  }

  /** The test's patterns are of the form `*core*` with a star-free core. */
  lemma StarredPattern(pattern: string, core: string)
    requires core == "/node_modules/" || core == "/__pycache__/"
    requires pattern == "*" + core + "*"
    ensures RemoveStars(pattern) == core
  {
    RemoveStarsAround(core);
  }

  lemma ModuleFileMatches(path: string)
    requires path == "/path/node_modules/file.js"
    ensures Contains(path, "/node_modules/")
  {
    assert path[5..19] == "/node_modules/";
    assert OccursAt(path, "/node_modules/", 5);
  }

  lemma SourceFileMatchesNeither(path: string)
    requires path == "/path/src/file.py"
    ensures !Contains(path, "/node_modules/") && !Contains(path, "/__pycache__/")
  {
    MissingCharacterKeeps(path, "/node_modules/", 'n');
    MissingCharacterKeeps(path, "/__pycache__/", '_');
  }

  /** With the patterns of the unit test, `/path/node_modules/file.js` is excluded. */
  lemma ExcludesModuleFile(patterns: seq<string>, path: string)
    requires |patterns| == 2 && patterns[0] == "*/node_modules/*" && patterns[1] == "*/__pycache__/*"
    requires path == "/path/node_modules/file.js"
    ensures ShouldExclude(patterns, path)
  {
    StarredPattern(patterns[0], "/node_modules/");
    ModuleFileMatches(path);
  }

  /** With the same patterns, `/path/src/file.py` is kept. */
  lemma KeepsSourceFile(patterns: seq<string>, path: string)
    requires |patterns| == 2 && patterns[0] == "*/node_modules/*" && patterns[1] == "*/__pycache__/*"
    requires path == "/path/src/file.py"
    ensures !ShouldExclude(patterns, path)
  {
    StarredPattern(patterns[0], "/node_modules/");
    StarredPattern(patterns[1], "/__pycache__/");
    SourceFileMatchesNeither(path);
  }
}
