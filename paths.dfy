/**
 * POSIX `pathlib` as the code summarizer uses it: `parts`, `name`, `suffix`,
 * `stem` and the prefix test behind `relative_to`.
 */
module Paths {
  import opened Text

  /** `s.split('/')`. */
  function Segments(s: string): (r: seq<string>)
    ensures |r| >= 1
    ensures forall k :: 0 <= k < |r| ==> '/' !in r[k]
    decreases |s|
  {
    if '/' !in s then [s]
    else
      var i := FirstSlash(s);
      [s[..i]] + Segments(s[i + 1..])
  }

  function FirstSlash(s: string): (i: nat)
    requires '/' in s
    ensures i < |s| && s[i] == '/' && '/' !in s[..i]
  {
    if s[0] == '/' then 0
    else
      assert '/' in s[1..] by { var k :| 0 <= k < |s| && s[k] == '/'; assert s[1..][k - 1] == '/'; }
      var j := FirstSlash(s[1..]);
      assert s[..1 + j] == [s[0]] + s[1..][..j];
      1 + j
  }

  /** Splitting at the first slash. */
  lemma SegmentsCons(a: string, b: string)
    requires '/' !in a
    ensures Segments(a + "/" + b) == [a] + Segments(b)
  {
    var s := a + "/" + b;
    assert s[|a|] == '/';
    var i := FirstSlash(s);
    assert forall k :: 0 <= k < |a| ==> s[k] != '/' by {
      forall k | 0 <= k < |a|
        ensures s[k] != '/'
      {
        assert s[k] == a[k];
      }
    }
    assert forall k :: 0 <= k < i ==> s[k] != '/' by {
      forall k | 0 <= k < i
        ensures s[k] != '/'
      {
        assert s[..i][k] == s[k];
      }
    }
    assert i == |a|;
    assert s[..|a|] == a && s[|a| + 1..] == b;
  }

  /** Segments without slashes joined by `/` split back into themselves. */
  lemma {:induction false} SegmentsOfJoin(segs: seq<string>)
    requires |segs| >= 1
    requires forall k :: 0 <= k < |segs| ==> '/' !in segs[k]
    ensures Segments(Join("/", segs)) == segs
  {
    if |segs| > 1 {
      SegmentsCons(segs[0], Join("/", segs[1..]));
      SegmentsOfJoin(segs[1..]);
    }
  }

  /** Keeps the segments `pathlib` keeps: empty ones and `.` are dropped. */
  function KeepComponents(segs: seq<string>): (r: seq<string>)
    ensures forall k :: 0 <= k < |r| ==> r[k] != "" && r[k] != "." && r[k] in segs
  {
    if segs == [] then []
    else
      var rest := KeepComponents(segs[1..]);
      if segs[0] == "" || segs[0] == "." then rest else [segs[0]] + rest
  }

  /** The named components of a path, without its anchor. */
  function Components(s: string): (r: seq<string>)
    ensures forall k :: 0 <= k < |r| ==> r[k] != "" && '/' !in r[k]
  {
    KeepComponents(Segments(s))
  }

  predicate IsAbsolute(s: string)
  {
    |s| > 0 && s[0] == '/'
  }

  /** `Path(s).parts`: the anchor `/` of an absolute path, then its components. */
  function Parts(s: string): seq<string>
  {
    (if IsAbsolute(s) then ["/"] else []) + Components(s)
  }

  /** The absolute path `/c1/c2/.../cn`. */
  function AbsolutePath(comps: seq<string>): (s: string)
    ensures IsAbsolute(s)
  {
    "/" + Join("/", comps)
  }

  /** The components of `/c1/c2/.../cn` for named components `ci`. */
  lemma ComponentsOfAbsolute(comps: seq<string>)
    requires |comps| >= 1
    requires forall k :: 0 <= k < |comps| ==> comps[k] != "" && comps[k] != "." && '/' !in comps[k]
    ensures Components(AbsolutePath(comps)) == comps
  {
    var segs := [""] + comps;
    assert segs[1..] == comps;
    assert Join("/", segs) == "/" + Join("/", comps);
    SegmentsOfJoin(segs);
    KeepNamed(comps);
  }

  /** The parts and the name of `/c1/c2/.../cn`. */
  lemma PartsOfAbsolute(comps: seq<string>)
    requires |comps| >= 1
    requires forall k :: 0 <= k < |comps| ==> comps[k] != "" && comps[k] != "." && '/' !in comps[k]
    ensures Parts(AbsolutePath(comps)) == ["/"] + comps
    ensures Name(AbsolutePath(comps)) == comps[|comps| - 1]
  {
    ComponentsOfAbsolute(comps);
  }

  lemma {:induction false} KeepNamed(comps: seq<string>)
    requires forall k :: 0 <= k < |comps| ==> comps[k] != "" && comps[k] != "."
    ensures KeepComponents(comps) == comps
    ensures KeepComponents([""] + comps) == comps
  {
    assert ([""] + comps)[1..] == comps;
    if comps != [] {
      KeepNamed(comps[1..]);
      assert [comps[0]] + comps[1..] == comps;
    }
  }

  /** `Path(s).name`: the last component, or `""` when there is none. */
  function Name(s: string): (r: string)
    ensures '/' !in r
    ensures r != "" ==> r in Parts(s)
  {
    var c := Components(s);
    if c == [] then "" else c[|c| - 1]
  }

  /** `name.rfind('.')`, with -1 standing for "no dot". */
  function LastDot(name: string): (i: int)
    ensures -1 <= i < |name|
    ensures i >= 0 ==> name[i] == '.'
    ensures forall k :: i < k < |name| ==> name[k] != '.'
  {
    if name == [] then -1
    else if name[|name| - 1] == '.' then |name| - 1
    else LastDot(name[..|name| - 1])
  }

  /** Whether a name has a suffix: a last dot that is neither its first nor its last character. */
  predicate HasSuffix(name: string)
  {
    0 < LastDot(name) < |name| - 1
  }

  /** `Path(s).suffix`: from the last dot of the name on, or `""`. */
  function Suffix(s: string): (r: string)
    ensures r == "" || (r[0] == '.' && |r| >= 2 && '.' !in r[1..])
  {
    var name := Name(s);
    if HasSuffix(name) then name[LastDot(name)..] else ""
  }

  /** `Path(s).stem`: the name without its suffix. */
  function Stem(s: string): (r: string)
    ensures r + Suffix(s) == Name(s)
  {
    var name := Name(s);
    if HasSuffix(name) then name[..LastDot(name)] else name
  }

  predicate IsPrefix(p: seq<string>, s: seq<string>)
  {
    |p| <= |s| && s[..|p|] == p
  }

  /**
   * The parts `_should_exclude` inspects: those of `file` relative to `base`
   * when `file` lies under it, else all of `file`'s parts (the `ValueError` branch).
   */
  function PartsRelativeTo(file: string, base: string): (r: seq<string>)
    ensures forall k :: 0 <= k < |r| ==> r[k] in Parts(file)
  {
    var p := Parts(file);
    var b := Parts(base);
    if base != "" && IsPrefix(b, p) then p[|b|..] else p
  }
}
