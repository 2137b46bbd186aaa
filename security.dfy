/**
 * The two pure checks of the web application's security layer: the upload
 * filename sanitiser and the request-path screen of the security middleware.
 */
module Security {
  import opened Wrappers
  import opened Text
  import opened Paths

  // ------------------------------------------------------------ filenames

  const MaxFilenameLength: nat := 255

  /** The characters `[a-zA-Z0-9.\-_]` a sanitised filename keeps. */
  predicate SafeChar(c: char)
  {
    ('a' <= c <= 'z') || ('A' <= c <= 'Z') || ('0' <= c <= '9') || c == '.' || c == '-' || c == '_'
  }

  predicate AllSafe(s: string)
  {
    forall k :: 0 <= k < |s| ==> SafeChar(s[k])
  }

  /** `re.sub(r"[^a-zA-Z0-9.\-_]", "_", s)`: every other character becomes one underscore. */
  function ReplaceUnsafe(s: string): (r: string)
    ensures |r| == |s|
    ensures AllSafe(r)
    ensures forall k :: 0 <= k < |s| && SafeChar(s[k]) ==> r[k] == s[k]
    ensures forall k :: 0 <= k < |s| && !SafeChar(s[k]) ==> r[k] == '_'
  {
    if s == [] then []
    else [if SafeChar(s[0]) then s[0] else '_'] + ReplaceUnsafe(s[1..])
  }

  /** A name made of safe characters passes through unchanged. */
  lemma ReplaceUnsafeKeepsSafe(s: string)
    requires AllSafe(s)
    ensures ReplaceUnsafe(s) == s
  {
  }

  /** No dot is directly followed by another. */
  predicate NoDoubleDots(s: string)
  {
    forall k :: 0 <= k < |s| - 1 ==> !(s[k] == '.' && s[k + 1] == '.')
  }

  /**
   * `re.sub(r"\.{2,}", ".", s)`: scanning left to right, a dot is dropped
   * when the next character is a dot too, so each run keeps one dot.
   */
  function CollapseDots(s: string): (r: string)
    ensures |r| <= |s|
    ensures NoDoubleDots(r)
    ensures |s| > 0 ==> |r| > 0 && r[0] == s[0] && r[|r| - 1] == s[|s| - 1]
    ensures AllSafe(s) ==> AllSafe(r)
  {
    if |s| < 2 then s
    else if s[0] == '.' && s[1] == '.' then CollapseDots(s[1..])
    else
      var rest := CollapseDots(s[1..]);
      var r := [s[0]] + rest;
      assert forall k :: 0 < k < |r| ==> r[k] == rest[k - 1];
      r
  }

  /**
   * The same rewrite read right to left: a character is kept unless it is a
   * dot that directly follows a dot of the input.
   */
  function SquashDots(s: string): string
  {
    if s == [] then []
    else
      var init := s[..|s| - 1];
      var c := s[|s| - 1];
      if c == '.' && |s| >= 2 && s[|s| - 2] == '.' then SquashDots(init) else SquashDots(init) + [c]
  }

  /** One step of `CollapseDots` on a text of two or more characters. */
  lemma CollapseDotsStep(s: string)
    requires |s| >= 2
    ensures CollapseDots(s) == if s[0] == '.' && s[1] == '.' then CollapseDots(s[1..]) else [s[0]] + CollapseDots(s[1..])
  {
  }

  /** Appending one character to the input of `CollapseDots`. */
  lemma {:induction false} CollapseDotsSnoc(t: string, c: char)
    ensures CollapseDots(t + [c])
         == if c == '.' && |t| >= 1 && t[|t| - 1] == '.' then CollapseDots(t) else CollapseDots(t) + [c]
    decreases |t|
  {
    if |t| == 0 {
      assert t + [c] == [c];
    } else if |t| == 1 {
      CollapseDotsPair(t[0], c);
      assert t + [c] == [t[0], c];
    } else {
      CollapseDotsSnocLonger(t, c);
    }
  }

  lemma CollapseDotsPair(a: char, c: char)
    ensures CollapseDots([a, c]) == if a == '.' && c == '.' then [a] else [a, c]
  {
    CollapseDotsStep([a, c]);
    assert [a, c][1..] == [c];
  }

  lemma {:induction false} CollapseDotsSnocLonger(t: string, c: char)
    requires |t| >= 2
    ensures CollapseDots(t + [c])
         == if c == '.' && t[|t| - 1] == '.' then CollapseDots(t) else CollapseDots(t) + [c]
    decreases |t|, 0
  {
    var s := t + [c];
    var tail := t[1..];
    assert s[0] == t[0] && s[1] == t[1] && s[1..] == tail + [c];
    assert tail[|tail| - 1] == t[|t| - 1];
    CollapseDotsStep(s);
    CollapseDotsStep(t);
    CollapseDotsSnoc(tail, c);
    if !(t[0] == '.' && t[1] == '.') {
      SnocAssoc(t[0], CollapseDots(tail), c);
    }
  }

  lemma SnocAssoc(a: char, x: string, c: char)
    ensures [a] + (x + [c]) == ([a] + x) + [c]
  {
  }

  /** Both readings of the rewrite agree: runs of dots become single dots, nothing else changes. */
  lemma {:induction false} CollapseDotsIsSquash(s: string)
    ensures CollapseDots(s) == SquashDots(s)
    decreases |s|
  {
    if s != [] {
      var init := s[..|s| - 1];
      assert s == init + [s[|s| - 1]];
      CollapseDotsSnoc(init, s[|s| - 1]);
      CollapseDotsIsSquash(init);
    }
  }

  /** Text without double dots is left alone, so collapsing twice is collapsing once. */
  lemma {:induction false} CollapseDotsKeepsSingleDots(s: string)
    requires NoDoubleDots(s)
    ensures CollapseDots(s) == s
    decreases |s|
  {
    if |s| >= 2 {
      assert !(s[0] == '.' && s[1] == '.');
      assert NoDoubleDots(s[1..]) by {
        forall k | 0 <= k < |s[1..]| - 1
          ensures !(s[1..][k] == '.' && s[1..][k + 1] == '.')
        {
          assert s[1..][k] == s[k + 1] && s[1..][k + 1] == s[k + 2];
        }
      }
      CollapseDotsKeepsSingleDots(s[1..]);
      assert [s[0]] + s[1..] == s;
    }
  }

  /** Python's `s[:n]`, where a negative `n` counts from the end. */
  function SliceTo(s: string, n: int): string
  {
    if n >= 0 then (if n <= |s| then s[..n] else s)
    else if |s| + n > 0 then s[..|s| + n]
    else ""
  }

  /**
   * The length limit as written: over 255 characters, the text is split at
   * its last dot, and with a non-empty extension the name is cut to
   * `255 - len(ext) - 1` characters, a negative bound counting from the end.
   */
  function TruncateAsWritten(s: string): (r: string)
    ensures |s| <= MaxFilenameLength ==> r == s
  {
    if |s| <= MaxFilenameLength then s
    else
      var i := LastDot(s);
      if i < 0 then SliceTo(s, MaxFilenameLength)
      else
        var name := s[..i];
        var ext := s[i + 1..];
        if ext != "" then SliceTo(name, MaxFilenameLength - |ext| - 1) + "." + ext
        else SliceTo(name, MaxFilenameLength)
  }

  /**
   * The length limit as intended: over 255 characters, a final extension of
   * at most 254 characters is kept after as much of the name as fits;
   * otherwise the first 255 characters are kept.
   */
  function Truncate(s: string): (r: string)
    ensures |r| == if |s| <= MaxFilenameLength then |s| else MaxFilenameLength
    ensures |s| <= MaxFilenameLength ==> r == s
    ensures |s| > MaxFilenameLength && KeepsExtension(s)
            ==> r == s[..MaxFilenameLength - |s[LastDot(s)..]|] + s[LastDot(s)..]
    ensures |s| > MaxFilenameLength && !KeepsExtension(s) ==> r == s[..MaxFilenameLength]
  {
    if |s| <= MaxFilenameLength then s
    else if KeepsExtension(s) then
      var i := LastDot(s);
      s[..MaxFilenameLength - (|s| - i)] + s[i..]
    else s[..MaxFilenameLength]
  }

  /** There is a last dot and the extension after it has 1 to 254 characters. */
  predicate KeepsExtension(s: string)
  {
    LastDot(s) >= 0 && 0 < |s| - LastDot(s) - 1 <= MaxFilenameLength - 1
  }

  /** Wherever the extension fits, the code as written computes the intended value. */
  lemma TruncateAgreesWhenExtensionFits(s: string)
    requires |s| <= MaxFilenameLength || LastDot(s) < 0 || |s| - LastDot(s) - 1 <= MaxFilenameLength - 1
    ensures TruncateAsWritten(s) == Truncate(s)
  {
    if |s| > MaxFilenameLength {
      var i := LastDot(s);
      if i < 0 {
        assert TruncateAsWritten(s) == s[..MaxFilenameLength];
      } else if i == |s| - 1 {
        EmptyExtensionAgrees(s, i);
      } else {
        ExtensionFitsAgrees(s, i);
      }
    }
  }

  lemma PrefixOfPrefix(s: string, i: int, n: int)
    requires 0 <= n <= i <= |s|
    ensures SliceTo(s[..i], n) == s[..n]
  {
  }

  lemma DotThenRest(x: string, s: string, i: int)
    requires 0 <= i < |s| && s[i] == '.'
    ensures x + "." + s[i + 1..] == x + s[i..]
  {
    assert "." + s[i + 1..] == s[i..];
  }

  /** A trailing dot: both keep the first 255 characters. */
  lemma EmptyExtensionAgrees(s: string, i: int)
    requires |s| > MaxFilenameLength && i == LastDot(s) && i == |s| - 1
    ensures TruncateAsWritten(s) == Truncate(s)
  {
    var name := s[..i];
    assert s[i + 1..] == "";
    assert TruncateAsWritten(s) == SliceTo(name, MaxFilenameLength);
    assert name[..MaxFilenameLength] == s[..MaxFilenameLength];
  }

  /** An extension of 1 to 254 characters: both keep it after the front of the name. */
  lemma ExtensionFitsAgrees(s: string, i: int)
    requires |s| > MaxFilenameLength && i == LastDot(s) && 0 <= i < |s| - 1
    requires |s| - i - 1 <= MaxFilenameLength - 1
    ensures TruncateAsWritten(s) == Truncate(s)
  {
    var n := MaxFilenameLength - (|s| - i);
    AsWrittenKeepsExtension(s, i);
    assert KeepsExtension(s);
    assert Truncate(s) == s[..n] + s[i..];
  }

  lemma AsWrittenKeepsExtension(s: string, i: int)
    requires |s| > MaxFilenameLength && i == LastDot(s) && 0 <= i < |s| - 1
    requires |s| - i - 1 <= MaxFilenameLength - 1
    ensures TruncateAsWritten(s) == s[..MaxFilenameLength - (|s| - i)] + s[i..]
  {
    var name := s[..i];
    var ext := s[i + 1..];
    var n := MaxFilenameLength - |ext| - 1;
    assert TruncateAsWritten(s) == SliceTo(name, n) + "." + ext;
    PrefixOfPrefix(s, i, n);
    DotThenRest(s[..n], s, i);
  }

  /**
   * With an extension of 300 characters the negative bound drops the whole
   * one-letter name: `"a." + "b" * 300` becomes `"." + "b" * 300`, 301
   * characters, over the 255-character limit.
   */
  lemma TruncateAsWrittenOverflows(s: string)
    requires s == "a." + Rep('b', 300)
    ensures TruncateAsWritten(s) == "." + Rep('b', 300)
    ensures |TruncateAsWritten(s)| == 301 > MaxFilenameLength
    ensures |Truncate(s)| == MaxFilenameLength
  {
    assert s[1] == '.';
    assert forall k :: 1 < k < |s| ==> s[k] != '.';
    assert LastDot(s) == 1;
    assert s[..1] == "a" && s[2..] == Rep('b', 300);
  }

  const ReservedNames: set<string> := {
    "CON", "PRN", "AUX", "NUL",
    "COM1", "COM2", "COM3", "COM4", "COM5", "COM6", "COM7", "COM8", "COM9",
    "LPT1", "LPT2", "LPT3", "LPT4", "LPT5", "LPT6", "LPT7", "LPT8", "LPT9"}

  lemma ReservedNamesAreShort()
    ensures forall n :: n in ReservedNames ==> |n| <= 4
  {
  }

  /** `s.split(".")[0]`: the text before the first dot. */
  function BeforeFirstDot(s: string): (r: string)
    ensures '.' !in r
    ensures |r| <= |s| && s[..|r|] == r
    ensures |r| < |s| ==> s[|r|] == '.'
  {
    if s == [] || s[0] == '.' then ""
    else [s[0]] + BeforeFirstDot(s[1..])
  }

  /** The upper-cased text before the first dot is a reserved Windows device name. */
  predicate IsReserved(s: string)
  {
    ToUpper(BeforeFirstDot(s)) in ReservedNames
  }

  /** `f"file_{s}"` for a reserved name. */
  function PrefixReserved(s: string): (r: string)
    ensures !IsReserved(s) ==> r == s
    ensures |s| <= |r| <= |s| + 5 && r[|r| - |s|..] == s
  {
    if IsReserved(s) then "file_" + s else s
  }

  /** Text without dots in front of a name belongs to its first part. */
  lemma {:induction false} BeforeFirstDotPrefix(a: string, s: string)
    requires '.' !in a
    ensures BeforeFirstDot(a + s) == a + BeforeFirstDot(s)
  {
    if a != [] {
      assert (a + s)[0] == a[0] && (a + s)[1..] == a[1..] + s;
      BeforeFirstDotPrefix(a[1..], s);
      assert [a[0]] + (a[1..] + BeforeFirstDot(s)) == a + BeforeFirstDot(s);
    } else {
      assert a + s == s;
    }
  }

  /** A prefixed name is no longer reserved: its first part is at least five characters long. */
  lemma PrefixedIsNotReserved(s: string)
    ensures !IsReserved(PrefixReserved(s))
  {
    if IsReserved(s) {
      BeforeFirstDotPrefix("file_", s);
      ReservedNamesAreShort();
    }
  }

  /** `sanitize_filename` as written, with the as-written length limit. */
  function SanitizeFilenameAsWritten(filename: string): (r: Result<string, string>)
    ensures r.Failure? <==> filename == ""
  {
    if filename == "" then Failure("Filename cannot be empty")
    else Success(PrefixReserved(TruncateAsWritten(CollapseDots(ReplaceUnsafe(filename)))))
  }

  /**
   * The `file_` prefix for a reserved name, followed by the length limit once
   * more, since the prefix can take the name over 255 characters.
   */
  function Unreserve(s: string): (r: string)
    ensures !IsReserved(s) ==> r == s
    ensures |s| + 5 <= MaxFilenameLength ==> r == PrefixReserved(s)
    ensures |r| <= MaxFilenameLength || r == s
  {
    if IsReserved(s) then Truncate("file_" + s) else s
  }

  /**
   * `sanitize_filename` with both length limits as intended: the empty name
   * is an error; otherwise a non-empty name of safe characters, at most 255
   * characters long, never a reserved name, and without double dots when
   * neither limit had to cut it.
   */
  function SanitizeFilename(filename: string): (r: Result<string, string>)
    ensures r.Failure? <==> filename == ""
    ensures r.Success? ==> AllSafe(r.value) && r.value != ""
    ensures r.Success? ==> |r.value| <= MaxFilenameLength
    ensures r.Success? ==> !IsReserved(r.value)
    ensures r.Success? && |filename| + 5 <= MaxFilenameLength ==> NoDoubleDots(r.value)
  {
    if filename == "" then Failure("Filename cannot be empty")
    else
      var collapsed := CollapseDots(ReplaceUnsafe(filename));
      var cut := Truncate(collapsed);
      TruncateKeepsSafe(collapsed);
      UnreserveKeepsSafe(cut);
      UnreserveKeepsSingleDots(cut);
      UnreservedIsNotReserved(cut);
      Success(Unreserve(cut))
  }

  /** Truncation keeps characters safe and a non-empty name non-empty. */
  lemma TruncateKeepsSafe(s: string)
    requires AllSafe(s)
    ensures AllSafe(Truncate(s))
    ensures |s| > 0 ==> Truncate(s) != ""
  {
  }

  lemma PrefixKeepsSafe(s: string)
    requires AllSafe(s) && s != ""
    ensures AllSafe(PrefixReserved(s)) && PrefixReserved(s) != ""
  {
    var p := PrefixReserved(s);
    if p != s {
      assert p == "file_" + s;
      forall k | 0 <= k < |p|
        ensures SafeChar(p[k])
      {
        if k >= 5 {
          assert p[k] == s[k - 5];
        }
      }
    }
  }

  lemma PrefixKeepsSingleDots(s: string)
    ensures NoDoubleDots(s) ==> NoDoubleDots(PrefixReserved(s))
  {
    var p := PrefixReserved(s);
    if p != s && NoDoubleDots(s) {
      assert p == "file_" + s;
      forall k | 0 <= k < |p| - 1
        ensures !(p[k] == '.' && p[k + 1] == '.')
      {
        if k >= 5 {
          assert p[k] == s[k - 5] && p[k + 1] == s[k - 4];
        }
      }
    }
  }

  lemma UnreserveKeepsSafe(s: string)
    requires AllSafe(s) && s != "" && |s| <= MaxFilenameLength
    ensures AllSafe(Unreserve(s)) && Unreserve(s) != "" && |Unreserve(s)| <= MaxFilenameLength
  {
    if IsReserved(s) {
      PrefixKeepsSafe(s);
      TruncateKeepsSafe("file_" + s);
    }
  }

  lemma UnreserveKeepsSingleDots(s: string)
    ensures |s| + 5 <= MaxFilenameLength && NoDoubleDots(s) ==> NoDoubleDots(Unreserve(s))
  {
    PrefixKeepsSingleDots(s);
  }

  /** The reserved names are non-empty and none starts with `F`. */
  lemma ReservedNamesStart()
    ensures "" !in ReservedNames
    ensures forall n :: n in ReservedNames ==> n[0] != 'F'
  {
  }

  /** A name whose first part has five or more characters is not reserved. */
  lemma LongFrontNotReserved(s: string)
    requires |BeforeFirstDot(s)| > 4
    ensures !IsReserved(s)
  {
    ReservedNamesAreShort();
  }

  lemma StartsWithPrefixNotReserved(t: string)
    requires |t| >= 5 && t[..5] == "file_"
    ensures !IsReserved(t)
  {
    BeforeFirstDotPrefix("file_", t[5..]);
    assert t == "file_" + t[5..];
    LongFrontNotReserved(t);
  }

  /** Fewer than five characters of `file_` before a dot are not a reserved name either. */
  lemma ShortFrontNotReserved(p: string, m: nat, i: nat)
    requires |p| >= 5 && p[..5] == "file_"
    requires m < 5 && m <= i < |p| && p[i] == '.'
    ensures !IsReserved(p[..m] + p[i..])
  {
    var a := p[..m];
    assert forall k :: 0 <= k < m ==> a[k] == p[..5][k];
    assert '.' !in a;
    BeforeFirstDotPrefix(a, p[i..]);
    assert BeforeFirstDot(p[i..]) == "";
    assert BeforeFirstDot(p[..m] + p[i..]) == a + "";
    ReservedNamesStart();
    if m > 0 {
      assert ToUpper(a)[0] == 'F';
    }
  }

  /** Cutting a name that starts with `file_` never leaves a reserved name. */
  lemma TruncatedPrefixNotReserved(p: string)
    requires |p| >= 5 && p[..5] == "file_"
    ensures !IsReserved(Truncate(p))
  {
    if |p| <= MaxFilenameLength {
      StartsWithPrefixNotReserved(p);
    } else if !KeepsExtension(p) {
      assert Truncate(p)[..5] == p[..5];
      StartsWithPrefixNotReserved(Truncate(p));
    } else {
      var i := LastDot(p);
      var m := MaxFilenameLength - (|p| - i);
      assert Truncate(p) == p[..m] + p[i..];
      if m >= 5 {
        assert (p[..m] + p[i..])[..5] == p[..5];
        StartsWithPrefixNotReserved(Truncate(p));
      } else {
        ShortFrontNotReserved(p, m, i);
      }
    }
  }

  lemma UnreservedIsNotReserved(s: string)
    ensures !IsReserved(Unreserve(s))
  {
    if IsReserved(s) {
      assert ("file_" + s)[..5] == "file_";
      TruncatedPrefixNotReserved("file_" + s);
    }
  }

  /** `c * n`. */
  function Rep(c: char, n: nat): (r: string)
    ensures |r| == n && forall k :: 0 <= k < n ==> r[k] == c
  {
    seq(n, _ => c)
  }

  /**
   * Dots are collapsed before the length limit, so cutting the name can bring
   * two dots together again: `"a" * 251 + "." + "c" * 10 + ".ab"` keeps its
   * first 252 characters, ending in a dot, and then `.ab`.
   */
  lemma TruncationCanJoinDots(s: string)
    requires s == Rep('a', 251) + "." + Rep('c', 10) + ".ab"
    ensures SanitizeFilename(s).Success?
    ensures !NoDoubleDots(SanitizeFilename(s).value)
  {
    assert |s| == 265;
    assert AllSafe(s) && NoDoubleDots(s) by {
      assert forall k :: 0 <= k < |s| ==> s[k] == (if k < 251 then 'a' else if k == 251 || k == 262 then '.'
                                                  else if k < 262 then 'c' else if k == 263 then 'a' else 'b');
    }
    ReplaceUnsafeKeepsSafe(s);
    CollapseDotsKeepsSingleDots(s);
    LastDotAt(s, 262);
    var cut := Truncate(s);
    assert cut == s[..252] + s[262..];
    assert cut[251] == '.' && cut[252] == '.';
    assert forall k :: 0 <= k < 251 ==> cut[k] == 'a';
    LongFrontNotReserved(cut);
  }

  /** `LastDot` is the position of the dot after which no dot follows. */
  lemma LastDotAt(s: string, i: nat)
    requires i < |s| && s[i] == '.'
    requires forall k :: i < k < |s| ==> s[k] != '.'
    ensures LastDot(s) == i
  {
  }

  /** A name that is already safe, short enough and not reserved comes back unchanged. */
  lemma SanitizeKeepsCleanNames(s: string)
    requires s != "" && AllSafe(s) && NoDoubleDots(s) && |s| <= MaxFilenameLength && !IsReserved(s)
    ensures SanitizeFilename(s) == Success(s)
  {
    ReplaceUnsafeKeepsSafe(s);
    CollapseDotsKeepsSingleDots(s);
  }

  /**
   * Sanitising a sanitised name again changes nothing unless the length
   * limit brought two dots together; that cannot happen to a name of at
   * most 250 characters.
   */
  lemma SanitizeIdempotent(filename: string)
    requires SanitizeFilename(filename).Success?
    ensures NoDoubleDots(SanitizeFilename(filename).value)
            ==> SanitizeFilename(SanitizeFilename(filename).value) == SanitizeFilename(filename)
  {
    var r := SanitizeFilename(filename).value;
    if NoDoubleDots(r) {
      SanitizeKeepsCleanNames(r);
    }
  }

  /** Once the unsafe characters are replaced, a short name without double dots is only checked against the reserved names. */
  lemma SanitizeOfClean(filename: string, replaced: string)
    requires filename != "" && ReplaceUnsafe(filename) == replaced
    requires NoDoubleDots(replaced) && |replaced| <= MaxFilenameLength
    ensures SanitizeFilename(filename) == Success(Unreserve(replaced))
  {
    CollapseDotsKeepsSingleDots(replaced);
  }

  /**
   * The reserved-name prefix is added after the length limit: the 255
   * characters `"CON." + "a" * 251` come back as 260, while the corrected
   * sanitiser stays within 255.
   */
  lemma PrefixAfterLimitOverflows(s: string)
    requires s == "CON." + Rep('a', 251)
    ensures SanitizeFilenameAsWritten(s) == Success("file_" + s)
    ensures |SanitizeFilenameAsWritten(s).value| == 260 > MaxFilenameLength
    ensures |SanitizeFilename(s).value| <= MaxFilenameLength
  {
    LongReservedIsClean(s);
    ReplaceUnsafeKeepsSafe(s);
    CollapseDotsKeepsSingleDots(s);
    LongReservedIsReserved(s);
  }

  lemma LongReservedIsClean(s: string)
    requires s == "CON." + Rep('a', 251)
    ensures |s| == MaxFilenameLength && AllSafe(s) && NoDoubleDots(s)
  {
    assert forall k :: 0 <= k < |s| ==> s[k] == (if k == 0 then 'C' else if k == 1 then 'O' else if k == 2 then 'N'
                                                 else if k == 3 then '.' else 'a');
  }

  lemma LongReservedIsReserved(s: string)
    requires s == "CON." + Rep('a', 251)
    ensures IsReserved(s)
  {
    var con := "CON";
    var rest := "." + Rep('a', 251);
    assert s == con + rest;
    BeforeFirstDotPrefix(con, rest);
    assert BeforeFirstDot(rest) == "";
    assert ToUpper(con) == con;
  }

  /** `CON.txt` becomes `file_CON.txt`. */
  lemma SanitizeReservedExample(s: string)
    requires s == "CON.txt"
    ensures SanitizeFilename(s) == Success("file_CON.txt")
  {
    ReservedExampleIsClean(s);
    ReplaceUnsafeKeepsSafe(s);
    SanitizeOfClean(s, s);
    ReservedExampleIsReserved(s);
    PrefixedExample(s);
  }

  lemma PrefixedExample(s: string)
    requires s == "CON.txt"
    ensures Truncate("file_" + s) == "file_CON.txt"
  {
    assert "file_" + s == "file_CON.txt";
  }

  lemma ReservedExampleIsClean(s: string)
    requires s == "CON.txt"
    ensures s != "" && AllSafe(s) && NoDoubleDots(s) && |s| <= MaxFilenameLength
  {
  }

  lemma ReservedExampleIsReserved(s: string)
    requires s == "CON.txt"
    ensures IsReserved(s)
  {
    var con := "CON";
    BeforeFirstDotPrefix(con, ".txt");
    assert s == con + ".txt";
    assert BeforeFirstDot(".txt") == "";
    assert ToUpper(con) == con;
  }

  /** Each of the nine characters `<>:"/\|?*` becomes one underscore. */
  lemma SanitizeSpecialCharactersExample(s: string)
    requires s == "file<>:\"/\\|?*.txt"
    ensures SanitizeFilename(s) == Success("file_________.txt")
  {
    var r := ReplaceUnsafe(s);
    SpecialCharactersReplaced(s, r);
    SpecialCharactersResultIsClean(r);
    SanitizeOfClean(s, r);
    SpecialCharactersResultNotReserved(r);
  }

  lemma SpecialCharactersReplaced(s: string, r: string)
    requires s == "file<>:\"/\\|?*.txt"
    requires r == ReplaceUnsafe(s)
    ensures r == "file_________.txt"
  {
    SpecialCharactersUnsafe(s);
    SpecialCharactersSafeEnds(s);
    var t := "file_________.txt";
    assert forall k :: 4 <= k < 13 ==> t[k] == '_';
    assert forall k :: 0 <= k < 4 || 13 <= k < 17 ==> t[k] == s[k];
  }

  lemma SpecialCharactersUnsafe(s: string)
    requires s == "file<>:\"/\\|?*.txt"
    ensures forall k :: 4 <= k < 13 ==> !SafeChar(s[k])
  {
  }

  lemma SpecialCharactersSafeEnds(s: string)
    requires s == "file<>:\"/\\|?*.txt"
    ensures forall k :: 0 <= k < 4 || 13 <= k < 17 ==> SafeChar(s[k])
  {
  }

  lemma SpecialCharactersResultIsClean(r: string)
    requires r == "file_________.txt"
    ensures r != "" && NoDoubleDots(r) && |r| <= MaxFilenameLength
  {
  }

  lemma SpecialCharactersResultNotReserved(r: string)
    requires r == "file_________.txt"
    ensures Unreserve(r) == r
  {
    var front := "file_________";
    BeforeFirstDotPrefix(front, ".txt");
    assert r == front + ".txt";
    assert BeforeFirstDot(".txt") == "";
    ReservedNamesAreShort();
  }

  // ------------------------------------------------------------ request paths

  /**
   * The literal texts the middleware's traversal patterns match, lower-cased:
   * `../` and `..\`, their `%2e%2e` encodings, `//`, a doubled backslash and NUL.
   */
  const DangerousPatterns: seq<string> :=
    ["../", "..\\", "%2e%2e%2f", "%2e%2e/", "%2e%2e\\", "//", "\\\\", "\0"]

  /** Some dangerous pattern occurs in `s`. */
  function AnyPatternIn(s: string, patterns: seq<string>): (r: bool)
    ensures r <==> exists k :: 0 <= k < |patterns| && Contains(s, patterns[k])
  {
    if patterns == [] then false
    else Contains(s, patterns[0]) || AnyPatternIn(s, patterns[1..])
  }

  /** `re.search(pattern, path, re.IGNORECASE)` for some listed pattern. */
  predicate HasDangerousPattern(path: string)
    ensures HasDangerousPattern(path)
        <==> exists k :: 0 <= k < |DangerousPatterns| && Contains(ToLower(path), DangerousPatterns[k])
  {
    AnyPatternIn(ToLower(path), DangerousPatterns)
  }

  const MaxPathLength: nat := 1000

  datatype PathCheck = PathAccepted | PathRejected(status: nat, detail: string)

  /**
   * `_validate_request_path`: a dangerous pattern is answered with 400 before
   * the length is looked at; a path over 1000 characters with 414.
   */
  function ValidateRequestPath(path: string): (r: PathCheck)
    ensures r.PathAccepted? <==> !HasDangerousPattern(path) && |path| <= MaxPathLength
    ensures r.PathRejected? && r.status == 400 <==> HasDangerousPattern(path)
    ensures r.PathRejected? && r.status == 414 <==> !HasDangerousPattern(path) && |path| > MaxPathLength
  {
    if HasDangerousPattern(path) then PathRejected(400, "Invalid path detected")
    else if |path| > MaxPathLength then PathRejected(414, "Path too long")
    else PathAccepted
  }

  /** Lower-casing keeps an occurrence of text that is already lower case. */
  lemma OccursAfterLower(s: string, sub: string, i: nat)
    requires OccursAt(s, sub, i) && ToLower(sub) == sub
    ensures OccursAt(ToLower(s), sub, i)
  {
    forall k | 0 <= k < |sub|
      ensures ToLower(s)[i + k] == sub[k]
    {
      assert s[i..i + |sub|][k] == s[i + k];
      assert sub[k] == LowerChar(sub[k]);
    }
  }

  /** The check ignores case: `%2E%2E%2F` anywhere in a path is rejected like `%2e%2e%2f`. */
  lemma UpperCaseEncodingRejected(path: string, i: nat)
    requires OccursAt(ToUpper(path), "%2E%2E%2F", i)
    ensures ValidateRequestPath(path) == PathRejected(400, "Invalid path detected")
  {
    var lowered := ToLower(path);
    forall k | 0 <= k < 9
      ensures lowered[i + k] == "%2e%2e%2f"[k]
    {
      assert ToUpper(path)[i..i + 9][k] == UpperChar(path[i + k]);
    }
    assert lowered[i..i + 9] == "%2e%2e%2f";
    assert OccursAt(lowered, DangerousPatterns[2], i);
  }

  /** Any `../` is rejected with 400, however long the path. */
  lemma TraversalRejectedFirst(path: string, i: nat)
    requires OccursAt(path, "../", i)
    ensures ValidateRequestPath(path).PathRejected? && ValidateRequestPath(path).status == 400
  {
    OccursAfterLower(path, "../", i);
    assert OccursAt(ToLower(path), DangerousPatterns[0], i);
  }
}
