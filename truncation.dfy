/**
 * `ContextManager._truncate_file_content` as a specification: the longest
 * prefix of whole lines whose per-line token costs fit the reduced budget,
 * joined back together and followed by a fixed notice.
 */
module Truncation {
  import opened Wrappers
  import opened Text
  import opened Records
  import opened Tokens

  /** The notice appended to every truncated content. */
  const Notice: string := "\n\n[... Content truncated due to size limits ...]\n"

  /** Tokens set aside for the record's metadata. */
  const MetadataReserve: int := 200

  /** The tokens left for kept lines: `max_tokens - 200 - count_tokens(notice)`. */
  function Allowance(enc: Encoder, maxTokens: int): (a: int)
    ensures a <= maxTokens - MetadataReserve
  {
    maxTokens - MetadataReserve - CountTokens(enc, Notice)
  }

  /** What one kept line costs: the tokens of the line with its newline. */
  function LineCost(enc: Encoder, line: string): (c: nat)
    ensures enc(line + "\n").None? ==> c == (|line| + 1) / 4
  {
    CountTokens(enc, line + "\n")
  }

  /** The summed line costs of `lines`. */
  function Cost(enc: Encoder, lines: seq<string>): (c: nat)
    ensures forall j :: 0 <= j < |lines| ==> LineCost(enc, lines[j]) <= c
  {
    if lines == [] then 0
    else
      assert forall j :: 1 <= j < |lines| ==> lines[j] == lines[1..][j - 1];
      LineCost(enc, lines[0]) + Cost(enc, lines[1..])
  }

  lemma {:induction false} CostConcat(enc: Encoder, a: seq<string>, b: seq<string>)
    ensures Cost(enc, a + b) == Cost(enc, a) + Cost(enc, b)
  {
    if a != [] {
      assert (a + b)[0] == a[0] && (a + b)[1..] == a[1..] + b;
      CostConcat(enc, a[1..], b);
    } else {
      assert a + b == b;
    }
  }

  /** Adding a line to the prefix adds exactly that line's cost. */
  lemma CostExtend(enc: Encoder, lines: seq<string>, i: nat)
    requires i < |lines|
    ensures Cost(enc, lines[..i + 1]) == Cost(enc, lines[..i]) + LineCost(enc, lines[i])
  {
    assert lines[..i + 1] == lines[..i] + [lines[i]];
    CostConcat(enc, lines[..i], [lines[i]]);
  }

  /** Longer prefixes never cost less. */
  lemma CostMonotone(enc: Encoder, lines: seq<string>, i: nat, j: nat)
    requires i <= j <= |lines|
    ensures Cost(enc, lines[..i]) <= Cost(enc, lines[..j])
  {
    assert lines[..j] == lines[..i] + lines[i..j];
    CostConcat(enc, lines[..i], lines[i..j]);
  }

  /**
   * The number of lines the loop keeps before its first `break`: every kept
   * prefix fits `allowance`, and the next line would not have.
   */
  function KeptCount(enc: Encoder, lines: seq<string>, allowance: int): (k: nat)
    ensures k <= |lines|
    ensures k > 0 ==> Cost(enc, lines[..k]) <= allowance
    ensures k < |lines| ==> Cost(enc, lines[..k + 1]) > allowance
    decreases |lines|
  {
    if lines == [] then 0
    else
      var init := lines[..|lines| - 1];
      var k := KeptCount(enc, init, allowance);
      assert init[..k] == lines[..k];
      if k < |init| then
        assert init[..k + 1] == lines[..k + 1];
        k
      else
        assert lines[..k + 1] == lines;
        assert lines[..|lines|] == lines;
        if Cost(enc, lines) <= allowance then |lines| else k
  }

  /** The kept prefix is the longest one that fits, and with a non-negative allowance it does fit. */
  lemma KeptIsLongest(enc: Encoder, lines: seq<string>, allowance: int)
    ensures allowance >= 0 ==> Cost(enc, lines[..KeptCount(enc, lines, allowance)]) <= allowance
    ensures forall j :: KeptCount(enc, lines, allowance) < j <= |lines| ==> Cost(enc, lines[..j]) > allowance
  {
    var k := KeptCount(enc, lines, allowance);
    forall j | k < j <= |lines|
      ensures Cost(enc, lines[..j]) > allowance
    {
      CostMonotone(enc, lines, k + 1, j);
    }
  }

  /** The break condition pins the kept count down: any `k` with the two properties is `KeptCount`. */
  lemma KeptCountUnique(enc: Encoder, lines: seq<string>, allowance: int, k: nat)
    requires k <= |lines|
    requires k > 0 ==> Cost(enc, lines[..k]) <= allowance
    requires k < |lines| ==> Cost(enc, lines[..k + 1]) > allowance
    ensures k == KeptCount(enc, lines, allowance)
  {
    var m := KeptCount(enc, lines, allowance);
    if k < m {
      CostMonotone(enc, lines, k + 1, m);
    } else if m < k {
      CostMonotone(enc, lines, m + 1, k);
    }
  }

  /**
   * The truncated copy: the kept lines joined by `\n` and the notice as the
   * content, the truncation keys added, every other key as it was.
   */
  function TruncateFile(enc: Encoder, f: FileRecord, maxTokens: int): (t: FileRecord)
    ensures t.truncation.Some? && t.truncation.value.originalLines == f.lines
    ensures t.truncation.value.truncatedLines <= |SplitLines(f.content)|
    ensures t.content
         == Join("\n", SplitLines(f.content)[..t.truncation.value.truncatedLines]) + Notice
    ensures EndsWith(t.content, Notice)
    ensures t.(content := f.content, truncation := f.truncation) == f
  {
    var lines := SplitLines(f.content);
    var k := KeptCount(enc, lines, Allowance(enc, maxTokens));
    var t := f.(content := Join("\n", lines[..k]) + Notice, truncation := Some(Truncation(f.lines, k)));
    assert t.content[|t.content| - |Notice|..] == Notice;
    t
  }

  /**
   * The truncated copy keeps the lines the loop keeps: the longest prefix of
   * whole lines whose costs fit the allowance, which does fit when the
   * allowance is not negative.
   */
  lemma TruncateFileKeepsLongest(enc: Encoder, f: FileRecord, maxTokens: int)
    ensures var lines, a := SplitLines(f.content), Allowance(enc, maxTokens);
            var k := TruncateFile(enc, f, maxTokens).truncation.value.truncatedLines;
            && k == KeptCount(enc, lines, a)
            && (a >= 0 ==> Cost(enc, lines[..k]) <= a)
            && (forall j :: k < j <= |lines| ==> Cost(enc, lines[..j]) > a)
  {
    KeptIsLongest(enc, SplitLines(f.content), Allowance(enc, maxTokens));
  }

  /** A tokenizer that never counts more for text than for its pieces. */
  ghost predicate SubAdditive(enc: Encoder)
  {
    forall a: string, b: string :: CountTokens(enc, a + b) <= CountTokens(enc, a) + CountTokens(enc, b)
  }

  /** A tokenizer that never counts less for text with more appended. */
  ghost predicate AppendMonotone(enc: Encoder)
  {
    forall a: string, b: string :: CountTokens(enc, a) <= CountTokens(enc, a + b)
  }

  /** Under both assumptions, the joined kept lines cost no more than their line costs. */
  lemma {:induction false} JoinCostBound(enc: Encoder, lines: seq<string>)
    requires SubAdditive(enc) && AppendMonotone(enc)
    requires lines != []
    ensures CountTokens(enc, Join("\n", lines)) <= Cost(enc, lines)
  {
    if |lines| == 1 {
      assert CountTokens(enc, lines[0]) <= CountTokens(enc, lines[0] + "\n");
    } else {
      var rest := Join("\n", lines[1..]);
      assert Join("\n", lines) == (lines[0] + "\n") + rest;
      assert CountTokens(enc, (lines[0] + "\n") + rest)
          <= CountTokens(enc, lines[0] + "\n") + CountTokens(enc, rest);
      JoinCostBound(enc, lines[1..]);
    }
  }

  /**
   * The code never checks that the truncated copy fits. It does when the
   * tokenizer is sub-additive and append-monotone, the header costs at most
   * the 200 reserved tokens and the allowance is not negative.
   */
  lemma TruncatedFitsUnderAssumptions(enc: Encoder, f: FileRecord, maxTokens: int)
    requires SubAdditive(enc) && AppendMonotone(enc)
    requires CountTokens(enc, Header(f)) <= MetadataReserve
    requires Allowance(enc, maxTokens) >= 0
    ensures EstimateFileTokens(enc, TruncateFile(enc, f, maxTokens)) <= maxTokens
  {
    var t := TruncateFile(enc, f, maxTokens);
    var lines := SplitLines(f.content);
    var allowance := Allowance(enc, maxTokens);
    var k := KeptCount(enc, lines, allowance);
    var joined := Join("\n", lines[..k]);
    assert Header(t) == Header(f);
    KeptIsLongest(enc, lines, allowance);
    if k == 0 {
      assert joined + Notice == Notice;
    } else {
      JoinCostBound(enc, lines[..k]);
      assert CountTokens(enc, joined + Notice) <= CountTokens(enc, joined) + CountTokens(enc, Notice);
    }
  }

  /** `n` lines of one letter each. */
  function ShortLines(n: nat): (lines: seq<string>)
    ensures |lines| == n && forall k :: 0 <= k < n ==> lines[k] == "a"
  {
    seq(n, _ => "a")
  }

  lemma {:induction false} JoinShortLinesLength(n: nat)
    requires n >= 1
    ensures |Join("\n", ShortLines(n))| == 2 * n - 1
  {
    if n > 1 {
      assert ShortLines(n)[1..] == ShortLines(n - 1);
      JoinShortLinesLength(n - 1);
    }
  }

  lemma {:induction false} FallbackShortLinesCostNothing(lines: seq<string>)
    requires forall k :: 0 <= k < |lines| ==> lines[k] == "a"
    ensures Cost(FallbackEncoder(), lines) == 0
  {
    if lines != [] {
      FallbackShortLinesCostNothing(lines[1..]);
    }
  }

  /**
   * Without those assumptions the copy need not fit: under the `len // 4`
   * fallback a one-letter line costs nothing, so every line is kept and the
   * truncated content is longer than the original.
   */
  lemma FallbackTruncationCanOverflow(maxTokens: int, f: FileRecord)
    requires Allowance(FallbackEncoder(), maxTokens) >= 0
    requires f.content == Join("\n", ShortLines(2 * maxTokens + 2))
    ensures EstimateFileTokens(FallbackEncoder(), TruncateFile(FallbackEncoder(), f, maxTokens)) > maxTokens
  {
    var enc := FallbackEncoder();
    var n := 2 * maxTokens + 2;
    var lines := ShortLines(n);
    SplitJoinedLines(lines);
    assert SplitLines(f.content) == lines;
    var allowance := Allowance(enc, maxTokens);
    FallbackShortLinesCostNothing(lines);
    FallbackShortLinesCostNothing(lines[..n]);
    KeptCountUnique(enc, lines, allowance, n);
    assert lines[..n] == lines;
    JoinShortLinesLength(n);
    var t := TruncateFile(enc, f, maxTokens);
    assert t.content == f.content + Notice;
    assert |t.content| == 2 * n - 1 + |Notice|;
  }
}
