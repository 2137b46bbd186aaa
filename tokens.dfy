/**
 * Token counting of `ContextManager`: the tokenizer stands behind a function
 * value, and the `len(text) // 4` fallback is spelt out.
 */
module Tokens {
  import opened Wrappers
  import opened Text
  import opened Records

  /**
   * The tokenizer: `Some(len(encode(text)))`, or `None` where encoding raises
   * and `count_tokens` falls back to four characters per token.
   */
  type Encoder = string -> Option<nat>

  /** A tokenizer that always raises, so that every count is the fallback. */
  function FallbackEncoder(): Encoder
  {
    _ => None
  }

  /** `count_tokens`. */
  function CountTokens(enc: Encoder, text: string): (n: nat)
    ensures enc(text).Some? ==> n == enc(text).value
    ensures enc(text).None? ==> 4 * n <= |text| < 4 * n + 4
  {
    match enc(text)
    case Some(k) => k
    case None => |text| / 4
  }

  /** The metadata line block `estimate_file_tokens` counts besides the content. */
  function Header(f: FileRecord): (h: string)
    ensures StartsWith(h, "File: " + f.name + "\nPath: " + f.path + "\nLines: ")
  {
    var front := "File: " + f.name + "\nPath: " + f.path + "\nLines: ";
    assert (front + NatToString(f.lines) + "\n")[..|front|] == front;
    front + NatToString(f.lines) + "\n"
  }

  /** The header's last line holds the line count, which reads back as written. */
  lemma HeaderLineCount(f: FileRecord)
    ensures var h, n := Header(f), NatToString(f.lines);
            |h| > |n| && h[|h| - 1] == '\n' && h[|h| - |n| - 1..|h| - 1] == n && ParseDigits(n) == f.lines
  {
    var h, n := Header(f), NatToString(f.lines);
    assert h == ("File: " + f.name + "\nPath: " + f.path + "\nLines: ") + n + "\n";
    assert h[|h| - |n| - 1..|h| - 1] == n;
    ParseNatToString(f.lines);
  }

  /** `estimate_file_tokens`: the content's tokens plus the header's. */
  function EstimateFileTokens(enc: Encoder, f: FileRecord): (n: nat)
    ensures n >= CountTokens(enc, f.content)
    ensures n >= CountTokens(enc, Header(f))
  {
    CountTokens(enc, f.content) + CountTokens(enc, Header(f))
  }

  /**
   * The estimate reads only `name`, `path`, `lines` and `content`: records
   * that agree on those cost the same.
   */
  lemma EstimateReadsFourKeys(enc: Encoder, f: FileRecord, g: FileRecord)
    requires f.name == g.name && f.path == g.path && f.lines == g.lines && f.content == g.content
    ensures EstimateFileTokens(enc, f) == EstimateFileTokens(enc, g)
  {
  }

  /** The fallback never loses tokens by splitting text: floor division is super-additive. */
  lemma FallbackSuperAdditive(a: string, b: string)
    ensures CountTokens(FallbackEncoder(), a + b)
         >= CountTokens(FallbackEncoder(), a) + CountTokens(FallbackEncoder(), b)
  {
    var enc := FallbackEncoder();
    assert |a + b| == |a| + |b|;
    assert 4 * CountTokens(enc, a) + 4 * CountTokens(enc, b) <= |a + b|;
  }

  /** ... and can gain some: two strings of two characters cost nothing apart but one token together. */
  lemma FallbackStrictlySuperAdditive()
    ensures CountTokens(FallbackEncoder(), "ab" + "cd")
         > CountTokens(FallbackEncoder(), "ab") + CountTokens(FallbackEncoder(), "cd")
  {
  }
}
