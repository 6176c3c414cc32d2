/**
 * The few JavaScript string behaviours the application relies on:
 * `String.prototype.trim`, the truthiness of a string, and the
 * `message || "Erreur inconnue"` fallback used by both catch blocks.
 */
module JsStrings {
  import opened Options

  /** `part` occurs in `s` as a contiguous block of characters. */
  predicate Contains(s: string, part: string)
  {
    exists k :: 0 <= k <= |s| && part <= s[k..]
  }

  /** A block found at offset `k` of `s` is found in any text that embeds `s`. */
  lemma ContainsAt(s: string, part: string, k: nat)
    requires k <= |s| && part <= s[k..]
    ensures Contains(s, part)
  {
  }

  /** Containment survives adding text on either side. */
  lemma {:induction false} ContainsWithin(before: string, s: string, after: string, part: string)
    requires Contains(s, part)
    ensures Contains(before + s + after, part)
  {
    var k :| 0 <= k <= |s| && part <= s[k..];
    var whole := before + s + after;
    assert whole[|before| + k..] == s[k..] + after;
    ContainsAt(whole, part, |before| + k);
  }

  /**
   * The characters `trim` removes: the WhiteSpace and LineTerminator
   * productions of ECMAScript (tab, vertical tab, form feed, space,
   * no-break space, byte order mark, the Unicode space separators,
   * line feed, carriage return, line and paragraph separators).
   */
  predicate IsWhitespace(c: char)
  {
    var n := c as int;
    n == 0x09 || n == 0x0B || n == 0x0C || n == 0x20 || n == 0xA0 || n == 0xFEFF
    || n == 0x1680 || (0x2000 <= n <= 0x200A) || n == 0x202F || n == 0x205F || n == 0x3000
    || n == 0x0A || n == 0x0D || n == 0x2028 || n == 0x2029
  }

  predicate AllWhitespace(s: string)
  {
    forall k :: 0 <= k < |s| ==> IsWhitespace(s[k])
  }

  /** Drops the leading whitespace: what is left is a suffix of `s`. */
  function TrimStart(s: string): (r: string)
    ensures |r| <= |s| && r == s[|s| - |r|..]
    ensures AllWhitespace(s[..|s| - |r|])
    ensures r != [] ==> !IsWhitespace(r[0])
  {
    if s != [] && IsWhitespace(s[0]) then TrimStart(s[1..]) else s
  }

  /** Drops the trailing whitespace: what is left is a prefix of `s`. */
  function TrimEnd(s: string): (r: string)
    ensures |r| <= |s| && r == s[..|r|]
    ensures AllWhitespace(s[|r|..])
    ensures r != [] ==> !IsWhitespace(r[|r| - 1])
  {
    if s != [] && IsWhitespace(s[|s| - 1]) then TrimEnd(s[..|s| - 1]) else s
  }

  /**
   * `s.trim()`: the block of `s` left after removing whitespace on both
   * sides; it neither starts nor ends with whitespace, and everything
   * removed was whitespace.
   */
  function Trim(s: string): (r: string)
    ensures |r| <= |s|
    ensures r != [] ==> !IsWhitespace(r[0]) && !IsWhitespace(r[|r| - 1])
    ensures exists i :: 0 <= i <= |s| - |r| && r == s[i..i + |r|]
                        && AllWhitespace(s[..i]) && AllWhitespace(s[i + |r|..])
  {
    var t := TrimStart(s);
    var r := TrimEnd(t);
    var i := |s| - |t|;
    assert r == s[i..i + |r|];
    assert s[i + |r|..] == t[|r|..];
    r
  }

  /** A string trims to the empty string exactly when it is all whitespace. */
  lemma TrimEmptyIffBlank(s: string)
    ensures Trim(s) == "" <==> AllWhitespace(s)
  {
    var t := TrimStart(s);
    if t == "" {
      assert s[..|s|] == s;
    } else {
      assert t[0] == s[|s| - |t|];
    }
  }

  /** Trimming a string that has no surrounding whitespace leaves it as is. */
  lemma {:induction false} TrimKeepsInner(s: string)
    requires s != [] && !IsWhitespace(s[0]) && !IsWhitespace(s[|s| - 1])
    ensures Trim(s) == s
  {
    assert TrimStart(s) == s;
  }

  /** `message || "Erreur inconnue"`: an absent or empty message is replaced. */
  function MessageOrUnknown(message: Option<string>): (r: string)
    ensures r != ""
    ensures message.Some? && message.value != "" ==> r == message.value
    ensures message.None? || message.value == "" ==> r == UnknownError
  {
    if message.Some? && message.value != "" then message.value else UnknownError
  }

  const UnknownError := "Erreur inconnue"
}
