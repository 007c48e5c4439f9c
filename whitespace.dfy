/**
 * `trimmingCharacters(in: .whitespacesAndNewlines)` as `deleteTemplate` uses it
 * (APIClient.swift:130): whitespace and newline scalars are removed from both
 * ends of a string, nothing from its middle.
 */
module Whitespace {

  /**
   * Foundation's whitespacesAndNewlines set, as CoreFoundation's table
   * spells it out: the space separators of Unicode 3.2 (general category
   * Zs, which then still held U+200B ZERO WIDTH SPACE), the line and
   * paragraph separators (Zl, Zp), and the controls U+0009 to U+000D and
   * U+0085.
   */
  predicate IsWhitespaceOrNewline(c: char)
  {
    var cp := c as int;
    (0x09 <= cp <= 0x0D) || cp == 0x20 || cp == 0x85 || cp == 0xA0 || cp == 0x1680
    || (0x2000 <= cp <= 0x200B) || cp == 0x2028 || cp == 0x2029 || cp == 0x202F
    || cp == 0x205F || cp == 0x3000
  }

  /** How many characters at the front of `s` are whitespace. */
  function LeadingCount(s: string): (n: nat)
    ensures n <= |s|
    ensures forall k :: 0 <= k < n ==> IsWhitespaceOrNewline(s[k])
    ensures n < |s| ==> !IsWhitespaceOrNewline(s[n])
  {
    if s == [] || !IsWhitespaceOrNewline(s[0]) then 0 else 1 + LeadingCount(s[1..])
  }

  /** How many characters at the back of `s` are whitespace. */
  function TrailingCount(s: string): (n: nat)
    ensures n <= |s|
    ensures forall k :: |s| - n <= k < |s| ==> IsWhitespaceOrNewline(s[k])
    ensures n < |s| ==> !IsWhitespaceOrNewline(s[|s| - 1 - n])
  {
    if s == [] || !IsWhitespaceOrNewline(s[|s| - 1]) then 0
    else 1 + TrailingCount(s[..|s| - 1])
  }

  /**
   * The trimmed string: the slice of `s` left after removing the whitespace
   * at both ends; it neither starts nor ends with whitespace, and it is empty
   * exactly when `s` is all whitespace.
   */
  function Trim(s: string): (r: string)
    ensures LeadingCount(s) + |r| <= |s|
    ensures r == s[LeadingCount(s)..LeadingCount(s) + |r|]
    ensures forall k :: 0 <= k < LeadingCount(s) ==> IsWhitespaceOrNewline(s[k])
    ensures forall k :: LeadingCount(s) + |r| <= k < |s| ==> IsWhitespaceOrNewline(s[k])
    ensures r != [] ==> !IsWhitespaceOrNewline(r[0]) && !IsWhitespaceOrNewline(r[|r| - 1])
    ensures r == [] <==> forall k :: 0 <= k < |s| ==> IsWhitespaceOrNewline(s[k])
  {
    var l := LeadingCount(s);
    if l == |s| then []
    else
      var n := TrailingCount(s);
      s[l..|s| - n]
  }

  /** A string with no whitespace at either end is its own trim. */
  lemma TrimOfTrimmed(s: string)
    requires s != [] ==> !IsWhitespaceOrNewline(s[0]) && !IsWhitespaceOrNewline(s[|s| - 1])
    ensures Trim(s) == s
  {
    if s != [] {
      assert LeadingCount(s) == 0;
      assert TrailingCount(s) == 0;
    }
  }

  /**
   * A zero width space, on its own or around an id, is trimmed away like
   * any other member of the set.
   */
  lemma ZeroWidthSpaceTrimmed()
    ensures Trim("\U{200B}") == []
    ensures Trim("\U{200B}x\U{200B}") == "x"
  {
  }

  /** Trimming twice is trimming once. */
  lemma TrimIdempotent(s: string)
    ensures Trim(Trim(s)) == Trim(s)
  {
    TrimOfTrimmed(Trim(s));
  }

  /**
   * The trim is determined by its characterisation: any non-empty slice whose
   * ends are not whitespace, with only whitespace outside it, is the trim.
   */
  lemma TrimOfSlice(t: string, i: nat, j: nat)
    requires i < j <= |t|
    requires !IsWhitespaceOrNewline(t[i]) && !IsWhitespaceOrNewline(t[j - 1])
    requires forall k :: 0 <= k < i ==> IsWhitespaceOrNewline(t[k])
    requires forall k :: j <= k < |t| ==> IsWhitespaceOrNewline(t[k])
    ensures Trim(t) == t[i..j]
  {
    var r := Trim(t);
    var l := LeadingCount(t);
    assert l == i;
    assert r != [];
    assert t[l + |r| - 1] == r[|r| - 1];
  }

  /** Every character of `s` is whitespace. */
  predicate AllWhitespace(s: string)
  {
    forall k :: 0 <= k < |s| ==> IsWhitespaceOrNewline(s[k])
  }

  /** Whitespace runs concatenate to a whitespace run. */
  lemma AllWhitespaceConcat(a: string, b: string)
    requires AllWhitespace(a) && AllWhitespace(b)
    ensures AllWhitespace(a + b)
  {
    forall k | 0 <= k < |a + b| ensures IsWhitespaceOrNewline((a + b)[k]) {
      if k >= |a| { assert (a + b)[k] == b[k - |a|]; }
    }
  }

  /** A core with no whitespace at its ends, framed by whitespace, is the trim. */
  lemma TrimOfFramed(a: string, r: string, b: string)
    requires AllWhitespace(a) && AllWhitespace(b)
    requires r != [] && !IsWhitespaceOrNewline(r[0]) && !IsWhitespaceOrNewline(r[|r| - 1])
    ensures Trim(a + r + b) == r
  {
    var t := a + r + b;
    var j := |a| + |r|;
    assert t[|a|..j] == r;
    assert t[|a|] == r[0] && t[j - 1] == r[|r| - 1];
    assert forall k :: 0 <= k < |a| ==> t[k] == a[k];
    assert forall k :: j <= k < |t| ==> t[k] == b[k - j];
    TrimOfSlice(t, |a|, j);
  }

  /** Whitespace added around a string does not survive the trim. */
  lemma TrimIgnoresPadding(pre: string, s: string, post: string)
    requires AllWhitespace(pre) && AllWhitespace(post)
    ensures Trim(pre + s + post) == Trim(s)
  {
    var r := Trim(s);
    if r == [] {
      assert AllWhitespace(s);
      TrimOfPaddedWhitespace(pre, s, post);
    } else {
      assert !IsWhitespaceOrNewline(r[0]) && !IsWhitespaceOrNewline(r[|r| - 1]);
      var l := LeadingCount(s);
      TrimSplits(s);
      TrimOfPaddedCore(pre, s[..l], r, s[l + |r|..], post);
    }
  }

  /** A string is its leading whitespace run, then its trim, then its trailing run. */
  lemma TrimSplits(s: string)
    ensures var l := LeadingCount(s); var e := l + |Trim(s)|;
      && s == s[..l] + Trim(s) + s[e..]
      && AllWhitespace(s[..l]) && AllWhitespace(s[e..])
  {
    var l := LeadingCount(s);
    var r := Trim(s);
    var e := l + |r|;
    var front, back := s[..l], s[e..];
    forall k | 0 <= k < |front| ensures IsWhitespaceOrNewline(front[k]) {
      assert front[k] == s[k];
    }
    forall k | 0 <= k < |back| ensures IsWhitespaceOrNewline(back[k]) {
      assert back[k] == s[e + k];
    }
    assert s[..e] == front + r;
    assert s == s[..e] + back;
  }

  /** The empty case of TrimIgnoresPadding: whitespace padded with whitespace trims to nothing. */
  lemma TrimOfPaddedWhitespace(pre: string, s: string, post: string)
    requires AllWhitespace(pre) && AllWhitespace(s) && AllWhitespace(post)
    ensures Trim(pre + s + post) == []
  {
    AllWhitespaceConcat(pre, s);
    AllWhitespaceConcat(pre + s, post);
  }

  /** The non-empty case of TrimIgnoresPadding, on `s` already split into its runs and its trim. */
  lemma TrimOfPaddedCore(pre: string, front: string, r: string, back: string, post: string)
    requires AllWhitespace(pre) && AllWhitespace(front) && AllWhitespace(back) && AllWhitespace(post)
    requires r != [] && !IsWhitespaceOrNewline(r[0]) && !IsWhitespaceOrNewline(r[|r| - 1])
    ensures Trim(pre + (front + r + back) + post) == r
  {
    AllWhitespaceConcat(pre, front);
    AllWhitespaceConcat(back, post);
    Regroup(pre, front, r, back, post);
    TrimOfFramed(pre + front, r, back + post);
  }

  /** Regrouping a five-way concatenation. */
  lemma Regroup(p: string, f: string, r: string, b: string, q: string)
    ensures p + (f + r + b) + q == (p + f) + r + (b + q)
  {
  }
}
