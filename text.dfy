/**
 * The string operations the message router relies on: .NET's `String.Trim()`
 * (which strips every character `Char.IsWhiteSpace` accepts from both ends)
 * and the case-insensitive comparison of a payload with a command word.
 */
module Text {

  /** The characters .NET's `Char.IsWhiteSpace` accepts. */
  predicate IsWhiteSpace(c: char) {
    ('\U{9}' <= c <= '\U{D}') || c == '\U{20}' || c == '\U{85}' || c == '\U{A0}'
    || c == '\U{1680}' || ('\U{2000}' <= c <= '\U{200A}') || c == '\U{2028}'
    || c == '\U{2029}' || c == '\U{202F}' || c == '\U{205F}' || c == '\U{3000}'
  }

  ghost predicate AllWhiteSpace(s: string) {
    forall i :: 0 <= i < |s| ==> IsWhiteSpace(s[i])
  }

  /** Number of whitespace characters at the front of `s`. */
  function LeadingWhiteSpace(s: string): (n: nat)
    ensures n <= |s|
    ensures AllWhiteSpace(s[..n])
    ensures n < |s| ==> !IsWhiteSpace(s[n])
  {
    if |s| > 0 && IsWhiteSpace(s[0]) then
      var m := LeadingWhiteSpace(s[1..]);
      assert s[1..][..m] == s[1..m + 1];
      1 + m
    else 0
  }

  /** Number of whitespace characters at the back of `s`. */
  function TrailingWhiteSpace(s: string): (n: nat)
    ensures n <= |s|
    ensures AllWhiteSpace(s[|s| - n..])
    ensures n < |s| ==> !IsWhiteSpace(s[|s| - n - 1])
  {
    if |s| > 0 && IsWhiteSpace(s[|s| - 1]) then
      var m := TrailingWhiteSpace(s[..|s| - 1]);
      assert s[..|s| - 1][|s| - 1 - m..] == s[|s| - 1 - m..|s| - 1];
      1 + m
    else 0
  }

  /**
   * `String.Trim()`: the longest slice of `s` that neither starts nor ends
   * with whitespace, obtained by cutting only whitespace from both ends.
   */
  function Trim(s: string): (r: string)
    ensures |r| <= |s|
    ensures r == [] || (!IsWhiteSpace(r[0]) && !IsWhiteSpace(r[|r| - 1]))
    ensures exists i :: 0 <= i <= |s| - |r| && s[i..i + |r|] == r
                        && AllWhiteSpace(s[..i]) && AllWhiteSpace(s[i + |r|..])
  {
    var a := LeadingWhiteSpace(s);
    var rest := s[a..];
    var b := TrailingWhiteSpace(rest);
    var r := rest[..|rest| - b];
    assert s[a..a + |r|] == r;
    assert s[a + |r|..] == rest[|rest| - b..];
    assert AllWhiteSpace(s[..a]) && AllWhiteSpace(s[a + |r|..]);
    assert r != [] ==> r[0] == s[a] && r[|r| - 1] == rest[|rest| - b - 1];
    r
  }

  /** A string that neither starts nor ends with whitespace is its own trim. */
  lemma {:induction false} TrimOfTrimmed(s: string)
    requires s == [] || (!IsWhiteSpace(s[0]) && !IsWhiteSpace(s[|s| - 1]))
    ensures Trim(s) == s
  {
    assert LeadingWhiteSpace(s) == 0;
    assert s[0..] == s;
    assert TrailingWhiteSpace(s) == 0;
  }

  /** Trimming twice is trimming once. */
  lemma TrimIdempotent(s: string)
    ensures Trim(Trim(s)) == Trim(s)
  {
    TrimOfTrimmed(Trim(s));
  }

  /**
   * Case folding of one character, as far as the comparison with the
   * ASCII command words needs it: ASCII upper-case letters are mapped to
   * lower case, every other character to itself.
   */
  function FoldCase(c: char): (d: char)
    ensures !('A' <= d <= 'Z')
  {
    if 'A' <= c <= 'Z' then (c as int - 'A' as int + 'a' as int) as char else c
  }

  /** `a.Equals(b, StringComparison.InvariantCultureIgnoreCase)` for the command words. */
  function EqualsIgnoreCase(a: string, b: string): (r: bool)
    ensures r <==> |a| == |b| && forall i :: 0 <= i < |a| ==> FoldCase(a[i]) == FoldCase(b[i])
  {
    if |a| != |b| then false
    else if a == [] then true
    else
      var tail := EqualsIgnoreCase(a[1..], b[1..]);
      assert forall i :: 1 <= i < |a| ==> a[1..][i - 1] == a[i] && b[1..][i - 1] == b[i];
      FoldCase(a[0]) == FoldCase(b[0]) && tail
  }

  /** Every capitalisation of "read" is accepted as the command word. */
  lemma ReadAnyCase(s: string)
    requires |s| == 4
    requires s[0] in "rR" && s[1] in "eE" && s[2] in "aA" && s[3] in "dD"
    ensures EqualsIgnoreCase(s, "read")
  {
  }

  /** Two strings that compare equal ignoring case fold to the same characters both ways round. */
  lemma EqualsIgnoreCaseSymmetric(a: string, b: string)
    ensures EqualsIgnoreCase(a, b) == EqualsIgnoreCase(b, a)
  {
  }
}
