/** JavaScript's white-space class (`\s` in a regular expression) and `String.prototype.trim`. */
module Text {

  /** The WhiteSpace and LineTerminator code points of ECMAScript, which both `\s` and `trim` use. */
  predicate IsSpace(c: char) {
    || c == '\t' || c == '\n' || c == '\U{000B}' || c == '\U{000C}' || c == '\r' || c == ' '
    || c == '\U{00A0}' || c == '\U{1680}' || ('\U{2000}' <= c <= '\U{200A}')
    || c == '\U{2028}' || c == '\U{2029}' || c == '\U{202F}' || c == '\U{205F}'
    || c == '\U{3000}' || c == '\U{FEFF}'
  }

  ghost predicate AllSpace(s: string) {
    forall i :: 0 <= i < |s| ==> IsSpace(s[i])
  }

  /** Length of the run of white space at the start of `s`. */
  function LeadingSpaces(s: string): (k: nat)
    ensures k <= |s|
    ensures forall i :: 0 <= i < k ==> IsSpace(s[i])
    ensures k < |s| ==> !IsSpace(s[k])
  {
    if s == [] || !IsSpace(s[0]) then 0 else 1 + LeadingSpaces(s[1..])
  }

  /** Length of the run of white space at the end of `s`. */
  function TrailingSpaces(s: string): (k: nat)
    ensures k <= |s|
    ensures forall i :: |s| - k <= i < |s| ==> IsSpace(s[i])
    ensures k < |s| ==> !IsSpace(s[|s| - 1 - k])
  {
    if s == [] || !IsSpace(s[|s| - 1]) then 0 else 1 + TrailingSpaces(s[..|s| - 1])
  }

  /** `s.trim()`: `s` without its leading and trailing white space. */
  function Trim(s: string): (r: string)
    ensures |r| <= |s|
    ensures r != [] ==> !IsSpace(r[0]) && !IsSpace(r[|r| - 1])
    ensures exists i :: 0 <= i <= |s| - |r| && r == s[i..i + |r|]
                     && AllSpace(s[..i]) && AllSpace(s[i + |r|..])
  {
    var a := LeadingSpaces(s);
    var b := TrailingSpaces(s[a..]);
    TrimEnds(s, a, b);
    TrimCuts(s, a, b);
    s[a..|s| - b]
  }

  /** What `Trim` keeps starts and ends with a character that is not white space. */
  lemma TrimEnds(s: string, a: nat, b: nat)
    requires a == LeadingSpaces(s) && b == TrailingSpaces(s[a..])
    ensures a <= |s| - b
    ensures var r := s[a..|s| - b]; r != [] ==> !IsSpace(r[0]) && !IsSpace(r[|r| - 1])
  {
    var t := s[a..];
    if a < |s| - b {
      assert s[a..|s| - b][0] == s[a];
      assert s[a..|s| - b][|s| - b - a - 1] == t[|t| - 1 - b];
    }
  }

  /** What `Trim` drops is white space on both sides of what it keeps. */
  lemma TrimCuts(s: string, a: nat, b: nat)
    requires a == LeadingSpaces(s) && b == TrailingSpaces(s[a..])
    ensures a <= |s| - b
    ensures var r := s[a..|s| - b];
            exists i :: 0 <= i <= |s| - |r| && r == s[i..i + |r|] && AllSpace(s[..i]) && AllSpace(s[i + |r|..])
  {
    LeadingCut(s, a);
    TrailingCut(s, a, b);
    var r := s[a..|s| - b];
    assert a + |r| == |s| - b;
    assert 0 <= a <= |s| - |r| && r == s[a..a + |r|] && AllSpace(s[..a]) && AllSpace(s[a + |r|..]);
  }

  lemma LeadingCut(s: string, a: nat)
    requires a == LeadingSpaces(s)
    ensures AllSpace(s[..a])
  {
    forall i | 0 <= i < a ensures IsSpace(s[..a][i]) {
      assert s[..a][i] == s[i];
    }
  }

  lemma TrailingCut(s: string, a: nat, b: nat)
    requires a <= |s| && b == TrailingSpaces(s[a..])
    ensures AllSpace(s[|s| - b..])
  {
    var t, u := s[a..], s[|s| - b..];
    forall j | 0 <= j < |u| ensures IsSpace(u[j]) {
      assert u[j] == t[|t| - b + j];
    }
  }

  /**
   * `s.length`: JavaScript counts UTF-16 code units, so a character beyond U+FFFF
   * (written as a surrogate pair) counts twice.
   */
  function Utf16Length(s: string): (n: nat)
    ensures |s| <= n <= 2 * |s|
    ensures n == |s| <==> forall i :: 0 <= i < |s| ==> s[i] as int <= 0xFFFF
  {
    if s == [] then 0 else (if s[0] as int > 0xFFFF then 2 else 1) + Utf16Length(s[1..])
  }

  /** Only a string made of white space trims to the empty string. */
  lemma TrimEmptyIffAllSpace(s: string)
    ensures Trim(s) == "" <==> AllSpace(s)
  {
    var r := Trim(s);
    var i :| 0 <= i <= |s| - |r| && r == s[i..i + |r|] && AllSpace(s[..i]) && AllSpace(s[i + |r|..]);
    if r == "" {
      forall j | 0 <= j < |s| ensures IsSpace(s[j]) {
        if j < i { assert s[j] == s[..i][j]; } else { assert s[j] == s[i..][j - i]; }
      }
    } else {
      assert s[i] == r[0];
    }
  }

  /** Trimming twice is trimming once. */
  lemma TrimIdempotent(s: string)
    ensures Trim(Trim(s)) == Trim(s)
  {
    var r := Trim(s);
    var t := Trim(r);
    var i :| 0 <= i <= |r| - |t| && t == r[i..i + |t|] && AllSpace(r[..i]) && AllSpace(r[i + |t|..]);
  }
}
