/** The few Python string operations the backend relies on: `str.strip()`,
    the truthiness test `not s.strip()`, `sep.join(parts)` and
    `os.path.basename`. Strings are sequences of Unicode code points. */
module Text {

  /** Python's `str.isspace()` for one code point: the characters `str.strip()`
      removes when it is called without an argument. */
  predicate IsSpace(c: char)
  {
    || ('\U{0009}' <= c <= '\U{000D}')
    || ('\U{001C}' <= c <= '\U{0020}')
    || c == '\U{0085}' || c == '\U{00A0}' || c == '\U{1680}'
    || ('\U{2000}' <= c <= '\U{200A}')
    || c == '\U{2028}' || c == '\U{2029}' || c == '\U{202F}'
    || c == '\U{205F}' || c == '\U{3000}'
  }

  /** Every character is whitespace (this includes the empty string). */
  predicate IsBlank(s: string)
  {
    forall k :: 0 <= k < |s| ==> IsSpace(s[k])
  }

  /** Leading whitespace removed: the result is a suffix of `s`, everything cut
      off is whitespace, and the result does not start with whitespace. */
  function TrimStart(s: string): (r: string)
    ensures |r| <= |s| && r == s[|s| - |r|..]
    ensures forall k :: 0 <= k < |s| - |r| ==> IsSpace(s[k])
    ensures r != [] ==> !IsSpace(r[0])
  {
    if s != [] && IsSpace(s[0]) then
      var r := TrimStart(s[1..]);
      assert forall k :: 1 <= k < |s| - |r| ==> s[k] == s[1..][k - 1];
      r
    else s
  }

  /** Trailing whitespace removed: the result is a prefix of `s`, everything cut
      off is whitespace, and the result does not end with whitespace. */
  function TrimEnd(s: string): (r: string)
    ensures |r| <= |s| && r == s[..|r|]
    ensures forall k :: |r| <= k < |s| ==> IsSpace(s[k])
    ensures r != [] ==> !IsSpace(r[|r| - 1])
  {
    if s != [] && IsSpace(s[|s| - 1]) then
      var t := s[..|s| - 1];
      var r := TrimEnd(t);
      assert forall k :: |r| <= k < |t| ==> s[k] == t[k];
      r
    else s
  }

  /** Python's `s.strip()`. */
  function Strip(s: string): string
  {
    TrimEnd(TrimStart(s))
  }

  /** A run of whitespace characters is a blank slice. */
  lemma BlankSlice(s: string, i: nat, j: nat)
    requires i <= j <= |s|
    requires forall k :: i <= k < j ==> IsSpace(s[k])
    ensures IsBlank(s[i..j])
  {
    assert forall k :: 0 <= k < j - i ==> s[i..j][k] == s[i + k];
  }

  /** What `TrimStart` cuts off is a blank prefix. */
  lemma TrimStartCut(s: string)
    ensures IsBlank(s[..|s| - |TrimStart(s)|])
  {
    var n := |s| - |TrimStart(s)|;
    BlankSlice(s, 0, n);
    assert s[..n] == s[0..n];
  }

  /** What `TrimEnd` cuts off is a blank suffix. */
  lemma TrimEndCut(s: string)
    ensures IsBlank(s[|TrimEnd(s)|..])
  {
    var n := |TrimEnd(s)|;
    BlankSlice(s, n, |s|);
    assert s[n..] == s[n..|s|];
  }

  /** Cutting a blank prefix off `s` and a blank suffix off the rest leaves
      a slice of `s` with only whitespace outside it. */
  lemma TrimmedSlice(s: string, t: string, r: string)
    requires |t| <= |s| && t == s[|s| - |t|..] && IsBlank(s[..|s| - |t|])
    requires |r| <= |t| && r == t[..|r|] && IsBlank(t[|r|..])
    ensures var i := |s| - |t|;
            r == s[i..i + |r|] && IsBlank(s[..i]) && IsBlank(s[i + |r|..])
            && (r != [] ==> r[0] == t[0])
  {
    var i := |s| - |t|;
    assert t[|r|..] == s[i + |r|..];
  }

  /** `s.strip()` is some slice `s[i..j]` with only whitespace outside it and
      no whitespace at either end of it. */
  lemma StripIsTrimmedSlice(s: string)
    ensures exists i, j :: 0 <= i <= j <= |s| && Strip(s) == s[i..j]
                           && IsBlank(s[..i]) && IsBlank(s[j..])
    ensures Strip(s) != [] ==> !IsSpace(Strip(s)[0]) && !IsSpace(Strip(s)[|Strip(s)| - 1])
  {
    var t := TrimStart(s);
    var r := TrimEnd(t);
    TrimStartCut(s);
    TrimEndCut(t);
    TrimmedSlice(s, t, r);
    var i := |s| - |t|;
    var j := i + |r|;
    assert 0 <= i <= j <= |s| && r == s[i..j] && IsBlank(s[..i]) && IsBlank(s[j..]);
  }

  /** The test `not s.strip()` holds exactly when `s` is all whitespace. */
  lemma StripEmptyIffBlank(s: string)
    ensures Strip(s) == [] <==> IsBlank(s)
  {
    var t := TrimStart(s);
    var i := |s| - |t|;
    if Strip(s) == [] {
      assert t == [];
    } else {
      assert t != [] && Strip(s)[0] == t[0];
      assert !IsSpace(s[i]);
    }
  }

  /** Python's `sep.join(parts)`. */
  function Join(sep: string, parts: seq<string>): string
  {
    if |parts| == 0 then ""
    else if |parts| == 1 then parts[0]
    else parts[0] + sep + Join(sep, parts[1..])
  }

  lemma BlankConcat(a: string, b: string)
    ensures IsBlank(a + b) <==> IsBlank(a) && IsBlank(b)
  {
    if IsBlank(a + b) {
      assert forall k :: 0 <= k < |a| ==> a[k] == (a + b)[k];
      assert forall k :: 0 <= k < |b| ==> b[k] == (a + b)[|a| + k];
    }
  }

  /** Joining with a whitespace separator gives a blank string exactly when
      every part is blank; in particular joining no parts gives "". */
  lemma {:induction false} JoinBlankIffPartsBlank(sep: string, parts: seq<string>)
    requires IsBlank(sep)
    ensures IsBlank(Join(sep, parts)) <==> forall i :: 0 <= i < |parts| ==> IsBlank(parts[i])
  {
    if |parts| > 1 {
      JoinBlankIffPartsBlank(sep, parts[1..]);
      BlankConcat(parts[0], sep);
      BlankConcat(parts[0] + sep, Join(sep, parts[1..]));
      assert forall i :: 1 <= i < |parts| ==> parts[i] == parts[1..][i - 1];
    }
  }

  /** `os.path.basename(p)`: what follows the last '/' (all of `p` if there
      is none). */
  function Basename(p: string): (r: string)
    ensures '/' !in r
    ensures |r| <= |p| && r == p[|p| - |r|..]
    ensures |r| < |p| ==> p[|p| - |r| - 1] == '/'
  {
    if p == [] then []
    else if p[|p| - 1] == '/' then []
    else Basename(p[..|p| - 1]) + [p[|p| - 1]]
  }
}
