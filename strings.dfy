/** Python string semantics the core relies on: the code-point order used to
    sort labels, `str.isspace`, `str.strip`, `str.split(sep)` for a one-character
    separator and `str.startswith`. */
module Strings {

  /** Python's `<` on `str`: lexicographic by code point, a proper prefix first. */
  predicate LexLess(a: string, b: string) {
    if |a| == 0 then |b| > 0
    else if |b| == 0 then false
    else a[0] < b[0] || (a[0] == b[0] && LexLess(a[1..], b[1..]))
  }

  lemma {:induction false} LexLessIrreflexive(a: string)
    ensures !LexLess(a, a)
  {
    if |a| > 0 { LexLessIrreflexive(a[1..]); }
  }

  lemma {:induction false} LexLessTransitive(a: string, b: string, c: string)
    requires LexLess(a, b) && LexLess(b, c)
    ensures LexLess(a, c)
  {
    if |a| > 0 && |b| > 0 && |c| > 0 && a[0] == b[0] == c[0] {
      LexLessTransitive(a[1..], b[1..], c[1..]);
    }
  }

  /** Any two different strings are ordered one way, and never both ways. */
  lemma {:induction false} LexLessTotal(a: string, b: string)
    ensures a != b <==> (LexLess(a, b) || LexLess(b, a))
    ensures !(LexLess(a, b) && LexLess(b, a))
  {
    if |a| > 0 && |b| > 0 {
      LexLessTotal(a[1..], b[1..]);
      if a[0] == b[0] && a[1..] == b[1..] {
        assert a == [a[0]] + a[1..] && b == [b[0]] + b[1..];
      }
    } else if |a| == 0 && |b| == 0 {
      assert a == b;
    }
  }

  /** Python's `str.isspace()` for one character (the characters `str.strip()`
      removes when called without arguments). */
  predicate IsSpace(c: char) {
    c == '\t' || c == '\n' || c == '\U{B}' || c == '\U{C}' || c == '\r'
    || ('\U{1C}' <= c <= '\U{1F}') || c == ' ' || c == '\U{85}' || c == '\U{A0}'
    || c == '\U{1680}' || ('\U{2000}' <= c <= '\U{200A}') || c == '\U{2028}' || c == '\U{2029}'
    || c == '\U{202F}' || c == '\U{205F}' || c == '\U{3000}'
  }

  predicate AllSpace(s: string) {
    forall k :: 0 <= k < |s| ==> IsSpace(s[k])
  }

  /** `str.lstrip()`: the longest suffix of `s` that does not start with whitespace. */
  function LStrip(s: string): (r: string)
    ensures |r| <= |s| && r == s[|s| - |r|..]
    ensures AllSpace(s[..|s| - |r|])
    ensures r == [] || !IsSpace(r[0])
  {
    if |s| > 0 && IsSpace(s[0]) then
      var r := LStrip(s[1..]);
      DropLeadingSpace(s, r);
      r
    else s
  }

  /** A suffix of `s[1..]` after whitespace only is a suffix of `s` after
      whitespace only, when `s[0]` is whitespace too. */
  lemma DropLeadingSpace(s: string, r: string)
    requires |s| > 0 && IsSpace(s[0]) && |r| <= |s| - 1
    requires r == s[1..][|s| - 1 - |r|..] && AllSpace(s[1..][..|s| - 1 - |r|])
    ensures r == s[|s| - |r|..] && AllSpace(s[..|s| - |r|])
  {
    var n := |s| - |r|;
    assert s[..n] == [s[0]] + s[1..][..n - 1];
    forall k | 0 <= k < n ensures IsSpace(s[..n][k]) {
      if k > 0 {
        assert s[..n][k] == s[1..][..n - 1][k - 1];
      }
    }
  }

  /** `str.rstrip()`: the longest prefix of `s` that does not end with whitespace. */
  function RStrip(s: string): (r: string)
    ensures |r| <= |s| && r == s[..|r|]
    ensures AllSpace(s[|r|..])
    ensures r == [] || !IsSpace(r[|r| - 1])
  {
    if |s| > 0 && IsSpace(s[|s| - 1]) then
      var r := RStrip(s[..|s| - 1]);
      DropTrailingSpace(s, r);
      r
    else s
  }

  /** A prefix of `s` without its last character, followed by whitespace
      only, is a prefix of `s` followed by whitespace only, when that last
      character is whitespace too. */
  lemma DropTrailingSpace(s: string, r: string)
    requires |s| > 0 && IsSpace(s[|s| - 1]) && |r| <= |s| - 1
    requires r == s[..|s| - 1][..|r|] && AllSpace(s[..|s| - 1][|r|..])
    ensures r == s[..|r|] && AllSpace(s[|r|..])
  {
    var t := s[..|s| - 1];
    assert s[|r|..] == t[|r|..] + [s[|s| - 1]];
    forall k | 0 <= k < |s| - |r| ensures IsSpace(s[|r|..][k]) {
      if k < |t| - |r| {
        assert s[|r|..][k] == t[|r|..][k];
      }
    }
  }

  /** `str.strip()`: `s` without its leading and trailing whitespace. */
  function Strip(s: string): (r: string)
    ensures |r| <= |s|
    ensures r == [] || (!IsSpace(r[0]) && !IsSpace(r[|r| - 1]))
  {
    var l := LStrip(s);
    var r := RStrip(l);
    assert r == [] || r[0] == l[0];
    r
  }

  /** `r` is the slice of `s` at `i`, with only whitespace before and
      after it. */
  predicate SliceAmidSpace(s: string, r: string, i: nat) {
    i + |r| <= |s| && r == s[i..i + |r|] && AllSpace(s[..i]) && AllSpace(s[i + |r|..])
  }

  /** What `Strip` removes is whitespace only, and what it keeps is one
      contiguous slice of `s`. */
  lemma StripIsSlice(s: string)
    ensures exists i :: SliceAmidSpace(s, Strip(s), i)
  {
    var l := LStrip(s);
    var r := RStrip(l);
    StripSlice(s, l, r);
    assert Strip(s) == r;
  }

  /** Cutting whitespace at the front and then at the back leaves one slice
      of the input with only whitespace on either side. */
  lemma StripSlice(s: string, l: string, r: string)
    requires |l| <= |s| && l == s[|s| - |l|..] && AllSpace(s[..|s| - |l|])
    requires |r| <= |l| && r == l[..|r|] && AllSpace(l[|r|..])
    ensures SliceAmidSpace(s, r, |s| - |l|)
  {
    var i := |s| - |l|;
    assert s[i + |r|..] == l[|r|..];
  }

  /** A string strips to the empty string exactly when it is all whitespace. */
  lemma StripBlank(s: string)
    ensures Strip(s) == [] <==> AllSpace(s)
  {
    var l := LStrip(s);
    if l != [] {
      assert RStrip(l) != [] by {
        assert l[0..] == l;
      }
      assert l[0] == s[|s| - |l|];
    } else {
      assert s[..|s|] == s;
    }
  }

  /** `s.startswith(p)`. */
  predicate StartsWith(s: string, p: string) {
    |p| <= |s| && s[..|p|] == p
  }

  /** The pieces joined back with the separator (`sep.join(parts)`). */
  function Join(parts: seq<string>, d: char): string
    requires |parts| >= 1
  {
    if |parts| == 1 then parts[0] else parts[0] + [d] + Join(parts[1..], d)
  }

  /** `s.split(d)` for a one-character separator: the pieces between the
      occurrences of `d`, which joined back with `d` give `s`. */
  function Split(s: string, d: char): (parts: seq<string>)
    ensures |parts| >= 1
    ensures forall k :: 0 <= k < |parts| ==> d !in parts[k]
    ensures Join(parts, d) == s
  {
    if |s| == 0 then [""]
    else
      var rest := Split(s[1..], d);
      if s[0] == d then
        assert [d] + s[1..] == s;
        [""] + rest
      else
        var parts := [[s[0]] + rest[0]] + rest[1..];
        assert parts[1..] == rest[1..];
        assert |rest| > 1 ==> Join(rest, d) == rest[0] + [d] + Join(rest[1..], d);
        assert Join(parts, d) == [s[0]] + Join(rest, d);
        parts
  }

  lemma {:induction false} NoSeparatorOnePiece(s: string, d: char)
    requires d !in s
    ensures Split(s, d) == [s]
  {
    if |s| > 0 {
      NoSeparatorOnePiece(s[1..], d);
      assert [s[0]] + s[1..] == s;
    }
  }

  /** The position of the first `d` in `s`. */
  function FirstIndex(s: string, d: char): (i: nat)
    requires d in s
    ensures i < |s| && s[i] == d && d !in s[..i]
  {
    if s[0] == d then 0 else 1 + FirstIndex(s[1..], d)
  }

  /** The longest prefix of `s` without `d`. */
  function UpTo(s: string, d: char): (r: string)
    ensures |r| <= |s| && r == s[..|r|] && d !in r
    ensures |r| == |s| || s[|r|] == d
  {
    if |s| == 0 || s[0] == d then []
    else
      var u := UpTo(s[1..], d);
      assert [s[0]] + u == s[..|u| + 1];
      [s[0]] + u
  }

  lemma {:induction false} SplitFirstPiece(s: string, d: char)
    ensures Split(s, d)[0] == UpTo(s, d)
  {
    if |s| > 0 && s[0] != d { SplitFirstPiece(s[1..], d); }
  }

  /** `s.split(d)` has a second piece exactly when `d` occurs in `s`, and that
      piece is the text after the first `d` up to the next `d` or the end. */
  lemma {:induction false} SplitSecondPiece(s: string, d: char)
    ensures |Split(s, d)| >= 2 <==> d in s
    ensures d in s ==> Split(s, d)[1] == UpTo(s[FirstIndex(s, d) + 1..], d)
  {
    if d !in s {
      NoSeparatorOnePiece(s, d);
    } else if s[0] == d {
      SplitFirstPiece(s[1..], d);
    } else {
      SplitSecondPiece(s[1..], d);
      assert s[1..][FirstIndex(s[1..], d) + 1..] == s[FirstIndex(s, d) + 1..];
    }
  }
}
