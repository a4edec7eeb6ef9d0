/** String helpers with the meaning Python gives them on `str` values:
    `needle in hay`, `s.strip()`, `s.zfill(w)` and `s.replace(a, b)` for one
    character. Characters are Unicode scalar values, as in Python 3. */
module Text {

  datatype Option<+T> = None | Some(value: T)

  function Min(a: int, b: int): int { if a <= b then a else b }

  function Max(a: int, b: int): int { if a <= b then b else a }

  /** `needle` occurs in `hay` starting at index `i`. */
  ghost predicate OccursAt(hay: string, needle: string, i: int)
  {
    0 <= i && i + |needle| <= |hay| && hay[i..i + |needle|] == needle
  }

  predicate StartsWith(s: string, prefix: string)
  {
    |prefix| <= |s| && s[..|prefix|] == prefix
  }

  /** Python's `needle in hay` on two strings: a substring test. */
  function Contains(hay: string, needle: string): bool
    decreases |hay|
  {
    if StartsWith(hay, needle) then true
    else if |hay| == 0 then false
    else Contains(hay[1..], needle)
  }

  /** `Contains` holds exactly when the needle occurs somewhere in the hay;
      in particular the empty string occurs in every string. */
  lemma {:induction false} ContainsIsSubstring(hay: string, needle: string)
    ensures Contains(hay, needle) <==> exists i :: OccursAt(hay, needle, i)
    decreases |hay|
  {
    if StartsWith(hay, needle) {
      assert OccursAt(hay, needle, 0);
    } else if |hay| > 0 {
      ContainsIsSubstring(hay[1..], needle);
      if Contains(hay[1..], needle) {
        var j :| OccursAt(hay[1..], needle, j);
        assert hay[1..][j..j + |needle|] == hay[j + 1..j + 1 + |needle|];
        assert OccursAt(hay, needle, j + 1);
      }
      if exists i :: OccursAt(hay, needle, i) {
        var i :| OccursAt(hay, needle, i);
        assert i != 0;
        assert hay[1..][i - 1..i - 1 + |needle|] == hay[i..i + |needle|];
        assert OccursAt(hay[1..], needle, i - 1);
      }
    } else {
      assert forall i :: !OccursAt(hay, needle, i);
    }
  }

  /** Python's `str.isspace()` for one character: the Unicode characters of
      bidirectional class WS, B or S, or of general category Zs. */
  predicate IsSpace(c: char)
  {
    || ('\U{0009}' <= c <= '\U{000D}')
    || ('\U{001C}' <= c <= '\U{0020}')
    || c == '\U{0085}' || c == '\U{00A0}' || c == '\U{1680}'
    || ('\U{2000}' <= c <= '\U{200A}')
    || c == '\U{2028}' || c == '\U{2029}' || c == '\U{202F}'
    || c == '\U{205F}' || c == '\U{3000}'
  }

  predicate AllSpace(s: string)
  {
    forall k :: 0 <= k < |s| ==> IsSpace(s[k])
  }

  /** Python's `s.lstrip()`: `s` without its leading whitespace. */
  function StripLeft(s: string): string
  {
    if s != [] && IsSpace(s[0]) then StripLeft(s[1..]) else s
  }

  /** Python's `s.rstrip()`: `s` without its trailing whitespace. */
  function StripRight(s: string): string
  {
    if s != [] && IsSpace(s[|s| - 1]) then StripRight(s[..|s| - 1]) else s
  }

  /** Python's `s.strip()`. */
  function Strip(s: string): string
  {
    StripRight(StripLeft(s))
  }

  /** lstrip drops a whitespace prefix and stops at a non-whitespace
      character. */
  lemma {:induction false} StripLeftIsSuffix(s: string)
    ensures var r := StripLeft(s);
      |r| <= |s| && r == s[|s| - |r|..] && AllSpace(s[..|s| - |r|]) && (r != [] ==> !IsSpace(r[0]))
  {
    if s != [] && IsSpace(s[0]) {
      StripLeftIsSuffix(s[1..]);
      var r := StripLeft(s[1..]);
      assert s[1..][|s| - 1 - |r|..] == s[|s| - |r|..];
      var pre := s[..|s| - |r|];
      var rest := s[1..][..|s| - 1 - |r|];
      assert AllSpace(rest);
      forall k | 0 <= k < |pre| ensures IsSpace(pre[k]) {
        if k == 0 {
          assert pre[0] == s[0];
        } else {
          assert pre[k] == rest[k - 1];
        }
      }
      assert AllSpace(pre);
    }
  }

  /** rstrip drops a whitespace suffix and stops at a non-whitespace
      character. */
  lemma {:induction false} StripRightIsPrefix(s: string)
    ensures var r := StripRight(s);
      |r| <= |s| && r == s[..|r|] && AllSpace(s[|r|..]) && (r != [] ==> !IsSpace(r[|r| - 1]))
  {
    if s != [] && IsSpace(s[|s| - 1]) {
      var t := s[..|s| - 1];
      StripRightIsPrefix(t);
      var r := StripRight(t);
      assert t[..|r|] == s[..|r|];
      var post := s[|r|..];
      var rest := t[|r|..];
      assert AllSpace(rest);
      forall k | 0 <= k < |post| ensures IsSpace(post[k]) {
        if k < |rest| {
          assert post[k] == rest[k];
        } else {
          assert post[k] == s[|s| - 1];
        }
      }
      assert AllSpace(post);
    }
  }

  /** strip removes whitespace, and only whitespace, from both ends: the
      result is a slice of `s` with whitespace on either side of it, and it
      neither opens nor closes with whitespace. */
  lemma StripRemovesWhitespace(s: string)
    ensures var r := Strip(s);
      && (exists i :: 0 <= i <= |s| - |r| && s[i..i + |r|] == r && AllSpace(s[..i]) && AllSpace(s[i + |r|..]))
      && (r != [] ==> !IsSpace(r[0]) && !IsSpace(r[|r| - 1]))
  {
    var t := StripLeft(s);
    var r := StripRight(t);
    StripLeftIsSuffix(s);
    StripRightIsPrefix(t);
    var i := |s| - |t|;
    assert s[i..i + |r|] == r;
    assert s[i + |r|..] == t[|r|..];
  }

  /** `n` copies of '0'. */
  function Zeros(n: nat): (z: string)
    ensures |z| == n && forall k :: 0 <= k < n ==> z[k] == '0'
  {
    if n == 0 then [] else ['0'] + Zeros(n - 1)
  }

  /** The string opens with a sign that zfill keeps in front. */
  predicate Signed(s: string)
  {
    s != [] && (s[0] == '+' || s[0] == '-')
  }

  /** Python's `s.zfill(width)`: `s` left-padded with '0' up to `width`
      characters, the padding going after a leading sign. */
  function ZFill(s: string, width: nat): (r: string)
    ensures |r| == Max(|s|, width)
    ensures |s| >= width ==> r == s
    ensures var pad := |r| - |s|;
      if Signed(s) && pad > 0 then
        r[0] == s[0] && r[pad + 1..] == s[1..] && forall k :: 1 <= k <= pad ==> r[k] == '0'
      else
        r[pad..] == s && forall k :: 0 <= k < pad ==> r[k] == '0'
  {
    if |s| >= width then s
    else if Signed(s) then
      var r := [s[0]] + Zeros(width - |s|) + s[1..];
      assert r[width - |s| + 1..] == s[1..];
      r
    else
      var r := Zeros(width - |s|) + s;
      assert r[width - |s|..] == s;
      r
  }

  /** Python's `s.replace(from, to)` for single characters. */
  function ReplaceChar(s: string, from: char, to: char): (r: string)
    ensures |r| == |s|
    ensures forall k :: 0 <= k < |s| ==> r[k] == (if s[k] == from then to else s[k])
  {
    if s == [] then []
    else [if s[0] == from then to else s[0]] + ReplaceChar(s[1..], from, to)
  }

  /** A string that is empty or has non-whitespace ends is its own strip. */
  lemma StripKeeps(s: string)
    requires s != [] ==> !IsSpace(s[0]) && !IsSpace(s[|s| - 1])
    ensures Strip(s) == s
  {
    assert StripLeft(s) == s;
  }

  /** Stripping is idempotent: a stripped string has nothing left to strip. */
  lemma StripIdempotent(s: string)
    ensures Strip(Strip(s)) == Strip(s)
  {
    StripRemovesWhitespace(s);
    StripKeeps(Strip(s));
  }

  /** A string strips to nothing exactly when it is all whitespace. */
  lemma StripEmptyIffAllSpace(s: string)
    ensures Strip(s) == [] <==> AllSpace(s)
  {
    var t := StripLeft(s);
    var i := |s| - |t|;
    StripLeftIsSuffix(s);
    StripRightIsPrefix(t);
    if Strip(s) == [] {
      assert AllSpace(t) by {
        assert t[0..] == t;
      }
      // a non-empty lstrip result opens with a non-whitespace character
      assert t == [];
      assert s[..i] == s;
    } else {
      assert !IsSpace(s[i]) by {
        assert s[i] == t[0];
      }
    }
  }
}
