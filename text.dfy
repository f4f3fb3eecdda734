/**
 * The string primitives of Python that the two bots rely on: `str.isspace`
 * (shared by `str.strip()` and the regular-expression class `\s`), `strip`,
 * the substring test `in`, ASCII `lower()` and `' '.join(...)`.
 */
module Text {

  /**
   * Python's notion of whitespace for `str` (CPython's Py_UNICODE_ISSPACE):
   * the ASCII controls TAB..CR, the separators 0x1C..0x1F, SPACE, and the
   * Unicode spaces NEL, NBSP, OGHAM SPACE MARK, EN QUAD..HAIR SPACE, LINE and
   * PARAGRAPH SEPARATOR, NARROW NBSP, MEDIUM MATHEMATICAL SPACE and IDEOGRAPHIC SPACE.
   */
  predicate IsSpace(c: char) {
    || ('\t' <= c <= '\r')
    || ('\U{1C}' <= c <= '\U{1F}')
    || c == ' '
    || c == '\U{85}'
    || c == '\U{A0}'
    || c == '\U{1680}'
    || ('\U{2000}' <= c <= '\U{200A}')
    || c == '\U{2028}'
    || c == '\U{2029}'
    || c == '\U{202F}'
    || c == '\U{205F}'
    || c == '\U{3000}'
  }

  /** Every character of `s` is whitespace. */
  predicate AllSpace(s: string) {
    forall i :: 0 <= i < |s| ==> IsSpace(s[i])
  }

  /** `s` neither starts nor ends with whitespace. */
  predicate Trimmed(s: string) {
    s == [] || (!IsSpace(s[0]) && !IsSpace(s[|s| - 1]))
  }

  /** The index of the first non-whitespace character of `s` at or after `i`, or `|s|` if there is none. */
  function SkipSpace(s: string, i: nat): (n: nat)
    requires i <= |s|
    ensures i <= n <= |s|
    ensures forall k :: i <= k < n ==> IsSpace(s[k])
    ensures n < |s| ==> !IsSpace(s[n])
    decreases |s| - i
  {
    if i < |s| && IsSpace(s[i]) then SkipSpace(s, i + 1) else i
  }

  /** The index just past the last non-whitespace character of `s` before `j`, or 0 if there is none. */
  function SkipSpaceBack(s: string, j: nat): (n: nat)
    requires j <= |s|
    ensures n <= j
    ensures forall k :: n <= k < j ==> IsSpace(s[k])
    ensures 0 < n ==> !IsSpace(s[n - 1])
  {
    if 0 < j && IsSpace(s[j - 1]) then SkipSpaceBack(s, j - 1) else j
  }

  /** `s.lstrip()`: drops the longest whitespace prefix. */
  function TrimStart(s: string): (r: string)
    ensures |r| <= |s| && r == s[|s| - |r|..]
    ensures AllSpace(s[..|s| - |r|])
    ensures r == [] || !IsSpace(r[0])
  {
    s[SkipSpace(s, 0)..]
  }

  /** `s.rstrip()`: drops the longest whitespace suffix. */
  function TrimEnd(s: string): (r: string)
    ensures |r| <= |s| && r == s[..|r|]
    ensures AllSpace(s[|r|..])
    ensures r == [] || !IsSpace(r[|r| - 1])
  {
    s[..SkipSpaceBack(s, |s|)]
  }

  /** `lstrip` cuts exactly at the first non-whitespace character: any cut with that property is the one it makes. */
  lemma TrimStartAt(s: string, n: nat)
    requires n <= |s| && AllSpace(s[..n]) && (n < |s| ==> !IsSpace(s[n]))
    ensures TrimStart(s) == s[n..]
  {
    var m := |s| - |TrimStart(s)|;
    assert forall k :: 0 <= k < n ==> IsSpace(s[k]) by {
      forall k | 0 <= k < n ensures IsSpace(s[k]) { assert s[..n][k] == s[k]; }
    }
    assert forall k :: 0 <= k < m ==> IsSpace(s[k]) by {
      forall k | 0 <= k < m ensures IsSpace(s[k]) { assert s[..m][k] == s[k]; }
    }
    assert m < |s| ==> !IsSpace(s[m]) by {
      if m < |s| { assert TrimStart(s)[0] == s[m]; }
    }
  }

  /** `rstrip` cuts exactly after the last non-whitespace character. */
  lemma TrimEndAt(s: string, n: nat)
    requires n <= |s| && AllSpace(s[n..]) && (0 < n ==> !IsSpace(s[n - 1]))
    ensures TrimEnd(s) == s[..n]
  {
    var m := |TrimEnd(s)|;
    assert forall k :: n <= k < |s| ==> IsSpace(s[k]) by {
      forall k | n <= k < |s| ensures IsSpace(s[k]) { assert s[n..][k - n] == s[k]; }
    }
    assert forall k :: m <= k < |s| ==> IsSpace(s[k]) by {
      forall k | m <= k < |s| ensures IsSpace(s[k]) { assert s[m..][k - m] == s[k]; }
    }
    assert 0 < m ==> !IsSpace(s[m - 1]) by {
      if 0 < m { assert TrimEnd(s)[m - 1] == s[m - 1]; }
    }
  }

  /** `s.strip()`: no whitespace is left at either end. */
  function Strip(s: string): (r: string)
    ensures Trimmed(r)
  {
    var t := TrimStart(s);
    var r := TrimEnd(t);
    assert r != [] ==> r[0] == t[0];
    r
  }

  /**
   * `strip` only cuts: its result is a slice of `s` and everything cut away on
   * either side is whitespace.
   */
  lemma StripIsSlice(s: string)
    ensures exists i, j :: 0 <= i <= j <= |s| && Strip(s) == s[i..j] && AllSpace(s[..i]) && AllSpace(s[j..])
  {
    var t := TrimStart(s);
    var r := TrimEnd(t);
    var i := |s| - |t|;
    var j := i + |r|;
    assert Strip(s) == r;
    assert r == s[i..j] by {
      assert t == s[i..];
      assert t[..|r|] == s[i..j];
    }
    assert AllSpace(s[j..]) by {
      assert s[j..] == t[|r|..];
    }
    assert AllSpace(s[..i]);
  }

  /** Stripping a string that has no whitespace at either end leaves it unchanged. */
  lemma StripOfTrimmed(s: string)
    requires Trimmed(s)
    ensures Strip(s) == s
  {
    TrimStartAt(s, 0);
    assert s[0..] == s;
    assert TrimStart(s) == s;
    TrimEndAt(s, |s|);
    assert s[..|s|] == s;
    assert TrimEnd(s) == s;
  }

  /** `strip` is idempotent. */
  lemma StripIdempotent(s: string)
    ensures Strip(Strip(s)) == Strip(s)
  {
    StripOfTrimmed(Strip(s));
  }

  /** Leading whitespace does not change `lstrip`. */
  lemma TrimStartSkipsSpace(pre: string, s: string)
    requires AllSpace(pre)
    ensures TrimStart(pre + s) == TrimStart(s)
  {
    var m := |s| - |TrimStart(s)|;
    var u := pre + s;
    assert u[..|pre| + m] == pre + s[..m];
    assert |pre| + m < |u| ==> u[|pre| + m] == s[m];
    TrimStartAt(u, |pre| + m);
    assert u[|pre| + m..] == s[m..];
  }

  /** Trailing whitespace does not change `rstrip`. */
  lemma TrimEndSkipsSpace(s: string, post: string)
    requires AllSpace(post)
    ensures TrimEnd(s + post) == TrimEnd(s)
  {
    var m := |TrimEnd(s)|;
    var u := s + post;
    assert u[m..] == s[m..] + post;
    assert 0 < m ==> u[m - 1] == s[m - 1];
    TrimEndAt(u, m);
    assert u[..m] == s[..m];
  }

  /** `lstrip` of a padded text that starts with non-whitespace removes exactly the leading padding. */
  lemma TrimStartPadded(pre: string, t: string)
    requires AllSpace(pre) && (t == [] || !IsSpace(t[0]))
    ensures TrimStart(pre + t) == t
  {
    TrimStartSkipsSpace(pre, t);
    TrimStartAt(t, 0);
    assert t[0..] == t;
  }

  /** `rstrip` of a padded text that ends with non-whitespace removes exactly the trailing padding. */
  lemma TrimEndPadded(t: string, post: string)
    requires AllSpace(post) && (t == [] || !IsSpace(t[|t| - 1]))
    ensures TrimEnd(t + post) == t
  {
    TrimEndSkipsSpace(t, post);
    TrimEndAt(t, |t|);
    assert t[..|t|] == t;
  }

  /** Whitespace padding around a trimmed text is exactly what `strip` removes. */
  lemma StripPadded(pre: string, t: string, post: string)
    requires AllSpace(pre) && AllSpace(post) && Trimmed(t)
    ensures Strip(pre + t + post) == t
  {
    var u := pre + t + post;
    if t == [] {
      assert u == pre + post;
      TrimStartSkipsSpace(pre, post);
      TrimStartPadded(post, []);
      assert post + [] == post;
      assert TrimStart(u) == [];
    } else {
      assert u == pre + (t + post);
      TrimStartPadded(pre, t + post);
      TrimEndPadded(t, post);
    }
  }

  /** `p` occurs in `s` starting at index `i`. */
  predicate OccursAt(s: string, p: string, i: nat) {
    i + |p| <= |s| && s[i..i + |p|] == p
  }

  /** Python's `p in s` for strings: `p` occurs as a contiguous slice of `s`. */
  predicate Contains(s: string, p: string) {
    exists i :: 0 <= i <= |s| && OccursAt(s, p, i)
  }

  /** ASCII `lower()` of one character; every other character is left as it is. */
  function LowerChar(c: char): char {
    if 'A' <= c <= 'Z' then (c as int - 'A' as int + 'a' as int) as char else c
  }

  /** `s.lower()`, restricted to ASCII case mapping. */
  function Lower(s: string): (r: string)
    ensures |r| == |s|
    ensures forall i :: 0 <= i < |s| ==> r[i] == LowerChar(s[i])
  {
    seq(|s|, i requires 0 <= i < |s| => LowerChar(s[i]))
  }

  /** `sep.join(parts)`. */
  function Join(parts: seq<string>, sep: string): string
    decreases |parts|
  {
    if |parts| == 0 then ""
    else if |parts| == 1 then parts[0]
    else parts[0] + sep + Join(parts[1..], sep)
  }
}
