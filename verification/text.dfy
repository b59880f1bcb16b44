/** JavaScript's `String.prototype.trim` and the "blank" test that the
    composer and the input box apply to a draft (`!content.trim()`). */
module Text {

  /** The characters `trim` strips: ECMAScript WhiteSpace (tab, vertical
      tab, form feed, space, no-break space, the byte-order mark and the
      Unicode space separators) and LineTerminator (line feed, carriage
      return, line and paragraph separators). */
  predicate IsWhitespace(c: char) {
    || c == '\t' || c == '\n' || c == '\U{0B}' || c == '\U{0C}' || c == '\r'
    || c == ' ' || c == '\U{A0}' || c == '\U{1680}'
    || ('\U{2000}' <= c <= '\U{200A}')
    || c == '\U{2028}' || c == '\U{2029}' || c == '\U{202F}' || c == '\U{205F}'
    || c == '\U{3000}' || c == '\U{FEFF}'
  }

  /** A draft that `trim` reduces to the empty string. */
  predicate IsBlank(s: string) {
    forall i :: 0 <= i < |s| ==> IsWhitespace(s[i])
  }

  /** `s` without its leading whitespace: a suffix of `s` that is empty or
      starts with a non-whitespace character. */
  function TrimStart(s: string): (r: string)
    ensures |r| <= |s| && r == s[|s| - |r|..]
    ensures r != [] ==> !IsWhitespace(r[0])
    ensures IsBlank(s[..|s| - |r|])
  {
    if s != [] && IsWhitespace(s[0]) then TrimStart(s[1..]) else s
  }

  /** `s` without its trailing whitespace: a prefix of `s` that is empty or
      ends with a non-whitespace character. */
  function TrimEnd(s: string): (r: string)
    ensures |r| <= |s| && r == s[..|r|]
    ensures r != [] ==> !IsWhitespace(r[|r| - 1])
    ensures IsBlank(s[|r|..])
  {
    if s != [] && IsWhitespace(s[|s| - 1]) then TrimEnd(s[..|s| - 1]) else s
  }

  /** `s.trim()`. */
  function Trim(s: string): string {
    TrimEnd(TrimStart(s))
  }

  /** `trim` yields the empty string exactly when the draft is blank, so the
      guard `!content.trim()` rejects precisely the blank drafts. */
  lemma {:induction false} TrimEmptyIffBlank(s: string)
    ensures Trim(s) == [] <==> IsBlank(s)
  {
    var a := TrimStart(s);
    if Trim(s) == [] {
      // a whole-blank remainder cannot start with a non-whitespace character
      assert IsBlank(a[0..]);
      assert a == [];
      assert s[..|s|] == s;
    }
  }

  /** The trimmed text is a contiguous piece of the original, carries no
      whitespace at either end, and only whitespace was cut away on either
      side. */
  lemma TrimIsTrimmed(s: string)
    ensures exists i, j :: 0 <= i <= j <= |s| && Trim(s) == s[i..j] && IsBlank(s[..i]) && IsBlank(s[j..])
    ensures Trim(s) != [] ==> !IsWhitespace(Trim(s)[0]) && !IsWhitespace(Trim(s)[|Trim(s)| - 1])
  {
    var a := TrimStart(s);
    var k := |s| - |a|;
    var r := Trim(s);
    assert r == a[..|r|];
    assert r == s[k..k + |r|];
    assert s[k + |r|..] == a[|r|..];
    assert IsBlank(s[..k]) && IsBlank(s[k + |r|..]);
    if r != [] {
      assert r[0] == a[0];
    }
  }

  /** Trimming twice changes nothing. */
  lemma {:induction false} TrimIdempotent(s: string)
    ensures Trim(Trim(s)) == Trim(s)
  {
    var r := Trim(s);
    if r != [] {
      assert !IsWhitespace(r[0]);
      assert TrimStart(r) == r;
      assert TrimEnd(r) == r;
    } else {
      assert TrimStart(r) == r;
    }
  }
}
