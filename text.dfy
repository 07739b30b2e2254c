/**
 * Python's `str.strip()` with no argument, as `OutputCapture.compare` applies
 * it to both the expected and the captured text before comparing them.
 */
module Text {

  /** Python 3's `str.isspace()` for one character: the characters `strip()` removes. */
  predicate IsSpace(c: char) {
    var n := c as int;
    (0x09 <= n <= 0x0D) || (0x1C <= n <= 0x20) || n == 0x85 || n == 0xA0 ||
    n == 0x1680 || (0x2000 <= n <= 0x200A) || n == 0x2028 || n == 0x2029 ||
    n == 0x202F || n == 0x205F || n == 0x3000
  }

  /**
   * Among ASCII characters, `IsSpace` holds exactly for space, tab, newline,
   * carriage return, vertical tab, form feed and the separators U+001C-U+001F.
   */
  lemma AsciiSpace(c: char)
    requires c as int < 0x80
    ensures IsSpace(c) <==> c in " \t\n\r\U{000B}\U{000C}\U{001C}\U{001D}\U{001E}\U{001F}"
  {
  }

  /** Every character of `s` is whitespace (vacuously so for the empty string). */
  predicate AllSpace(s: string) {
    forall k :: 0 <= k < |s| ==> IsSpace(s[k])
  }

  /** Neither end of `s` is whitespace: `s` is already stripped. */
  predicate Trimmed(s: string) {
    s == [] || (!IsSpace(s[0]) && !IsSpace(s[|s| - 1]))
  }

  /** `r` sits in `s` at index `i`, with only whitespace before and after it. */
  predicate PaddedAt(s: string, i: int, r: string) {
    0 <= i <= |s| - |r| && AllSpace(s[..i]) && s[i..i + |r|] == r && AllSpace(s[i + |r|..])
  }

  /** `s` without its leading and trailing whitespace; neither end of the result is whitespace. */
  function Strip(s: string): (r: string)
    ensures |r| <= |s|
    ensures Trimmed(r)
    decreases |s|
  {
    if s != [] && IsSpace(s[0]) then Strip(s[1..])
    else if s != [] && IsSpace(s[|s| - 1]) then Strip(s[..|s| - 1])
    else s
  }

  /** A whitespace character in front keeps a padded text padded. */
  lemma PaddedCons(s: string, i: int, r: string)
    requires s != [] && IsSpace(s[0]) && PaddedAt(s[1..], i, r)
    ensures PaddedAt(s, i + 1, r)
  {
    assert s[..i + 1] == [s[0]] + s[1..][..i];
    assert s[i + 1..i + 1 + |r|] == s[1..][i..i + |r|];
    assert s[i + 1 + |r|..] == s[1..][i + |r|..];
  }

  /** A whitespace character at the end keeps a padded text padded. */
  lemma PaddedSnoc(s: string, i: int, r: string)
    requires s != [] && IsSpace(s[|s| - 1]) && PaddedAt(s[..|s| - 1], i, r)
    ensures PaddedAt(s, i, r)
  {
    var init := s[..|s| - 1];
    assert s[..i] == init[..i];
    assert s[i..i + |r|] == init[i..i + |r|];
    assert s[i + |r|..] == init[i + |r|..] + [s[|s| - 1]];
  }

  /**
   * What `Strip` removes is whitespace only: its result sits in `s` between
   * an all-whitespace prefix and an all-whitespace suffix.
   */
  lemma {:induction false} StripIsPadded(s: string)
    ensures exists i :: PaddedAt(s, i, Strip(s))
    decreases |s|
  {
    if s != [] && IsSpace(s[0]) {
      StripIsPadded(s[1..]);
      var i :| PaddedAt(s[1..], i, Strip(s[1..]));
      PaddedCons(s, i, Strip(s[1..]));
      assert Strip(s) == Strip(s[1..]);
      assert PaddedAt(s, i + 1, Strip(s));
    } else if s != [] && IsSpace(s[|s| - 1]) {
      StripIsPadded(s[..|s| - 1]);
      var i :| PaddedAt(s[..|s| - 1], i, Strip(s[..|s| - 1]));
      PaddedSnoc(s, i, Strip(s[..|s| - 1]));
      assert Strip(s) == Strip(s[..|s| - 1]);
      assert PaddedAt(s, i, Strip(s));
    } else {
      assert Strip(s) == s;
      assert PaddedAt(s, 0, Strip(s));
    }
  }

  /** Stripping a trimmed text padded with whitespace on both sides gives back that text. */
  lemma {:induction false} StripPadded(a: string, m: string, b: string)
    requires AllSpace(a) && AllSpace(b) && Trimmed(m)
    ensures Strip(a + m + b) == m
    decreases |a| + |b|
  {
    var s := a + m + b;
    if a != [] {
      assert s[0] == a[0];
      assert s[1..] == a[1..] + m + b;
      StripPadded(a[1..], m, b);
    } else if b != [] {
      assert s[|s| - 1] == b[|b| - 1];
      assert s[..|s| - 1] == a + m + b[..|b| - 1];
      if m == [] {
        assert s[0] == b[0];
        assert s[1..] == a + m + b[1..];
        StripPadded(a, m, b[1..]);
      } else {
        assert s[0] == m[0];
        StripPadded(a, m, b[..|b| - 1]);
      }
    } else {
      assert s == m;
    }
  }

  /** Whitespace followed by whitespace is whitespace. */
  lemma AllSpaceAppend(x: string, y: string)
    requires AllSpace(x) && AllSpace(y)
    ensures AllSpace(x + y)
  {
    forall k | 0 <= k < |x + y| ensures IsSpace((x + y)[k]) {
      if k >= |x| { assert (x + y)[k] == y[k - |x|]; }
    }
  }

  /** Stripping is idempotent. */
  lemma StripIdempotent(s: string)
    ensures Strip(Strip(s)) == Strip(s)
  {
    var r := Strip(s);
    StripPadded([], r, []);
    assert [] + r + [] == r;
  }

  /** Re-bracketing a five-part concatenation. */
  lemma Regroup(a: string, x: string, r: string, y: string, b: string)
    ensures a + (x + r + y) + b == (a + x) + r + (y + b)
  {
  }

  /** Extra whitespace around a text does not change what it strips to. */
  lemma StripIgnoresPadding(a: string, s: string, b: string)
    requires AllSpace(a) && AllSpace(b)
    ensures Strip(a + s + b) == Strip(s)
  {
    var r := Strip(s);
    StripIsPadded(s);
    var i :| PaddedAt(s, i, r);
    var pre, post := a + s[..i], s[i + |r|..] + b;
    AllSpaceAppend(a, s[..i]);
    AllSpaceAppend(s[i + |r|..], b);
    assert s == s[..i] + r + s[i + |r|..];
    Regroup(a, s[..i], r, s[i + |r|..], b);
    StripPadded(pre, r, post);
  }

  /** A text strips to the empty string exactly when it is all whitespace. */
  lemma StripEmptyIffAllSpace(s: string)
    ensures Strip(s) == [] <==> AllSpace(s)
  {
    if AllSpace(s) {
      StripPadded(s, [], []);
      assert s + [] + [] == s;
    }
    if Strip(s) == [] {
      StripIsPadded(s);
      var i :| PaddedAt(s, i, []);
      AllSpaceAppend(s[..i], s[i..]);
      assert s[..i] + s[i..] == s;
    }
  }
}
