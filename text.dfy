/**
 * The two string normalisations the refund tools apply to their arguments:
 * Python's `str.strip()` (no argument: remove leading and trailing
 * whitespace) and `str.upper()`.
 */
module Text {

  /** Python's `str.isspace()` for one code point: the ASCII controls
      TAB..CR and FS..US, SPACE, NEL, NBSP and the Unicode space separators. */
  predicate IsSpace(c: char) {
    var n := c as int;
    || 0x09 <= n <= 0x0D
    || 0x1C <= n <= 0x20
    || n == 0x85 || n == 0xA0 || n == 0x1680
    || 0x2000 <= n <= 0x200A
    || n == 0x2028 || n == 0x2029 || n == 0x202F || n == 0x205F || n == 0x3000
  }

  predicate AllSpace(s: string) {
    forall i :: 0 <= i < |s| ==> IsSpace(s[i])
  }

  /** The result neither starts nor ends with whitespace. */
  predicate Trimmed(s: string) {
    s == [] || (!IsSpace(s[0]) && !IsSpace(s[|s| - 1]))
  }

  /** Upper-casing of one character (ASCII letters only). */
  function UpperChar(c: char): (u: char)
    ensures 'a' <= c <= 'z' ==> u as int == c as int - 32
    ensures !('a' <= c <= 'z') ==> u == c
    ensures !('a' <= u <= 'z')
  {
    if 'a' <= c <= 'z' then (c as int - 32) as char else c
  }

  /** `s.upper()` */
  function Upper(s: string): (r: string)
    ensures |r| == |s|
  {
    seq(|s|, i requires 0 <= i < |s| => UpperChar(s[i]))
  }

  /** Leading whitespace removed: what is left is a suffix of `s`, and
      everything dropped was whitespace. */
  function TrimLeft(s: string): (r: string)
    ensures |r| <= |s| && r == s[|s| - |r|..]
    ensures AllSpace(s[..|s| - |r|])
    ensures r == [] || !IsSpace(r[0])
  {
    if s != [] && IsSpace(s[0]) then
      var r := TrimLeft(s[1..]);
      assert s[..|s| - |r|] == [s[0]] + s[1..][..|s| - 1 - |r|];
      AllSpaceCons(s[0], s[1..][..|s| - 1 - |r|]);
      r
    else s
  }

  /** Trailing whitespace removed: what is left is a prefix of `s`, and
      everything dropped was whitespace. */
  function TrimRight(s: string): (r: string)
    ensures |r| <= |s| && r == s[..|r|]
    ensures AllSpace(s[|r|..])
    ensures r == [] || !IsSpace(r[|r| - 1])
  {
    if s != [] && IsSpace(s[|s| - 1]) then
      var r := TrimRight(s[..|s| - 1]);
      assert s[|r|..] == s[..|s| - 1][|r|..] + [s[|s| - 1]];
      AllSpaceSnoc(s[..|s| - 1][|r|..], s[|s| - 1]);
      r
    else s
  }

  lemma AllSpaceCons(c: char, a: string)
    requires IsSpace(c) && AllSpace(a)
    ensures AllSpace([c] + a)
  {
  }

  lemma AllSpaceSnoc(a: string, c: char)
    requires AllSpace(a) && IsSpace(c)
    ensures AllSpace(a + [c])
  {
  }

  /** `s.strip()`: the result has no whitespace at either end, and it is
      empty exactly when `s` is all whitespace (StripExact below shows it is
      the part of `s` between the padding). */
  function Strip(s: string): (r: string)
    ensures Trimmed(r)
    ensures |r| <= |s|
  {
    var t := TrimLeft(s);
    var r := TrimRight(t);
    assert r != [] ==> r[0] == t[0];
    r
  }

  /** `strip()` gives the empty string exactly for all-whitespace input. */
  lemma StripEmpty(s: string)
    ensures Strip(s) == [] <==> AllSpace(s)
  {
    if AllSpace(s) {
      TrimLeftAllSpace(s);
    }
    if Strip(s) == [] {
      StripEmptyAllSpace(s);
    }
  }

  lemma {:induction false} TrimLeftAllSpace(s: string)
    requires AllSpace(s)
    ensures TrimLeft(s) == []
    decreases |s|
  {
    if s != [] {
      TrimLeftAllSpace(s[1..]);
    }
  }

  lemma StripEmptyAllSpace(s: string)
    requires Strip(s) == []
    ensures AllSpace(s)
  {
    var t := TrimLeft(s);
    assert t[0..] == t;
    assert t == [];
    assert s[..|s|] == s;
  }

  /** `s.strip().upper()`, the normalisation of the loop and parallel variants. */
  function StripUpper(s: string): (r: string)
    ensures |r| <= |s|
    ensures Trimmed(r)
  {
    UpperKeepsTrimmed(Strip(s));
    Upper(Strip(s))
  }

  lemma UpperKeepsTrimmed(s: string)
    requires Trimmed(s)
    ensures Trimmed(Upper(s))
  {
    if s != [] {
      UpperCharIsSpace(s[0]);
      UpperCharIsSpace(s[|s| - 1]);
    }
  }

  lemma {:induction false} TrimLeftPadding(p: string, s: string)
    requires AllSpace(p)
    ensures TrimLeft(p + s) == TrimLeft(s)
    decreases |p|
  {
    if p == [] {
      assert p + s == s;
    } else {
      assert (p + s)[0] == p[0];
      assert (p + s)[1..] == p[1..] + s;
      TrimLeftPadding(p[1..], s);
    }
  }

  lemma {:induction false} TrimRightPadding(s: string, q: string)
    requires AllSpace(q)
    ensures TrimRight(s + q) == TrimRight(s)
    decreases |q|
  {
    if q == [] {
      assert s + q == s;
    } else {
      assert (s + q)[|s + q| - 1] == q[|q| - 1];
      assert (s + q)[..|s + q| - 1] == s + q[..|q| - 1];
      TrimRightPadding(s, q[..|q| - 1]);
    }
  }

  /** Trailing whitespace survives TrimLeft unchanged unless everything is whitespace. */
  lemma {:induction false} TrimLeftAppend(s: string, q: string)
    requires AllSpace(q)
    ensures TrimLeft(s + q) == if AllSpace(s) then [] else TrimLeft(s) + q
    decreases |s|
  {
    if s == [] {
      assert s + q == q;
      TrimLeftAllSpace(q);
    } else if IsSpace(s[0]) {
      assert (s + q)[0] == s[0];
      assert (s + q)[1..] == s[1..] + q;
      TrimLeftAppend(s[1..], q);
      AllSpaceTail(s);
    } else {
      assert (s + q)[0] == s[0];
    }
  }

  lemma AllSpaceTail(s: string)
    requires s != [] && IsSpace(s[0])
    ensures AllSpace(s) == AllSpace(s[1..])
  {
    if AllSpace(s[1..]) {
      forall i | 0 <= i < |s|
        ensures IsSpace(s[i])
      {
        if i > 0 {
          assert s[i] == s[1..][i - 1];
        }
      }
    }
  }

  lemma TrimRightAllSpace(s: string)
    requires AllSpace(s)
    ensures TrimRight(s) == []
  {
  }

  /** Whitespace padded on either side does not change the result of `strip()`. */
  lemma StripPadding(p: string, s: string, q: string)
    requires AllSpace(p) && AllSpace(q)
    ensures Strip(p + s + q) == Strip(s)
  {
    assert p + s + q == p + (s + q);
    TrimLeftPadding(p, s + q);
    if AllSpace(s) {
      StripPaddingBlank(p, s, q);
    } else {
      StripPaddingWord(s, q);
    }
  }

  lemma StripPaddingBlank(p: string, s: string, q: string)
    requires AllSpace(p) && AllSpace(s) && AllSpace(q)
    ensures Strip(p + s + q) == [] && Strip(s) == []
  {
    assert AllSpace(p + s + q);
    TrimLeftAllSpace(p + s + q);
    TrimLeftAllSpace(s);
  }

  lemma StripPaddingWord(s: string, q: string)
    requires !AllSpace(s) && AllSpace(q)
    ensures TrimRight(TrimLeft(s + q)) == Strip(s)
  {
    TrimLeftAppend(s, q);
    TrimRightPadding(TrimLeft(s), q);
  }

  /** `strip()` returns exactly the part between whitespace-only padding
      when that part has no whitespace at its ends. */
  lemma StripExact(p: string, r: string, q: string)
    requires AllSpace(p) && AllSpace(q) && Trimmed(r)
    ensures Strip(p + r + q) == r
  {
    StripPadding(p, r, q);
  }

  /** `strip()` leaves a string without whitespace at its ends unchanged. */
  lemma StripTrimmed(s: string)
    requires Trimmed(s)
    ensures Strip(s) == s
  {
    StripExact([], s, []);
    assert [] + s + [] == s;
  }

  /** Upper-casing is idempotent. */
  lemma UpperIdempotent(s: string)
    ensures Upper(Upper(s)) == Upper(s)
  {
  }

  lemma UpperCharIsSpace(c: char)
    ensures IsSpace(UpperChar(c)) == IsSpace(c)
  {
  }

  lemma {:induction false} UpperTrimLeft(s: string)
    ensures Upper(TrimLeft(s)) == TrimLeft(Upper(s))
    decreases |s|
  {
    if s != [] {
      UpperCharIsSpace(s[0]);
      assert Upper(s)[1..] == Upper(s[1..]);
      UpperTrimLeft(s[1..]);
    }
  }

  lemma {:induction false} UpperTrimRight(s: string)
    ensures Upper(TrimRight(s)) == TrimRight(Upper(s))
    decreases |s|
  {
    if s != [] {
      UpperCharIsSpace(s[|s| - 1]);
      assert Upper(s)[|s| - 1] == UpperChar(s[|s| - 1]);
      assert Upper(s)[..|s| - 1] == Upper(s[..|s| - 1]);
      UpperTrimRight(s[..|s| - 1]);
    }
  }

  /** `strip()` and `upper()` commute, so `s.strip().upper()` sees `s` only
      through `s.upper()`: two strings that differ only in letter case
      normalise to the same string. */
  lemma StripUpperCaseInsensitive(a: string, b: string)
    requires Upper(a) == Upper(b)
    ensures StripUpper(a) == StripUpper(b)
    ensures StripUpper(a) == Strip(Upper(a))
  {
    UpperTrimLeft(a);
    UpperTrimRight(TrimLeft(a));
    UpperTrimLeft(b);
    UpperTrimRight(TrimLeft(b));
  }

  /** Whitespace padding on either side does not change `s.strip().upper()`. */
  lemma StripUpperPadding(p: string, s: string, q: string)
    requires AllSpace(p) && AllSpace(q)
    ensures StripUpper(p + s + q) == StripUpper(s)
  {
    StripPadding(p, s, q);
  }
}
