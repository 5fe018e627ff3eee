/** String operations the feeder relies on from Python's `str`: the `in`
    substring test, `strip()`, `startswith` and the decimal rendering of an
    integer inside an f-string. */
module Text {

  /** `m` occurs in `s` starting at index `i`. */
  predicate OccursAt(s: string, m: string, i: nat) {
    i + |m| <= |s| && s[i..i + |m|] == m
  }

  /** Python's `m in s` for strings: a case-sensitive substring test. */
  predicate Contains(s: string, m: string) {
    exists i: nat | i <= |s| :: OccursAt(s, m, i)
  }

  /** Every character of a contained string is a character of the container. */
  lemma ContainedCharsOccur(s: string, m: string, c: char)
    requires Contains(s, m) && c in m
    ensures c in s
  {
    var i: nat :| i <= |s| && OccursAt(s, m, i);
    var j :| 0 <= j < |m| && m[j] == c;
    assert s[i..i + |m|][j] == s[i + j];
  }

  /** An occurrence in `s` is also an occurrence in `s + t`, shifted by nothing. */
  lemma ContainsLeft(s: string, t: string, m: string)
    requires Contains(s, m)
    ensures Contains(s + t, m)
  {
    var i: nat :| i <= |s| && OccursAt(s, m, i);
    assert (s + t)[i..i + |m|] == s[i..i + |m|];
    assert OccursAt(s + t, m, i);
  }

  /** An occurrence in `t` is also an occurrence in `s + t`, shifted by `|s|`. */
  lemma ContainsRight(s: string, t: string, m: string)
    requires Contains(t, m)
    ensures Contains(s + t, m)
  {
    var j: nat :| j <= |t| && OccursAt(t, m, j);
    assert (s + t)[|s| + j..|s| + j + |m|] == t[j..j + |m|];
    assert OccursAt(s + t, m, |s| + j);
  }

  /** An occurrence in `s + t` lies in `s`, lies in `t`, or covers both
      `s[|s| - 1]` and `t[0]`. */
  lemma ContainsSplit(s: string, t: string, m: string) returns (i: nat)
    requires Contains(s + t, m)
    ensures OccursAt(s + t, m, i)
    ensures Contains(s, m) || Contains(t, m) || (i < |s| < i + |m| && s[|s| - 1] in m && t[0] in m)
  {
    i :| i <= |s + t| && OccursAt(s + t, m, i);
    if i + |m| <= |s| {
      assert (s + t)[i..i + |m|] == s[i..i + |m|];
      assert OccursAt(s, m, i);
    } else if i >= |s| {
      assert (s + t)[i..i + |m|] == t[i - |s|..i - |s| + |m|];
      assert OccursAt(t, m, i - |s|);
    } else {
      assert m[|s| - i] == (s + t)[|s|] == t[0];
      assert m[|s| - 1 - i] == (s + t)[|s| - 1] == s[|s| - 1];
    }
  }

  /** Appending text whose first character is absent from `m` cannot create an
      occurrence of `m` across the seam. */
  lemma AppendUnmatched(s: string, t: string, m: string)
    requires t != [] && t[0] !in m
    ensures Contains(s + t, m) <==> Contains(s, m) || Contains(t, m)
  {
    if Contains(s + t, m) {
      var i := ContainsSplit(s, t, m);
    }
    if Contains(s, m) {
      ContainsLeft(s, t, m);
    }
    if Contains(t, m) {
      ContainsRight(s, t, m);
    }
  }

  /** Prepending text whose last character is absent from `m` cannot create an
      occurrence of `m` across the seam. */
  lemma PrependUnmatched(p: string, s: string, m: string)
    requires p != [] && p[|p| - 1] !in m
    ensures Contains(p + s, m) <==> Contains(p, m) || Contains(s, m)
  {
    if Contains(p + s, m) {
      var i := ContainsSplit(p, s, m);
    }
    if Contains(p, m) {
      ContainsLeft(p, s, m);
    }
    if Contains(s, m) {
      ContainsRight(p, s, m);
    }
  }

  /** Prepending one character that `m` does not start with cannot create an
      occurrence of a non-empty `m`. */
  lemma PrependNonStarter(c: char, s: string, m: string)
    requires m != [] && m[0] != c
    ensures Contains([c] + s, m) <==> Contains(s, m)
  {
    if Contains([c] + s, m) {
      var i: nat :| i <= |[c] + s| && OccursAt([c] + s, m, i);
      assert i != 0 by {
        assert ([c] + s)[i..i + |m|][0] == ([c] + s)[i];
      }
      assert ([c] + s)[i..i + |m|] == s[i - 1..i - 1 + |m|];
      assert OccursAt(s, m, i - 1);
    }
    if Contains(s, m) {
      ContainsRight([c], s, m);
    }
  }

  /** The characters Python's `str.isspace()` accepts, which `str.strip()` removes. */
  predicate IsSpace(c: char) {
    var n := c as int;
    9 <= n <= 13 || 28 <= n <= 32 || n == 0x85 || n == 0xA0 || n == 0x1680
    || 0x2000 <= n <= 0x200A || n == 0x2028 || n == 0x2029 || n == 0x202F
    || n == 0x205F || n == 0x3000
  }

  predicate AllSpace(s: string) {
    forall k :: 0 <= k < |s| ==> IsSpace(s[k])
  }

  /** `s` without its leading whitespace (Python's `lstrip()`). */
  function TrimStart(s: string): string {
    if s != [] && IsSpace(s[0]) then TrimStart(s[1..]) else s
  }

  /** `s` without its trailing whitespace (Python's `rstrip()`). */
  function TrimEnd(s: string): string {
    if s != [] && IsSpace(s[|s| - 1]) then TrimEnd(s[..|s| - 1]) else s
  }

  /** Python's `s.strip()`. */
  function Strip(s: string): string {
    TrimEnd(TrimStart(s))
  }

  /** `TrimStart` removes a whitespace prefix and stops at the first other character. */
  lemma {:induction false} TrimStartShape(s: string)
    ensures var r := TrimStart(s);
            && |r| <= |s| && r == s[|s| - |r|..]
            && AllSpace(s[..|s| - |r|])
            && (r != [] ==> !IsSpace(r[0]))
  {
    if s != [] && IsSpace(s[0]) {
      TrimStartShape(s[1..]);
      var r := TrimStart(s);
      assert s[..|s| - |r|] == [s[0]] + s[1..][..|s| - 1 - |r|];
    }
  }

  /** `TrimEnd` removes a whitespace suffix and stops at the last other character. */
  lemma {:induction false} TrimEndShape(s: string)
    ensures var r := TrimEnd(s);
            && |r| <= |s| && r == s[..|r|]
            && AllSpace(s[|r|..])
            && (r != [] ==> !IsSpace(r[|r| - 1]))
  {
    if s != [] && IsSpace(s[|s| - 1]) {
      var s' := s[..|s| - 1];
      TrimEndShape(s');
      var r := TrimEnd(s);
      assert s[|r|..] == s'[|r|..] + [s[|s| - 1]];
    }
  }

  /** What `strip()` returns sits in `s` with only whitespace around it, and
      neither starts nor ends with whitespace. */
  lemma StripShape(s: string)
    ensures var r := Strip(s);
            exists k: nat :: OccursAt(s, r, k) && AllSpace(s[..k]) && AllSpace(s[k + |r|..])
    ensures Strip(s) != [] ==> !IsSpace(Strip(s)[0]) && !IsSpace(Strip(s)[|Strip(s)| - 1])
  {
    var front := TrimStart(s);
    var r := TrimEnd(front);
    TrimStartShape(s);
    TrimEndShape(front);
    var k := |s| - |front|;
    assert front == s[k..];
    assert s[k..k + |r|] == front[..|r|];
    assert OccursAt(s, r, k);
    assert AllSpace(s[k + |r|..]) by {
      assert s[k + |r|..] == front[|r|..];
    }
  }

  /** Python's `s.startswith(p)`. */
  predicate StartsWith(s: string, p: string) {
    |p| <= |s| && s[..|p|] == p
  }

  function Digit(d: nat): (c: char)
    requires d < 10
    ensures '0' <= c <= '9'
    ensures c == '0' <==> d == 0
  {
    "0123456789"[d]
  }

  /** The decimal rendering of `n`, as `str(n)` gives it for a non-negative int:
      digits only, and no leading zero unless `n` is zero itself. */
  function Decimal(n: nat): (r: string)
    ensures r != []
    ensures forall k :: 0 <= k < |r| ==> '0' <= r[k] <= '9'
    ensures r[0] == '0' <==> n == 0
    ensures |r| == 1 || r[0] != '0'
  {
    if n < 10 then [Digit(n)] else Decimal(n / 10) + [Digit(n % 10)]
  }

  /** Reads a decimal digit string back as a number. */
  function DecimalValue(s: string): int
  {
    if s == [] then 0 else 10 * DecimalValue(s[..|s| - 1]) + (s[|s| - 1] as int - '0' as int)
  }

  /** `Decimal` loses nothing: reading its output back gives the number. */
  lemma {:induction false} DecimalRoundTrip(n: nat)
    ensures DecimalValue(Decimal(n)) == n
  {
    if n >= 10 {
      DecimalRoundTrip(n / 10);
      var r := Decimal(n);
      assert r[..|r| - 1] == Decimal(n / 10);
    }
  }
}
