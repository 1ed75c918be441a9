/** The string operations the pipeline relies on, over `seq<char>`. */
module Text {

  /** Reference meaning of `s.includes(p)`: `p` occurs in `s` at some position. */
  ghost predicate OccursIn(p: string, s: string)
  {
    exists i :: MatchesAt(p, s, i)
  }

  /** `p` occurs in `s` starting at position `i`. */
  ghost predicate MatchesAt(p: string, s: string, i: int)
  {
    0 <= i <= |s| - |p| && s[i..i + |p|] == p
  }

  /** `s.startsWith(p)`. */
  predicate StartsWith(s: string, p: string)
  {
    |p| <= |s| && s[..|p|] == p
  }

  /** `s.includes(p)` as a left-to-right scan over the start positions. */
  function Includes(s: string, p: string): bool
    decreases |s|
  {
    if |p| > |s| then false
    else if StartsWith(s, p) then true
    else Includes(s[1..], p)
  }

  /** The scan finds `p` exactly when `p` occurs in `s`. */
  lemma {:induction false} IncludesIffOccurs(s: string, p: string)
    ensures Includes(s, p) <==> OccursIn(p, s)
    decreases |s|
  {
    if |p| > |s| {
    } else if StartsWith(s, p) {
      assert MatchesAt(p, s, 0);
    } else {
      IncludesIffOccurs(s[1..], p);
      if OccursIn(p, s) {
        var i :| MatchesAt(p, s, i);
        assert i != 0;
        assert s[1..][i - 1..i - 1 + |p|] == p;
        assert MatchesAt(p, s[1..], i - 1);
      }
      if OccursIn(p, s[1..]) {
        var i :| MatchesAt(p, s[1..], i);
        assert s[i + 1..i + 1 + |p|] == p;
        assert MatchesAt(p, s, i + 1);
      }
    }
  }

  /** ASCII lower-casing of one character (the only case mapping the model knows). */
  function LowerChar(c: char): char
  {
    if 'A' <= c <= 'Z' then (c as int + 32) as char else c
  }

  /** `s.toLowerCase()` restricted to ASCII letters. */
  function ToLower(s: string): (r: string)
    ensures |r| == |s|
    ensures forall i :: 0 <= i < |s| ==> r[i] == LowerChar(s[i])
  {
    if |s| == 0 then "" else [LowerChar(s[0])] + ToLower(s[1..])
  }

  function DigitChar(d: nat): char
    requires d < 10
  {
    "0123456789"[d]
  }

  ghost predicate IsDigit(c: char)
  {
    '0' <= c <= '9'
  }

  /** Decimal rendering of a natural number, without leading zeros. */
  function Dec(n: nat): (r: string)
    ensures |r| >= 1
    ensures forall i :: 0 <= i < |r| ==> IsDigit(r[i])
    ensures n < 10 <==> |r| == 1
  {
    if n < 10 then [DigitChar(n)] else Dec(n / 10) + [DigitChar(n % 10)]
  }

  /** Distinct numbers have distinct decimal renderings. */
  lemma {:induction false} DecInjective(m: nat, n: nat)
    requires Dec(m) == Dec(n)
    ensures m == n
  {
    if m >= 10 && n >= 10 {
      var dm, dn := Dec(m), Dec(n);
      assert dm[|dm| - 1] == DigitChar(m % 10);
      assert dn[|dn| - 1] == DigitChar(n % 10);
      assert dm[..|dm| - 1] == Dec(m / 10);
      assert dn[..|dn| - 1] == Dec(n / 10);
      DecInjective(m / 10, n / 10);
    }
  }

  /** Splitting at the first `c`: if neither head contains `c`, equal joins have equal parts. */
  lemma SplitAtSeparator(a: string, b: string, x: string, y: string, c: char)
    requires forall i :: 0 <= i < |a| ==> a[i] != c
    requires forall i :: 0 <= i < |x| ==> x[i] != c
    requires a + [c] + b == x + [c] + y
    ensures a == x && b == y
  {
    var l, r := a + [c] + b, x + [c] + y;
    if |a| < |x| {
      SeparatorAt(a, b, c);
      assert false;
    } else if |x| < |a| {
      SeparatorAt(x, y, c);
      assert false;
    }
    assert a == l[..|a|] && x == r[..|x|];
    assert b == l[|a| + 1..] && y == r[|x| + 1..];
  }

  lemma SeparatorAt(a: string, b: string, c: char)
    ensures |a + [c] + b| > |a| && (a + [c] + b)[|a|] == c
  {
  }
}
