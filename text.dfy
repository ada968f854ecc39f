/** The string operations of Python used by the bot, on `seq<char>`. */
module Text {

  function Min(a: int, b: int): int {
    if a <= b then a else b
  }

  /** Concatenation is associative; stated once so that proofs about literals need not re-derive it. */
  lemma ConcatAssoc(x: string, y: string, z: string)
    ensures x + (y + z) == x + y + z
  {
  }

  /** The concatenation of `parts[lo..hi]` (Python's `"".join(parts[lo:hi])`). */
  function Join(parts: seq<string>, lo: nat, hi: nat): string
    requires hi <= |parts|
    decreases hi
  {
    if hi <= lo then "" else Join(parts, lo, hi - 1) + parts[hi - 1]
  }

  /** Joining a range is joining its two halves. */
  lemma {:induction false} JoinSplit(parts: seq<string>, lo: nat, mid: nat, hi: nat)
    requires lo <= mid <= hi <= |parts|
    ensures Join(parts, lo, hi) == Join(parts, lo, mid) + Join(parts, mid, hi)
    decreases hi
  {
    if hi > mid {
      JoinSplit(parts, lo, mid, hi - 1);
      ConcatAssoc(Join(parts, lo, mid), Join(parts, mid, hi - 1), parts[hi - 1]);
    }
  }

  /** Python's `s.startswith(p)`. */
  predicate StartsWith(s: string, p: string) {
    |p| <= |s| && s[..|p|] == p
  }

  /** True when `s` is non-empty and its last character is `c`. */
  predicate EndsWith(s: string, c: char) {
    |s| > 0 && s[|s| - 1] == c
  }

  /** `t` appears in `s` starting at index `i`. */
  predicate OccursAt(s: string, t: string, i: nat) {
    i + |t| <= |s| && s[i..i + |t|] == t
  }

  /** Python's `t in s`. */
  predicate Contains(s: string, t: string) {
    exists i: nat :: i + |t| <= |s| && OccursAt(s, t, i)
  }

  lemma ContainsAt(s: string, t: string, i: nat)
    requires OccursAt(s, t, i)
    ensures Contains(s, t)
  {
  }

  /** Every string contains itself. */
  lemma ContainsSelf(t: string)
    ensures Contains(t, t)
  {
    assert OccursAt(t, t, 0);
  }

  lemma ContainsLength(s: string, t: string)
    requires Contains(s, t)
    ensures |t| <= |s|
  {
  }

  /** An occurrence in either half is an occurrence in the concatenation. */
  lemma ContainsConcat(a: string, b: string, t: string)
    requires Contains(a, t) || Contains(b, t)
    ensures Contains(a + b, t)
  {
    if Contains(a, t) {
      var i: nat :| OccursAt(a, t, i);
      assert OccursAt(a, t, i);
      assert (a + b)[i..i + |t|] == a[i..i + |t|];
      ContainsAt(a + b, t, i);
    } else {
      var j: nat :| OccursAt(b, t, j);
      assert OccursAt(b, t, j);
      assert (a + b)[|a| + j..|a| + j + |t|] == b[j..j + |t|];
      ContainsAt(a + b, t, |a| + j);
    }
  }

  /** Substring of a substring. */
  lemma ContainsTransitive(s: string, t: string, u: string)
    requires Contains(s, t) && Contains(t, u)
    ensures Contains(s, u)
  {
    var i: nat :| OccursAt(s, t, i);
    assert OccursAt(s, t, i);
    var j: nat :| OccursAt(t, u, j);
    assert OccursAt(t, u, j);
    forall k | 0 <= k < |u| ensures s[i + j + k] == u[k] {
      assert u[k] == t[j + k] == s[i + j + k];
    }
    assert s[i + j..i + j + |u|] == u;
    ContainsAt(s, u, i + j);
  }

  /** A string in which the first character of `t` never appears does not contain `t`. */
  lemma LacksFirstChar(s: string, t: string)
    requires |t| > 0
    requires t[0] !in s
    ensures !Contains(s, t)
  {
    forall i: nat | i + |t| <= |s|
      ensures !OccursAt(s, t, i)
    {
      assert s[i] == s[i..i + |t|][0];
    }
  }

  /** An occurrence in the tail of `s` is an occurrence in `s`. */
  lemma ContainsTail(s: string, t: string)
    requires |s| > 0 && Contains(s[1..], t)
    ensures Contains(s, t)
  {
    var i: nat :| OccursAt(s[1..], t, i);
    assert OccursAt(s[1..], t, i);
    assert s[i + 1..i + 1 + |t|] == s[1..][i..i + |t|];
    ContainsAt(s, t, i + 1);
  }

  /** An occurrence that is not at the front of `s` lies in its tail. */
  lemma ContainsNotPrefix(s: string, t: string)
    requires Contains(s, t) && !StartsWith(s, t)
    ensures |s| > 0 && Contains(s[1..], t)
  {
    var i: nat :| OccursAt(s, t, i);
    assert OccursAt(s, t, i);
    assert i != 0;
    assert s[1..][i - 1..i - 1 + |t|] == s[i..i + |t|];
    ContainsAt(s[1..], t, i - 1);
  }

  /**
   * Python's `s.rstrip(c)` for one character: the longest prefix of `s` that
   * does not end with `c`, all removed characters being `c`.
   */
  function TrimTrailing(s: string, c: char): (r: string)
    ensures |r| <= |s| && r == s[..|r|]
    ensures !EndsWith(r, c)
    ensures forall k :: |r| <= k < |s| ==> s[k] == c
    decreases |s|
  {
    if EndsWith(s, c) then TrimTrailing(s[..|s| - 1], c) else s
  }

  /** Python's `s.replace(pat, rep)`: every non-overlapping occurrence, left to right. */
  function ReplaceAll(s: string, pat: string, rep: string): string
    requires pat != []
    decreases |s|
  {
    if |s| < |pat| then s
    else if s[..|pat|] == pat then rep + ReplaceAll(s[|pat|..], pat, rep)
    else [s[0]] + ReplaceAll(s[1..], pat, rep)
  }

  /** Replacing a pattern that does not occur changes nothing. */
  lemma {:induction false} ReplaceAbsent(s: string, pat: string, rep: string)
    requires pat != []
    requires !Contains(s, pat)
    ensures ReplaceAll(s, pat, rep) == s
    decreases |s|
  {
    if |s| >= |pat| {
      if StartsWith(s, pat) {
        ContainsAt(s, pat, 0);
      }
      if Contains(s[1..], pat) {
        ContainsTail(s, pat);
      }
      ReplaceAbsent(s[1..], pat, rep);
      assert [s[0]] + s[1..] == s;
    }
  }

  /** Replacing a pattern that does occur leaves the replacement in the result. */
  lemma {:induction false} ReplacePresent(s: string, pat: string, rep: string)
    requires pat != []
    requires Contains(s, pat)
    ensures Contains(ReplaceAll(s, pat, rep), rep)
    decreases |s|
  {
    ContainsLength(s, pat);
    if s[..|pat|] == pat {
      assert OccursAt(rep + ReplaceAll(s[|pat|..], pat, rep), rep, 0);
    } else {
      ContainsNotPrefix(s, pat);
      ReplacePresent(s[1..], pat, rep);
      ContainsConcat([s[0]], ReplaceAll(s[1..], pat, rep), rep);
    }
  }

  /**
   * The first occurrence of the pattern is replaced in place and the scan goes
   * on after it; with ReplaceAbsent this fixes every non-overlapping occurrence.
   * An occurrence is first when none starts inside `a`, that is when `a`
   * followed by all but the last character of the pattern does not contain it.
   */
  lemma {:induction false} ReplaceFirst(a: string, b: string, pat: string, rep: string)
    requires pat != []
    requires !Contains(a + pat[..|pat| - 1], pat)
    ensures ReplaceAll(a + pat + b, pat, rep) == a + rep + ReplaceAll(b, pat, rep)
    decreases |a|
  {
    var s := a + pat + b;
    if a == [] {
      assert s == pat + b;
      assert s[..|pat|] == pat && s[|pat|..] == b;
    } else {
      var lead := a + pat[..|pat| - 1];
      if s[..|pat|] == pat {
        assert lead[..|pat|] == s[..|pat|];
        ContainsAt(lead, pat, 0);
      }
      assert lead[1..] == a[1..] + pat[..|pat| - 1];
      if Contains(lead[1..], pat) {
        ContainsTail(lead, pat);
      }
      ReplaceFirst(a[1..], b, pat, rep);
      assert s[1..] == a[1..] + pat + b;
      ConcatAssoc([a[0]], a[1..] + rep, ReplaceAll(b, pat, rep));
      assert [a[0]] + (a[1..] + rep) == a + rep;
    }
  }

  /** The character of the decimal digit `d`. */
  function DigitChar(d: nat): (c: char)
    requires d < 10
    ensures '0' <= c <= '9'
  {
    ('0' as int + d) as char
  }

  predicate IsDigit(c: char) {
    '0' <= c <= '9'
  }

  /** Python's `str(n)` (the `{i}` of an f-string) for a natural number. */
  function NatToString(n: nat): (r: string)
    ensures |r| >= 1
    ensures forall k :: 0 <= k < |r| ==> IsDigit(r[k])
    ensures |r| > 1 ==> r[0] != '0'
    decreases n
  {
    if n < 10 then [DigitChar(n)] else NatToString(n / 10) + [DigitChar(n % 10)]
  }

  /** The value of a string of decimal digits (Python's `int(s)`). */
  function DecimalValue(s: string): nat
    requires forall k :: 0 <= k < |s| ==> IsDigit(s[k])
    decreases |s|
  {
    if s == [] then 0
    else
      assert IsDigit(s[|s| - 1]);
      DecimalValue(s[..|s| - 1]) * 10 + (s[|s| - 1] as int - '0' as int)
  }

  /** The printed number reads back as the number. */
  lemma {:induction false} DecimalRoundTrip(n: nat)
    ensures DecimalValue(NatToString(n)) == n
    decreases n
  {
    var r := NatToString(n);
    if n >= 10 {
      DecimalRoundTrip(n / 10);
      assert r[..|r| - 1] == NatToString(n / 10);
    }
  }
}
