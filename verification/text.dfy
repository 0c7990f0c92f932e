/**
 * The string operations the scraper and the Markdown exporter rely on, written out
 * with Python's meaning: `str(n)` for an integer, `s.split(p)[0]` and
 * `s.replace(p, "")`.
 */
module Text {

  // ---------------------------------------------------------------------------
  // Decimal rendering of integers (Python's `str(n)` and f-string `{n}`)
  // ---------------------------------------------------------------------------

  predicate IsDigits(s: string) {
    forall k :: 0 <= k < |s| ==> '0' <= s[k] <= '9'
  }

  function DigitChar(d: nat): (c: char)
    requires d < 10
    ensures '0' <= c <= '9' && c as int - '0' as int == d
  {
    (d + '0' as int) as char
  }

  /** The decimal digits of `n`, most significant first, without leading zeros. */
  function NatToString(n: nat): (r: string)
    ensures |r| >= 1 && IsDigits(r)
    ensures |r| > 1 ==> r[0] != '0'
    decreases n
  {
    if n < 10 then [DigitChar(n)] else NatToString(n / 10) + [DigitChar(n % 10)]
  }

  /** `str(n)`: a minus sign for negative numbers, then the digits of the magnitude. */
  function IntToString(n: int): (r: string) {
    if n < 0 then "-" + NatToString(-n) else NatToString(n)
  }

  /** The value of a string of decimal digits (the empty string reads as 0). */
  function ParseNat(s: string): (r: nat)
    requires IsDigits(s)
    decreases |s|
  {
    if |s| == 0 then 0
    else ParseNat(s[..|s| - 1]) * 10 + (s[|s| - 1] as int - '0' as int)
  }

  /** Python's `int(s)` restricted to what `str` produces: an optional minus sign, then digits. */
  function ParseInt(s: string): (r: int)
    requires |s| >= 1
    requires IsDigits(s) || (s[0] == '-' && IsDigits(s[1..]))
  {
    if s[0] == '-' then -(ParseNat(s[1..]) as int) else ParseNat(s)
  }

  lemma {:induction false} NatToStringRoundTrip(n: nat)
    ensures ParseNat(NatToString(n)) == n
    decreases n
  {
    if n >= 10 {
      var prefix := NatToString(n / 10);
      var s := prefix + [DigitChar(n % 10)];
      assert s[..|s| - 1] == prefix;
      NatToStringRoundTrip(n / 10);
    }
  }

  /** `str` loses nothing: the integer can be read back from its text. */
  lemma IntToStringRoundTrip(n: int)
    ensures |IntToString(n)| >= 1
    ensures IsDigits(IntToString(n)) || (IntToString(n)[0] == '-' && IsDigits(IntToString(n)[1..]))
    ensures ParseInt(IntToString(n)) == n
  {
    if n < 0 {
      var s := IntToString(n);
      assert s[1..] == NatToString(-n);
      NatToStringRoundTrip(-n);
    } else {
      NatToStringRoundTrip(n);
    }
  }

  /** Different integers print differently. */
  lemma IntToStringInjective(m: int, n: int)
    requires m != n
    ensures IntToString(m) != IntToString(n)
  {
    IntToStringRoundTrip(m);
    IntToStringRoundTrip(n);
  }

  // ---------------------------------------------------------------------------
  // Occurrences of a pattern
  // ---------------------------------------------------------------------------

  /** `p` occurs in `s` starting at index `i`. */
  predicate OccursAt(s: string, p: string, i: int) {
    0 <= i && i + |p| <= |s| && s[i..i + |p|] == p
  }

  /** `p` occurs nowhere in `s`. */
  predicate Free(s: string, p: string) {
    forall i :: 0 <= i <= |s| - |p| ==> !OccursAt(s, p, i)
  }

  /**
   * The last character of `p` appears nowhere else in `p`. Such a pattern cannot
   * overlap a copy of itself, which is what the two string operations below need.
   */
  predicate LastCharUnique(p: string) {
    |p| > 0 && p[|p| - 1] !in p[..|p| - 1]
  }

  lemma OccursAtShift(s: string, p: string, i: int)
    requires |s| > 0 && i >= 0
    ensures OccursAt(s[1..], p, i) <==> OccursAt(s, p, i + 1)
  {
    if 0 <= i && i + |p| <= |s| - 1 {
      assert s[1..][i..i + |p|] == s[i + 1..i + 1 + |p|];
    }
  }

  /**
   * An occurrence of a self-overlap-free pattern at `n` rules out every occurrence
   * that starts before `n` and reaches into it.
   */
  lemma NoStraddle(s: string, p: string, n: int, i: int)
    requires LastCharUnique(p) && OccursAt(s, p, n)
    requires i < n < i + |p|
    ensures !OccursAt(s, p, i)
  {
    if 0 <= i && i + |p| <= |s| {
      var j := i + |p| - 1 - n;
      assert s[i + |p| - 1] == s[n..n + |p|][j] == p[j];
      assert p[..|p| - 1][j] == p[j];
      assert s[i..i + |p|][|p| - 1] == s[i + |p| - 1] != p[|p| - 1];
    }
  }

  /** A pattern placed right after `x` occurs there, and `x` stays a prefix. */
  lemma OccursAfter(x: string, p: string, t: string)
    ensures x <= x + p + t && OccursAt(x + p + t, p, |x|)
  {
    var s := x + p + t;
    assert s[..|x|] == x;
    assert s[|x|..|x| + |p|] == p;
  }

  /** A pattern that contains a character `s` lacks cannot occur in `s`. */
  lemma FreeOfMissingChar(s: string, p: string, c: char)
    requires c in p && c !in s
    ensures Free(s, p)
  {
    var k :| 0 <= k < |p| && p[k] == c;
    forall i | 0 <= i <= |s| - |p| ensures !OccursAt(s, p, i) {
      assert s[i..i + |p|][k] == s[i + k] != c;
    }
  }

  // ---------------------------------------------------------------------------
  // Python's `s.split(p)[0]`
  // ---------------------------------------------------------------------------

  /**
   * The text of `s` before the first occurrence of `p`, or all of `s` when `p` does
   * not occur. It is a prefix of `s`, no occurrence of `p` starts inside it, and
   * `p` starts right after it unless it is all of `s`.
   */
  function BeforeFirst(s: string, p: string): (r: string)
    requires |p| > 0
    ensures r <= s
    ensures forall i :: 0 <= i < |r| ==> !OccursAt(s, p, i)
    ensures |r| < |s| ==> OccursAt(s, p, |r|)
    decreases |s|
  {
    if |s| < |p| then s
    else if s[..|p|] == p then ""
    else
      var rest := BeforeFirst(s[1..], p);
      assert forall i :: 0 <= i < |rest| + 1 ==> !OccursAt(s, p, i) by {
        assert !OccursAt(s, p, 0);
        forall i | 1 <= i < |rest| + 1 ensures !OccursAt(s, p, i) {
          OccursAtShift(s, p, i - 1);
        }
      }
      assert |rest| + 1 < |s| ==> OccursAt(s, p, |rest| + 1) by {
        OccursAtShift(s, p, |rest|);
      }
      [s[0]] + rest
  }

  /** The three properties of `BeforeFirst` determine it. */
  lemma BeforeFirstIs(s: string, p: string, x: string)
    requires |p| > 0 && x <= s
    requires forall i :: 0 <= i < |x| ==> !OccursAt(s, p, i)
    requires |x| < |s| ==> OccursAt(s, p, |x|)
    ensures BeforeFirst(s, p) == x
  {
    var r := BeforeFirst(s, p);
    assert |r| < |s| ==> OccursAt(s, p, |r|);
    assert |r| < |x| ==> OccursAt(s, p, |r|);
    assert |x| < |r| ==> OccursAt(s, p, |x|);
  }

  /**
   * When a self-overlap-free `p` occurs in `s` right after its prefix `x`,
   * splitting `s` at `p` gives back `x` exactly when `p` does not occur in `x`;
   * otherwise it gives something shorter.
   */
  lemma {:induction false} BeforeFirstOfJoin(s: string, p: string, x: string)
    requires LastCharUnique(p) && x <= s && OccursAt(s, p, |x|)
    ensures Free(x, p) ==> BeforeFirst(s, p) == x
    ensures !Free(x, p) ==> |BeforeFirst(s, p)| < |x|
  {
    if Free(x, p) {
      forall i | 0 <= i < |x| ensures !OccursAt(s, p, i) {
        if i + |p| <= |x| {
          assert s[i..i + |p|] == x[i..i + |p|];
          assert !OccursAt(x, p, i);
        } else {
          NoStraddle(s, p, |x|, i);
        }
      }
      BeforeFirstIs(s, p, x);
    } else {
      var i :| 0 <= i <= |x| - |p| && OccursAt(x, p, i);
      assert s[i..i + |p|] == x[i..i + |p|];
      assert OccursAt(s, p, i);
    }
  }

  // ---------------------------------------------------------------------------
  // Python's `s.replace(p, "")`
  // ---------------------------------------------------------------------------

  /** `s` with the occurrences of `p` found by a left-to-right scan deleted. */
  function RemoveAll(s: string, p: string): (r: string)
    requires |p| > 0
    ensures |r| <= |s|
    decreases |s|
  {
    if |s| < |p| then s
    else if s[..|p|] == p then RemoveAll(s[|p|..], p)
    else [s[0]] + RemoveAll(s[1..], p)
  }

  /** Removing `p` changes `s` exactly when `p` occurs in `s`. */
  lemma {:induction false} RemoveAllUnchangedIff(s: string, p: string)
    requires |p| > 0
    ensures RemoveAll(s, p) == s <==> Free(s, p)
    decreases |s|
  {
    if Free(s, p) {
      RemoveAllOfFree(s, p);
    } else {
      var i :| OccursAt(s, p, i);
      RemoveAllShrinks(s, p, i);
    }
  }

  lemma {:induction false} RemoveAllOfFree(s: string, p: string)
    requires |p| > 0 && Free(s, p)
    ensures RemoveAll(s, p) == s
    decreases |s|
  {
    if |s| >= |p| {
      assert !OccursAt(s, p, 0);
      forall i | 0 <= i <= |s| - 1 - |p| ensures !OccursAt(s[1..], p, i) {
        OccursAtShift(s, p, i);
      }
      RemoveAllOfFree(s[1..], p);
      assert [s[0]] + s[1..] == s;
    }
  }

  lemma {:induction false} RemoveAllShrinks(s: string, p: string, i: int)
    requires |p| > 0 && OccursAt(s, p, i)
    ensures |RemoveAll(s, p)| < |s|
    decreases |s|
  {
    if s[..|p|] != p {
      assert i != 0;
      OccursAtShift(s, p, i - 1);
      RemoveAllShrinks(s[1..], p, i - 1);
    }
  }

  /** A trailing self-overlap-free `p` is removed and nothing else changes. */
  lemma {:induction false} RemoveAllOfAppended(a: string, p: string)
    requires LastCharUnique(p)
    ensures RemoveAll(a + p, p) == RemoveAll(a, p)
    decreases |a|
  {
    var s := a + p;
    assert OccursAt(s, p, |a|) by { assert s[|a|..|a| + |p|] == p; }
    if |a| == 0 {
      assert s[|p|..] == [];
    } else if |a| < |p| {
      NoStraddle(s, p, |a|, 0);
      assert s[..|p|] != p;
      assert s[1..] == a[1..] + p;
      RemoveAllOfAppended(a[1..], p);
      assert [a[0]] + a[1..] == a;
    } else if a[..|p|] == p {
      assert s[..|p|] == p;
      assert s[|p|..] == a[|p|..] + p;
      RemoveAllOfAppended(a[|p|..], p);
    } else {
      assert s[..|p|] == a[..|p|];
      assert s[1..] == a[1..] + p;
      RemoveAllOfAppended(a[1..], p);
    }
  }
}
