/** Character and string helpers with Python's meaning: `str.isdigit`, `in`,
    `str.startswith`, `str.replace`, `str.strip`, and `str(n)` for naturals.
    Characters are Unicode code points; digits are the ASCII digits. */
module Text {

  predicate IsDigit(c: char) {
    '0' <= c <= '9'
  }

  predicate AllDigits(s: string) {
    forall i :: 0 <= i < |s| ==> IsDigit(s[i])
  }

  /** `s.isdigit()`: at least one character, and every character a digit. */
  predicate IsDigits(s: string) {
    |s| > 0 && AllDigits(s)
  }

  predicate StartsWith(s: string, p: string) {
    |p| <= |s| && s[..|p|] == p
  }

  predicate EndsWith(s: string, p: string) {
    |p| <= |s| && s[|s| - |p|..] == p
  }

  /** `p` occurs in `s` starting at index `i`. */
  predicate OccursAt(s: string, p: string, i: int) {
    0 <= i && i + |p| <= |s| && s[i..i + |p|] == p
  }

  /** Python's `p in s` for strings. */
  predicate Contains(s: string, p: string) {
    exists i :: 0 <= i <= |s| && OccursAt(s, p, i)
  }

  /** A pattern holding a character the text lacks does not occur in it. */
  lemma MissingCharNotContained(s: string, p: string, c: char)
    requires c in p && c !in s
    ensures !Contains(s, p)
  {
    var j :| 0 <= j < |p| && p[j] == c;
    forall i
      ensures !OccursAt(s, p, i)
    {
      if 0 <= i && i + |p| <= |s| {
        assert s[i..i + |p|][j] == s[i + j] != c;
      }
    }
  }

  lemma StartsWithContains(s: string, p: string)
    requires StartsWith(s, p)
    ensures Contains(s, p)
  {
    assert OccursAt(s, p, 0);
  }

  lemma EndsWithKeepsContains(s: string, suffix: string, p: string)
    requires EndsWith(s, suffix) && Contains(suffix, p)
    ensures Contains(s, p)
  {
    var i :| 0 <= i <= |suffix| && OccursAt(suffix, p, i);
    var d := |s| - |suffix|;
    assert s[d + i..d + i + |p|] == suffix[i..i + |p|];
    assert OccursAt(s, p, d + i);
  }

  /** `s.replace(c, "")`: every occurrence of `c` removed, the rest kept in order. */
  function RemoveAll(s: string, c: char): (r: string)
    ensures c !in r
    ensures |r| <= |s|
    ensures forall x :: x in r <==> x in s && x != c
    ensures c !in s ==> r == s
  {
    if |s| == 0 then []
    else (if s[0] == c then [] else [s[0]]) + RemoveAll(s[1..], c)
  }

  /** Every character other than `c` is kept as often as it occurs. */
  lemma {:induction false} RemoveAllCounts(s: string, c: char)
    ensures multiset(RemoveAll(s, c)) == multiset(s)[c := 0]
    decreases |s|
  {
    if |s| > 0 {
      RemoveAllCounts(s[1..], c);
      assert s == [s[0]] + s[1..];
    }
  }

  /** Removal works piecewise, so the kept characters stay in their order. */
  lemma {:induction false} RemoveAllConcat(a: string, b: string, c: char)
    ensures RemoveAll(a + b, c) == RemoveAll(a, c) + RemoveAll(b, c)
    decreases |a|
  {
    if |a| == 0 {
      assert a + b == b;
    } else {
      var head := if a[0] == c then [] else [a[0]];
      assert (a + b)[0] == a[0] && (a + b)[1..] == a[1..] + b;
      RemoveAllConcat(a[1..], b, c);
      calc {
        RemoveAll(a + b, c);
        head + RemoveAll(a[1..] + b, c);
        head + (RemoveAll(a[1..], c) + RemoveAll(b, c));
        (head + RemoveAll(a[1..], c)) + RemoveAll(b, c);
        RemoveAll(a, c) + RemoveAll(b, c);
      }
    }
  }

  /** Index of the first occurrence of `c` in `s`. */
  function FirstIndex(s: string, c: char): (k: nat)
    requires c in s
    ensures k < |s| && s[k] == c && c !in s[..k]
  {
    if s[0] == c then 0
    else
      assert c in s[1..] by { var j :| 0 <= j < |s| && s[j] == c; assert s[1..][j - 1] == c; }
      var k := 1 + FirstIndex(s[1..], c);
      assert s[..k] == [s[0]] + s[1..][..k - 1];
      k
  }

  /** `s.replace(c, "", 1)`: the first occurrence of `c` removed, if there is one. */
  function RemoveFirst(s: string, c: char): (r: string)
    ensures c !in s ==> r == s
    ensures c in s ==> |r| == |s| - 1 && multiset(r) + multiset{c} == multiset(s)
    ensures c in s ==> forall i :: 0 <= i < |r| ==> r[i] == if i < FirstIndex(s, c) then s[i] else s[i + 1]
  {
    if c in s then
      var k := FirstIndex(s, c);
      assert s == s[..k] + [c] + s[k + 1..];
      s[..k] + s[k + 1..]
    else s
  }

  /** The characters Python's `str.isspace` accepts. */
  predicate IsSpace(c: char) {
    c == ' ' || '\t' <= c <= '\r' || '\U{1C}' <= c <= '\U{1F}' || c == '\U{85}' || c == '\U{A0}'
    || c == '\U{1680}' || '\U{2000}' <= c <= '\U{200A}' || c == '\U{2028}' || c == '\U{2029}'
    || c == '\U{202F}' || c == '\U{205F}' || c == '\U{3000}'
  }

  /** Number of leading whitespace characters of `s`. */
  function LeadingSpace(s: string): (a: nat)
    ensures a <= |s|
    ensures forall i :: 0 <= i < a ==> IsSpace(s[i])
    ensures a < |s| ==> !IsSpace(s[a])
  {
    if |s| == 0 || !IsSpace(s[0]) then 0 else 1 + LeadingSpace(s[1..])
  }

  /** End of `s` once trailing whitespace after index `a` is cut off. */
  function TrimmedEnd(s: string, a: nat): (b: nat)
    requires a <= |s|
    ensures a <= b <= |s|
    ensures forall i :: b <= i < |s| ==> IsSpace(s[i])
    ensures a < b ==> !IsSpace(s[b - 1])
    decreases |s|
  {
    if |s| == a || !IsSpace(s[|s| - 1]) then |s|
    else
      var b := TrimmedEnd(s[..|s| - 1], a);
      b
  }

  /** `s.strip()`: leading and trailing whitespace removed. */
  function Strip(s: string): (r: string)
    ensures exists a, b :: 0 <= a <= b <= |s| && r == s[a..b]
                           && (forall i :: 0 <= i < a ==> IsSpace(s[i]))
                           && (forall i :: b <= i < |s| ==> IsSpace(s[i]))
    ensures |r| > 0 ==> !IsSpace(r[0]) && !IsSpace(r[|r| - 1])
  {
    s[LeadingSpace(s)..TrimmedEnd(s, LeadingSpace(s))]
  }

  /** An occurrence inside a slice is an occurrence in the whole string. */
  lemma SliceContains(s: string, a: nat, b: nat, p: string)
    requires a <= b <= |s| && Contains(s[a..b], p)
    ensures Contains(s, p)
  {
    var j :| 0 <= j <= |s[a..b]| && OccursAt(s[a..b], p, j);
    var whole, inner := s[a + j..a + j + |p|], s[a..b][j..j + |p|];
    assert forall k :: 0 <= k < |p| ==> whole[k] == inner[k];
    assert whole == inner;
    assert OccursAt(s, p, a + j);
  }

  /** An occurrence lying between `a` and `b` is an occurrence in the slice. */
  lemma ContainsSlice(s: string, a: nat, b: nat, p: string, i: nat)
    requires a <= i && i + |p| <= b <= |s| && OccursAt(s, p, i)
    ensures Contains(s[a..b], p)
  {
    var inner, whole := s[a..b][i - a..i - a + |p|], s[i..i + |p|];
    assert forall k :: 0 <= k < |p| ==> inner[k] == whole[k];
    assert inner == whole;
    assert OccursAt(s[a..b], p, i - a);
  }

  /** Stripping never changes whether a pattern with non-space ends occurs. */
  lemma StripKeepsContains(s: string, p: string)
    requires |p| > 0 && !IsSpace(p[0]) && !IsSpace(p[|p| - 1])
    ensures Contains(Strip(s), p) <==> Contains(s, p)
  {
    var a := LeadingSpace(s);
    var b := TrimmedEnd(s, a);
    if Contains(s, p) {
      var i :| 0 <= i <= |s| && OccursAt(s, p, i);
      assert s[i] == p[0];
      assert s[i + |p| - 1] == p[|p| - 1];
      ContainsSlice(s, a, b, p, i);
    }
    if Contains(Strip(s), p) {
      SliceContains(s, a, b, p);
    }
  }

  function DigitValue(c: char): nat
    requires IsDigit(c)
  {
    (c - '0') as nat
  }

  function DigitChar(d: nat): (c: char)
    requires d < 10
    ensures IsDigit(c) && DigitValue(c) == d
  {
    ('0' as int + d) as char
  }

  /** The natural number a string of decimal digits denotes (empty denotes 0). */
  function DigitsValue(s: string): (n: nat)
    requires AllDigits(s)
  {
    if |s| == 0 then 0 else 10 * DigitsValue(s[..|s| - 1]) + DigitValue(s[|s| - 1])
  }

  /** `str(n)` for a natural number: its decimal digits, without leading zeros. */
  function NatToString(n: nat): (s: string)
    ensures IsDigits(s)
    ensures s[0] == '0' ==> n == 0
  {
    if n < 10 then [DigitChar(n)] else NatToString(n / 10) + [DigitChar(n % 10)]
  }

  /** Reading back `str(n)` gives `n`. */
  lemma {:induction false} NatToStringRoundTrip(n: nat)
    ensures DigitsValue(NatToString(n)) == n
  {
    if n >= 10 {
      var s := NatToString(n);
      assert s[..|s| - 1] == NatToString(n / 10);
      NatToStringRoundTrip(n / 10);
    }
  }

  predicate AllZeros(s: string) {
    forall i :: 0 <= i < |s| ==> s[i] == '0'
  }

  /** A digit string denotes zero exactly when all its digits are '0'. */
  lemma {:induction false} DigitsValueZero(s: string)
    requires AllDigits(s)
    ensures DigitsValue(s) == 0 <==> AllZeros(s)
  {
    if |s| > 0 {
      var init := s[..|s| - 1];
      DigitsValueZero(init);
      if DigitsValue(s) == 0 {
        forall i | 0 <= i < |s| ensures s[i] == '0' {
          if i < |s| - 1 { assert s[i] == init[i]; }
        }
      }
      if AllZeros(s) {
        assert AllZeros(init) by {
          forall i | 0 <= i < |init| ensures init[i] == '0' { assert init[i] == s[i]; }
        }
      }
    }
  }
}
