/** The price-string acceptance rule shared by the JSON-LD and `data-price`
    strategies (finder.py:77, 83, 97), and the space removal only the JSON-LD
    strategy applies first (finder.py:76, 82): a string is taken as a price when
    removing its first '.' leaves a non-empty run of digits; its value is the
    decimal number it spells (kept exact here, where the program uses `float`). */
module Numeral {
  import opened Text

  const NarrowNoBreakSpace: char := '\U{202F}'
  const NoBreakSpace: char := '\U{A0}'

  /** The JSON-LD strategy's normalisation: every narrow no-break space, no-break
      space and plain space removed, everything else kept. */
  function StripSpaces(s: string): (r: string)
    ensures forall c :: c in r <==> c in s && c != NarrowNoBreakSpace && c != NoBreakSpace && c != ' '
    ensures |r| <= |s|
  {
    RemoveAll(RemoveAll(RemoveAll(s, NarrowNoBreakSpace), NoBreakSpace), ' ')
  }

  /** Every other character is kept as often as it occurs. */
  lemma StripSpacesCounts(s: string)
    ensures multiset(StripSpaces(s)) == multiset(s)[NarrowNoBreakSpace := 0][NoBreakSpace := 0][' ' := 0]
  {
    var a := RemoveAll(s, NarrowNoBreakSpace);
    var b := RemoveAll(a, NoBreakSpace);
    RemoveAllCounts(s, NarrowNoBreakSpace);
    RemoveAllCounts(a, NoBreakSpace);
    RemoveAllCounts(b, ' ');
  }

  /** The normalisation works piecewise: the kept characters keep their order. */
  lemma StripSpacesConcat(a: string, b: string)
    ensures StripSpaces(a + b) == StripSpaces(a) + StripSpaces(b)
  {
    var a1, b1 := RemoveAll(a, NarrowNoBreakSpace), RemoveAll(b, NarrowNoBreakSpace);
    RemoveAllConcat(a, b, NarrowNoBreakSpace);
    var a2, b2 := RemoveAll(a1, NoBreakSpace), RemoveAll(b1, NoBreakSpace);
    RemoveAllConcat(a1, b1, NoBreakSpace);
    RemoveAllConcat(a2, b2, ' ');
  }

  /** `s.replace(".", "", 1).isdigit()`. */
  predicate IsPriceNumeral(s: string) {
    IsDigits(RemoveFirst(s, '.'))
  }

  /** `s` is an integer part, a point at `k`, and a fraction part, both parts
      digit runs (either may be empty, not both). */
  predicate PointAt(s: string, k: int) {
    0 <= k < |s| && s[k] == '.' && AllDigits(s[..k]) && AllDigits(s[k + 1..]) && |s| > 1
  }

  /** The decimal literals without sign or exponent: `12`, `12.5`, `12.`, `.5`. */
  ghost predicate IsDecimalLiteral(s: string) {
    IsDigits(s) || exists k :: PointAt(s, k)
  }

  lemma AllDigitsConcat(a: string, b: string)
    ensures AllDigits(a + b) <==> AllDigits(a) && AllDigits(b)
  {
    if AllDigits(a) && AllDigits(b) {
      forall i | 0 <= i < |a + b| ensures IsDigit((a + b)[i]) {
        if i < |a| { assert (a + b)[i] == a[i]; } else { assert (a + b)[i] == b[i - |a|]; }
      }
    }
    if AllDigits(a + b) {
      forall i | 0 <= i < |a| ensures IsDigit(a[i]) { assert (a + b)[i] == a[i]; }
      forall i | 0 <= i < |b| ensures IsDigit(b[i]) { assert (a + b)[|a| + i] == b[i]; }
    }
  }

  /** A point with digits on both sides is the first point of the string. */
  lemma PointIsFirst(s: string, j: int)
    requires PointAt(s, j)
    ensures '.' in s && FirstIndex(s, '.') == j
  {
    assert s[j] == '.';
    var k := FirstIndex(s, '.');
    assert forall i :: 0 <= i < j ==> s[i] != '.' by {
      forall i | 0 <= i < j ensures s[i] != '.' { assert s[..j][i] == s[i]; }
    }
    assert forall i :: 0 <= i < k ==> s[i] != '.' by {
      forall i | 0 <= i < k ensures s[i] != '.' { assert s[..k][i] == s[i]; }
    }
  }

  /** The acceptance rule accepts exactly the unsigned decimal literals. */
  lemma NumeralIsDecimalLiteral(s: string)
    ensures IsPriceNumeral(s) <==> IsDecimalLiteral(s)
  {
    if '.' in s {
      var k := FirstIndex(s, '.');
      var a, b := s[..k], s[k + 1..];
      assert RemoveFirst(s, '.') == a + b;
      AllDigitsConcat(a, b);
      assert |a + b| == |s| - 1;
      assert IsPriceNumeral(s) <==> PointAt(s, k);
      assert !IsDigit(s[k]);
      if exists j :: PointAt(s, j) {
        var j :| PointAt(s, j);
        PointIsFirst(s, j);
      }
    } else {
      assert forall j :: 0 <= j < |s| ==> s[j] != '.';
    }
  }

  /** Characters other than '.' survive the removal of the first point. */
  lemma RemoveFirstKeeps(s: string, x: char)
    requires x in s && x != '.'
    ensures x in RemoveFirst(s, '.')
  {
    var i :| 0 <= i < |s| && s[i] == x;
    if '.' in s {
      var k := FirstIndex(s, '.');
      if i < k {
        assert (s[..k] + s[k + 1..])[i] == x;
      } else {
        assert (s[..k] + s[k + 1..])[i - 1] == x;
      }
    }
  }

  /** A string holding anything other than digits and '.' is refused; in particular
      a sign, a space or a letter. */
  lemma ForeignCharRejected(s: string, x: char)
    requires x in s && x != '.' && !IsDigit(x)
    ensures !IsPriceNumeral(s)
  {
    RemoveFirstKeeps(s, x);
  }

  function Pow10(n: nat): (p: nat)
    ensures p > 0
  {
    if n == 0 then 1 else 10 * Pow10(n - 1)
  }

  /** The number `whole.frac`, where `frac` is written over `scale` places. */
  function DecimalValue(whole: nat, frac: nat, scale: nat): (v: real)
    requires scale > 0
    ensures v >= whole as real
    ensures v == 0.0 <==> whole == 0 && frac == 0
  {
    whole as real + frac as real / scale as real
  }

  /** `float(s)` for an accepted string, as an exact decimal. */
  function NumeralValue(s: string): (v: real)
    requires IsPriceNumeral(s)
    ensures v >= 0.0
  {
    if '.' in s then
      var k := FirstIndex(s, '.');
      assert RemoveFirst(s, '.') == s[..k] + s[k + 1..];
      AllDigitsConcat(s[..k], s[k + 1..]);
      DecimalValue(DigitsValue(s[..k]), DigitsValue(s[k + 1..]), Pow10(|s| - k - 1))
    else
      DigitsValue(s) as real
  }

  /** The digits of `s` other than its point are those of `s[..k]` and `s[k + 1..]`. */
  lemma ZerosAroundPoint(s: string, k: nat)
    requires k < |s| && s[k] == '.' && '.' !in s[..k] && '.' !in s[k + 1..]
    ensures (forall i :: 0 <= i < |s| && s[i] != '.' ==> s[i] == '0') <==> AllZeros(s[..k]) && AllZeros(s[k + 1..])
  {
    var a, b := s[..k], s[k + 1..];
    if AllZeros(a) && AllZeros(b) {
      forall i | 0 <= i < |s| && s[i] != '.' ensures s[i] == '0' {
        if i < k { assert s[i] == a[i]; } else { assert s[i] == b[i - k - 1]; }
      }
    }
    if forall i :: 0 <= i < |s| && s[i] != '.' ==> s[i] == '0' {
      forall i | 0 <= i < k ensures a[i] == '0' { assert a[i] == s[i]; }
      forall i | 0 <= i < |b| ensures b[i] == '0' { assert b[i] == s[k + 1 + i]; assert b[i] in b; }
    }
  }

  /** An accepted string denotes zero exactly when every digit in it is '0'
      (so "0", "00", "0.0" and ".0" all parse to a falsy 0.0). */
  lemma NumeralValueZero(s: string)
    requires IsPriceNumeral(s)
    ensures NumeralValue(s) == 0.0 <==> forall i :: 0 <= i < |s| && s[i] != '.' ==> s[i] == '0'
  {
    if '.' in s {
      var k := FirstIndex(s, '.');
      var a, b := s[..k], s[k + 1..];
      assert RemoveFirst(s, '.') == a + b;
      AllDigitsConcat(a, b);
      assert NumeralValue(s) == DecimalValue(DigitsValue(a), DigitsValue(b), Pow10(|s| - k - 1));
      assert '.' !in b by { assert forall i :: 0 <= i < |b| ==> IsDigit(b[i]); }
      DigitsValueZero(a);
      DigitsValueZero(b);
      ZerosAroundPoint(s, k);
    } else {
      DigitsValueZero(s);
    }
  }

  /** `str(n)` of a natural number passes the rule, unchanged by the space
      normalisation, and reads back as `n`. */
  lemma NatNumeral(n: nat)
    ensures StripSpaces(NatToString(n)) == NatToString(n)
    ensures IsPriceNumeral(NatToString(n))
    ensures NumeralValue(NatToString(n)) == n as real
  {
    var s := NatToString(n);
    assert '.' !in s && ' ' !in s && NarrowNoBreakSpace !in s && NoBreakSpace !in s by {
      forall i | 0 <= i < |s| ensures IsDigit(s[i]) { }
    }
    NatToStringRoundTrip(n);
  }

  /** The rule refuses the empty string, a signed number and a second point. */
  lemma NumeralRefusals()
    ensures !IsPriceNumeral("")
    ensures !IsPriceNumeral("-5")
    ensures !IsPriceNumeral("1.2.3")
  {
    ForeignCharRejected("-5", '-');
    var s := "1.2.3";
    assert FirstIndex(s, '.') == 1;
    assert RemoveFirst(s, '.') == s[..1] + s[2..];
    assert (s[..1] + s[2..])[2] == '.';
  }

  /** A literal `a.b` is accepted and denotes `a` plus `b` over as many places
      as `b` has: "12.50" is 12 + 50/100. */
  lemma PointSplits(a: string, b: string)
    requires AllDigits(a) && AllDigits(b) && |a| + |b| > 0
    ensures IsPriceNumeral(a + "." + b)
    ensures NumeralValue(a + "." + b) == DecimalValue(DigitsValue(a), DigitsValue(b), Pow10(|b|))
  {
    var s := a + "." + b;
    assert s[..|a|] == a && s[|a| + 1..] == b;
    assert PointAt(s, |a|);
    PointIsFirst(s, |a|);
    NumeralIsDecimalLiteral(s);
  }
}
