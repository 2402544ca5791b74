/** The fallback strategies, `extract_price_fallback` (finder.py:87-119): the
    `data-price` attribute, then a number before the hryvnia sign in the visible
    text, then a `price`/`currentPrice` field anywhere in the raw markup. */
module Fallback {
  import opened Options
  import opened Text
  import opened Numeral
  import opened Strategy
  import opened Document

  /** The `data-price` attribute, taken as written: it is not space-stripped. */
  function DataAttributeStrategy(page: Page): (r: Option<real>)
    ensures r.Some? ==> page.dataPrice.Some? && IsPriceNumeral(page.dataPrice.value)
                        && r.value == NumeralValue(page.dataPrice.value)
    ensures page.dataPrice.Some? && IsPriceNumeral(page.dataPrice.value) ==> r.Some?
  {
    match page.dataPrice
    case Some(s) => if |s| > 0 && IsPriceNumeral(s) then Some(NumeralValue(s)) else None
    case None => None
  }

  /** The currency match with its spaces removed, when that leaves only digits. */
  function VisibleTextStrategy(page: Page): (r: Option<real>)
    ensures r.Some? ==> r.value >= 0.0
  {
    match page.currencyMatch
    case Some(g) =>
      var v := RemoveAll(g, ' ');
      if IsDigits(v) then Some(DigitsValue(v) as real) else None
    case None => None
  }

  /** The number captured from the raw markup. */
  function RawMarkupStrategy(page: Page): (r: Option<real>)
    ensures r.Some? <==> page.rawMatch.Some?
    ensures page.rawMatch.Some? ==> r == Some(page.rawMatch.value as real)
  {
    match page.rawMatch
    case Some(n) => Some(n as real)
    case None => None
  }

  /** The three strategies in their fixed order; the first that yields wins. */
  function FallbackPrice(page: Page): (r: Option<real>)
    ensures r.Some? ==> r.value >= 0.0
    ensures DataAttributeStrategy(page).Some? ==> r == DataAttributeStrategy(page)
    ensures DataAttributeStrategy(page).None? && VisibleTextStrategy(page).Some? ==> r == VisibleTextStrategy(page)
    ensures DataAttributeStrategy(page).None? && VisibleTextStrategy(page).None? ==> r == RawMarkupStrategy(page)
  {
    var alternatives := [DataAttributeStrategy(page), VisibleTextStrategy(page), RawMarkupStrategy(page)];
    var r := FirstSome(alternatives);
    if r.Some? then
      var i :| 0 <= i < 3 && alternatives[i] == r && forall j :: 0 <= j < i ==> alternatives[j].None?;
      assert alternatives[0].None? ==> i != 0;
      assert alternatives[0].None? && alternatives[1].None? ==> i == 2;
      r
    else
      assert alternatives[1].None? && alternatives[2].None?;
      r
  }

  /** The shape the currency pattern guarantees for its group: a digit, then
      digits and spaces, at most nine characters. */
  predicate CurrencyGroupShape(g: string) {
    1 <= |g| <= 9 && IsDigit(g[0]) && forall i :: 0 <= i < |g| ==> IsDigit(g[i]) || g[i] == ' '
  }

  /** Any group of that shape passes the digit check after its spaces go, so the
      check only matters for non-ASCII digits, which this model does not have. */
  lemma CurrencyGroupAccepted(page: Page)
    requires page.currencyMatch.Some? && CurrencyGroupShape(page.currencyMatch.value)
    ensures IsDigits(RemoveAll(page.currencyMatch.value, ' '))
    ensures VisibleTextStrategy(page).Some?
  {
    var g := page.currencyMatch.value;
    var v := RemoveAll(g, ' ');
    assert g[0] in v;
    forall i | 0 <= i < |v| ensures IsDigit(v[i]) {
      assert v[i] in g;
    }
  }

  /** A `data-price` written with a space is refused (the structured-data
      strategy would have stripped it), so the later strategies decide. */
  lemma SpacedDataPriceRefused(page: Page)
    requires page.dataPrice.Some? && ' ' in page.dataPrice.value
    ensures FallbackPrice(page) == (if VisibleTextStrategy(page).Some? then VisibleTextStrategy(page) else RawMarkupStrategy(page))
  {
    ForeignCharRejected(page.dataPrice.value, ' ');
  }
}
