/** The strategy chain `extract_price_from_jsonld(html) or extract_price_fallback(html)`
    (finder.py:158, 162). Python's `or` keeps the structured-data price only when
    it is truthy: a price of `0.0` counts as no price and the fallback decides. */
module Extract {
  import opened Options
  import opened Text
  import opened Numeral
  import opened Strategy
  import opened JsonLd
  import opened Document
  import opened Fallback

  function ExtractPrice(page: Page): (r: Completion<Option<real>>)
    ensures r.Raised? <==> JsonLdPrice(page.jsonLd).Thrown?
    ensures r.Normal? && r.value.Some? ==> r.value.value >= 0.0
    ensures (JsonLdPrice(page.jsonLd).Found? && JsonLdPrice(page.jsonLd).price != 0.0) ==>
              r == Normal(Some(JsonLdPrice(page.jsonLd).price))
    ensures JsonLdPrice(page.jsonLd) in {NotFound, Found(0.0)} ==> r == Normal(FallbackPrice(page))
  {
    match JsonLdPrice(page.jsonLd)
    case Thrown => Raised
    case Found(p) => if p != 0.0 then Normal(Some(p)) else Normal(FallbackPrice(page))
    case NotFound => Normal(FallbackPrice(page))
  }

  /** A positive integer price in a block's first offer wins over whatever the
      fallback strategies would give, a `data-price` attribute included. */
  lemma StructuredDataBeatsAttribute(page: Page, n: int)
    requires n > 0
    requires page.jsonLd == [Some(JObj(map["offers" := JObj(map["price" := JInt(n)])]))]
    ensures ExtractPrice(page) == Normal(Some(n as real))
  {
    var offer := JObj(map["price" := JInt(n)]);
    IntPriceField(n);
    assert OfferScan(offer) == Found(n as real);
    FirstOfferWins(map["offers" := offer], 0);
    var node := JObj(map["offers" := offer]);
    FirstDecisiveAt([node], NodeScan, 0);
    FirstDecisiveAt(page.jsonLd, BlockScan, 0);
  }

  /** A page with no structured data and no `data-price` takes the number before
      the hryvnia sign, spaces dropped: "1 299 ₴" gives 1299, whatever the raw
      markup holds. */
  lemma VisibleTextOnly(page: Page)
    requires page.jsonLd == [] && page.dataPrice.None?
    requires page.currencyMatch.Some? && CurrencyGroupShape(page.currencyMatch.value)
    ensures var v := RemoveAll(page.currencyMatch.value, ' ');
            IsDigits(v) && ExtractPrice(page) == Normal(Some(DigitsValue(v) as real))
  {
    CurrencyGroupAccepted(page);
  }

  /** A structured-data price that parses to zero is dropped by `or`: with no
      fallback price the page has no price at all, not a price of 0. */
  lemma ZeroStructuredPriceDropped(page: Page)
    requires JsonLdPrice(page.jsonLd) == Found(0.0)
    requires page.dataPrice.None? && page.currencyMatch.None? && page.rawMatch.None?
    ensures ExtractPrice(page) == Normal(None)
  {
  }

  /** The fallback returns a zero `data-price` as it is: a price of 0 can reach
      the notify decision. */
  lemma ZeroAttributePriceKept(page: Page)
    requires JsonLdPrice(page.jsonLd) == NotFound
    requires page.dataPrice == Some("0")
    ensures ExtractPrice(page) == Normal(Some(0.0))
  {
    NatNumeral(0);
    assert NatToString(0) == "0";
  }
}
