/** Page routing, `get_price_for_url` and `find_first_product_url_from_search`
    (finder.py:121-163). The HTTP requests are one function from a URL to what
    the request gave; the politeness delay and the session are not modelled. */
module Fetch {
  import opened Options
  import opened Text
  import opened Document
  import opened Extract

  /** The origin that links found on a search page are resolved against. */
  const SearchOrigin := "https://silpo.ua"
  const ProductMarker := "/product/"
  const NoProductError := "no-product-found-in-search"

  /** A URL under the site's search path mentions `/search`. */
  lemma SearchPathMentionsSearch(url: string)
    ensures StartsWith(url, SearchOrigin + "/search") ==> Contains(url, "/search")
  {
    var prefix := SearchOrigin + "/search";
    if StartsWith(url, prefix) {
      assert OccursAt(prefix, "/search", |SearchOrigin|);
      assert url[..|prefix|] == prefix;
      SliceContains(url, 0, |prefix|, "/search");
    }
  }

  /** A URL names a search page when it mentions `/search` or `find=` anywhere;
      so every URL under the site's search path is one. */
  function IsSearchUrl(url: string): (b: bool)
    ensures StartsWith(url, SearchOrigin + "/search") ==> b
  {
    SearchPathMentionsSearch(url);
    Contains(url, "/search") || Contains(url, "find=")
  }

  /** The markers are looked for anywhere: text around a search URL keeps it one. */
  lemma SearchMarkerAnywhere(before: string, url: string, after: string)
    requires IsSearchUrl(url)
    ensures IsSearchUrl(before + url + after)
  {
    var whole := before + url + after;
    assert whole[|before|..|before| + |url|] == url;
    if Contains(url, "/search") {
      SliceContains(whole, |before|, |before| + |url|, "/search");
    } else {
      SliceContains(whole, |before|, |before| + |url|, "find=");
    }
  }

  /** A catalogue URL with a `find=` query is a search page; a product URL,
      which mentions neither marker, is not. */
  lemma SearchUrlExamples()
    ensures IsSearchUrl("https://silpo.ua/catalog?find=milk")
    ensures !IsSearchUrl("https://silpo.ua/product/1")
  {
    var query := "https://silpo.ua/catalog?find=milk";
    assert OccursAt(query, "find=", 25);
    var product := "https://silpo.ua/product/1";
    assert 'e' !in product && '=' !in product;
    MissingCharNotContained(product, "/search", 'e');
    MissingCharNotContained(product, "find=", '=');
  }

  /** The test applied to each stripped `href`. */
  predicate IsProductLink(href: string) {
    var h := Strip(href);
    StartsWith(h, ProductMarker) || Contains(h, ProductMarker)
  }

  /** The `startswith` half of the test adds nothing, and stripping does not
      change the answer: a link qualifies exactly when it mentions `/product/`. */
  lemma ProductLinkIffMarker(href: string)
    ensures IsProductLink(href) <==> Contains(href, ProductMarker)
  {
    assert ProductMarker[0] == '/' && ProductMarker[|ProductMarker| - 1] == '/';
    StripKeepsContains(href, ProductMarker);
    if StartsWith(Strip(href), ProductMarker) {
      StartsWithContains(Strip(href), ProductMarker);
    }
  }

  /** Index of the first link from position `from` on that passes the test. */
  function FirstProductLinkFrom(links: seq<string>, from: nat): (r: Option<nat>)
    requires from <= |links|
    ensures r.None? <==> forall i :: from <= i < |links| ==> !IsProductLink(links[i])
    ensures r.Some? ==> from <= r.value < |links| && IsProductLink(links[r.value])
                        && forall j :: from <= j < r.value ==> !IsProductLink(links[j])
    decreases |links| - from
  {
    if from == |links| then None
    else if IsProductLink(links[from]) then Some(from)
    else FirstProductLinkFrom(links, from + 1)
  }

  /** Index of the first link that passes the test. */
  function FirstProductLink(links: seq<string>): (r: Option<nat>)
    ensures r.None? <==> forall i :: 0 <= i < |links| ==> !IsProductLink(links[i])
    ensures r.Some? ==> r.value < |links| && IsProductLink(links[r.value])
                        && forall j :: 0 <= j < r.value ==> !IsProductLink(links[j])
  {
    FirstProductLinkFrom(links, 0)
  }

  predicate IsAsciiLetter(c: char) {
    'a' <= c <= 'z' || 'A' <= c <= 'Z'
  }

  predicate IsSchemeChar(c: char) {
    IsAsciiLetter(c) || IsDigit(c) || c == '+' || c == '-' || c == '.'
  }

  /** The reference starts with a URL scheme: a letter and scheme characters up
      to its first ':'. */
  predicate HasScheme(ref: string) {
    ':' in ref && FirstIndex(ref, ':') > 0 && IsAsciiLetter(ref[0])
    && forall j :: 0 <= j < FirstIndex(ref, ':') ==> IsSchemeChar(ref[j])
  }

  /** `urljoin("https://silpo.ua", ref)`: a reference with a scheme stands alone,
      `//host/...` takes the scheme, and anything else hangs off the origin,
      whose path is empty. */
  function Resolve(ref: string): (url: string)
    ensures EndsWith(url, ref)
    ensures StartsWith(ref, "/") && !StartsWith(ref, "//") ==> url == SearchOrigin + ref
  {
    if |ref| == 0 then SearchOrigin
    else if HasScheme(ref) then ref
    else if StartsWith(ref, "//") then "https:" + ref
    else if ref[0] == '/' || ref[0] == '?' || ref[0] == '#' then SearchOrigin + ref
    else SearchOrigin + "/" + ref
  }

  /** `find_first_product_url_from_search`: the first qualifying link, stripped and
      resolved. */
  function FirstProductUrl(links: seq<string>): (r: Option<string>)
    ensures r.None? <==> forall i :: 0 <= i < |links| ==> !IsProductLink(links[i])
    ensures r.Some? ==> Contains(r.value, ProductMarker)
  {
    match FirstProductLink(links)
    case None => None
    case Some(i) =>
      var href := Strip(links[i]);
      ProductLinkIffMarker(links[i]);
      StripKeepsContains(links[i], ProductMarker);
      EndsWithKeepsContains(Resolve(href), href, ProductMarker);
      Some(Resolve(href))
  }

  /** What one GET gave: a transport failure (its message), or a status code and
      the page. */
  datatype Reply = TransportFailure(reason: string) | Response(status: nat, page: Page)

  /** `(price, used_url, error)` as `get_price_for_url` returns it. */
  datatype Fetched = Fetched(price: Option<real>, usedUrl: Option<string>, error: Option<string>)

  /** Extraction on a page that was fetched as `used`. */
  function PriceOnPage(page: Page, used: string): (r: Completion<Fetched>)
    ensures r.Raised? <==> ExtractPrice(page).Raised?
    ensures r.Normal? ==> r.value.usedUrl == Some(used) && r.value.error.None?
                          && r.value.price == ExtractPrice(page).value
  {
    match ExtractPrice(page)
    case Raised => Raised
    case Normal(p) => Normal(Fetched(p, Some(used), None))
  }

  function GetPriceForUrl(url: string, fetch: string -> Reply): (r: Completion<Fetched>)
    ensures r.Normal? && r.value.error.Some? ==> r.value.price.None?
    ensures r.Normal? && r.value.error.None? ==> r.value.usedUrl.Some?
    ensures !IsSearchUrl(url) && r.Normal? && r.value.usedUrl.Some? ==> r.value.usedUrl == Some(url)
    ensures IsSearchUrl(url) && r.Normal? && r.value.usedUrl.Some? ==> Contains(r.value.usedUrl.value, ProductMarker)
    ensures !fetch(url).Response? || fetch(url).status != 200 ==> r.Normal? && r.value.error.Some? && r.value.usedUrl.None?
    ensures r.Normal? && r.value.error.None? ==>
              var u := r.value.usedUrl.value;
              fetch(u).Response? && fetch(u).status == 200 && ExtractPrice(fetch(u).page) == Normal(r.value.price)
    ensures IsSearchUrl(url) && fetch(url).Response? && fetch(url).status == 200 && r.Normal? ==>
              r.value.usedUrl == FirstProductUrl(fetch(url).page.links)
  {
    match fetch(url)
    case TransportFailure(e) => Normal(Fetched(None, None, Some("HTTP error: " + e)))
    case Response(status, page) =>
      if status != 200 then
        Normal(Fetched(None, None, Some("HTTP status " + NatToString(status))))
      else if IsSearchUrl(url) then
        match FirstProductUrl(page.links)
        case None => Normal(Fetched(None, None, Some(NoProductError)))
        case Some(prod) =>
          match fetch(prod)
          case TransportFailure(e) => Normal(Fetched(None, Some(prod), Some("prod HTTP error: " + e)))
          case Response(status2, page2) =>
            if status2 != 200 then
              Normal(Fetched(None, Some(prod), Some("prod HTTP status " + NatToString(status2))))
            else
              PriceOnPage(page2, prod)
      else
        PriceOnPage(page, url)
  }

  /** A search page without a product link gives no price, no URL and the
      "no product" error, and no second request is looked at. */
  lemma SearchWithoutProduct(url: string, fetch: string -> Reply)
    requires IsSearchUrl(url)
    requires fetch(url).Response? && fetch(url).status == 200
    requires forall i :: 0 <= i < |fetch(url).page.links| ==> !Contains(fetch(url).page.links[i], ProductMarker)
    ensures GetPriceForUrl(url, fetch) == Normal(Fetched(None, None, Some(NoProductError)))
  {
    var links := fetch(url).page.links;
    forall i | 0 <= i < |links| ensures !IsProductLink(links[i]) {
      ProductLinkIffMarker(links[i]);
    }
  }

  /** On a search page the second request goes to the first qualifying link,
      resolved; whatever it gives, that URL is reported as the one used. */
  lemma SearchUsesFirstProduct(url: string, fetch: string -> Reply, i: nat)
    requires IsSearchUrl(url)
    requires fetch(url).Response? && fetch(url).status == 200
    requires i < |fetch(url).page.links| && Contains(fetch(url).page.links[i], ProductMarker)
    requires forall j :: 0 <= j < i ==> !Contains(fetch(url).page.links[j], ProductMarker)
    ensures var prod := Resolve(Strip(fetch(url).page.links[i]));
            GetPriceForUrl(url, fetch).Normal? ==> GetPriceForUrl(url, fetch).value.usedUrl == Some(prod)
  {
    var links := fetch(url).page.links;
    ProductLinkIffMarker(links[i]);
    forall j | 0 <= j < i ensures !IsProductLink(links[j]) {
      ProductLinkIffMarker(links[j]);
    }
    assert FirstProductLink(links) == Some(i);
  }

  /** On a search page the product URL `p` is requested next: a failed or non-200
      answer is an error reported with `p` as the URL used and no price, and a
      200 answer is extracted as a product page reached at `p`. */
  lemma SearchPageExtracts(url: string, fetch: string -> Reply, p: string)
    requires IsSearchUrl(url)
    requires fetch(url).Response? && fetch(url).status == 200
    ensures FirstProductUrl(fetch(url).page.links) == Some(p) && fetch(p).TransportFailure? ==>
              GetPriceForUrl(url, fetch) == Normal(Fetched(None, Some(p), Some("prod HTTP error: " + fetch(p).reason)))
    ensures FirstProductUrl(fetch(url).page.links) == Some(p) && fetch(p).Response? && fetch(p).status != 200 ==>
              GetPriceForUrl(url, fetch) == Normal(Fetched(None, Some(p), Some("prod HTTP status " + NatToString(fetch(p).status))))
    ensures FirstProductUrl(fetch(url).page.links) == Some(p) && fetch(p).Response? && fetch(p).status == 200 ==>
              GetPriceForUrl(url, fetch) == PriceOnPage(fetch(p).page, p)
  {
  }

  /** A product page is fetched once and extracted; it is reported as the URL used. */
  lemma DirectPage(url: string, fetch: string -> Reply)
    requires !IsSearchUrl(url)
    requires fetch(url).Response? && fetch(url).status == 200
    ensures ExtractPrice(fetch(url).page).Raised? ==> GetPriceForUrl(url, fetch).Raised?
    ensures ExtractPrice(fetch(url).page).Normal? ==>
              GetPriceForUrl(url, fetch) == Normal(Fetched(ExtractPrice(fetch(url).page).value, Some(url), None))
  {
  }
}
