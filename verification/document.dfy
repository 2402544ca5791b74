/** A fetched page as the extraction and routing code sees it, once HTML parsing
    and the regular-expression scans have been done by their libraries. */
module Document {
  import opened Options
  import opened JsonLd

  /** The raw-markup pattern captures one to six digits. */
  type SixDigits = n: nat | n < 1000000

  datatype Page = Page(
    /** `<script type="application/ld+json">` blocks in document order, each
        decoded, or `None` when `json.loads` refused it; an empty block
        decodes as the empty object. */
    jsonLd: seq<Option<Json>>,
    /** The `data-price` attribute of the first element carrying one. */
    dataPrice: Option<string>,
    /** Group 1 of the first currency match `(\d{1,3}(?:[ \d]{0,6}))\s*₴` in the
        normalised visible text. */
    currencyMatch: Option<string>,
    /** The number captured by the first `"price"`/`"currentPrice"` match in the
        raw markup. */
    rawMatch: Option<SixDigits>,
    /** `href` of every `<a href>` in document order, as written. */
    links: seq<string>)
}
