# Price watcher — a Dafny model of its decision core

The price watcher checks tracked product pages and sends a Telegram message
when an item's price is at or below its target. A state map keyed by the
item's URL keeps each item's last observation, so repeat alerts are held back.
This project models the parts of `finder.py` that make decisions, as pure
Dafny functions, and proves properties about them:

- **Price-string rule** (`Numeral`). A string is accepted when removing its
  first `.` leaves a non-empty run of digits. Its value is the exact decimal it
  spells. The structured-data strategy first removes narrow no-break spaces,
  no-break spaces and spaces (finder.py:76, 82); the `data-price` strategy
  applies the rule to the attribute as written, with nothing removed
  (finder.py:97).
- **Structured-data strategy** (`JsonLd`, over `Strategy.FirstDecisive`).
  JSON-LD blocks are decoded in advance; a block that failed to decode is skipped.
  Blocks and their nodes are scanned in order. A node's `offers` (an object or a
  list) come before the node's own `price`, and falsy raw prices are skipped.
  Calling `.get` on a value that is not an object raises `AttributeError`.
  Nothing in `get_price_for_url` or `process_item` catches it, so the item's
  state entry is not written; only `main` catches it and records an error
  result (finder.py:247-250). The model keeps that exception (`Thrown` /
  `Raised`).
- **Fallback strategies** (`Fallback`). These are the `data-price` attribute, a
  number before `₴` in the visible text, and a `price`/`currentPrice` field in
  the raw markup, tried in that order.
- **Strategy chain** (`Extract`). `jsonld or fallback`: a structured-data
  price of `0.0` is falsy, so the fallback decides.
- **Routing** (`Fetch`). A URL is a search page when it contains `/search` or
  `find=`. A search page is followed to its first link containing `/product/`,
  resolved against `https://silpo.ua`. `get_price_for_url` is modelled with
  every error message it can return.
- **Notify decision and state update** (`Watch`). `process_item` decides
  whether to send and then replaces the item's record wholesale. The fetch
  result, the clock and the messaging API's answer are inputs.
- **Runs** (`Runs`). These are properties of repeated runs and of several items
  that share one state map.

An HTML page appears in the model as a `Document.Page`. It holds the decoded
JSON-LD blocks, the first `data-price` value, the first currency-regex group,
the first raw-field regex number and the `href` of every link. HTTP requests
are a function from a URL to a `Fetch.Reply`.

## Model

| member | source | states |
|---|---|---|
| `Text.RemoveAll` | finder.py:76 | `str.replace(c, "")`: the result holds no `c`, no character that was not in the input, and is the input itself when `c` is absent |
| `Text.RemoveAllCounts` | finder.py:76 | every character other than `c` is kept exactly as often as it occurs |
| `Text.RemoveAllConcat` | finder.py:76 | removal works piece by piece over a concatenation, so the kept characters stay in their order |
| `Text.RemoveFirst` | finder.py:77 | `str.replace(".", "", 1)`: unchanged when the character is absent; otherwise one character shorter, the same characters less one copy of it, with everything before its first occurrence in place and everything after moved one place left |
| `Text.Strip` | finder.py:125 | `str.strip()`: the result is a slice of the input with only whitespace cut from either end, and when it is not empty it starts and ends with a non-whitespace character |
| `Text.StripKeepsContains` | finder.py:125-126 | `strip()` never changes whether a pattern with non-space ends occurs in a link |
| `Numeral.StripSpaces` | finder.py:76 | the normalisation leaves no narrow no-break space, no-break space or space, and no character that was not in the input |
| `Numeral.StripSpacesCounts` | finder.py:76 | every other character is kept exactly as often as it occurs |
| `Numeral.StripSpacesConcat` | finder.py:76 | the normalisation works piece by piece over a concatenation, so the kept characters stay in their order |
| `Numeral.NumeralIsDecimalLiteral` | finder.py:77 | the rule accepts exactly the unsigned decimal literals: digits, or digits, one point and digits, with at least one digit |
| `Numeral.ForeignCharRejected` | finder.py:97 | a string holding any character other than digits and `.` (a sign, a space, a letter) is refused |
| `Numeral.NumeralValue` | finder.py:78 | `float` of an accepted string is never negative |
| `Numeral.NumeralValueZero` | finder.py:77-78 | an accepted string parses to zero exactly when all its digits are `0` |
| `Numeral.NatNumeral` | finder.py:75-78 | `str(n)` of a natural number survives the space stripping, passes the rule and parses back to `n` |
| `Numeral.PointSplits` | finder.py:77-78 | every literal `a.b` with digit runs `a`, `b` (not both empty) is accepted and denotes `a` plus `b` over 10 to the length of `b` |
| `Numeral.NumeralRefusals` | finder.py:77 | `""`, `"-5"` and `"1.2.3"` are refused |
| `Strategy.FirstDecisive` | finder.py:62-85 | the ordered scan returns nothing exactly when every element gives nothing; otherwise it returns the outcome of some element that all earlier elements left undecided |
| `Strategy.FirstDecisiveAt` | finder.py:73-78 | conversely, the first deciding element determines the outcome |
| `Strategy.FirstDecisiveAppend` | finder.py:62-69 | a scan over a concatenation looks at the second part only when the first decided nothing |
| `Strategy.FirstSome` | finder.py:93-119 | the chained `return`s give the first strategy that yields, and no price only when none yields |
| `JsonLd.Truthy` | finder.py:71-81 | `None`, a boolean or a number is falsy exactly when it prints as `None`, `False`, `0`, `0.0` or `-0.0`; a string, list or dict exactly when it is empty |
| `JsonLd.IntToString` | finder.py:76 | `str(i)` is a sign or digit followed by digits, and is `"0"` exactly when `i` is zero |
| `JsonLd.PyStr` | finder.py:76 | a string prints as itself and a float as its JSON text; a non-negative int as its decimal digits and a negative one with a leading `-`; lists and dicts start with their bracket; `None`, booleans, lists and dicts start with a character the price rule refuses |
| `JsonLd.PriceField` | finder.py:74-78 | a `price` field never raises, and every price it yields is non-negative; how ints, strings, floats and non-scalars are read is stated by the lemmas below |
| `JsonLd.OfferScan` | finder.py:73-78 | an offer raises exactly when it is not an object, as `.get` does; an object offer is read through its `price` field, whatever other fields it has; a price it yields is non-negative |
| `JsonLd.OffersScan` | finder.py:70-78 | a missing or falsy `offers` gives nothing; a truthy one gives nothing exactly when every offer in it gives nothing; a price from `offers` is non-negative |
| `JsonLd.NodeScan` | finder.py:69-84 | a node that is not an object raises; a node's price comes from its offers, or from its own `price` only when the offers gave nothing; offers that decide always win |
| `JsonLd.BlockScan` | finder.py:63-69 | a block that failed to decode gives nothing; a block that is not a list is one node; a list block gives nothing exactly when each of its nodes does; a price from a block is non-negative |
| `JsonLd.JsonLdPrice` | finder.py:60-85 | blocks are scanned in order: no result exactly when every block gives nothing, otherwise the result of a block that all earlier blocks left undecided; never a negative price |
| `JsonLd.IntPriceField` | finder.py:75-78 | a positive JSON integer price is taken exactly; zero (falsy) and negative integers are not taken |
| `JsonLd.StringPriceField` | finder.py:75-78 | a string price depends only on whether it is empty and on its normalised text |
| `JsonLd.SpacedStringPrice` | finder.py:76-78 | a space inside a string price changes nothing: `a + " " + b` gives what `a + b` gives |
| `JsonLd.DigitGroupsPrice` | finder.py:76-78 | digit groups separated by a space, as in `"1 299"`, are read as the one number their digits spell |
| `JsonLd.ForeignCharNotPrice` | finder.py:76-77 | a raw value whose `str` holds a refused character is never a price |
| `JsonLd.OnlyScalarsArePrices` | finder.py:75-77 | `true`, `false`, `null`, lists and objects are never a price |
| `JsonLd.FirstOfferWins` | finder.py:70-84 | the first offer that decides, by a price or by raising, decides the node, whatever the node's own `price` is |
| `JsonLd.NonObjectOfferRaises` | finder.py:72-74 | a non-object offer ahead of a priced one makes the node raise |
| `JsonLd.FloatPriceField` | finder.py:75-78 | a non-zero JSON float price is read from its printed text exactly as the same text given as a string |
| `JsonLd.NodeOwnPriceUsed` | finder.py:80-84 | a node whose offers give nothing is priced by its own `price` field |
| `JsonLd.NonObjectNodeRaises` | finder.py:68-70 | a block that is a single value other than an object or a list raises, and so does the whole strategy |
| `JsonLd.ListBlockInOrder` | finder.py:68-69 | the nodes of a list block are scanned in order: the first node that decides is the block's result |
| `JsonLd.FloatZeroSkipped` | finder.py:75 | a JSON float zero, `0.0` or `-0.0`, is falsy and gives no price |
| `JsonLd.StringZeroRead` | finder.py:75-78 | the string `"0"` is truthy and is read as a price of 0 |
| `JsonLd.FalsyOfferSkipped` | finder.py:73-78 | offers `[{"price": 0.0}, {"price": n}]` with `n` positive give `n`: the falsy first price is skipped |
| `JsonLd.MalformedBlockSkipped` | finder.py:63-66 | a block that failed to decode may be removed from any position without changing the result |
| `JsonLd.EarlierBlocksFirst` | finder.py:62-85 | a later block is looked at only when every earlier block gave nothing |
| `Fallback.DataAttributeStrategy` | finder.py:93-101 | the attribute yields a price exactly when its value, as written, passes the rule; that price is its value |
| `Fallback.VisibleTextStrategy` | finder.py:105-112 | a price read from the visible text is non-negative |
| `Fallback.RawMarkupStrategy` | finder.py:116-118 | the raw-markup strategy yields a price exactly when the pattern matched, and the price is the captured number |
| `Fallback.FallbackPrice` | finder.py:87-119 | `data-price` wins when it yields; the visible text is used only when `data-price` fails; the raw markup only when both fail |
| `Fallback.CurrencyGroupAccepted` | finder.py:108-111 | any group the currency pattern can capture passes the digit check once its spaces are gone |
| `Fallback.SpacedDataPriceRefused` | finder.py:97 | a `data-price` containing a space is refused, because it is not stripped, and the later strategies decide |
| `Extract.ExtractPrice` | finder.py:162 | extraction raises exactly when the structured-data strategy raises; a non-zero structured-data price is the result; when that strategy gives nothing or zero, the result is the fallback's |
| `Extract.StructuredDataBeatsAttribute` | finder.py:162 | a positive integer price in the first offer of the only block is the result, whatever `data-price` or the page text say |
| `Extract.VisibleTextOnly` | finder.py:105-112 | with no structured data and no `data-price`, a currency group of the pattern's shape gives its digits read as a number with the spaces dropped ("1 299 ₴" gives 1299), whatever the raw markup holds |
| `Extract.ZeroStructuredPriceDropped` | finder.py:162 | a structured-data price of zero with no fallback price gives no price at all |
| `Extract.ZeroAttributePriceKept` | finder.py:97-99 | a `data-price` of `"0"` gives a price of 0 |
| `Fetch.IsSearchUrl` | finder.py:146 | every URL under `https://silpo.ua/search` is a search page |
| `Fetch.SearchUrlExamples` | finder.py:146 | a catalogue URL with `find=` is a search page; a product URL mentioning neither marker is not |
| `Fetch.SearchMarkerAnywhere` | finder.py:146 | the markers are looked for anywhere, so text added around a search URL keeps it one |
| `Fetch.ProductLinkIffMarker` | finder.py:125-126 | a link qualifies exactly when it contains `/product/`; the `startswith` test and the stripping change nothing |
| `Fetch.FirstProductLink` | finder.py:124-128 | the chosen link qualifies and no earlier link does; there is none exactly when no link qualifies |
| `Fetch.Resolve` | finder.py:127 | for the references modelled, the resolved URL ends with the reference, and a root-relative path is appended to `https://silpo.ua` |
| `Fetch.FirstProductUrl` | finder.py:121-128 | a product URL exists exactly when some link qualifies, and it contains `/product/` |
| `Fetch.PriceOnPage` | finder.py:158-159 | raises exactly when extraction raises; otherwise the price is the extraction's, the fetched URL is reported as used and there is no error |
| `Fetch.GetPriceForUrl` | finder.py:130-163 | an error always comes without a price; no error means a used URL; a direct page reports itself as used; on a search page the used URL is a product URL; a failed or non-200 first request gives an error and no URL; a result without an error means the URL used answered 200 and the price is what extraction gives for its page; on a search page that answered 200 the URL used is the first product URL |
| `Fetch.SearchWithoutProduct` | finder.py:146-149 | a search page without a `/product/` link gives `(None, None, "no-product-found-in-search")` |
| `Fetch.SearchUsesFirstProduct` | finder.py:146-155 | on a search page, the URL reported as used is the first `/product/` link, stripped and resolved |
| `Fetch.SearchPageExtracts` | finder.py:150-159 | on a search page the first product URL is requested next: a transport failure or a non-200 status gives the matching `prod` error, that URL and no price; a 200 answer is extracted as that URL's page |
| `Fetch.DirectPage` | finder.py:161-163 | a product page is extracted once and reported as the URL used |
| `Watch.DisplayName` | finder.py:167 | a missing or empty name falls back to the URL |
| `Watch.Target` | finder.py:169 | a missing target reads as 0 |
| `Watch.Previous` | finder.py:184 | the previous record is there exactly when the URL has an entry, and it is that entry |
| `Watch.NoTargetNoAlert` | finder.py:169-199 | an item without a target is never sent for at a positive price |
| `Watch.ShouldNotify` | finder.py:190-199 | a send requires a price at or below target; an item never notified, or a record with `notified` false, is sent for; a record with `notified` true and no `notified_price` is never sent for; a price at or above the notified price is not sent again; a price below it is sent for whatever `notified` says |
| `Watch.ProcessItem` | finder.py:166-228 | the new state is the old one with only the item's URL entry written; the new record is built from this run alone: `notified` is the send outcome (false without a send); `notified_price` and `notified_at` are this price and this time exactly when a send succeeded, and otherwise absent; `price` and `error` come from this fetch; a send is attempted exactly when the decision says so |
| `Watch.CheckItem` | finder.py:170 | an exception from fetching and extraction propagates exactly when `get_price_for_url` raises, and no state is written |
| `Runs.Rerun` | finder.py:218 | repeated runs of one item add only its URL to the state and leave every other entry as it was |
| `Runs.RerunKeepsConsistent` | finder.py:206-227 | starting from a consistent state, after any runs every record's notification fields still agree: all set from a successful send of its own price, or all clear |
| `Runs.OneRunAtPrice` | finder.py:193-210 | one qualifying run whose send succeeds flips `notified`; after a send it records the price |
| `Runs.AlternatingState` | finder.py:193-227 | with a fixed qualifying price and successful sends, `notified` is set after an odd number of runs and clear after an even number |
| `Runs.AlternatingAttempts` | finder.py:193-206 | under the same conditions, run `i` sends exactly when `i` is even |
| `Runs.ThirdRunSendsAgain` | finder.py:198-223 | a send, then a silent run that stores `notified=false`, then a send again |
| `Runs.NoRepeatAfterSuccess` | finder.py:193-198 | after a successful send at `p`, the next run at `p` or above does not send |
| `Runs.FailedSendRetried` | finder.py:206-223 | after a failed send, the next run at any qualifying price retries |
| `Runs.RecordDependsOnPrevious` | finder.py:183-227 | the record written depends on the rest of the state only through the item's own previous entry |
| `Runs.TwoWrites` | finder.py:183-227 | processing one item and then another with a different URL writes each item's record as if it had been processed first |
| `Runs.DistinctItemsCommute` | finder.py:183-184 | two items with different URLs produce the same state in either order |
| `Runs.PhoneScenario` | finder.py:190-227 | target 500, price 450, no prior record: notified with `notified_price` 450; the next run at 450 sends nothing |
| `Runs.ProductPageAtTarget` | finder.py:130-227 | a product page with a non-zero structured-data price at or below target, for a new item, triggers a send, and a successful send records that price |

## Behaviour worth knowing

- A failed send stores `notified = false` (finder.py:206, 223), so the next
  run with a qualifying price retries (`Runs.FailedSendRetried`).
- `notified_price` is not the lowest price ever announced. Every run without
  a successful send clears it (finder.py:224-225). As a result, at a constant
  qualifying price every second run sends again (`Runs.AlternatingAttempts`).
- The fallback can return a price of `0.0`, from a `data-price` of `"0"`
  (finder.py:97-99), and that price reaches the decision
  (`Extract.ZeroAttributePriceKept`).
- A JSON-LD node or offer that is not an object raises `AttributeError` at
  finder.py:70 or 74. Blocks that fail to decode are skipped (finder.py:64-66),
  but this exception is caught by neither `get_price_for_url` nor
  `process_item` (`JsonLd.NonObjectNodeRaises`, `JsonLd.FirstOfferWins`,
  `JsonLd.NonObjectOfferRaises`, `Watch.CheckItem`).

## Left out

- HTTP fetching, the session and its headers, `time.sleep`, timeouts and
  `WORKERS`: these are I/O. The outcome of each GET is an input (`Fetch.Reply`).
- `send_telegram` and all of `check_bot.py`: these wrap a remote API. The send
  outcome is an input (`Watch.SendOutcome`). The missing-credential short cut is
  not modelled.
- BeautifulSoup parsing, `soup.get_text()` with its normalisation, `json.loads`
  and the two regular-expression searches: these are library behaviour. Their
  outputs are the fields of `Document.Page`.
- `main`: the thread pool, result aggregation, console logging, loading and
  saving JSON files, and the run summary. Only the per-item behaviour and the
  commutation of distinct items are modelled.
- `time.time()`: the clock reading is a parameter.
- Message formatting (finder.py:203-204): text only, with no effect on state.
- Binary floating point: prices are exact rationals, so rounding in `float()`
  is not modelled.
- Unicode digits: `str.isdigit`, `\d` and `float` accept non-ASCII digits, and
  `float` rejects some that `isdigit` accepts (so the `except ValueError` at
  finder.py:100-101 is unreachable here). Only ASCII digits are modelled.
- JSON floats are their `str()` text as given (`JsonLd.JFloat`). Lists and
  dicts print as a bracket only, which is all the price rule looks at.
- `Fetch.Resolve` models `urljoin` against `https://silpo.ua` for scheme-bearing,
  network-path, root-relative, query, fragment and relative references. It
  does not model dot-segment removal, `https:` references without an
  authority, the lower-casing of the scheme (`HTTPS://…`), the removal of tab,
  CR and LF characters, the dropping of an empty `?` or `#`, or the dropping
  of empty segments from relative paths (`a//product/1`). For such references
  the model's result ends with the reference, but `urljoin`'s does not.
- `Fetch.GetPriceForUrl`: the requests are one pure function from URL to reply.
  If the first product link resolves to the search URL itself, the model gives
  the second request the same reply as the first, whereas the code makes two
  independent GETs. No property here depends on that case.
- Exceptions from `item["url"]` on an item without a URL, and from
  `float(target_price)` on a non-numeric target: the model's item always has a
  URL, and its target is a number or missing.
