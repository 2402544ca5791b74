/** The structured-data strategy, `extract_price_from_jsonld` (finder.py:60-85),
    over JSON-LD blocks that have already been decoded. A block that failed to
    decode is `None` and is skipped. Only objects have `.get`: meeting any other
    value where the code calls `.get` raises `AttributeError`, which neither
    `get_price_for_url` nor `process_item` catches, so it is modelled as `Thrown`. */
module JsonLd {
  import opened Options
  import opened Text
  import opened Numeral
  import opened Strategy

  /** A value produced by `json.loads`. A float keeps the text Python's `str`
      gives for it (`"0.0"`, `"1299.5"`, `"1e+16"`). */
  datatype Json =
    | JNull
    | JBool(b: bool)
    | JInt(i: int)
    | JFloat(repr: string)
    | JStr(s: string)
    | JArr(items: seq<Json>)
    | JObj(fields: map<string, Json>)

  /** Python truthiness; the only float spellings of zero are `0.0` and `-0.0`.
      A number, `None` or a boolean is falsy exactly when it prints as a zero,
      `None` or `False`; a string or container exactly when it is empty. */
  function Truthy(v: Json): (t: bool)
    ensures v.JNull? || v.JBool? || v.JInt? ==> (t <==> PyStr(v) !in {"None", "False", "0"})
    ensures v.JFloat? ==> (t <==> PyStr(v) !in {"0.0", "-0.0"})
    ensures v.JStr? ==> (t <==> PyStr(v) != "")
    ensures v.JArr? ==> (t <==> v.items != [])
    ensures v.JObj? ==> (t <==> v.fields != map[])
  {
    match v
    case JNull => false
    case JBool(b) => b
    case JInt(i) =>
      var s := IntToString(i);
      assert s != "None" && s != "False" by { assert s[0] != 'N' && s[0] != 'F'; }
      i != 0
    case JFloat(repr) => repr != "0.0" && repr != "-0.0"
    case JStr(s) => |s| > 0
    case JArr(items) => |items| > 0
    case JObj(fields) => |fields| > 0
  }

  /** `str(i)` of a Python integer. */
  function IntToString(i: int): (s: string)
    ensures i < 0 ==> |s| > 0 && s[0] == '-'
    ensures |s| > 0 && (IsDigit(s[0]) || s[0] == '-')
    ensures forall k :: 0 < k < |s| ==> IsDigit(s[k])
    ensures s == "0" <==> i == 0
  {
    if i < 0 then
      var t := NatToString(-i);
      assert forall k :: 0 < k < |t| + 1 ==> ("-" + t)[k] == t[k - 1];
      "-" + t
    else
      assert i == 0 ==> NatToString(i) == "0";
      NatToString(i)
  }

  /** Python's `str(v)`. A list or dict prints with a leading bracket and only that
      bracket matters to the price rule, so the contents are not spelled out. */
  function PyStr(v: Json): (s: string)
    ensures v.JStr? ==> s == v.s
    ensures v.JFloat? ==> s == v.repr
    ensures v.JInt? ==> (v.i >= 0 ==> s == NatToString(v.i)) && (v.i < 0 ==> |s| > 0 && s[0] == '-')
    ensures v.JArr? || v.JObj? ==> |s| > 0 && s[0] in {'[', '{'}
    ensures !v.JInt? && !v.JFloat? && !v.JStr? ==>
              |s| > 0 && s[0] != '.' && !IsDigit(s[0])
              && s[0] != NarrowNoBreakSpace && s[0] != NoBreakSpace && s[0] != ' '
  {
    match v
    case JNull => "None"
    case JBool(b) => if b then "True" else "False"
    case JInt(i) => IntToString(i)
    case JFloat(repr) => repr
    case JStr(s) => s
    case JArr(_) => "[...]"
    case JObj(_) => "{...}"
  }

  /** `d.get(key)` on an object. */
  function Get(fields: map<string, Json>, key: string): Option<Json> {
    if key in fields then Some(fields[key]) else None
  }

  /** `x if isinstance(x, list) else [x]`. */
  function AsList(v: Json): seq<Json> {
    if v.JArr? then v.items else [v]
  }

  /** One `price` field: skipped when falsy, otherwise accepted when its
      space-stripped `str` passes the numeral rule. */
  function PriceField(raw: Option<Json>): (r: Scan)
    ensures r != Thrown
    ensures r.Found? ==> r.price >= 0.0
  {
    if raw.Some? && Truthy(raw.value) && IsPriceNumeral(StripSpaces(PyStr(raw.value))) then
      Found(NumeralValue(StripSpaces(PyStr(raw.value))))
    else
      NotFound
  }

  /** One entry of `offers`. */
  function OfferScan(off: Json): (r: Scan)
    ensures r.Found? ==> r.price >= 0.0
    ensures r == Thrown <==> !off.JObj?
    ensures off.JObj? ==> r == PriceField(Get(off.fields, "price"))
  {
    if off.JObj? then PriceField(Get(off.fields, "price")) else Thrown
  }

  /** What the `offers` field of a node gives: nothing when absent or falsy. */
  function OffersScan(fields: map<string, Json>): (r: Scan)
    ensures r.Found? ==> r.price >= 0.0
    ensures "offers" !in fields || !Truthy(fields["offers"]) ==> r == NotFound
    ensures "offers" in fields && Truthy(fields["offers"]) ==>
              (r == NotFound <==> forall i :: 0 <= i < |AsList(fields["offers"])| ==> OfferScan(AsList(fields["offers"])[i]) == NotFound)
  {
    var offers := Get(fields, "offers");
    if offers.Some? && Truthy(offers.value) then FirstDecisive(AsList(offers.value), OfferScan) else NotFound
  }

  /** One node: its offers first, its own `price` only when they give nothing. */
  function NodeScan(node: Json): (r: Scan)
    ensures r.Found? ==>
              && node.JObj?
              && (OffersScan(node.fields) == r
                  || (OffersScan(node.fields) == NotFound && PriceField(Get(node.fields, "price")) == r))
    ensures node.JObj? && OffersScan(node.fields) != NotFound ==> r == OffersScan(node.fields)
    ensures !node.JObj? ==> r == Thrown
    ensures r.Found? ==> r.price >= 0.0
  {
    if !node.JObj? then Thrown
    else
      var fromOffers := OffersScan(node.fields);
      if fromOffers != NotFound then fromOffers else PriceField(Get(node.fields, "price"))
  }

  /** One `<script type="application/ld+json">` block: an object or a list of them. */
  function BlockScan(block: Option<Json>): (r: Scan)
    ensures r.Found? ==> r.price >= 0.0
    ensures block.None? ==> r == NotFound
    ensures block.Some? && !block.value.JArr? ==> r == NodeScan(block.value)
    ensures block.Some? && block.value.JArr? ==>
              (r == NotFound <==> forall i :: 0 <= i < |block.value.items| ==> NodeScan(block.value.items[i]) == NotFound)
  {
    match block
    case None => NotFound
    case Some(data) => FirstDecisive(AsList(data), NodeScan)
  }

  /** `extract_price_from_jsonld`: blocks in document order. */
  function JsonLdPrice(blocks: seq<Option<Json>>): (r: Scan)
    ensures r.Found? ==> r.price >= 0.0
    ensures r == NotFound <==> forall i :: 0 <= i < |blocks| ==> BlockScan(blocks[i]) == NotFound
    ensures r != NotFound ==>
      exists i :: 0 <= i < |blocks| && BlockScan(blocks[i]) == r && forall j :: 0 <= j < i ==> BlockScan(blocks[j]) == NotFound
  {
    FirstDecisive(blocks, BlockScan)
  }

  /** A positive JSON integer price is taken exactly; zero is falsy and a
      negative one fails the rule, so neither is taken. */
  lemma IntPriceField(i: int)
    ensures i > 0 ==> PriceField(Some(JInt(i))) == Found(i as real)
    ensures i <= 0 ==> PriceField(Some(JInt(i))) == NotFound
  {
    if i > 0 {
      NatNumeral(i);
    } else if i < 0 {
      var s := StripSpaces(IntToString(i));
      assert '-' in s by { assert IntToString(i)[0] == '-'; }
      ForeignCharRejected(s, '-');
    }
  }

  /** A string price depends only on whether it is empty and on its normalised text. */
  lemma StringPriceField(x: string)
    ensures PriceField(Some(JStr(x))) ==
              if |x| > 0 && IsPriceNumeral(StripSpaces(x)) then Found(NumeralValue(StripSpaces(x))) else NotFound
  {
  }

  /** A space inside a string price is dropped before the rule is applied. */
  lemma SpacedStringPrice(a: string, b: string)
    ensures PriceField(Some(JStr(a + " " + b))) == PriceField(Some(JStr(a + b)))
  {
    var x, y := a + " " + b, a + b;
    StripSpacesConcat(a + " ", b);
    StripSpacesConcat(a, " ");
    StripSpacesConcat(a, b);
    var blank := StripSpaces(" ");
    assert blank == [] by { assert ' ' !in blank; }
    assert StripSpaces(a) + blank == StripSpaces(a);
    assert StripSpaces(x) == StripSpaces(y);
    StringPriceField(x);
    StringPriceField(y);
    if |y| == 0 {
      assert !IsDigits(RemoveFirst([], '.'));
    }
  }

  /** Digit groups split by a space, as in `"1 299"`, are read as one number. */
  lemma DigitGroupsPrice(a: string, b: string)
    requires AllDigits(a) && AllDigits(b) && |a| + |b| > 0
    ensures PriceField(Some(JStr(a + " " + b))) == Found(DigitsValue(a + b) as real)
  {
    SpacedStringPrice(a, b);
    AllDigitsConcat(a, b);
    var s := a + b;
    assert forall i :: 0 <= i < |s| ==> IsDigit(s[i]);
    assert '.' !in s && ' ' !in s && NarrowNoBreakSpace !in s && NoBreakSpace !in s;
    assert StripSpaces(s) == s;
    StringPriceField(s);
    assert RemoveFirst(s, '.') == s;
  }

  /** A value whose `str` holds a character the rule refuses is never a price. */
  lemma ForeignCharNotPrice(v: Json, x: char)
    requires x in PyStr(v) && x != '.' && !IsDigit(x)
    requires x != NarrowNoBreakSpace && x != NoBreakSpace && x != ' '
    ensures PriceField(Some(v)) == NotFound
  {
    ForeignCharRejected(StripSpaces(PyStr(v)), x);
  }

  /** Booleans, null, lists and objects are never a price. */
  lemma OnlyScalarsArePrices(v: Json)
    requires !v.JInt? && !v.JFloat? && !v.JStr?
    ensures PriceField(Some(v)) == NotFound
  {
    match v
    case JNull =>
    case JBool(b) =>
      if b { assert PyStr(v)[0] == 'T'; ForeignCharNotPrice(v, 'T'); }
    case JArr(_) =>
      assert PyStr(v)[0] == '['; ForeignCharNotPrice(v, '[');
    case JObj(_) =>
      assert PyStr(v)[0] == '{'; ForeignCharNotPrice(v, '{');
  }

  /** Within a node, the first offer that gives a price wins, whatever the
      node's own `price` says. */
  lemma {:induction false} FirstOfferWins(fields: map<string, Json>, k: nat)
    requires "offers" in fields && Truthy(fields["offers"])
    requires k < |AsList(fields["offers"])| && OfferScan(AsList(fields["offers"])[k]) != NotFound
    requires forall j :: 0 <= j < k ==> OfferScan(AsList(fields["offers"])[j]) == NotFound
    ensures NodeScan(JObj(fields)) == OfferScan(AsList(fields["offers"])[k])
  {
    FirstDecisiveAt(AsList(fields["offers"]), OfferScan, k);
  }

  /** An offer that is not an object raises at `.get` even when a priced offer
      follows it: `["x", {"price": n}]` makes the node raise. */
  lemma NonObjectOfferRaises(x: string, n: int)
    ensures NodeScan(JObj(map["offers" := JArr([JStr(x), JObj(map["price" := JInt(n)])])])) == Thrown
  {
    var fields := map["offers" := JArr([JStr(x), JObj(map["price" := JInt(n)])])];
    assert Truthy(fields["offers"]);
    assert OfferScan(AsList(fields["offers"])[0]) == Thrown;
    FirstOfferWins(fields, 0);
  }

  /** A JSON float price other than zero is read from its printed form exactly
      as the same text given as a string would be. */
  lemma FloatPriceField(repr: string)
    requires repr != "0.0" && repr != "-0.0"
    ensures PriceField(Some(JFloat(repr))) == PriceField(Some(JStr(repr)))
  {
    var f, s := JFloat(repr), JStr(repr);
    assert PyStr(f) == PyStr(s) == repr;
    assert Truthy(f);
    if |repr| == 0 {
      assert !IsDigits(RemoveFirst(StripSpaces(repr), '.'));
    } else {
      assert Truthy(s);
    }
  }

  /** A node whose offers give nothing is priced by its own `price` field. */
  lemma NodeOwnPriceUsed(fields: map<string, Json>)
    requires OffersScan(fields) == NotFound
    ensures NodeScan(JObj(fields)) == PriceField(Get(fields, "price"))
  {
  }

  /** A block that is a single value other than an object or a list makes the
      whole strategy raise, since `.get` is called on it. */
  lemma NonObjectNodeRaises(v: Json)
    requires !v.JObj? && !v.JArr?
    ensures NodeScan(v) == Thrown
    ensures JsonLdPrice([Some(v)]) == Thrown
  {
    FirstDecisiveAt([v], NodeScan, 0);
    FirstDecisiveAt([Some(v)], BlockScan, 0);
  }

  /** The nodes of a list block are scanned in order: the first node that
      decides is the block's result. */
  lemma ListBlockInOrder(items: seq<Json>, i: nat)
    requires i < |items| && NodeScan(items[i]) != NotFound
    requires forall j :: 0 <= j < i ==> NodeScan(items[j]) == NotFound
    ensures BlockScan(Some(JArr(items))) == NodeScan(items[i])
  {
    FirstDecisiveAt(items, NodeScan, i);
  }

  /** A float zero is falsy and skipped, whichever its sign. */
  lemma FloatZeroSkipped()
    ensures PriceField(Some(JFloat("0.0"))) == NotFound
    ensures PriceField(Some(JFloat("-0.0"))) == NotFound
  {
    assert !Truthy(JFloat("0.0")) && !Truthy(JFloat("-0.0"));
  }

  /** The string `"0"`, by contrast, is truthy and read as 0. */
  lemma StringZeroRead()
    ensures PriceField(Some(JStr("0"))) == Found(0.0)
  {
    NatNumeral(0);
    assert NatToString(0) == "0";
    StringPriceField("0");
  }

  /** Offers `[{"price": 0.0}, {"price": n}]` with `n` positive give `n`: the
      falsy first price is skipped, not taken as 0. */
  lemma FalsyOfferSkipped(n: int)
    requires n > 0
    ensures NodeScan(JObj(map["offers" := JArr([JObj(map["price" := JFloat("0.0")]), JObj(map["price" := JInt(n)])])]))
            == Found(n as real)
  {
    var zero, priced := JObj(map["price" := JFloat("0.0")]), JObj(map["price" := JInt(n)]);
    var fields := map["offers" := JArr([zero, priced])];
    assert OfferScan(zero) == NotFound by {
      FloatZeroSkipped();
      assert Get(zero.fields, "price") == Some(JFloat("0.0"));
    }
    assert OfferScan(priced) == Found(n as real) by {
      IntPriceField(n);
      assert Get(priced.fields, "price") == Some(JInt(n));
    }
    assert AsList(fields["offers"]) == [zero, priced];
    FirstOfferWins(fields, 1);
  }

  /** Blocks that failed to decode are skipped wherever they stand. */
  lemma MalformedBlockSkipped(before: seq<Option<Json>>, after: seq<Option<Json>>)
    ensures JsonLdPrice(before + [None] + after) == JsonLdPrice(before + after)
  {
    FirstDecisiveAppend(before + [None], after, BlockScan);
    FirstDecisiveAppend(before, [None], BlockScan);
    FirstDecisiveAppend(before, after, BlockScan);
  }

  /** Blocks are searched in document order: a later block is consulted only
      when every earlier one gave nothing. */
  lemma EarlierBlocksFirst(before: seq<Option<Json>>, after: seq<Option<Json>>)
    ensures JsonLdPrice(before) != NotFound ==> JsonLdPrice(before + after) == JsonLdPrice(before)
    ensures JsonLdPrice(before) == NotFound ==> JsonLdPrice(before + after) == JsonLdPrice(after)
  {
    FirstDecisiveAppend(before, after, BlockScan);
  }
}
