/** The notify decision and state update of `process_item` (finder.py:166-228).
    The fetch outcome, the clock and the messaging API's answer are inputs; the
    state is the in-memory map from tracked URL to its last observation. */
module Watch {
  import opened Options
  import opened Fetch

  /** An entry of the item list: `name` and `target_price` may be missing. */
  datatype TrackedItem = TrackedItem(name: Option<string>, url: string, targetPrice: Option<real>)

  /** The record stored under an item's URL. */
  datatype Observation = Observation(
    name: string,
    url: string,
    checkedAt: int,
    price: Option<real>,
    notified: bool,
    notifiedAt: Option<int>,
    notifiedPrice: Option<real>,
    error: Option<string>)

  type State = map<string, Observation>

  /** What the messaging API answered: HTTP 200 or not, and the response text. */
  datatype SendOutcome = SendOutcome(ok: bool, response: string)

  /** The per-item result dictionary. A field the code never sets is `None`. */
  datatype RunResult = RunResult(
    name: string,
    url: string,
    checkedAt: int,
    price: Option<real>,
    usedUrl: Option<string>,
    error: Option<string>,
    notified: bool,
    notifyResp: Option<string>,
    notifiedAt: Option<int>,
    notifiedPrice: Option<real>,
    notifyError: Option<string>)

  /** One processed item: its result and the state afterwards. */
  datatype Step = Step(result: RunResult, state: State)

  /** `item.get("name") or item.get("url")`: a missing or empty name falls back to the URL. */
  function DisplayName(item: TrackedItem): (n: string)
    ensures item.name.Some? && item.name.value != "" ==> n == item.name.value
    ensures item.name.None? || item.name.value == "" ==> n == item.url
  {
    if item.name.Some? && |item.name.value| > 0 then item.name.value else item.url
  }

  /** `float(item.get("target_price", 0))`: a missing target reads as 0. */
  function Target(item: TrackedItem): (t: real)
    ensures item.targetPrice.None? ==> t == 0.0
    ensures item.targetPrice.Some? ==> t == item.targetPrice.value
  {
    item.targetPrice.GetOr(0.0)
  }

  /** `state.get(url, {})`: the previous observation, if any. */
  function Previous(state: State, url: string): (prev: Option<Observation>)
    ensures prev.Some? <==> url in state
    ensures prev.Some? ==> prev.value == state[url]
  {
    if url in state then Some(state[url]) else None
  }

  /** Whether a message is sent this run. A missing record reads as "not notified". */
  function ShouldNotify(prev: Option<Observation>, price: Option<real>, target: real): (send: bool)
    ensures send ==> price.Some? && price.value <= target
    ensures price.Some? && price.value <= target && (prev.None? || !prev.value.notified) ==> send
    ensures prev.Some? && prev.value.notified && prev.value.notifiedPrice.None? ==> !send
    ensures (prev.Some? && prev.value.notified && prev.value.notifiedPrice.Some? && price.Some?
             && price.value >= prev.value.notifiedPrice.value) ==> !send
    ensures (prev.Some? && prev.value.notifiedPrice.Some? && price.Some? && price.value <= target
             && price.value < prev.value.notifiedPrice.value) ==> send
  {
    if price.None? then false
    else
      var prevNotified := prev.Some? && prev.value.notified;
      var prevNotifiedPrice := if prev.Some? then prev.value.notifiedPrice else None;
      if price.value <= target then
        !prevNotified || (prevNotifiedPrice.Some? && price.value < prevNotifiedPrice.value)
      else
        false
  }

  /** `process_item` once `get_price_for_url` has returned `fetched`, with `now`
      the clock reading and `sent` what the messaging API would answer. */
  function ProcessItem(item: TrackedItem, state: State, fetched: Fetched, now: int, sent: SendOutcome): (s: Step)
    // the entry for the item's URL is written; no other entry changes
    ensures s.state.Keys == state.Keys + {item.url}
    ensures forall k :: k in state && k != item.url ==> s.state[k] == state[k]
    ensures s.state == state[item.url := s.state[item.url]]
    // the record is built from this run alone
    ensures var send := ShouldNotify(Previous(state, item.url), fetched.price, Target(item));
            var rec := s.state[item.url];
            && rec.notified == (send && sent.ok)
            && (rec.notified ==> rec.notifiedPrice == fetched.price && rec.notifiedAt == Some(now))
            && (!rec.notified ==> rec.notifiedPrice.None? && rec.notifiedAt.None?)
            && rec.price == fetched.price && rec.error == fetched.error && rec.checkedAt == now
            && rec.url == item.url && rec.name == DisplayName(item)
    // a send is attempted exactly when the decision says so
    ensures s.result.notifyResp.Some? <==> ShouldNotify(Previous(state, item.url), fetched.price, Target(item))
    ensures s.result.notifyError.Some? <==> s.result.notifyResp.Some? && !s.result.notified
    ensures s.result.notified == s.state[item.url].notified
  {
    var name := DisplayName(item);
    var send := ShouldNotify(Previous(state, item.url), fetched.price, Target(item));
    var ok := send && sent.ok;
    var result := RunResult(
      name, item.url, now, fetched.price, fetched.usedUrl, fetched.error,
      ok,
      if send then Some(sent.response) else None,
      if ok then Some(now) else None,
      if ok then fetched.price else None,
      if send && !sent.ok then Some(sent.response) else None);
    var record := Observation(
      name, item.url, now, fetched.price, result.notified, result.notifiedAt, result.notifiedPrice, fetched.error);
    Step(result, state[item.url := record])
  }

  /** The whole item: fetch, then decide and record. An exception from
      extraction leaves `process_item` before the state is written. */
  function CheckItem(item: TrackedItem, state: State, fetch: string -> Reply, now: int, sent: SendOutcome)
    : (r: Completion<Step>)
    ensures r.Raised? <==> GetPriceForUrl(item.url, fetch).Raised?
    ensures r.Normal? ==> r.value == ProcessItem(item, state, GetPriceForUrl(item.url, fetch).value, now, sent)
  {
    match GetPriceForUrl(item.url, fetch)
    case Raised => Raised
    case Normal(fetched) => Normal(ProcessItem(item, state, fetched, now, sent))
  }

  /** An item without a target is never sent for at a positive price. */
  lemma NoTargetNoAlert(item: TrackedItem, prev: Option<Observation>, p: real)
    requires item.targetPrice.None? && p > 0.0
    ensures !ShouldNotify(prev, Some(p), Target(item))
  {
  }
}
