/** Consequences of the notify policy over several runs of the watcher, and
    over several items sharing one state map. */
module Runs {
  import opened Options
  import opened Strategy
  import opened JsonLd
  import opened Fetch
  import opened Watch

  /** A stored record's notification fields agree with each other: they are all
      set by a successful send of this record's own price, or all clear. */
  predicate Consistent(o: Observation) {
    && (o.notified <==> o.notifiedAt.Some?)
    && (o.notified <==> o.notifiedPrice.Some?)
    && (o.notified ==> o.price.Some? && o.notifiedPrice == o.price)
  }

  predicate StateConsistent(state: State) {
    forall k :: k in state ==> Consistent(state[k])
  }

  /** The inputs of one run for one item. */
  datatype RunInput = RunInput(fetched: Fetched, now: int, sent: SendOutcome)

  /** The state after the item has been processed once per input, in order. */
  function Rerun(item: TrackedItem, state: State, runs: seq<RunInput>): (s: State)
    ensures s.Keys == if |runs| == 0 then state.Keys else state.Keys + {item.url}
    ensures |runs| > 0 ==> item.url in s
    ensures forall k :: k in state && k != item.url ==> s[k] == state[k]
    decreases |runs|
  {
    if |runs| == 0 then state
    else
      var r := runs[|runs| - 1];
      ProcessItem(item, Rerun(item, state, runs[..|runs| - 1]), r.fetched, r.now, r.sent).state
  }

  /** Whatever the runs, every record stays consistent. */
  lemma {:induction false} RerunKeepsConsistent(item: TrackedItem, state: State, runs: seq<RunInput>)
    requires StateConsistent(state)
    ensures StateConsistent(Rerun(item, state, runs))
    decreases |runs|
  {
    if |runs| > 0 {
      var before := Rerun(item, state, runs[..|runs| - 1]);
      RerunKeepsConsistent(item, state, runs[..|runs| - 1]);
      var r := runs[|runs| - 1];
      var after := ProcessItem(item, before, r.fetched, r.now, r.sent).state;
      assert after == Rerun(item, state, runs);
      forall k | k in after ensures Consistent(after[k]) {
        if k != item.url {
          assert after[k] == before[k];
        }
      }
    }
  }

  /** Whether run `i` of the sequence attempts a send. */
  function Attempted(item: TrackedItem, state: State, runs: seq<RunInput>, i: nat): bool
    requires i < |runs|
  {
    ShouldNotify(Previous(Rerun(item, state, runs[..i]), item.url), runs[i].fetched.price, Target(item))
  }

  /** A run at price `p` whose send succeeds. */
  predicate SucceedsAt(r: RunInput, p: real) {
    r.fetched.price == Some(p) && r.sent.ok
  }

  /** One run at a qualifying price `p` whose send succeeds flips the stored
      flag: it sends and records `p` when the record was not notified, and
      sends nothing and clears the record when it was notified at `p`. */
  lemma OneRunAtPrice(item: TrackedItem, st: State, r: RunInput, p: real)
    requires p <= Target(item) && SucceedsAt(r, p)
    requires item.url !in st || !st[item.url].notified || st[item.url].notifiedPrice == Some(p)
    ensures var was := item.url in st && st[item.url].notified;
            var after := ProcessItem(item, st, r.fetched, r.now, r.sent).state[item.url];
            && ShouldNotify(Previous(st, item.url), Some(p), Target(item)) == !was
            && after.notified == !was
            && (!was ==> after.notifiedPrice == Some(p))
  {
  }

  /** Re-running at one qualifying price with every send succeeding alternates
      the stored flag: set after an odd number of runs, clear after an even one. */
  lemma {:induction false} AlternatingState(item: TrackedItem, state: State, runs: seq<RunInput>, p: real)
    requires p <= Target(item)
    requires item.url !in state || !state[item.url].notified
    requires forall i :: 0 <= i < |runs| ==> SucceedsAt(runs[i], p)
    ensures var st := Rerun(item, state, runs);
            (item.url !in st || st[item.url].notified == (|runs| % 2 == 1))
            && (item.url in st && st[item.url].notified ==> st[item.url].notifiedPrice == Some(p))
    decreases |runs|
  {
    if |runs| > 0 {
      var n := |runs| - 1;
      var init := runs[..n];
      assert forall i :: 0 <= i < |init| ==> SucceedsAt(init[i], p) by {
        forall i | 0 <= i < |init| ensures SucceedsAt(init[i], p) { assert init[i] == runs[i]; }
      }
      AlternatingState(item, state, init, p);
      var before := Rerun(item, state, init);
      var r := runs[n];
      OneRunAtPrice(item, before, r, p);
      var was := item.url in before && before[item.url].notified;
      assert was == (n % 2 == 1);
      assert (|runs| % 2 == 1) == !(n % 2 == 1);
      var st := Rerun(item, state, runs);
      assert st == ProcessItem(item, before, r.fetched, r.now, r.sent).state;
      assert st[item.url].notified == !was;
      assert !was ==> st[item.url].notifiedPrice == Some(p);
    }
  }

  /** Hence run `i` (counting from 0) sends exactly when `i` is even. */
  lemma AlternatingAttempts(item: TrackedItem, state: State, runs: seq<RunInput>, p: real, i: nat)
    requires p <= Target(item)
    requires item.url !in state || !state[item.url].notified
    requires forall j :: 0 <= j < |runs| ==> SucceedsAt(runs[j], p)
    requires i < |runs|
    ensures Attempted(item, state, runs, i) == (i % 2 == 0)
  {
    var prefix := runs[..i];
    assert forall j :: 0 <= j < |prefix| ==> prefix[j] == runs[j];
    AlternatingState(item, state, prefix, p);
    var before := Rerun(item, state, prefix);
    OneRunAtPrice(item, before, runs[i], p);
  }

  /** The three-run pattern at one price: the second run sends nothing and
      stores `notified = false`, so the third sends again. */
  lemma ThirdRunSendsAgain(item: TrackedItem, state: State, runs: seq<RunInput>, p: real)
    requires p <= Target(item)
    requires item.url !in state
    requires |runs| == 3 && forall i :: 0 <= i < 3 ==> SucceedsAt(runs[i], p)
    ensures Attempted(item, state, runs, 0)
    ensures !Attempted(item, state, runs, 1)
    ensures !Rerun(item, state, runs[..2])[item.url].notified
    ensures Attempted(item, state, runs, 2)
  {
    AlternatingAttempts(item, state, runs, p, 0);
    AlternatingAttempts(item, state, runs, p, 1);
    AlternatingAttempts(item, state, runs, p, 2);
    var prefix := runs[..2];
    assert forall j :: 0 <= j < 2 ==> prefix[j] == runs[j];
    AlternatingState(item, state, prefix, p);
  }

  /** After a successful send at `p`, no later run at `p` or above sends. */
  lemma NoRepeatAfterSuccess(item: TrackedItem, state: State, fetched: Fetched, now: int, sent: SendOutcome, q: real)
    requires ShouldNotify(Previous(state, item.url), fetched.price, Target(item)) && sent.ok
    requires q >= fetched.price.value
    ensures !ShouldNotify(Previous(ProcessItem(item, state, fetched, now, sent).state, item.url), Some(q), Target(item))
  {
  }

  /** A failed send stores `notified = false`, so the next run at any qualifying
      price tries again. */
  lemma FailedSendRetried(item: TrackedItem, state: State, fetched: Fetched, now: int, sent: SendOutcome, q: real)
    requires !sent.ok
    requires q <= Target(item)
    ensures ShouldNotify(Previous(ProcessItem(item, state, fetched, now, sent).state, item.url), Some(q), Target(item))
  {
  }

  /** The record written depends on the rest of the state only through the
      item's own previous entry. */
  lemma RecordDependsOnPrevious(item: TrackedItem, s1: State, s2: State, fetched: Fetched, now: int, sent: SendOutcome)
    requires Previous(s1, item.url) == Previous(s2, item.url)
    ensures ProcessItem(item, s1, fetched, now, sent).state[item.url]
         == ProcessItem(item, s2, fetched, now, sent).state[item.url]
  {
  }

  /** Processing `a` and then `b` writes each item's own record, each as if it
      had been processed first. */
  lemma TwoWrites(a: TrackedItem, b: TrackedItem, state: State,
                  fa: Fetched, fb: Fetched, ta: int, tb: int, sa: SendOutcome, sb: SendOutcome)
    requires a.url != b.url
    ensures ProcessItem(b, ProcessItem(a, state, fa, ta, sa).state, fb, tb, sb).state
         == state[a.url := ProcessItem(a, state, fa, ta, sa).state[a.url]]
                 [b.url := ProcessItem(b, state, fb, tb, sb).state[b.url]]
  {
    var sA := ProcessItem(a, state, fa, ta, sa).state;
    assert Previous(sA, b.url) == Previous(state, b.url);
    RecordDependsOnPrevious(b, sA, state, fb, tb, sb);
  }

  /** Two items with different URLs can be processed in either order with the
      same final state: each reads and writes only its own entry. */
  lemma DistinctItemsCommute(a: TrackedItem, b: TrackedItem, state: State,
                             fa: Fetched, fb: Fetched, ta: int, tb: int, sa: SendOutcome, sb: SendOutcome)
    requires a.url != b.url
    ensures ProcessItem(b, ProcessItem(a, state, fa, ta, sa).state, fb, tb, sb).state
         == ProcessItem(a, ProcessItem(b, state, fb, tb, sb).state, fa, ta, sa).state
  {
    TwoWrites(a, b, state, fa, fb, ta, tb, sa, sb);
    TwoWrites(b, a, state, fb, fa, tb, ta, sb, sa);
    var rA := ProcessItem(a, state, fa, ta, sa).state[a.url];
    var rB := ProcessItem(b, state, fb, tb, sb).state[b.url];
    assert state[a.url := rA][b.url := rB] == state[b.url := rB][a.url := rA];
  }

  /** Example: "Phone" with target 500 found at 450 and never seen
      before is announced and remembered at 450; the run after that, at 450
      again, sends nothing. */
  lemma PhoneScenario(state: State, now1: int, now2: int, sent2: SendOutcome)
    requires "https://shop.example/p/1" !in state
    ensures var item := TrackedItem(Some("Phone"), "https://shop.example/p/1", Some(500.0));
            var fetched := Fetched(Some(450.0), Some(item.url), None);
            var first := ProcessItem(item, state, fetched, now1, SendOutcome(true, "ok"));
            var second := ProcessItem(item, first.state, fetched, now2, sent2);
            && first.result.notified
            && first.state[item.url].notifiedPrice == Some(450.0)
            && second.result.notifyResp.None?
            && !second.result.notified
  {
  }

  /** End to end: a product page whose structured data gives a non-zero price at
      or below target, for an item seen for the first time, leads to a send and,
      when it succeeds, a record of that price. */
  lemma ProductPageAtTarget(item: TrackedItem, state: State, fetch: string -> Reply, now: int, sent: SendOutcome, p: real)
    requires !IsSearchUrl(item.url)
    requires fetch(item.url).Response? && fetch(item.url).status == 200
    requires JsonLdPrice(fetch(item.url).page.jsonLd) == Found(p) && p != 0.0 && p <= Target(item)
    requires item.url !in state
    ensures CheckItem(item, state, fetch, now, sent).Normal?
    ensures var step := CheckItem(item, state, fetch, now, sent).value;
            && step.result.notifyResp.Some?
            && step.state[item.url].price == Some(p)
            && (sent.ok ==> step.state[item.url].notifiedPrice == Some(p))
  {
    DirectPage(item.url, fetch);
  }
}
