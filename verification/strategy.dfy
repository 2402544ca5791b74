/** Ordered search with early exit, the shape shared by every extraction loop
    in the watcher: the first element that decides (a price, or an uncaught
    exception) ends the search; elements that decide nothing are passed over. */
module Strategy {
  import opened Options

  /** What examining one element gave: a price, nothing, or an exception. */
  datatype Scan = Found(price: real) | NotFound | Thrown

  /** The outcome of the first element of `xs` whose examination decides something. */
  function FirstDecisive<T>(xs: seq<T>, f: T -> Scan): (r: Scan)
    ensures r == NotFound <==> forall i :: 0 <= i < |xs| ==> f(xs[i]) == NotFound
    ensures r != NotFound ==>
      exists i :: 0 <= i < |xs| && f(xs[i]) == r && forall j :: 0 <= j < i ==> f(xs[j]) == NotFound
  {
    if |xs| == 0 then NotFound
    else if f(xs[0]) != NotFound then f(xs[0])
    else
      var r := FirstDecisive(xs[1..], f);
      assert forall i :: 1 <= i < |xs| ==> xs[i] == xs[1..][i - 1];
      if r != NotFound then
        var i :| 0 <= i < |xs[1..]| && f(xs[1..][i]) == r && forall j :: 0 <= j < i ==> f(xs[1..][j]) == NotFound;
        assert f(xs[i + 1]) == r;
        r
      else
        r
  }

  /** Conversely, an element that decides after only undecided ones is the outcome. */
  lemma {:induction false} FirstDecisiveAt<T>(xs: seq<T>, f: T -> Scan, i: nat)
    requires i < |xs| && f(xs[i]) != NotFound
    requires forall j :: 0 <= j < i ==> f(xs[j]) == NotFound
    ensures FirstDecisive(xs, f) == f(xs[i])
  {
    if i > 0 {
      assert xs[1..][i - 1] == xs[i];
      assert forall j :: 0 <= j < i - 1 ==> xs[1..][j] == xs[j + 1];
      FirstDecisiveAt(xs[1..], f, i - 1);
    }
  }

  /** Searching a concatenation searches the second part only when the first
      decided nothing. */
  lemma {:induction false} FirstDecisiveAppend<T>(xs: seq<T>, ys: seq<T>, f: T -> Scan)
    ensures FirstDecisive(xs + ys, f)
         == if FirstDecisive(xs, f) == NotFound then FirstDecisive(ys, f) else FirstDecisive(xs, f)
  {
    if |xs| > 0 {
      assert (xs + ys)[0] == xs[0];
      assert (xs + ys)[1..] == xs[1..] + ys;
      FirstDecisiveAppend(xs[1..], ys, f);
    } else {
      assert xs + ys == ys;
    }
  }

  /** The first present value in a list of alternatives: a run of
      `if <found>: return <price>` steps ending in `return None`. */
  function FirstSome(alternatives: seq<Option<real>>): (r: Option<real>)
    ensures r.None? <==> forall i :: 0 <= i < |alternatives| ==> alternatives[i].None?
    ensures r.Some? ==> exists i :: 0 <= i < |alternatives| && alternatives[i] == r
                          && forall j :: 0 <= j < i ==> alternatives[j].None?
  {
    if |alternatives| == 0 then None
    else if alternatives[0].Some? then alternatives[0]
    else
      var r := FirstSome(alternatives[1..]);
      assert forall i :: 1 <= i < |alternatives| ==> alternatives[i] == alternatives[1..][i - 1];
      if r.Some? then
        var i :| 0 <= i < |alternatives[1..]| && alternatives[1..][i] == r
                 && forall j :: 0 <= j < i ==> alternatives[1..][j].None?;
        assert alternatives[i + 1] == r;
        r
      else
        r
  }
}
