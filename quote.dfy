/**
 * The quote selection of components/RainingLetters.tsx (`getQuote`) and the
 * truthiness test its callers apply before showing a quote.  The network
 * request is reduced to its outcome.
 */
module Quote {
  import opened Draws

  /** What `getQuote` returns when the request or the decoding fails. */
  const Fallback: string := "Welcome to the Matrix"

  /** The outcome of fetching and decoding the quote list: a failure (a network
      error, malformed JSON, a null body, or a body without a `quotes` field,
      all of which end in the `catch`), or the decoded list.  A successful
      response is taken to hold a `quotes` list of strings. */
  datatype Response = Failed | Quotes(list: seq<string>)

  /** `getQuote()`: a member of the list picked by `r`, or the fallback.
      Indexing an empty list does not throw in JavaScript, it yields
      `undefined`, which is `None` here. */
  function GetQuote(res: Response, r: real): (q: Option<string>)
    requires Unit(r)
    ensures res.Failed? ==> q == Some(Fallback)
    ensures res.Quotes? ==> (q.Some? <==> |res.list| > 0)
    ensures res.Quotes? && q.Some? ==> q.value in res.list
  {
    match res
    case Failed => Some(Fallback)
    case Quotes(list) => if |list| == 0 then None else Some(list[Pick(r, |list|)])
  }

  /** Every quote of a non-empty list can be the one picked. */
  lemma EveryQuoteReachable(list: seq<string>, k: nat)
    requires k < |list|
    ensures exists r :: Unit(r) && GetQuote(Quotes(list), r) == Some(list[k])
  {
    PickOnto(k, |list|);
    var r := k as real / |list| as real;
    assert GetQuote(Quotes(list), r) == Some(list[k]);
  }

  /** The test `if (newQuote)`: only a non-empty string is shown. */
  predicate Shown(q: Option<string>) {
    q.Some? && q.value != ""
  }

  /** The quote state after a `getQuote()` call resolves: a new quote that
      passes the test replaces the current one, anything else leaves it. */
  function NextQuote(current: string, res: Response, r: real): (next: string)
    requires Unit(r)
    ensures next == current || next == Fallback || (res.Quotes? && next in res.list)
    ensures res.Failed? ==> next == Fallback
    ensures !Shown(GetQuote(res, r)) ==> next == current
    ensures next != current ==> next != ""
    ensures Shown(GetQuote(res, r)) ==> next == GetQuote(res, r).value
  {
    var q := GetQuote(res, r);
    if Shown(q) then q.value else current
  }
}
