/** The notification endpoint (`POST /api/notify`): given the listing just
    published, fetch the buyer requests for the same brand and model, keep
    those whose year and price ranges contain the listing's, send one email
    per kept request and answer with the counts.

    The document store is the sequence of stored buyer requests, or `None`
    when the query fails; the request body is the parsed listing, or `None`
    when it cannot be read. The mail transport is an oracle `send` that tells,
    for a recipient, whether delivery succeeds. The deliveries, which run
    concurrently in the source, are a sequential map in request order: none
    of them touches shared state. */
module Notify {
  import opened Seqs
  import opened JsText
  import opened Records

  /** One per-recipient result: `{ success, email }`. */
  datatype Delivery = Delivery(success: bool, email: string)

  /** The JSON answer: the summary, or the status-500 error. */
  datatype Response =
    | Summary(success: bool, matches: nat, successfulEmails: nat, failedEmails: nat)
    | ServerError(status: nat, error: string)

  const ProcessingError := ServerError(500, "Error al procesar las notificaciones")

  /** What one invocation answers and which emails it sent. */
  datatype Run = Run(response: Response, sent: seq<Delivery>)

  /** JavaScript's `lo <= x && x <= hi` on results of `parseInt`: every
      comparison with `NaN` is false. */
  predicate Within(x: Option<int>, lo: Option<int>, hi: Option<int>) {
    && (x.Some? && lo.Some? && x.value >= lo.value)
    && (x.Some? && hi.Some? && x.value <= hi.value)
  }

  /** The in-memory range filter: the listing's year and price both lie in
      the request's ranges, ends included, with every one of the six numbers
      read by `parseInt`. */
  function InRange(listing: Listing, req: BuyerRequest): (keep: bool)
    ensures keep <==>
      && ParseInt(listing.year).Some? && ParseInt(listing.price).Some?
      && ParseInt(req.minYear).Some? && ParseInt(req.maxYear).Some?
      && ParseInt(req.minPrice).Some? && ParseInt(req.maxPrice).Some?
      && ParseInt(req.minYear).value <= ParseInt(listing.year).value <= ParseInt(req.maxYear).value
      && ParseInt(req.minPrice).value <= ParseInt(listing.price).value <= ParseInt(req.maxPrice).value
  {
    var year := ParseInt(listing.year);
    var price := ParseInt(listing.price);
    Within(year, ParseInt(req.minYear), ParseInt(req.maxYear))
    && Within(price, ParseInt(req.minPrice), ParseInt(req.maxPrice))
  }

  /** The store's equality query on brand and model: exact, case-sensitive
      string equality, in the store's order. */
  function QueryBrandModel(store: seq<BuyerRequest>, brand: string, model: string): (found: seq<BuyerRequest>)
    ensures forall i :: 0 <= i < |found| ==> found[i] in store && found[i].brand == brand && found[i].model == model
    ensures forall i :: 0 <= i < |store| && store[i].brand == brand && store[i].model == model ==> store[i] in found
  {
    Filter(store, SameCar(brand, model))
  }

  /** The store query's condition: the request is for this brand and model. */
  function SameCar(brand: string, model: string): BuyerRequest -> bool {
    (r: BuyerRequest) => r.brand == brand && r.model == model
  }

  /** The in-memory condition: the listing lies in the request's ranges. */
  function InRangeOf(listing: Listing): BuyerRequest -> bool {
    (r: BuyerRequest) => InRange(listing, r)
  }

  /** The two-phase search: equality query, then the range filter. */
  function FindMatches(listing: Listing, store: seq<BuyerRequest>): (matches: seq<BuyerRequest>)
    ensures forall i :: 0 <= i < |matches| ==>
      && matches[i] in store
      && matches[i].brand == listing.brand && matches[i].model == listing.model
      && InRange(listing, matches[i])
    ensures forall i :: 0 <= i < |store| ==>
      store[i].brand == listing.brand && store[i].model == listing.model && InRange(listing, store[i])
      ==> store[i] in matches
  {
    var candidates := QueryBrandModel(store, listing.brand, listing.model);
    assert forall i :: 0 <= i < |store| ==>
      store[i].brand == listing.brand && store[i].model == listing.model ==> store[i] in candidates;
    Filter(candidates, InRangeOf(listing))
  }

  /** The single-pass condition a match meets. */
  predicate Matches(listing: Listing, req: BuyerRequest) {
    req.brand == listing.brand && req.model == listing.model && InRange(listing, req)
  }

  function MatchesOf(listing: Listing): BuyerRequest -> bool {
    (r: BuyerRequest) => Matches(listing, r)
  }

  /** The two-phase search (store equality query, then in-memory range filter)
      selects exactly what one filter by the whole condition selects, in the
      same order. */
  lemma {:induction false} FindMatchesOnePass(listing: Listing, store: seq<BuyerRequest>)
    ensures FindMatches(listing, store) == Filter(store, MatchesOf(listing))
  {
    FilterFilter(store, SameCar(listing.brand, listing.model), InRangeOf(listing));
    FilterExtensional(store, Both(SameCar(listing.brand, listing.model), InRangeOf(listing)), MatchesOf(listing));
  }


  /** The matches keep the store's order: they are a subsequence of it. */
  lemma MatchesAreSubsequence(listing: Listing, store: seq<BuyerRequest>)
    ensures SubsequenceOf(FindMatches(listing, store), store)
  {
    FindMatchesOnePass(listing, store);
    FilterIsSubsequence(store, MatchesOf(listing));
  }

  /** A listing whose year or price, or a request any of whose four bounds,
      does not start with a number (`parseInt` gives `NaN`) is never matched,
      and nothing fails. */
  lemma NaNNeverMatches(listing: Listing, req: BuyerRequest, store: seq<BuyerRequest>)
    requires || ParseInt(listing.year).None? || ParseInt(listing.price).None?
             || ParseInt(req.minYear).None? || ParseInt(req.maxYear).None?
             || ParseInt(req.minPrice).None? || ParseInt(req.maxPrice).None?
    ensures !InRange(listing, req)
    ensures req !in FindMatches(listing, store)
  {
  }

  /** A request with an inverted year or price range matches no listing. */
  lemma InvertedRangeNeverMatches(listing: Listing, req: BuyerRequest, store: seq<BuyerRequest>)
    requires || (ParseInt(req.minYear).Some? && ParseInt(req.maxYear).Some?
                 && ParseInt(req.minYear).value > ParseInt(req.maxYear).value)
             || (ParseInt(req.minPrice).Some? && ParseInt(req.maxPrice).Some?
                 && ParseInt(req.minPrice).value > ParseInt(req.maxPrice).value)
    ensures !InRange(listing, req)
    ensures req !in FindMatches(listing, store)
  {
  }

  /** Both ends of both ranges are inclusive, and one past an end is out. */
  lemma BoundsInclusive(listing: Listing, req: BuyerRequest, year: int, price: int)
    requires ParseInt(listing.year) == Some(year) && ParseInt(listing.price) == Some(price)
    requires ParseInt(req.minPrice).Some? && ParseInt(req.maxPrice).Some?
    requires ParseInt(req.minPrice).value <= price <= ParseInt(req.maxPrice).value
    requires ParseInt(req.minYear).Some? && ParseInt(req.maxYear).Some?
    ensures year == ParseInt(req.minYear).value <= ParseInt(req.maxYear).value ==> InRange(listing, req)
    ensures ParseInt(req.minYear).value <= ParseInt(req.maxYear).value == year ==> InRange(listing, req)
    ensures year == ParseInt(req.maxYear).value + 1 ==> !InRange(listing, req)
    ensures year == ParseInt(req.minYear).value - 1 ==> !InRange(listing, req)
  {
  }

  /** Brand and model are compared with exact, case-sensitive equality: a
      request whose brand or model differs from the listing's in any
      character, letter case included, is not matched. */
  lemma DifferentBrandOrModelNeverMatches(listing: Listing, req: BuyerRequest, store: seq<BuyerRequest>)
    requires req.brand != listing.brand || req.model != listing.model
    ensures req !in FindMatches(listing, store)
  {
  }

  lemma BrandModelCaseSensitive(year: string, price: string, req: BuyerRequest)
    requires req.brand == "toyota" && req.model == "corolla"
    ensures FindMatches(Listing("Toyota", "Corolla", year, price, "s", ""), [req]) == []
  {
    var listing := Listing("Toyota", "Corolla", year, price, "s", "");
    assert "Toyota"[0] != "toyota"[0];
    var m := FindMatches(listing, [req]);
    assert req !in m;
  }

  predicate Succeeded(d: Delivery) {
    d.success
  }

  predicate Failed(d: Delivery) {
    !d.success
  }

  /** The email attempt for one match: addressed to the request's contact;
      its success is the transport's answer for that address. */
  function Deliver(req: BuyerRequest, send: string -> bool): Delivery {
    Delivery(send(req.contact), req.contact)
  }

  /** `Promise.all(filteredRequests.map(...))`: one result per match, in the
      matches' order. */
  function Dispatch(matches: seq<BuyerRequest>, send: string -> bool): (results: seq<Delivery>)
    ensures |results| == |matches|
    ensures forall i :: 0 <= i < |matches| ==>
      results[i].email == matches[i].contact && results[i].success == send(matches[i].contact)
  {
    if matches == [] then []
    else [Deliver(matches[0], send)] + Dispatch(matches[1..], send)
  }

  /** A recipient's result depends on that recipient's transport answer only:
      whatever happens to the other addresses, theirs is the same. */
  lemma DeliveryIsolated(matches: seq<BuyerRequest>, send1: string -> bool, send2: string -> bool, i: nat)
    requires i < |matches|
    ensures send1(matches[i].contact) == send2(matches[i].contact) ==>
      Dispatch(matches, send1)[i] == Dispatch(matches, send2)[i]
  {
  }

  /** The number of successful deliveries is the number of matches whose
      address the transport accepts. */
  lemma {:induction false} SuccessCount(matches: seq<BuyerRequest>, send: string -> bool)
    ensures |Filter(Dispatch(matches, send), Succeeded)| == |Filter(matches, (r: BuyerRequest) => send(r.contact))|
  {
    if matches != [] {
      SuccessCount(matches[1..], send);
      assert Dispatch(matches, send)[1..] == Dispatch(matches[1..], send);
    }
  }

  /** The counts of the answer: matches, successes (`results.filter(r =>
      r.success).length`) and failures. */
  function Summarize(matchCount: nat, results: seq<Delivery>): (r: Response)
    ensures r.Summary? && r.success && r.matches == matchCount
    ensures r.successfulEmails + r.failedEmails == |results|
  {
    FilterPartition(results, Succeeded, Failed);
    Summary(true, matchCount, |Filter(results, Succeeded)|, |Filter(results, Failed)|)
  }

  /** The whole endpoint. A body that cannot be read or a store query that
      fails gives the status-500 answer and sends nothing; otherwise every
      match gets exactly one email and the counts add up. */
  function Post(body: Option<Listing>, store: Option<seq<BuyerRequest>>, send: string -> bool): (run: Run)
    ensures run.response.ServerError? <==> body.None? || store.None?
    ensures run.response.ServerError? ==> run.response == ProcessingError && run.sent == []
    ensures run.response.Summary? ==>
      && run.response.success
      && run.response.successfulEmails + run.response.failedEmails == run.response.matches
      && run.response.successfulEmails <= run.response.matches
      && run.response.failedEmails <= run.response.matches
      && run.response.matches == |run.sent|
    ensures body.Some? && store.Some? ==>
      run.response.matches == |FindMatches(body.value, store.value)|
      && run.sent == Dispatch(FindMatches(body.value, store.value), send)
  {
    match body
    case None => Run(ProcessingError, [])
    case Some(listing) =>
      match store
      case None => Run(ProcessingError, [])
      case Some(requests) =>
        var matches := FindMatches(listing, requests);
        var results := Dispatch(matches, send);
        Run(Summarize(|matches|, results), results)
  }

  /** The successful-emails count is the number of matched requests whose
      address the transport accepts; a failing address costs only its own
      email. */
  lemma PostCountsAccepted(listing: Listing, store: seq<BuyerRequest>, send: string -> bool)
    ensures Post(Some(listing), Some(store), send).response.successfulEmails
         == |Filter(FindMatches(listing, store), (r: BuyerRequest) => send(r.contact))|
  {
    SuccessCount(FindMatches(listing, store), send);
  }

  /** One stored request that matches the listing, and a transport that
      accepts its address: one match, one email sent, none failed. */
  lemma SingleMatchDelivered(listing: Listing, req: BuyerRequest, send: string -> bool)
    requires Matches(listing, req)
    requires send(req.contact)
    ensures Post(Some(listing), Some([req]), send) == Run(Summary(true, 1, 1, 0), [Delivery(true, req.contact)])
  {
    var m := FindMatches(listing, [req]);
    assert req in m;
    assert |m| <= 1;
    assert m == [req];
    var results := Dispatch(m, send);
    assert results == [Delivery(true, req.contact)];
    assert Filter(results, Succeeded) == results;
    assert Filter(results, Failed) == [];
  }

  /** A listing whose year is one past the request's maximum gives no match
      and sends nothing. */
  lemma YearPastRangeNoMatch(listing: Listing, req: BuyerRequest, send: string -> bool)
    requires ParseInt(listing.year).Some? && ParseInt(req.maxYear).Some?
    requires ParseInt(listing.year).value == ParseInt(req.maxYear).value + 1
    ensures Post(Some(listing), Some([req]), send) == Run(Summary(true, 0, 0, 0), [])
  {
    var m := FindMatches(listing, [req]);
    assert req !in m;
  }

  lemma TwoMatches(listing: Listing, a: BuyerRequest, b: BuyerRequest)
    requires Matches(listing, a) && Matches(listing, b)
    ensures FindMatches(listing, [a, b]) == [a, b]
  {
    FindMatchesOnePass(listing, [a, b]);
    assert [a, b][1..] == [b] && [b][1..] == [];
    assert Filter([b], MatchesOf(listing)) == [b];
  }

  lemma DispatchTwo(a: BuyerRequest, b: BuyerRequest, send: string -> bool)
    ensures Dispatch([a, b], send) == [Deliver(a, send), Deliver(b, send)]
  {
    assert [a, b][1..] == [b] && [b][1..] == [];
  }

  lemma OneOfTwoCounts(fail: Delivery, ok: Delivery)
    requires !fail.success && ok.success
    ensures Summarize(2, [fail, ok]) == Summary(true, 2, 1, 1)
  {
    assert [fail, ok][1..] == [ok] && [ok][1..] == [];
    assert Filter([fail, ok], Succeeded) == [ok];
    assert Filter([fail, ok], Failed) == [fail];
  }

  /** Two matched requests, the first address failing and the second
      accepted: the failure does not stop the second email, and the summary
      counts one success and one failure. */
  lemma OneFailureDoesNotBlockOthers(listing: Listing, a: BuyerRequest, b: BuyerRequest, send: string -> bool)
    requires Matches(listing, a) && Matches(listing, b)
    requires !send(a.contact) && send(b.contact)
    ensures Post(Some(listing), Some([a, b]), send)
         == Run(Summary(true, 2, 1, 1), [Delivery(false, a.contact), Delivery(true, b.contact)])
  {
    TwoMatches(listing, a, b);
    DispatchTwo(a, b, send);
    OneOfTwoCounts(Deliver(a, send), Deliver(b, send));
  }
}
