/** The per-location polling of `get_data`: three fetches per location, each
    failing on its own, and the running search for the summary's last payment.
    The functions here specify the loop of `ApiClient.Api.GetData`. */
module Aggregation {
  import opened Values
  import opened Text
  import opened Http
  import opened Discovery

  /** Python's `float()` applied to a decoded JSON value: a partial
      conversion, left uninterpreted (`None` where `float()` raises). */
  type FloatParser = Json -> Option<real>

  /** `locations_data[id]`: `info` only when the id has an entry, the pending
      and history bodies (`None` after a failure; only dictionaries survive
      the `.get` that follows each fetch), and the counters body (`JNull` for
      `None`). */
  datatype LocationData = LocationData(
    info: Option<LocationInfo>,
    pendingPayments: Option<map<string, Json>>,
    paymentHistory: Option<map<string, Json>>,
    counters: Json)

  datatype LastPayment = LastPayment(amount: real, date: Json, locationId: string)

  /** `summary`; the three `last_payment_*` keys are present exactly when
      `lastPayment` is. */
  datatype Summary = Summary(totalPending: real, locationCount: nat, lastPayment: Option<LastPayment>)

  /** What `get_data` returns. `locations` keeps the insertion order of the
      dictionary. */
  datatype Snapshot = Snapshot(locations: seq<(string, LocationData)>, summary: Summary)

  /** The early answer when discovery finds nothing. */
  const EmptySnapshot := Snapshot([], Summary(0.0, 0, None))

  function ResourceRequest(r: Resource, locationId: string, cookies: map<string, string>): Request {
    HttpGet(ApiPage(r, locationId), cookies)
  }

  /** The `pending_payments` field after the fetch and the test of
      `results.get("owner") or results.get("assoc")` that follows it: a body
      that is not a dictionary, or truthy `results` that are not one, raise
      and leave `None`. */
  function PendingField(body: Eval<Json>): (f: Option<map<string, Json>>)
    ensures f.Some? ==> body == Ok(JObj(f.value))
    ensures f.None? <==>
      (|| body.Raised? || !body.value.JObj?
       || (Truthy(Get(body.value.fields, "results")) && !Get(body.value.fields, "results").JObj?))
  {
    match body
    case Raised => None
    case Ok(j) =>
      if !j.JObj? then None
      else
        var results := Get(j.fields, "results");
        if Truthy(results) && !results.JObj? then None else Some(j.fields)
  }

  /** The `payment_history` field and the last payment this location offers.
      `results[0]` is taken whenever `results` is truthy; its `amount` and
      `date` are read only while no earlier location has supplied the last
      payment (`searching`). Any exception on the way leaves the field `None`
      and offers nothing. */
  function HistoryOutcome(body: Eval<Json>, searching: bool, locationId: string, parse: FloatParser)
    : (r: (Option<map<string, Json>>, Option<LastPayment>))
    ensures r.0.Some? ==> body == Ok(JObj(r.0.value))
    ensures r.1.Some? ==> searching && r.0.Some? && r.1.value.locationId == locationId
    ensures r.0.None? <==>
      (|| body.Raised? || !body.value.JObj?
       || (&& Truthy(Get(body.value.fields, "results"))
           && var latest := First(Get(body.value.fields, "results"));
           || latest.Raised?
           || (searching && (!latest.value.JObj? || parse(GetOr(latest.value.fields, "amount", JNum(0.0))).None?))))
  {
    match body
    case Raised => (None, None)
    case Ok(j) =>
      if !j.JObj? then (None, None)
      else
        var results := Get(j.fields, "results");
        if !Truthy(results) then (Some(j.fields), None)
        else match First(results)
          case Raised => (None, None)
          case Ok(latest) =>
            if !searching then (Some(j.fields), None)
            else if !latest.JObj? then (None, None)
            else match parse(GetOr(latest.fields, "amount", JNum(0.0)))
              case None => (None, None)
              case Some(a) => (Some(j.fields), Some(LastPayment(a, GetOr(latest.fields, "date", JStr("")), locationId)))
  }

  /** What a location's payment history offers to a search still looking for
      the last payment. */
  function Candidate(server: Server, cookies: map<string, string>, locationId: string, parse: FloatParser): Option<LastPayment> {
    HistoryOutcome(FetchResult(server(ResourceRequest(PaymentsHistory, locationId, cookies))), true, locationId, parse).1
  }

  /** The history search succeeds exactly on a dictionary whose truthy
      `results` start with a dictionary whose amount converts; the payment is
      that amount, that record's `date` (default `""`) and this location. */
  lemma CandidateSpec(server: Server, cookies: map<string, string>, locationId: string, parse: FloatParser)
    ensures var c := Candidate(server, cookies, locationId, parse);
      var body := FetchResult(server(ResourceRequest(PaymentsHistory, locationId, cookies)));
      c.Some? <==>
        (&& body.Ok? && body.value.JObj?
         && var results := Get(body.value.fields, "results");
         && Truthy(results) && results.JArr? && results.elems[0].JObj?
         && parse(GetOr(results.elems[0].fields, "amount", JNum(0.0))).Some?)
    ensures var c := Candidate(server, cookies, locationId, parse);
      var body := FetchResult(server(ResourceRequest(PaymentsHistory, locationId, cookies)));
      c.Some? ==>
        var latest := Get(body.value.fields, "results").elems[0].fields;
        c.value == LastPayment(parse(GetOr(latest, "amount", JNum(0.0))).value, GetOr(latest, "date", JStr("")), locationId)
  {
  }

  /** One iteration of the location loop. */
  function LocationEntry(server: Server, cookies: map<string, string>, info: map<string, LocationInfo>,
                         locationId: string, searching: bool, parse: FloatParser): (LocationData, Option<LastPayment>)
  {
    var pending := PendingField(FetchResult(server(ResourceRequest(PendingPayments, locationId, cookies))));
    var history := HistoryOutcome(FetchResult(server(ResourceRequest(PaymentsHistory, locationId, cookies))), searching, locationId, parse);
    var countersBody := FetchResult(server(ResourceRequest(Counters, locationId, cookies)));
    var counters := if countersBody.Ok? then countersBody.value else JNull;
    var entryInfo := if locationId in info then Some(info[locationId]) else None;
    (LocationData(entryInfo, pending, history.0, counters), history.1)
  }

  /** The entry built from the three fetched bodies is the loop's entry. */
  lemma EntryOfBodies(server: Server, cookies: map<string, string>, info: map<string, LocationInfo>,
                      locationId: string, searching: bool, parse: FloatParser,
                      pending: Eval<Json>, history: Eval<Json>, counters: Eval<Json>)
    requires pending == FetchResult(server(ResourceRequest(PendingPayments, locationId, cookies)))
    requires history == FetchResult(server(ResourceRequest(PaymentsHistory, locationId, cookies)))
    requires counters == FetchResult(server(ResourceRequest(Counters, locationId, cookies)))
    ensures var h := HistoryOutcome(history, searching, locationId, parse);
      LocationEntry(server, cookies, info, locationId, searching, parse) ==
        (LocationData(if locationId in info then Some(info[locationId]) else None, PendingField(pending), h.0,
                      if counters.Ok? then counters.value else JNull), h.1)
  {
  }

  /** A failed fetch empties its own field (that the other fields do not
      depend on its answer is `GatherIsolation`), and the info is there
      exactly when the id has an entry. */
  lemma EntryFailures(server: Server, cookies: map<string, string>, info: map<string, LocationInfo>,
                      locationId: string, searching: bool, parse: FloatParser)
    ensures var (d, found) := LocationEntry(server, cookies, info, locationId, searching, parse);
      && (FetchResult(server(ResourceRequest(PendingPayments, locationId, cookies))).Raised? ==> d.pendingPayments.None?)
      && (FetchResult(server(ResourceRequest(PaymentsHistory, locationId, cookies))).Raised? ==>
            d.paymentHistory.None? && found.None?)
      && (FetchResult(server(ResourceRequest(Counters, locationId, cookies))).Raised? ==> d.counters == JNull)
      && (locationId in info ==> d.info == Some(info[locationId]))
      && (locationId !in info ==> d.info.None?)
  {
  }

  /** An amount that does not convert empties that location's
      `payment_history` and offers nothing, so the search goes on. */
  lemma UnparsableAmount(server: Server, cookies: map<string, string>, info: map<string, LocationInfo>,
                         locationId: string, parse: FloatParser, page: map<string, Json>, latest: map<string, Json>, rest: seq<Json>)
    requires FetchResult(server(ResourceRequest(PaymentsHistory, locationId, cookies))) == Ok(JObj(page))
    requires Get(page, "results") == JArr([JObj(latest)] + rest)
    requires parse(GetOr(latest, "amount", JNum(0.0))).None?
    ensures LocationEntry(server, cookies, info, locationId, true, parse).0.paymentHistory == None
    ensures LocationEntry(server, cookies, info, locationId, true, parse).1 == None
    ensures LocationEntry(server, cookies, info, locationId, false, parse).0.paymentHistory == Some(page)
  {
  }

  /** The requests the loop sends for `ids`: for the `k`-th location, in
      positions `3k` to `3k + 2`, its pending payments, its payment history
      and its counters. */
  function PollRequests(ids: seq<string>, cookies: map<string, string>): (reqs: seq<Request>)
    ensures |reqs| == 3 * |ids|
    ensures forall k :: 0 <= k < |ids| ==>
      && reqs[3 * k] == ResourceRequest(PendingPayments, ids[k], cookies)
      && reqs[3 * k + 1] == ResourceRequest(PaymentsHistory, ids[k], cookies)
      && reqs[3 * k + 2] == ResourceRequest(Counters, ids[k], cookies)
    decreases |ids|
  {
    if ids == [] then []
    else
      var id := ids[|ids| - 1];
      PollRequests(ids[..|ids| - 1], cookies)
        + [ResourceRequest(PendingPayments, id, cookies), ResourceRequest(PaymentsHistory, id, cookies),
           ResourceRequest(Counters, id, cookies)]
  }

  /** The location loop after the ids `ids`: the entries so far and the
      running `last_payment`. */
  function Gather(server: Server, cookies: map<string, string>, info: map<string, LocationInfo>,
                  ids: seq<string>, parse: FloatParser): (seq<(string, LocationData)>, Option<LastPayment>)
    decreases |ids|
  {
    if ids == [] then ([], None)
    else
      var (entries, last) := Gather(server, cookies, info, ids[..|ids| - 1], parse);
      var id := ids[|ids| - 1];
      var (d, found) := LocationEntry(server, cookies, info, id, last.None?, parse);
      (entries + [(id, d)], if last.Some? then last else found)
  }

  /** One more location for the loop. */
  lemma GatherSnoc(server: Server, cookies: map<string, string>, info: map<string, LocationInfo>,
                   ids: seq<string>, id: string, parse: FloatParser)
    ensures var (entries, last) := Gather(server, cookies, info, ids, parse);
      var (d, found) := LocationEntry(server, cookies, info, id, last.None?, parse);
      Gather(server, cookies, info, ids + [id], parse) == (entries + [(id, d)], if last.Some? then last else found)
    ensures PollRequests(ids + [id], cookies) == PollRequests(ids, cookies)
      + [ResourceRequest(PendingPayments, id, cookies), ResourceRequest(PaymentsHistory, id, cookies),
         ResourceRequest(Counters, id, cookies)]
  {
    assert (ids + [id])[..|ids|] == ids;
  }

  /** Reference definition: the payment offered by the first location, in
      order, that offers one. */
  function FirstCandidate(server: Server, cookies: map<string, string>, ids: seq<string>, parse: FloatParser): Option<LastPayment>
    decreases |ids|
  {
    if ids == [] then None
    else
      var c := Candidate(server, cookies, ids[0], parse);
      if c.Some? then c else FirstCandidate(server, cookies, ids[1..], parse)
  }

  /** `FirstCandidate` names the first offering location: nothing when no
      location offers, else the payment of a location all of whose
      predecessors offer nothing. */
  lemma {:induction false} FirstCandidateSpec(server: Server, cookies: map<string, string>, ids: seq<string>, parse: FloatParser)
    ensures var r := FirstCandidate(server, cookies, ids, parse);
      r.None? <==> forall k :: 0 <= k < |ids| ==> Candidate(server, cookies, ids[k], parse).None?
    ensures var r := FirstCandidate(server, cookies, ids, parse);
      r.Some? ==> exists k :: (0 <= k < |ids| && Candidate(server, cookies, ids[k], parse) == r
        && r.value.locationId == ids[k]
        && forall j :: 0 <= j < k ==> Candidate(server, cookies, ids[j], parse).None?)
    decreases |ids|
  {
    if ids != [] {
      FirstCandidateSpec(server, cookies, ids[1..], parse);
      var c := Candidate(server, cookies, ids[0], parse);
      if c.Some? {
        assert Candidate(server, cookies, ids[0], parse) == FirstCandidate(server, cookies, ids, parse);
      } else {
        var r := FirstCandidate(server, cookies, ids, parse);
        assert r == FirstCandidate(server, cookies, ids[1..], parse);
        forall k | 1 <= k < |ids| ensures ids[k] == ids[1..][k - 1] {}
        if r.Some? {
          var k :| 0 <= k < |ids[1..]| && Candidate(server, cookies, ids[1..][k], parse) == r
            && r.value.locationId == ids[1..][k]
            && forall j :: 0 <= j < k ==> Candidate(server, cookies, ids[1..][j], parse).None?;
          assert Candidate(server, cookies, ids[k + 1], parse) == r;
          forall j | 0 <= j < k + 1 ensures Candidate(server, cookies, ids[j], parse).None? {
            if j > 0 {
              assert ids[j] == ids[1..][j - 1];
            }
          }
        }
      }
    }
  }

  lemma {:induction false} FirstCandidateAppend(server: Server, cookies: map<string, string>, ids: seq<string>,
                                                x: string, parse: FloatParser)
    ensures FirstCandidate(server, cookies, ids + [x], parse) ==
      var f := FirstCandidate(server, cookies, ids, parse);
      if f.Some? then f else Candidate(server, cookies, x, parse)
    decreases |ids|
  {
    if ids == [] {
      assert [x][1..] == [];
    } else {
      assert (ids + [x])[1..] == ids[1..] + [x];
      FirstCandidateAppend(server, cookies, ids[1..], x, parse);
    }
  }

  /** The running `last_payment` of the loop is the reference choice. */
  lemma {:induction false} GatherLast(server: Server, cookies: map<string, string>, info: map<string, LocationInfo>,
                                      ids: seq<string>, parse: FloatParser)
    ensures Gather(server, cookies, info, ids, parse).1 == FirstCandidate(server, cookies, ids, parse)
    decreases |ids|
  {
    if ids != [] {
      var front := ids[..|ids| - 1];
      GatherLast(server, cookies, info, front, parse);
      assert ids == front + [ids[|ids| - 1]];
      FirstCandidateAppend(server, cookies, front, ids[|ids| - 1], parse);
    }
  }

  /** When every id has an entry, every location of the loop carries it. */
  lemma GatherInfo(server: Server, cookies: map<string, string>, info: map<string, LocationInfo>,
                   ids: seq<string>, parse: FloatParser)
    requires forall k :: 0 <= k < |ids| ==> ids[k] in info
    ensures var es := Gather(server, cookies, info, ids, parse).0;
      forall k :: 0 <= k < |es| ==> es[k].0 in info && es[k].1.info == Some(info[es[k].0])
  {
    GatherEntries(server, cookies, info, ids, parse);
  }

  /** The loop makes one entry per id, in order, each being the id's own
      iteration with the search flag the earlier locations leave. */
  lemma {:induction false} GatherEntries(server: Server, cookies: map<string, string>, info: map<string, LocationInfo>,
                                         ids: seq<string>, parse: FloatParser)
    ensures var es := Gather(server, cookies, info, ids, parse).0;
      && |es| == |ids|
      && forall k :: 0 <= k < |ids| ==>
           es[k] == (ids[k], LocationEntry(server, cookies, info, ids[k],
                                           FirstCandidate(server, cookies, ids[..k], parse).None?, parse).0)
    decreases |ids|
  {
    if ids != [] {
      var n := |ids| - 1;
      var front := ids[..n];
      GatherEntries(server, cookies, info, front, parse);
      GatherLast(server, cookies, info, front, parse);
      var (prev, last) := Gather(server, cookies, info, front, parse);
      var es := Gather(server, cookies, info, ids, parse).0;
      assert es == prev + [(ids[n], LocationEntry(server, cookies, info, ids[n], last.None?, parse).0)];
      assert ids[..n] == front;
      forall k | 0 <= k < |ids|
        ensures es[k] == (ids[k], LocationEntry(server, cookies, info, ids[k],
                                                FirstCandidate(server, cookies, ids[..k], parse).None?, parse).0)
      {
        if k < n {
          assert ids[..k] == front[..k] && ids[k] == front[k];
          assert es[k] == prev[k];
        } else {
          assert ids[..k] == front;
          assert FirstCandidate(server, cookies, ids[..k], parse) == last;
        }
      }
    }
  }

  /** Whatever the portal answers for other locations, a location's pending
      payments, counters and info depend only on its own answers, and every
      location gets its entry. */
  lemma GatherIsolation(s1: Server, s2: Server, cookies: map<string, string>, info: map<string, LocationInfo>,
                        ids: seq<string>, parse: FloatParser, k: nat)
    requires k < |ids|
    requires s1(ResourceRequest(PendingPayments, ids[k], cookies)) == s2(ResourceRequest(PendingPayments, ids[k], cookies))
    requires s1(ResourceRequest(Counters, ids[k], cookies)) == s2(ResourceRequest(Counters, ids[k], cookies))
    ensures var e1 := Gather(s1, cookies, info, ids, parse).0; var e2 := Gather(s2, cookies, info, ids, parse).0;
      && |e1| == |e2| == |ids|
      && e1[k].0 == e2[k].0 == ids[k]
      && e1[k].1.pendingPayments == e2[k].1.pendingPayments
      && e1[k].1.counters == e2[k].1.counters
      && e1[k].1.info == e2[k].1.info
  {
    GatherEntries(s1, cookies, info, ids, parse);
    GatherEntries(s2, cookies, info, ids, parse);
  }

  /** The stored history `h` starts with the record that produced `lp`: its
      `results` are a list whose head is a dictionary, whose amount converts
      to `lp.amount` and whose `date` (default `""`) is `lp.date`. */
  predicate HistorySupports(h: Option<map<string, Json>>, lp: LastPayment, parse: FloatParser) {
    && h.Some?
    && var results := Get(h.value, "results");
    && results.JArr? && results.elems != [] && results.elems[0].JObj?
    && parse(GetOr(results.elems[0].fields, "amount", JNum(0.0))) == Some(lp.amount)
    && lp.date == GetOr(results.elems[0].fields, "date", JStr(""))
  }

  /** A location that offers the last payment keeps, as its `payment_history`,
      the body the payment was read from. */
  lemma OfferKept(body: Eval<Json>, locationId: string, parse: FloatParser)
    ensures var r := HistoryOutcome(body, true, locationId, parse);
      r.1.Some? ==> HistorySupports(r.0, r.1.value, parse)
  {
  }

  /** The summary's last payment is backed by the stored history of the
      location it names. */
  lemma GatherLastSource(server: Server, cookies: map<string, string>, info: map<string, LocationInfo>,
                         ids: seq<string>, parse: FloatParser)
    ensures var (es, last) := Gather(server, cookies, info, ids, parse);
      last.Some? ==> exists k :: (0 <= k < |es| && es[k].0 == last.value.locationId
                                  && HistorySupports(es[k].1.paymentHistory, last.value, parse))
  {
    var (es, last) := Gather(server, cookies, info, ids, parse);
    GatherLast(server, cookies, info, ids, parse);
    if last.Some? {
      FirstCandidateSpec(server, cookies, ids, parse);
      var k :| 0 <= k < |ids| && Candidate(server, cookies, ids[k], parse) == last
        && last.value.locationId == ids[k]
        && forall j :: 0 <= j < k ==> Candidate(server, cookies, ids[j], parse).None?;
      FirstCandidateEntry(server, cookies, info, ids, parse, k);
    }
  }

  /** The entry of the first location that offers a payment stores the
      history that payment comes from. */
  lemma FirstCandidateEntry(server: Server, cookies: map<string, string>, info: map<string, LocationInfo>,
                            ids: seq<string>, parse: FloatParser, k: nat)
    requires k < |ids| && Candidate(server, cookies, ids[k], parse).Some?
    requires forall j :: 0 <= j < k ==> Candidate(server, cookies, ids[j], parse).None?
    ensures var es := Gather(server, cookies, info, ids, parse).0;
      k < |es| && es[k].0 == ids[k]
      && HistorySupports(es[k].1.paymentHistory, Candidate(server, cookies, ids[k], parse).value, parse)
  {
    GatherEntries(server, cookies, info, ids, parse);
    assert FirstCandidate(server, cookies, ids[..k], parse).None? by {
      FirstCandidateSpec(server, cookies, ids[..k], parse);
      forall j | 0 <= j < k ensures Candidate(server, cookies, ids[..k][j], parse).None? {
        assert ids[..k][j] == ids[j];
      }
    }
    OfferKept(FetchResult(server(ResourceRequest(PaymentsHistory, ids[k], cookies))), ids[k], parse);
  }

  /** Truthy `results` of a stored pending body are a dictionary. */
  predicate PendingShaped(d: LocationData) {
    d.pendingPayments.Some? ==>
      var results := Get(d.pendingPayments.value, "results");
      Truthy(results) ==> results.JObj?
  }

  /** Every entry the loop makes has a well-shaped pending field. */
  lemma GatherPendingShaped(server: Server, cookies: map<string, string>, info: map<string, LocationInfo>,
                            ids: seq<string>, parse: FloatParser)
    ensures var es := Gather(server, cookies, info, ids, parse).0;
      forall k :: 0 <= k < |es| ==> PendingShaped(es[k].1)
  {
    GatherEntries(server, cookies, info, ids, parse);
  }
}
