/** What the sensors show when their data is the snapshot the client's
    `get_data` returned: the two layers joined through the coordinator. */
module Integration {
  import opened Values
  import opened Text
  import opened Http
  import opened Discovery
  import opened Aggregation
  import opened ApiClient
  import opened Sensors

  /** The snapshot of a successful poll is keyed by the client's location
      ids, in order. */
  lemma PollKeys(s: ClientState, c: Credentials, server: Server, parse: FloatParser)
    requires WellFormed(s)
    ensures var st := PollStep(s, c, server, parse);
      st.result.Ok? ==> Keys(st.result.value.locations) == st.state.locationIds
  {
    var st := PollStep(s, c, server, parse);
    PollStepResult(s, c, server, parse);
    if st.result.Ok? && st.state.locationIds != [] {
      GatherEntries(server, st.state.cookies, st.state.locationInfo, st.state.locationIds, parse);
    }
  }

  /** Setting up on a polled snapshot never yields two entities with one
      unique id, because discovery keeps the ids distinct digit strings. */
  lemma PollSetupDistinct(s: ClientState, c: Credentials, server: Server, parse: FloatParser,
                          entryId: string, sensors: seq<Sensor>)
    requires WellFormed(s)
    requires PollStep(s, c, server, parse).result.Ok?
    requires SetupLayout(entryId, Some(PollStep(s, c, server, parse).result.value), sensors)
    ensures |sensors| == 4 + 3 * |PollStep(s, c, server, parse).state.locationIds|
    ensures forall i, j :: 0 <= i < j < |sensors| ==> sensors[i].uniqueId != sensors[j].uniqueId
  {
    var st := PollStep(s, c, server, parse);
    var data := Some(st.result.value);
    PollKeys(s, c, server, parse);
    OperationsKeepWellFormed(s, c, server, parse, None);
    var ks := Keys(Locations(data));
    assert ks == st.state.locationIds;
    forall k | 0 <= k < |Locations(data)| ensures IsDigits(Locations(data)[k].0) {
      assert Locations(data)[k].0 == ks[k];
    }
    SetupIdsDistinct(entryId, data, sensors);
  }

  /** The summary sensors on a polled snapshot: the count of discovered
      locations, a total of 0.0, and the ids as the count's attribute. */
  lemma PollSummaryValues(s: ClientState, c: Credentials, server: Server, parse: FloatParser)
    requires WellFormed(s)
    ensures var st := PollStep(s, c, server, parse);
      st.result.Ok? ==>
        && LocationCountValue(Some(st.result.value)) == Some(|st.state.locationIds|)
        && TotalPendingValue(Some(st.result.value)) == Some(0.0)
        && LocationIdsAttribute(Some(st.result.value)) == Some(st.state.locationIds)
  {
    PollKeys(s, c, server, parse);
    PollStepResult(s, c, server, parse);
    PollShape(s, c, server, parse);
  }

  /** No per-location pending sensor raises on a polled snapshot: every
      stored `results` is a dictionary or falsy, so each reads 0.0. */
  lemma PollPendingZero(s: ClientState, c: Credentials, server: Server, parse: FloatParser, id: string)
    ensures var st := PollStep(s, c, server, parse);
      st.result.Ok? ==> PendingValue(Some(st.result.value), id) == Ok(0.0)
  {
    var st := PollStep(s, c, server, parse);
    PollStepResult(s, c, server, parse);
    if st.result.Ok? && st.state.locationIds != [] {
      var locs := st.result.value.locations;
      GatherPendingShaped(server, st.state.cookies, st.state.locationInfo, st.state.locationIds, parse);
      var d := Lookup(locs, id);
      if d.Some? {
        var k :| 0 <= k < |locs| && locs[k] == (id, d.value);
        assert PendingShaped(locs[k].1);
      }
    }
  }

  /** The summary's last payment is the one the sensors of its location
      show: the entry it names exists, its latest record is the record the
      payment came from, the location's last-payment sensor carries that
      record's date, and its value is the payment's amount whenever the
      record states an amount or the conversion reads the two defaults
      (`0` in the client, `"0"` in the sensors) alike, as `float` does. */
  lemma PollLastPayment(s: ClientState, c: Credentials, server: Server, parse: FloatParser)
    requires WellFormed(s)
    ensures var st := PollStep(s, c, server, parse);
      st.result.Ok? && st.result.value.summary.lastPayment.Some? ==>
        var data := Some(st.result.value); var lp := st.result.value.summary.lastPayment.value;
        && EntryOf(data, lp.locationId).Some?
        && HistorySupports(EntryOf(data, lp.locationId).value.paymentHistory, lp, parse)
        && LatestRecord(EntryOf(data, lp.locationId).value.paymentHistory).Ok?
        && LatestRecord(EntryOf(data, lp.locationId).value.paymentHistory).value.Some?
        && LastPaymentAttributesOf(data, lp.locationId).Ok?
        && LastPaymentAttributesOf(data, lp.locationId).value.date == Some(lp.date)
        && ("amount" in LatestRecord(EntryOf(data, lp.locationId).value.paymentHistory).value.value
            || parse(JNum(0.0)) == parse(JStr("0")) ==>
              LatestAmount(data, lp.locationId, parse) == Ok(Some(lp.amount)))
  {
    var st := PollStep(s, c, server, parse);
    PollStepResult(s, c, server, parse);
    if st.result.Ok? && st.result.value.summary.lastPayment.Some? {
      var ids := st.state.locationIds;
      var cookies, info := st.state.cookies, st.state.locationInfo;
      var locs := st.result.value.locations;
      var lp := st.result.value.summary.lastPayment.value;
      assert ids != [];
      GatherLastSource(server, cookies, info, ids, parse);
      var k :| 0 <= k < |locs| && locs[k].0 == lp.locationId && HistorySupports(locs[k].1.paymentHistory, lp, parse);
      PollKeys(s, c, server, parse);
      OperationsKeepWellFormed(s, c, server, parse, None);
      assert Keys(locs) == ids;
      LookupUnique(locs, k);
    }
  }
}
