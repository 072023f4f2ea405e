/** The sensor platform: which entities a config entry creates, with which
    unique ids and names, and what each of them shows of the coordinator's
    snapshot (`native_value` and `extra_state_attributes`). */
module Sensors {
  import opened Values
  import opened Text
  import opened Discovery
  import opened Aggregation

  /** `coordinator.data`: the snapshot of the last successful refresh, `None`
      before the first one. A snapshot is a dictionary with two keys, so it is
      always truthy and always has `locations` and `summary`. */
  type Data = Option<Snapshot>

  datatype SensorKind =
    | LocationCount
    | TotalPending
    | LastPaymentAmount
    | LastPaymentDate
    | MonthlyBill(locationId: string)
    | LocationPending(locationId: string)
    | LocationLastPayment(locationId: string)

  /** An entity as created: what it shows, `_attr_unique_id` and `_attr_name`. */
  datatype Sensor = Sensor(kind: SensorKind, uniqueId: string, name: string)

  const DeviceName := "Adminis Locuin\U{021B}e"

  /** The `sensor_type` each class passes to the base constructor. */
  function SensorType(k: SensorKind): string {
    match k
    case LocationCount => "location_count"
    case TotalPending => "total_pending"
    case LastPaymentAmount => "last_payment_amount"
    case LastPaymentDate => "last_payment_date"
    case MonthlyBill(id) => "monthly_bill_" + id
    case LocationPending(id) => "pending_" + id
    case LocationLastPayment(id) => "last_payment_" + id
  }

  /** The base constructor: `f"{entry.entry_id}_{sensor_type}"` and the name
      under the device's name. */
  function NewSensor(entryId: string, kind: SensorKind, title: string): Sensor {
    Sensor(kind, entryId + "_" + SensorType(kind), DeviceName + " " + title)
  }

  function GlobalSensors(entryId: string): seq<Sensor> {
    [NewSensor(entryId, LocationCount, "Location Count"),
     NewSensor(entryId, TotalPending, "Total Pending"),
     NewSensor(entryId, LastPaymentAmount, "Last Payment Amount"),
     NewSensor(entryId, LastPaymentDate, "Last Payment Date")]
  }

  function LocationSensors(entryId: string, locationId: string, locationName: string): seq<Sensor> {
    [NewSensor(entryId, MonthlyBill(locationId), locationName + " Monthly Bill"),
     NewSensor(entryId, LocationPending(locationId), locationName + " Pending"),
     NewSensor(entryId, LocationLastPayment(locationId), locationName + " Last Payment")]
  }

  /** The locations setup iterates over: none without data. */
  function Locations(data: Data): seq<(string, LocationData)> {
    if data.Some? then data.value.locations else []
  }

  /** The friendly name of a location: its `apartment` when the entry has
      one, else what follows `", ap. "` in its `name` up to the next comma,
      else `"Unknown"`. */
  function LocationName(d: LocationData): (name: string)
    ensures d.info.Some? && d.info.value.apartment.Some? ==> name == d.info.value.apartment.value
    ensures d.info.Some? && d.info.value.apartment.None? && Contains(d.info.value.name, ApartmentMarker) ==>
      name == UpTo(After(d.info.value.name, ApartmentMarker), ',')
    ensures d.info.None? || (d.info.value.apartment.None? && !Contains(d.info.value.name, ApartmentMarker)) ==>
      name == "Unknown"
  {
    match d.info
    case None => "Unknown"
    case Some(info) =>
      match info.apartment
      case Some(apt) => apt
      case None =>
        var parts := Split(info.name, ApartmentMarker);
        SplitHasSecond(info.name, ApartmentMarker);
        if |parts| > 1 then
          SecondPieceUpToComma(info.name, ApartmentMarker);
          Split(parts[1], ",")[0]
        else "Unknown"
  }

  /** For an entry built by discovery the second choice never applies: the
      name is the caption's apartment, or `"Unknown"` when the caption names
      none. */
  lemma DiscoveredLocationName(d: LocationData, id: string, caption: string)
    requires d.info.Some?
    requires d.info.value == ParseCaption(id, caption).(associationId := d.info.value.associationId)
    ensures Contains(caption, ApartmentMarker) ==> LocationName(d) == UpTo(After(caption, ApartmentMarker), ',')
    ensures !Contains(caption, ApartmentMarker) ==> LocationName(d) == "Unknown"
  {
    if !Contains(caption, ApartmentMarker) && Contains(Strip(caption), ApartmentMarker) {
      StripContains(caption, ApartmentMarker);
    }
  }

  /** Sensor `i` of the list `async_setup_entry` builds: the four global
      sensors, then three for each location in order. */
  function SensorAt(entryId: string, locs: seq<(string, LocationData)>, i: nat): Sensor
    requires i < 4 + 3 * |locs|
  {
    if i < 4 then GlobalSensors(entryId)[i]
    else
      var k := (i - 4) / 3;
      LocationSensors(entryId, locs[k].0, LocationName(locs[k].1))[(i - 4) % 3]
  }

  /** The entities setup creates, laid out as it adds them. */
  predicate SetupLayout(entryId: string, data: Data, sensors: seq<Sensor>) {
    && |sensors| == 4 + 3 * |Locations(data)|
    && forall i :: 0 <= i < |sensors| ==> sensors[i] == SensorAt(entryId, Locations(data), i)
  }

  /** Offset `r` of block `k` is sensor `4 + 3 * k + r`. */
  lemma SensorAtBlock(entryId: string, locs: seq<(string, LocationData)>, k: nat, r: nat)
    requires k < |locs| && r < 3
    ensures SensorAt(entryId, locs, 4 + 3 * k + r) == LocationSensors(entryId, locs[k].0, LocationName(locs[k].1))[r]
  {
    assert (3 * k + r) / 3 == k && (3 * k + r) % 3 == r;
  }

  /** The first `|s|` sensors of the layout. */
  predicate LayoutPrefix(entryId: string, locs: seq<(string, LocationData)>, s: seq<Sensor>) {
    && |s| <= 4 + 3 * |locs|
    && forall i :: 0 <= i < |s| ==> s[i] == SensorAt(entryId, locs, i)
  }

  /** Adding a location's three sensors extends the layout by its block. */
  lemma LayoutPrefixStep(entryId: string, locs: seq<(string, LocationData)>, s: seq<Sensor>, k: nat)
    requires k < |locs| && |s| == 4 + 3 * k && LayoutPrefix(entryId, locs, s)
    ensures LayoutPrefix(entryId, locs, s + LocationSensors(entryId, locs[k].0, LocationName(locs[k].1)))
  {
    var s' := s + LocationSensors(entryId, locs[k].0, LocationName(locs[k].1));
    forall i | 0 <= i < |s'| ensures s'[i] == SensorAt(entryId, locs, i) {
      if i >= |s| {
        SensorAtBlock(entryId, locs, k, i - |s|);
      }
    }
  }

  method SetupEntry(entryId: string, data: Data) returns (sensors: seq<Sensor>)
    ensures SetupLayout(entryId, data, sensors)
  {
    sensors := GlobalSensors(entryId);
    var locs := Locations(data);
    if data.Some? {
      for k := 0 to |locs|
        invariant |sensors| == 4 + 3 * k
        invariant LayoutPrefix(entryId, locs, sensors)
      {
        var (id, d) := locs[k];
        LayoutPrefixStep(entryId, locs, sensors, k);
        sensors := sensors + LocationSensors(entryId, id, LocationName(d));
      }
    }
  }

  /** The location ids of a snapshot's locations. */
  function Keys(locs: seq<(string, LocationData)>): (ks: seq<string>)
    ensures |ks| == |locs| && forall k :: 0 <= k < |locs| ==> ks[k] == locs[k].0
  {
    seq(|locs|, k requires 0 <= k < |locs| => locs[k].0)
  }

  /** The kind of sensor `i` of the layout. */
  function KindAt(locs: seq<(string, LocationData)>, i: nat): SensorKind
    requires i < 4 + 3 * |locs|
  {
    if i == 0 then LocationCount
    else if i == 1 then TotalPending
    else if i == 2 then LastPaymentAmount
    else if i == 3 then LastPaymentDate
    else
      var id := locs[(i - 4) / 3].0;
      var r := (i - 4) % 3;
      if r == 0 then MonthlyBill(id) else if r == 1 then LocationPending(id) else LocationLastPayment(id)
  }

  /** Each sensor of the layout has the kind of its position, and its
      unique id is made from that kind's type. */
  lemma SensorAtKind(entryId: string, locs: seq<(string, LocationData)>, i: nat)
    requires i < 4 + 3 * |locs|
    ensures SensorAt(entryId, locs, i).kind == KindAt(locs, i)
    ensures SensorAt(entryId, locs, i).uniqueId == entryId + "_" + SensorType(KindAt(locs, i))
  {
    if i >= 4 {
      var k := (i - 4) / 3;
      var r := (i - 4) % 3;
      assert SensorAt(entryId, locs, i) == LocationSensors(entryId, locs[k].0, LocationName(locs[k].1))[r];
    }
  }

  /** Per-location kinds carry digit-string ids. */
  predicate DigitKind(k: SensorKind) {
    (k.MonthlyBill? || k.LocationPending? || k.LocationLastPayment?) ==> IsDigits(k.locationId)
  }

  lemma SuffixEqual(p: string, a: string, b: string)
    requires p + a == p + b
    ensures a == b
  {
    assert a == (p + a)[|p|..];
    assert b == (p + b)[|p|..];
  }

  /** A digit id never turns a location's last-payment type into a global one. */
  lemma LastPaymentTypes(id: string)
    requires IsDigits(id)
    ensures "last_payment_" + id != "last_payment_amount" && "last_payment_" + id != "last_payment_date"
  {
    assert ("last_payment_" + id)[13] == id[0];
  }

  /** No two kinds share a sensor type, given digit ids: a location id can
      never spell `amount` or `date`. */
  lemma SensorTypeInjective(k1: SensorKind, k2: SensorKind)
    requires DigitKind(k1) && DigitKind(k2)
    requires SensorType(k1) == SensorType(k2)
    ensures k1 == k2
  {
    var t := SensorType(k1);
    if k1.MonthlyBill? || k2.MonthlyBill? {
      assert t[0] == 'm';
      if k1.MonthlyBill? && k2.MonthlyBill? {
        SuffixEqual("monthly_bill_", k1.locationId, k2.locationId);
      }
    } else if k1.LocationPending? || k2.LocationPending? {
      assert t[0] == 'p';
      if k1.LocationPending? && k2.LocationPending? {
        SuffixEqual("pending_", k1.locationId, k2.locationId);
      }
    } else if k1 == TotalPending || k2 == TotalPending {
      assert t[0] == 't';
    } else if k1 == LocationCount || k2 == LocationCount {
      assert t[1] == 'o';
    } else if k1.LocationLastPayment? && k2.LocationLastPayment? {
      SuffixEqual("last_payment_", k1.locationId, k2.locationId);
    } else if !k1.LocationLastPayment? && !k2.LocationLastPayment? {
      assert t[13] == 'a' || t[13] == 'd';
    } else {
      LastPaymentTypes(if k1.LocationLastPayment? then k1.locationId else k2.locationId);
    }
  }

  /** Two positions of the layout show different things. */
  lemma KindAtInjective(locs: seq<(string, LocationData)>, i: nat, j: nat)
    requires NoDuplicates(Keys(locs))
    requires i < j < 4 + 3 * |locs|
    ensures KindAt(locs, i) != KindAt(locs, j)
  {
    if i >= 4 {
      var ki, kj := (i - 4) / 3, (j - 4) / 3;
      if ki != kj {
        assert Keys(locs)[ki] != Keys(locs)[kj] by {
          if ki < kj {
          } else {
          }
        }
      }
    }
  }

  /** Per-location kinds of the layout carry the location's id. */
  lemma KindAtDigits(locs: seq<(string, LocationData)>, i: nat)
    requires forall k :: 0 <= k < |locs| ==> IsDigits(locs[k].0)
    requires i < 4 + 3 * |locs|
    ensures DigitKind(KindAt(locs, i))
  {
    if i >= 4 {
      assert IsDigits(locs[(i - 4) / 3].0);
    }
  }

  /** Two positions of the layout get different unique ids. */
  lemma SensorAtIdsDiffer(entryId: string, locs: seq<(string, LocationData)>, i: nat, j: nat)
    requires NoDuplicates(Keys(locs))
    requires forall k :: 0 <= k < |locs| ==> IsDigits(locs[k].0)
    requires i < j < 4 + 3 * |locs|
    ensures SensorAt(entryId, locs, i).uniqueId != SensorAt(entryId, locs, j).uniqueId
  {
    SensorAtKind(entryId, locs, i);
    SensorAtKind(entryId, locs, j);
    KindAtInjective(locs, i, j);
    var ki, kj := KindAt(locs, i), KindAt(locs, j);
    KindAtDigits(locs, i);
    KindAtDigits(locs, j);
    if SensorAt(entryId, locs, i).uniqueId == SensorAt(entryId, locs, j).uniqueId {
      SuffixEqual(entryId + "_", SensorType(ki), SensorType(kj));
      SensorTypeInjective(ki, kj);
    }
  }

  /** Setup never creates two entities with the same unique id, as long as
      the location ids are distinct digit strings (as discovery makes them). */
  lemma SetupIdsDistinct(entryId: string, data: Data, sensors: seq<Sensor>)
    requires SetupLayout(entryId, data, sensors)
    requires NoDuplicates(Keys(Locations(data)))
    requires forall k :: 0 <= k < |Locations(data)| ==> IsDigits(Locations(data)[k].0)
    ensures forall i, j :: 0 <= i < j < |sensors| ==> sensors[i].uniqueId != sensors[j].uniqueId
  {
    forall i, j | 0 <= i < j < |sensors|
      ensures sensors[i].uniqueId != sensors[j].uniqueId
    {
      SensorAtIdsDiffer(entryId, Locations(data), i, j);
    }
  }

  /** `locations.get(location_id)`: the entry stored last under that id, as
      repeated assignment into a dictionary would leave it. */
  function Lookup(locs: seq<(string, LocationData)>, id: string): (r: Option<LocationData>)
    ensures r.None? <==> forall k :: 0 <= k < |locs| ==> locs[k].0 != id
    ensures r.Some? ==> exists k :: 0 <= k < |locs| && locs[k] == (id, r.value)
    decreases |locs|
  {
    if locs == [] then None
    else if locs[|locs| - 1].0 == id then Some(locs[|locs| - 1].1)
    else
      var r := Lookup(locs[..|locs| - 1], id);
      assert forall k :: 0 <= k < |locs| - 1 ==> locs[..|locs| - 1][k] == locs[k];
      r
  }

  /** With distinct ids, looking up an id finds its own entry. */
  lemma {:induction false} LookupUnique(locs: seq<(string, LocationData)>, k: nat)
    requires NoDuplicates(Keys(locs)) && k < |locs|
    ensures Lookup(locs, locs[k].0) == Some(locs[k].1)
    decreases |locs|
  {
    var n := |locs| - 1;
    if k < n {
      assert Keys(locs)[k] != Keys(locs)[n];
      var front := locs[..n];
      assert Keys(front) == Keys(locs)[..n];
      LookupUnique(front, k);
    }
  }

  /** `LocationCount.native_value`: `summary["location_count"]`. */
  function LocationCountValue(data: Data): (r: Option<nat>)
    ensures r.Some? <==> data.Some?
  {
    if data.Some? then Some(data.value.summary.locationCount) else None
  }

  /** `TotalPending.native_value`: `summary["total_pending"]`. */
  function TotalPendingValue(data: Data): (r: Option<real>)
    ensures r.Some? <==> data.Some?
  {
    if data.Some? then Some(data.value.summary.totalPending) else None
  }

  /** `LastPaymentAmount.native_value`: `None` also when the summary has no
      last payment. */
  function LastPaymentAmountValue(data: Data): (r: Option<real>)
    ensures r.Some? <==> data.Some? && data.value.summary.lastPayment.Some?
  {
    if data.Some? && data.value.summary.lastPayment.Some? then Some(data.value.summary.lastPayment.value.amount) else None
  }

  /** `LastPaymentDate.native_value`. */
  function LastPaymentDateValue(data: Data): (r: Option<Json>)
    ensures r.Some? <==> data.Some? && data.value.summary.lastPayment.Some?
  {
    if data.Some? && data.value.summary.lastPayment.Some? then Some(data.value.summary.lastPayment.value.date) else None
  }

  /** `LocationCount.extra_state_attributes`: `location_ids`, the keys of
      `locations` in order. */
  function LocationIdsAttribute(data: Data): (r: Option<seq<string>>)
    ensures r.Some? <==> data.Some?
  {
    if data.Some? then Some(Keys(data.value.locations)) else None
  }

  /** The entry a per-location sensor reads; `None` also without data. */
  function EntryOf(data: Data, id: string): Option<LocationData> {
    if data.Some? then Lookup(data.value.locations, id) else None
  }

  /** `LocationPending.native_value`: 0.0 whatever the snapshot holds, except
      that `results.get("owner")` raises when truthy `results` are not a
      dictionary. */
  function PendingValue(data: Data, id: string): (r: Eval<real>)
    ensures r.Ok? ==> r.value == 0.0
    ensures r.Raised? <==> EntryOf(data, id).Some? && !PendingShaped(EntryOf(data, id).value)
  {
    match EntryOf(data, id)
    case None => Ok(0.0)
    case Some(d) =>
      match d.pendingPayments
      case None => Ok(0.0)
      case Some(p) =>
        var results := Get(p, "results");
        if p == map[] || !Truthy(results) then Ok(0.0)
        else if !results.JObj? then Raised
        else Ok(0.0)
  }

  /** `results[0]` of a stored history, as the per-location sensors reach
      it: nothing when the history or its `results` are falsy; otherwise
      `len`, the index and the `.get` that follows raise unless `results` is
      a list whose head is a dictionary. */
  function LatestRecord(h: Option<map<string, Json>>): (r: Eval<Option<map<string, Json>>>)
    ensures r == Ok(None) <==> h.None? || !Truthy(Get(h.value, "results"))
    ensures r.Ok? && r.value.Some? <==>
      (&& h.Some? && Get(h.value, "results").JArr? && Get(h.value, "results").elems != []
       && Get(h.value, "results").elems[0].JObj?)
    ensures r.Ok? && r.value.Some? ==> r.value.value == Get(h.value, "results").elems[0].fields
  {
    match h
    case None => Ok(None)
    case Some(m) =>
      var results := Get(m, "results");
      if m == map[] || !Truthy(results) then Ok(None)
      else if results.JNum? || results.JBool? then Raised
      else match First(results)
        case Raised => Raised
        case Ok(latest) => if latest.JObj? then Ok(Some(latest.fields)) else Raised
  }

  /** `MonthlyBill.native_value` and `LocationLastPayment.native_value`
      (the same expression): the conversion of the latest record's `amount`
      (default `"0"`), `None` when there is no record or it does not
      convert. */
  function LatestAmount(data: Data, id: string, parse: FloatParser): (r: Eval<Option<real>>)
    ensures r.Raised? <==> EntryOf(data, id).Some? && LatestRecord(EntryOf(data, id).value.paymentHistory).Raised?
    ensures r.Ok? && r.value.Some? ==>
      && EntryOf(data, id).Some?
      && var rec := LatestRecord(EntryOf(data, id).value.paymentHistory);
      && rec.Ok? && rec.value.Some?
      && parse(GetOr(rec.value.value, "amount", JStr("0"))) == r.value
    ensures r.Ok? ==>
      r.value == (if EntryOf(data, id).Some? && LatestRecord(EntryOf(data, id).value.paymentHistory).Ok?
                     && LatestRecord(EntryOf(data, id).value.paymentHistory).value.Some?
                  then parse(GetOr(LatestRecord(EntryOf(data, id).value.paymentHistory).value.value, "amount", JStr("0")))
                  else None)
  {
    match EntryOf(data, id)
    case None => Ok(None)
    case Some(d) =>
      match LatestRecord(d.paymentHistory)
      case Raised => Raised
      case Ok(None) => Ok(None)
      case Ok(Some(rec)) => Ok(parse(GetOr(rec, "amount", JStr("0"))))
  }

  /** The flag keys of the total-pending sensor. */
  function StatusKey(id: string): string {
    "location_" + id + "_status"
  }

  function AllowKey(id: string): string {
    "location_" + id + "_allow_payments"
  }

  /** `loc_data.get("pending_payments")` is truthy. */
  predicate PendingTruthy(d: LocationData) {
    d.pendingPayments.Some? && d.pendingPayments.value != map[]
  }

  /** `"ok" if payment_info.get("error") == 0 else "error"` */
  function StatusOf(p: map<string, Json>): string {
    if EqualsZero(Get(p, "error")) then "ok" else "error"
  }

  /** Reference definition of the total-pending attributes after the
      locations `locs`. */
  function StatusFlags(locs: seq<(string, LocationData)>): map<string, Json>
    decreases |locs|
  {
    if locs == [] then map[]
    else
      var m := StatusFlags(locs[..|locs| - 1]);
      var (id, d) := locs[|locs| - 1];
      if PendingTruthy(d) then
        m[StatusKey(id) := JStr(StatusOf(d.pendingPayments.value))][AllowKey(id) := Get(d.pendingPayments.value, "allowPayments")]
      else m
  }

  /** `TotalPending.extra_state_attributes` */
  method TotalPendingAttributes(data: Data) returns (attrs: map<string, Json>)
    ensures attrs == StatusFlags(Locations(data))
  {
    attrs := map[];
    if data.Some? {
      var locs := data.value.locations;
      for k := 0 to |locs|
        invariant attrs == StatusFlags(locs[..k])
      {
        assert locs[..k + 1][..k] == locs[..k];
        var (id, d) := locs[k];
        if d.pendingPayments.Some? && d.pendingPayments.value != map[] {
          var info := d.pendingPayments.value;
          attrs := attrs[StatusKey(id) := JStr(if EqualsZero(Get(info, "error")) then "ok" else "error")];
          attrs := attrs[AllowKey(id) := Get(info, "allowPayments")];
        }
      }
      assert locs[..|locs|] == locs;
    }
  }

  lemma StatusKeyInjective(a: string, b: string)
    requires StatusKey(a) == StatusKey(b)
    ensures a == b
  {
    assert a == StatusKey(a)[9..9 + |a|];
    assert b == StatusKey(b)[9..9 + |b|];
  }

  lemma AllowKeyInjective(a: string, b: string)
    requires AllowKey(a) == AllowKey(b)
    ensures a == b
  {
    assert a == AllowKey(a)[9..9 + |a|];
    assert b == AllowKey(b)[9..9 + |b|];
  }

  /** A status key is never an allow key when ids are digit strings. */
  lemma StatusNotAllow(a: string, b: string)
    requires IsDigits(a) && IsDigits(b)
    ensures StatusKey(a) != AllowKey(b)
  {
    var s, t := StatusKey(a), AllowKey(b);
    if |a| == |b| {
      assert s[10 + |a|] == 's' && t[10 + |b|] == 'a';
    } else if |a| < |b| {
      assert s[9 + |a|] == '_' && t[9 + |a|] == b[|a|];
    } else {
      assert s[9 + |b|] == a[|b|] && t[9 + |b|] == '_';
    }
  }

  /** The flags of two distinct digit ids never clash. */
  lemma KeyPairFresh(a: string, b: string)
    requires IsDigits(a) && IsDigits(b) && a != b
    ensures StatusKey(a) != StatusKey(b) && StatusKey(a) != AllowKey(b)
    ensures AllowKey(a) != StatusKey(b) && AllowKey(a) != AllowKey(b)
  {
    if StatusKey(a) == StatusKey(b) { StatusKeyInjective(a, b); }
    if AllowKey(a) == AllowKey(b) { AllowKeyInjective(a, b); }
    StatusNotAllow(a, b);
    StatusNotAllow(b, a);
  }

  /** One more location adds its two flags when its pending payments are
      truthy. */
  lemma StatusFlagsStep(locs: seq<(string, LocationData)>)
    requires locs != []
    ensures var n := |locs| - 1;
      forall key :: key in StatusFlags(locs) <==>
        key in StatusFlags(locs[..n]) || (PendingTruthy(locs[n].1) && (key == StatusKey(locs[n].0) || key == AllowKey(locs[n].0)))
  {
  }

  /** Every total-pending attribute is a flag of a location with truthy
      pending payments. */
  lemma {:induction false} StatusFlagsOnly(locs: seq<(string, LocationData)>)
    ensures forall key :: key in StatusFlags(locs) ==>
      exists k :: (0 <= k < |locs| && PendingTruthy(locs[k].1) && (key == StatusKey(locs[k].0) || key == AllowKey(locs[k].0)))
    decreases |locs|
  {
    if locs != [] {
      var n := |locs| - 1;
      var front := locs[..n];
      StatusFlagsOnly(front);
      StatusFlagsStep(locs);
      forall key | key in StatusFlags(locs)
        ensures exists k :: (0 <= k < |locs| && PendingTruthy(locs[k].1)
                             && (key == StatusKey(locs[k].0) || key == AllowKey(locs[k].0)))
      {
        if key in StatusFlags(front) {
          var k :| 0 <= k < |front| && PendingTruthy(front[k].1) && (key == StatusKey(front[k].0) || key == AllowKey(front[k].0));
          assert locs[k] == front[k];
        }
      }
    }
  }

  /** The flags of the last location are not among those of the earlier
      ones. */
  lemma LastFlagsFresh(locs: seq<(string, LocationData)>)
    requires NoDuplicates(Keys(locs)) && locs != []
    requires forall k :: 0 <= k < |locs| ==> IsDigits(locs[k].0)
    ensures var n := |locs| - 1;
      StatusKey(locs[n].0) !in StatusFlags(locs[..n]) && AllowKey(locs[n].0) !in StatusFlags(locs[..n])
  {
    var n := |locs| - 1;
    var front := locs[..n];
    var id := locs[n].0;
    StatusFlagsOnly(front);
    forall key | key in StatusFlags(front)
      ensures key != StatusKey(id) && key != AllowKey(id)
    {
      var k :| 0 <= k < |front| && PendingTruthy(front[k].1) && (key == StatusKey(front[k].0) || key == AllowKey(front[k].0));
      assert front[k] == locs[k] && Keys(locs)[k] != Keys(locs)[n];
      KeyPairFresh(front[k].0, id);
    }
  }

  /** For distinct digit ids, both flags of a location are present exactly
      when its pending payments are truthy. */
  lemma {:induction false} StatusFlagsKeys(locs: seq<(string, LocationData)>)
    requires NoDuplicates(Keys(locs))
    requires forall k :: 0 <= k < |locs| ==> IsDigits(locs[k].0)
    ensures forall k :: 0 <= k < |locs| ==>
      && (StatusKey(locs[k].0) in StatusFlags(locs) <==> PendingTruthy(locs[k].1))
      && (AllowKey(locs[k].0) in StatusFlags(locs) <==> PendingTruthy(locs[k].1))
    decreases |locs|
  {
    if locs != [] {
      var n := |locs| - 1;
      var front := locs[..n];
      assert Keys(front) == Keys(locs)[..n];
      StatusFlagsKeys(front);
      StatusFlagsStep(locs);
      forall k | 0 <= k < |locs|
        ensures StatusKey(locs[k].0) in StatusFlags(locs) <==> PendingTruthy(locs[k].1)
        ensures AllowKey(locs[k].0) in StatusFlags(locs) <==> PendingTruthy(locs[k].1)
      {
        if k == n {
          LastFlagsFresh(locs);
        } else {
          assert front[k] == locs[k] && Keys(locs)[k] != Keys(locs)[n];
          KeyPairFresh(locs[k].0, locs[n].0);
        }
      }
    }
  }

  /** The value of each flag: `"ok"` exactly when `error` equals 0, and the
      location's own `allowPayments`. */
  lemma {:induction false} StatusFlagsValues(locs: seq<(string, LocationData)>)
    requires NoDuplicates(Keys(locs))
    requires forall k :: 0 <= k < |locs| ==> IsDigits(locs[k].0)
    ensures forall k :: 0 <= k < |locs| && PendingTruthy(locs[k].1) ==>
      && StatusKey(locs[k].0) in StatusFlags(locs) && AllowKey(locs[k].0) in StatusFlags(locs)
      && StatusFlags(locs)[StatusKey(locs[k].0)] == JStr(StatusOf(locs[k].1.pendingPayments.value))
      && StatusFlags(locs)[AllowKey(locs[k].0)] == Get(locs[k].1.pendingPayments.value, "allowPayments")
    decreases |locs|
  {
    if locs != [] {
      var n := |locs| - 1;
      var front := locs[..n];
      assert Keys(front) == Keys(locs)[..n];
      StatusFlagsValues(front);
      var flags := StatusFlags(locs);
      forall k | 0 <= k < |locs| && PendingTruthy(locs[k].1)
        ensures StatusKey(locs[k].0) in flags && AllowKey(locs[k].0) in flags
        ensures flags[StatusKey(locs[k].0)] == JStr(StatusOf(locs[k].1.pendingPayments.value))
        ensures flags[AllowKey(locs[k].0)] == Get(locs[k].1.pendingPayments.value, "allowPayments")
      {
        if k < n {
          assert front[k] == locs[k] && Keys(locs)[k] != Keys(locs)[n];
          KeyPairFresh(locs[k].0, locs[n].0);
        } else {
          StatusNotAllow(locs[n].0, locs[n].0);
        }
      }
    }
  }

  /** A value Python can use as a dictionary key: lists and dictionaries
      cannot. */
  predicate Hashable(j: Json) {
    !j.JArr? && !j.JObj?
  }

  /** `detail.get("name", "Unknown")` and `detail.get("amount", 0)`. */
  function DetailName(d: Json): Json {
    if d.JObj? then GetOr(d.fields, "name", JStr("Unknown")) else JNull
  }

  function DetailAmount(d: Json): Json {
    if d.JObj? then GetOr(d.fields, "amount", JNum(0.0)) else JNull
  }

  /** A detail the loop gets through: a dictionary with a hashable name. */
  predicate UsableDetail(d: Json) {
    d.JObj? && Hashable(DetailName(d))
  }

  /** No detail after position `k`, and before `n`, has the same name. */
  ghost predicate LastOfName(ds: seq<Json>, k: nat, n: nat)
    requires k < n <= |ds|
  {
    forall j :: k < j < n ==> DetailName(ds[j]) != DetailName(ds[k])
  }

  /** The names of the first `n` details. */
  ghost function NamesUpTo(ds: seq<Json>, n: nat): set<Json>
    requires n <= |ds|
  {
    if n == 0 then {} else NamesUpTo(ds, n - 1) + {DetailName(ds[n - 1])}
  }

  /** A key of the breakdown is a name some detail carries. */
  lemma {:induction false} NamesUpToMeaning(ds: seq<Json>, n: nat, x: Json)
    requires n <= |ds|
    ensures x in NamesUpTo(ds, n) <==> exists k :: 0 <= k < n && DetailName(ds[k]) == x
  {
    if n > 0 {
      NamesUpToMeaning(ds, n - 1, x);
      if DetailName(ds[n - 1]) == x {
        assert exists k :: 0 <= k < n && DetailName(ds[k]) == x;
      }
    }
  }

  /** `m` is the breakdown of the first `n` details: a key per name, holding
      the amount of the last of them with that name. */
  ghost predicate PrefixBreakdown(ds: seq<Json>, n: nat, m: map<Json, Json>)
    requires n <= |ds|
  {
    && m.Keys == NamesUpTo(ds, n)
    && (forall k :: 0 <= k < n && LastOfName(ds, k, n) ==> DetailName(ds[k]) in m && m[DetailName(ds[k])] == DetailAmount(ds[k]))
  }

  ghost predicate IsBreakdown(ds: seq<Json>, m: map<Json, Json>) {
    PrefixBreakdown(ds, |ds|, m)
  }

  /** One more detail overwrites the entry of its name. */
  lemma BreakdownStep(ds: seq<Json>, n: nat, m: map<Json, Json>)
    requires n < |ds| && PrefixBreakdown(ds, n, m)
    ensures PrefixBreakdown(ds, n + 1, m[DetailName(ds[n]) := DetailAmount(ds[n])])
  {
    var x := DetailName(ds[n]);
    var m' := m[x := DetailAmount(ds[n])];
    assert m'.Keys == m.Keys + {x};
    forall k | 0 <= k < n + 1 && LastOfName(ds, k, n + 1)
      ensures DetailName(ds[k]) in m' && m'[DetailName(ds[k])] == DetailAmount(ds[k])
    {
      if k < n {
        LastOfNameShorter(ds, k, n);
      }
    }
  }

  /** The last of its name among `n + 1` details is also the last among `n`,
      and differs in name from detail `n`. */
  lemma LastOfNameShorter(ds: seq<Json>, k: nat, n: nat)
    requires k < n < |ds| && LastOfName(ds, k, n + 1)
    ensures LastOfName(ds, k, n) && DetailName(ds[n]) != DetailName(ds[k])
  {
  }

  /** The position of the last detail named `x`, or -1. */
  function LastNamed(ds: seq<Json>, x: Json): (k: int)
    ensures -1 <= k < |ds|
    ensures k == -1 <==> forall j :: 0 <= j < |ds| ==> DetailName(ds[j]) != x
    ensures k >= 0 ==> DetailName(ds[k]) == x && forall j :: k < j < |ds| ==> DetailName(ds[j]) != x
    decreases |ds|
  {
    if ds == [] then -1
    else if DetailName(ds[|ds| - 1]) == x then |ds| - 1
    else
      var k := LastNamed(ds[..|ds| - 1], x);
      assert forall j :: 0 <= j < |ds| - 1 ==> ds[..|ds| - 1][j] == ds[j];
      k
  }

  /** A list of details has one breakdown: the loop's postcondition pins
      the map down. */
  lemma BreakdownUnique(ds: seq<Json>, m1: map<Json, Json>, m2: map<Json, Json>)
    requires IsBreakdown(ds, m1) && IsBreakdown(ds, m2)
    ensures m1 == m2
  {
    forall x | x in m1 ensures x in m2 && m1[x] == m2[x] {
      NamesUpToMeaning(ds, |ds|, x);
      var k := LastNamed(ds, x);
      assert LastOfName(ds, k, |ds|);
    }
    assert m1.Keys == m2.Keys;
  }

  /** The breakdown loop over `latest["details"]`: a detail that is not a
      dictionary, or whose name cannot be a key, raises. */
  method Breakdown(details: seq<Json>) returns (r: Eval<map<Json, Json>>)
    ensures r.Raised? <==> exists k :: 0 <= k < |details| && !UsableDetail(details[k])
    ensures r.Ok? ==> IsBreakdown(details, r.value)
  {
    var breakdown: map<Json, Json> := map[];
    var i := 0;
    while i < |details|
      invariant 0 <= i <= |details|
      invariant forall k :: 0 <= k < i ==> UsableDetail(details[k])
      invariant PrefixBreakdown(details, i, breakdown)
    {
      var detail := details[i];
      if !detail.JObj? {
        return Raised;
      }
      var name := DetailName(detail);
      var amount := DetailAmount(detail);
      if !Hashable(name) {
        return Raised;
      }
      BreakdownStep(details, i, breakdown);
      breakdown := breakdown[name := amount];
      i := i + 1;
    }
    return Ok(breakdown);
  }

  /** `latest.get("details")`: it fails when truthy and not a list of usable details. */
  ghost predicate DetailsFail(rec: map<string, Json>) {
    var details := Get(rec, "details");
    Truthy(details) && (!details.JArr? || exists k :: 0 <= k < |details.elems| && !UsableDetail(details.elems[k]))
  }

  /** `b` is the `breakdown` attribute of the record: absent when `details`
      is falsy, else the breakdown of the list. */
  ghost predicate BreakdownOf(rec: map<string, Json>, b: Option<map<Json, Json>>) {
    var details := Get(rec, "details");
    if !Truthy(details) then b.None? else details.JArr? && b.Some? && IsBreakdown(details.elems, b.value)
  }

  /** The `if latest.get("details")` step shared by two sensors. */
  method DetailsBreakdown(rec: map<string, Json>) returns (r: Eval<Option<map<Json, Json>>>)
    ensures r.Raised? <==> DetailsFail(rec)
    ensures r.Ok? ==> BreakdownOf(rec, r.value)
  {
    var details := Get(rec, "details");
    if !Truthy(details) {
      return Ok(None);
    }
    if !details.JArr? {
      return Raised;
    }
    var b := Breakdown(details.elems);
    if b.Raised? {
      return Raised;
    }
    return Ok(Some(b.value));
  }

  /** `location_name` and `location_type` of a per-location sensor. */
  datatype InfoAttributes = InfoAttributes(locationName: string, locationType: string)

  function InfoOf(d: Option<LocationData>): (r: Option<InfoAttributes>)
    ensures r.Some? <==> d.Some? && d.value.info.Some?
    ensures r.Some? ==> r.value == InfoAttributes(d.value.info.value.name, KindName(d.value.info.value.kind))
  {
    if d.Some? && d.value.info.Some? then Some(InfoAttributes(d.value.info.value.name, KindName(d.value.info.value.kind)))
    else None
  }

  /** `MonthlyBill.extra_state_attributes`; `None` marks an absent key. */
  datatype BillAttributes = BillAttributes(
    info: Option<InfoAttributes>,
    apartment: Option<string>,
    date: Option<Json>,
    receipt: Option<Json>,
    breakdown: Option<map<Json, Json>>)

  method MonthlyBillAttributes(data: Data, id: string) returns (r: Eval<BillAttributes>)
    ensures var d := EntryOf(data, id);
      r.Raised? <==>
        (&& d.Some?
         && var latest := LatestRecord(d.value.paymentHistory);
         latest.Raised? || (latest.value.Some? && DetailsFail(latest.value.value)))
    ensures var d := EntryOf(data, id);
      r.Ok? ==>
        && r.value.info == InfoOf(d)
        && (r.value.apartment.Some? <==> r.value.info.Some?)
        && (r.value.apartment.Some? ==>
              r.value.apartment.value == (if d.value.info.value.apartment.Some? then d.value.info.value.apartment.value else "N/A"))
    ensures var d := EntryOf(data, id);
      r.Ok? ==>
        && (r.value.date.Some? <==> d.Some? && LatestRecord(d.value.paymentHistory).value.Some?)
        && (r.value.date.Some? ==>
              var rec := LatestRecord(d.value.paymentHistory).value.value;
              && r.value.date.value == GetOr(rec, "date", JStr(""))
              && r.value.receipt == Some(GetOr(rec, "receipt", JStr("")))
              && BreakdownOf(rec, r.value.breakdown))
        && (r.value.date.None? ==> r.value.receipt.None? && r.value.breakdown.None?)
  {
    var attrs := BillAttributes(None, None, None, None, None);
    var d := EntryOf(data, id);
    if d.Some? && d.value.info.Some? {
      var info := d.value.info.value;
      attrs := attrs.(info := Some(InfoAttributes(info.name, KindName(info.kind))),
                      apartment := Some(if info.apartment.Some? then info.apartment.value else "N/A"));
    }
    if d.Some? {
      var latest := LatestRecord(d.value.paymentHistory);
      if latest.Raised? {
        return Raised;
      }
      if latest.value.Some? {
        var rec := latest.value.value;
        attrs := attrs.(date := Some(GetOr(rec, "date", JStr(""))), receipt := Some(GetOr(rec, "receipt", JStr(""))));
        var b := DetailsBreakdown(rec);
        if b.Raised? {
          return Raised;
        }
        attrs := attrs.(breakdown := b.value);
      }
    }
    return Ok(attrs);
  }

  /** `LocationPending.extra_state_attributes`. */
  datatype PendingAttributes = PendingAttributes(
    info: Option<InfoAttributes>,
    allowPayments: Option<Json>,
    errorCode: Option<Json>)

  function PendingAttributesOf(data: Data, id: string): (r: PendingAttributes)
    ensures r.info == InfoOf(EntryOf(data, id))
    ensures var d := EntryOf(data, id);
      r.allowPayments.Some? <==> d.Some? && PendingTruthy(d.value)
    ensures var d := EntryOf(data, id);
      r.allowPayments.Some? ==>
        && r.allowPayments.value == GetOr(d.value.pendingPayments.value, "allowPayments", JBool(false))
        && r.errorCode == Some(GetOr(d.value.pendingPayments.value, "error", JNum(0.0)))
    ensures r.allowPayments.None? <==> r.errorCode.None?
  {
    var d := EntryOf(data, id);
    if d.Some? && PendingTruthy(d.value) then
      var p := d.value.pendingPayments.value;
      PendingAttributes(InfoOf(d), Some(GetOr(p, "allowPayments", JBool(false))), Some(GetOr(p, "error", JNum(0.0))))
    else PendingAttributes(InfoOf(d), None, None)
  }

  /** `LocationLastPayment.extra_state_attributes`. */
  datatype LastPaymentAttributes = LastPaymentAttributes(
    info: Option<InfoAttributes>,
    date: Option<Json>,
    receipt: Option<Json>,
    paymentCount: Option<nat>)

  function LastPaymentAttributesOf(data: Data, id: string): (r: Eval<LastPaymentAttributes>)
    ensures var d := EntryOf(data, id);
      r.Raised? <==> d.Some? && LatestRecord(d.value.paymentHistory).Raised?
    ensures r.Ok? ==> r.value.info == InfoOf(EntryOf(data, id))
    ensures var d := EntryOf(data, id);
      r.Ok? ==>
        && (r.value.paymentCount.Some? <==> d.Some? && LatestRecord(d.value.paymentHistory).value.Some?)
        && (r.value.paymentCount.Some? ==>
              var results := Get(d.value.paymentHistory.value, "results");
              var rec := results.elems[0].fields;
              && r.value.paymentCount.value == |results.elems|
              && r.value.date == Some(GetOr(rec, "date", JStr("")))
              && r.value.receipt == Some(GetOr(rec, "receipt", JStr(""))))
        && (r.value.paymentCount.None? ==> r.value.date.None? && r.value.receipt.None?)
  {
    var d := EntryOf(data, id);
    if d.None? then Ok(LastPaymentAttributes(None, None, None, None))
    else match LatestRecord(d.value.paymentHistory)
      case Raised => Raised
      case Ok(None) => Ok(LastPaymentAttributes(InfoOf(d), None, None, None))
      case Ok(Some(rec)) =>
        var results := Get(d.value.paymentHistory.value, "results");
        Ok(LastPaymentAttributes(InfoOf(d), Some(GetOr(rec, "date", JStr(""))), Some(GetOr(rec, "receipt", JStr(""))),
                                 Some(|results.elems|)))
  }

  /** `LastPaymentAmount.extra_state_attributes`: `date` and `location_id`
      from the summary (`None` when it has no last payment), and the
      breakdown of the latest record of the location it names. */
  datatype AmountAttributes = AmountAttributes(
    date: Option<Json>,
    locationId: Option<Json>,
    breakdown: Option<map<Json, Json>>)

  /** The entry the summary's last payment names, when that id is truthy. */
  function PaidEntry(data: Data): Option<LocationData> {
    if data.Some? && data.value.summary.lastPayment.Some? && data.value.summary.lastPayment.value.locationId != [] then
      Lookup(data.value.locations, data.value.summary.lastPayment.value.locationId)
    else None
  }

  /** The latest record of that entry, when its history and `results` are truthy. */
  predicate PaidHistoryTruthy(d: LocationData) {
    d.paymentHistory.Some? && d.paymentHistory.value != map[] && Truthy(Get(d.paymentHistory.value, "results"))
  }

  method LastPaymentAmountAttributes(data: Data) returns (r: Eval<AmountAttributes>)
    ensures var d := PaidEntry(data);
      r.Raised? <==>
        (&& d.Some? && PaidHistoryTruthy(d.value)
         && var latest := LatestRecord(d.value.paymentHistory);
         latest.Raised? || DetailsFail(latest.value.value))
    ensures r.Ok? ==>
      && (r.value.date.Some? <==> data.Some?)
      && (r.value.locationId.Some? <==> data.Some?)
      && (data.Some? ==>
            var lp := data.value.summary.lastPayment;
            && r.value.date.value == (if lp.Some? then lp.value.date else JNull)
            && r.value.locationId.value == (if lp.Some? then JStr(lp.value.locationId) else JNull))
    ensures var d := PaidEntry(data);
      r.Ok? ==>
        if d.Some? && PaidHistoryTruthy(d.value) then BreakdownOf(LatestRecord(d.value.paymentHistory).value.value, r.value.breakdown)
        else r.value.breakdown.None?
  {
    if data.None? {
      return Ok(AmountAttributes(None, None, None));
    }
    var lp := data.value.summary.lastPayment;
    var attrs := AmountAttributes(Some(if lp.Some? then lp.value.date else JNull),
                                  Some(if lp.Some? then JStr(lp.value.locationId) else JNull), None);
    var d := PaidEntry(data);
    if d.Some? && PaidHistoryTruthy(d.value) {
      var latest := LatestRecord(d.value.paymentHistory);
      if latest.Raised? {
        return Raised;
      }
      var b := DetailsBreakdown(latest.value.value);
      if b.Raised? {
        return Raised;
      }
      attrs := attrs.(breakdown := b.value);
    }
    return Ok(attrs);
  }

  /** `LastPaymentDate.extra_state_attributes`: `amount` and `location_id`. */
  datatype DateAttributes = DateAttributes(amount: Json, locationId: Json)

  function DateAttributesOf(data: Data): (r: Option<DateAttributes>)
    ensures r.Some? <==> data.Some?
    ensures r.Some? && data.value.summary.lastPayment.None? ==> r.value == DateAttributes(JNull, JNull)
    ensures r.Some? && data.value.summary.lastPayment.Some? ==>
      r.value == DateAttributes(JNum(data.value.summary.lastPayment.value.amount), JStr(data.value.summary.lastPayment.value.locationId))
  {
    if data.None? then None
    else match data.value.summary.lastPayment
      case None => Some(DateAttributes(JNull, JNull))
      case Some(lp) => Some(DateAttributes(JNum(lp.amount), JStr(lp.locationId)))
  }
}
