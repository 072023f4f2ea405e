/** The merge of `get_payment_history`: every requested location's records,
    tagged with their location, then `list.sort` on the `date` key in reverse
    (which Python keeps stable). */
module PaymentHistory {
  import opened Values
  import opened Text
  import opened Http
  import opened Aggregation

  /** A payment record: one decoded JSON dictionary. */
  type Record = map<string, Json>

  /** `payment["location_id"] = loc_id` */
  function Tag(payment: Record, locationId: string): (r: Record)
    ensures r.Keys == payment.Keys + {"location_id"}
    ensures r["location_id"] == JStr(locationId)
    ensures forall key :: key in payment && key != "location_id" ==> r[key] == payment[key]
  {
    payment["location_id" := JStr(locationId)]
  }

  /** How many leading elements are dictionaries. */
  function ObjectPrefix(results: seq<Json>): (n: nat)
    ensures n <= |results|
    ensures forall k :: 0 <= k < n ==> results[k].JObj?
    ensures n < |results| ==> !results[n].JObj?
  {
    if results == [] || !results[0].JObj? then 0 else 1 + ObjectPrefix(results[1..])
  }

  /** The records one location adds: tagging a non-dictionary element raises
      and ends the location's loop, but the records appended before stay. */
  function TagAll(results: seq<Json>, locationId: string): (rs: seq<Record>)
    ensures |rs| == ObjectPrefix(results)
    ensures forall k :: 0 <= k < |rs| ==> rs[k] == Tag(results[k].fields, locationId)
  {
    var n := ObjectPrefix(results);
    seq(n, k requires 0 <= k < n => Tag(results[k].fields, locationId))
  }

  /** What one location contributes: nothing when the fetch fails, the body
      is not a dictionary, or `results` is falsy; iterating `results` that are
      a string, a dictionary or a number raises on the first element (or at
      once), so only a list contributes. */
  function TaggedRecords(body: Eval<Json>, locationId: string): (rs: seq<Record>)
    ensures rs != [] ==> body.Ok? && body.value.JObj? && Get(body.value.fields, "results").JArr?
  {
    if body.Raised? || !body.value.JObj? then []
    else
      var results := Get(body.value.fields, "results");
      if results.JArr? then TagAll(results.elems, locationId) else []
  }

  function HistoryRequest(locationId: string, cookies: map<string, string>): Request {
    ResourceRequest(PaymentsHistory, locationId, cookies)
  }

  /** `all_payments` after the location loop over `targets`. */
  function Collect(server: Server, cookies: map<string, string>, targets: seq<string>): seq<Record>
    decreases |targets|
  {
    if targets == [] then []
    else
      var t := targets[|targets| - 1];
      Collect(server, cookies, targets[..|targets| - 1])
        + TaggedRecords(FetchResult(server(HistoryRequest(t, cookies))), t)
  }

  /** One more target for the loop. */
  lemma CollectSnoc(server: Server, cookies: map<string, string>, targets: seq<string>, t: string)
    ensures Collect(server, cookies, targets + [t]) ==
      Collect(server, cookies, targets) + TaggedRecords(FetchResult(server(HistoryRequest(t, cookies))), t)
  {
    assert (targets + [t])[..|targets|] == targets;
  }

  /** A single target sends one fetch and collects what that location
      contributes. */
  lemma CollectOne(server: Server, cookies: map<string, string>, t: string)
    ensures Collect(server, cookies, [t]) == TaggedRecords(FetchResult(server(HistoryRequest(t, cookies))), t)
    ensures HistoryRequests([t], cookies) == [HistoryRequest(t, cookies)]
  {
    CollectSnoc(server, cookies, [], t);
    assert [] + [t] == [t];
  }

  /** The requests the location loop sends, one per target. */
  function HistoryRequests(targets: seq<string>, cookies: map<string, string>): (reqs: seq<Request>)
    ensures |reqs| == |targets|
    ensures forall k :: 0 <= k < |targets| ==> reqs[k] == HistoryRequest(targets[k], cookies)
  {
    seq(|targets|, k requires 0 <= k < |targets| => HistoryRequest(targets[k], cookies))
  }

  /** One more target sends one more request. */
  lemma HistoryRequestsSnoc(targets: seq<string>, t: string, cookies: map<string, string>)
    ensures HistoryRequests(targets + [t], cookies) == HistoryRequests(targets, cookies) + [HistoryRequest(t, cookies)]
  {
    var a := HistoryRequests(targets + [t], cookies);
    var b := HistoryRequests(targets, cookies) + [HistoryRequest(t, cookies)];
    forall k | 0 <= k < |a| ensures a[k] == b[k] {
      assert (targets + [t])[k] == if k < |targets| then targets[k] else t;
    }
  }

  /** Every collected record carries the id of a requested location, was a
      dictionary of that location's `results`, and agrees with it on every
      other key. */
  lemma {:induction false} CollectTagged(server: Server, cookies: map<string, string>, targets: seq<string>)
    ensures forall i :: 0 <= i < |Collect(server, cookies, targets)| ==>
      var r := Collect(server, cookies, targets)[i];
      "location_id" in r && exists k :: 0 <= k < |targets| && r["location_id"] == JStr(targets[k])
    decreases |targets|
  {
    if targets != [] {
      var n := |targets| - 1;
      var t := targets[n];
      CollectTagged(server, cookies, targets[..n]);
      var front := Collect(server, cookies, targets[..n]);
      var mine := TaggedRecords(FetchResult(server(HistoryRequest(t, cookies))), t);
      var all := Collect(server, cookies, targets);
      assert all == front + mine;
      forall i | 0 <= i < |all|
        ensures "location_id" in all[i] && exists k :: 0 <= k < |targets| && all[i]["location_id"] == JStr(targets[k])
      {
        if i < |front| {
          var k :| 0 <= k < n && front[i]["location_id"] == JStr(targets[..n][k]);
          assert targets[..n][k] == targets[k];
        } else {
          assert all[i] == mine[i - |front|];
          assert all[i]["location_id"] == JStr(targets[n]);
        }
      }
    }
  }

  /** A location whose fetch succeeds with a list of dictionaries contributes
      all of them, tagged and in order; a failing location contributes
      nothing. */
  lemma LocationContribution(body: Eval<Json>, locationId: string)
    ensures body.Raised? ==> TaggedRecords(body, locationId) == []
    ensures body.Ok? && body.value.JObj? && Get(body.value.fields, "results").JArr?
      && (forall k :: 0 <= k < |Get(body.value.fields, "results").elems| ==> Get(body.value.fields, "results").elems[k].JObj?)
      ==> var es := Get(body.value.fields, "results").elems;
          && |TaggedRecords(body, locationId)| == |es|
          && forall k :: 0 <= k < |es| ==> TaggedRecords(body, locationId)[k] == Tag(es[k].fields, locationId)
  {
  }

  /** `x.get("date", "")` when it is a string. */
  predicate DateIsText(r: Record) {
    GetOr(r, "date", JStr("")).JStr?
  }

  /** The sort key of a record whose date is text. */
  function DateKey(r: Record): string {
    var d := GetOr(r, "date", JStr(""));
    if d.JStr? then d.s else ""
  }

  /** Newest first, as the plain string ordering of the keys has it. */
  predicate SortedByDate(s: seq<Record>) {
    forall i, j :: 0 <= i < j < |s| ==> LexLe(DateKey(s[j]), DateKey(s[i]))
  }

  /** The records of `s` whose key is `key`, in their order. */
  function WithKey(s: seq<Record>, key: string): seq<Record>
    decreases |s|
  {
    if s == [] then []
    else (if DateKey(s[0]) == key then [s[0]] else []) + WithKey(s[1..], key)
  }

  /** `x` placed after every record whose key is not below its own. */
  function Insert(t: seq<Record>, x: Record): (r: seq<Record>)
    ensures |r| == |t| + 1
    decreases |t|
  {
    if t == [] then [x]
    else if LexLe(DateKey(t[0]), DateKey(x)) && DateKey(t[0]) != DateKey(x) then [x] + t
    else [t[0]] + Insert(t[1..], x)
  }

  /** A stable sort on the key, descending (reference definition of
      `list.sort(key=..., reverse=True)` on text keys). */
  function SortByDate(s: seq<Record>): seq<Record>
    decreases |s|
  {
    if s == [] then [] else Insert(SortByDate(s[..|s| - 1]), s[|s| - 1])
  }

  /** Inserting keeps every record and adds `x`, and puts either `x` or the
      old head first. */
  lemma {:induction false} InsertElements(t: seq<Record>, x: Record)
    ensures multiset(Insert(t, x)) == multiset(t) + multiset{x}
    ensures Insert(t, x)[0] == x || (t != [] && Insert(t, x)[0] == t[0])
    decreases |t|
  {
    if t != [] {
      assert t == [t[0]] + t[1..];
      if !(LexLe(DateKey(t[0]), DateKey(x)) && DateKey(t[0]) != DateKey(x)) {
        InsertElements(t[1..], x);
      }
    }
  }

  /** A record with a strictly newer date than the head goes in front. */
  lemma PrependSorted(t: seq<Record>, x: Record)
    requires SortedByDate(t) && t != []
    requires LexLe(DateKey(t[0]), DateKey(x)) && DateKey(t[0]) != DateKey(x)
    ensures SortedByDate([x] + t)
  {
    var r := [x] + t;
    forall i, j | 0 <= i < j < |r| ensures LexLe(DateKey(r[j]), DateKey(r[i])) {
      assert r[j] == t[j - 1];
      if i > 0 {
        assert r[i] == t[i - 1];
      } else {
        if j == 1 {
          LexLeReflexive(DateKey(t[0]));
        }
        LexLeTransitive(DateKey(r[j]), DateKey(t[0]), DateKey(x));
      }
    }
  }

  /** A head that is not older than every element of a sorted tail. */
  lemma ConsSorted(h: Record, rest: seq<Record>)
    requires SortedByDate(rest)
    requires forall j :: 0 <= j < |rest| ==> LexLe(DateKey(rest[j]), DateKey(h))
    ensures SortedByDate([h] + rest)
  {
    var r := [h] + rest;
    forall i, j | 0 <= i < j < |r| ensures LexLe(DateKey(r[j]), DateKey(r[i])) {
      assert r[j] == rest[j - 1];
      if i > 0 {
        assert r[i] == rest[i - 1];
      }
    }
  }

  /** The tail of a sorted list is sorted. */
  lemma SortedTail(t: seq<Record>)
    requires SortedByDate(t) && t != []
    ensures SortedByDate(t[1..])
  {
    forall i, j | 0 <= i < j < |t| - 1 ensures LexLe(DateKey(t[1..][j]), DateKey(t[1..][i])) {
      assert t[1..][j] == t[j + 1] && t[1..][i] == t[i + 1];
    }
  }

  /** Inserting a record no newer than `h` into records no newer than `h`
      gives records no newer than `h`. */
  lemma {:induction false} InsertBelow(t: seq<Record>, x: Record, h: Record)
    requires forall j :: 0 <= j < |t| ==> LexLe(DateKey(t[j]), DateKey(h))
    requires LexLe(DateKey(x), DateKey(h))
    ensures forall j :: 0 <= j < |Insert(t, x)| ==> LexLe(DateKey(Insert(t, x)[j]), DateKey(h))
    decreases |t|
  {
    if t != [] && !(LexLe(DateKey(t[0]), DateKey(x)) && DateKey(t[0]) != DateKey(x)) {
      forall j | 0 <= j < |t| - 1 ensures LexLe(DateKey(t[1..][j]), DateKey(h)) {
        assert t[1..][j] == t[j + 1];
      }
      InsertBelow(t[1..], x, h);
      var r := Insert(t, x);
      forall j | 0 <= j < |r| ensures LexLe(DateKey(r[j]), DateKey(h)) {
        if j > 0 {
          assert r[j] == Insert(t[1..], x)[j - 1];
        }
      }
    }
  }

  lemma {:induction false} InsertSorted(t: seq<Record>, x: Record)
    requires SortedByDate(t)
    ensures SortedByDate(Insert(t, x))
    decreases |t|
  {
    if t != [] {
      if LexLe(DateKey(t[0]), DateKey(x)) && DateKey(t[0]) != DateKey(x) {
        PrependSorted(t, x);
      } else {
        SortedTail(t);
        InsertSorted(t[1..], x);
        LexLeTotal(DateKey(x), DateKey(t[0]));
        if DateKey(x) == DateKey(t[0]) {
          LexLeReflexive(DateKey(x));
        }
        forall j | 0 <= j < |t| - 1 ensures LexLe(DateKey(t[1..][j]), DateKey(t[0])) {
          assert t[1..][j] == t[j + 1];
        }
        InsertBelow(t[1..], x, t[0]);
        ConsSorted(t[0], Insert(t[1..], x));
      }
    }
  }

  /** The sort orders the records newest first and keeps all of them. */
  lemma {:induction false} SortByDateSpec(s: seq<Record>)
    ensures SortedByDate(SortByDate(s))
    ensures multiset(SortByDate(s)) == multiset(s)
    decreases |s|
  {
    if s != [] {
      var n := |s| - 1;
      SortByDateSpec(s[..n]);
      InsertSorted(SortByDate(s[..n]), s[n]);
      InsertElements(SortByDate(s[..n]), s[n]);
      assert s == s[..n] + [s[n]];
    }
  }

  lemma {:induction false} WithKeyAppend(s: seq<Record>, x: Record, key: string)
    ensures WithKey(s + [x], key) == WithKey(s, key) + (if DateKey(x) == key then [x] else [])
    decreases |s|
  {
    if s != [] {
      assert s + [x] == [s[0]] + (s[1..] + [x]);
      WithKeyCons(s[0], s[1..] + [x], key);
      WithKeyAppend(s[1..], x, key);
    }
  }

  lemma {:induction false} WithKeyNone(s: seq<Record>, key: string)
    requires forall k :: 0 <= k < |s| ==> DateKey(s[k]) != key
    ensures WithKey(s, key) == []
    decreases |s|
  {
    if s != [] {
      WithKeyNone(s[1..], key);
    }
  }

  /** The records with a key of a list with head `h`. */
  lemma WithKeyCons(h: Record, s: seq<Record>, key: string)
    ensures WithKey([h] + s, key) == (if DateKey(h) == key then [h] else []) + WithKey(s, key)
  {
    assert ([h] + s)[1..] == s;
  }

  /** No record of a sorted list older than `x`'s key shares it. */
  lemma NewerKeyAbsent(t: seq<Record>, x: Record)
    requires SortedByDate(t) && t != []
    requires LexLe(DateKey(t[0]), DateKey(x)) && DateKey(t[0]) != DateKey(x)
    ensures forall k :: 0 <= k < |t| ==> DateKey(t[k]) != DateKey(x)
  {
    forall k | 0 <= k < |t| ensures DateKey(t[k]) != DateKey(x) {
      if k > 0 && DateKey(t[k]) == DateKey(x) {
        assert LexLe(DateKey(t[k]), DateKey(t[0]));
        LexLeAntisymmetric(DateKey(t[0]), DateKey(x));
      }
    }
  }

  /** A strictly newer record goes in front, before any record of its own key. */
  lemma FrontWithKey(t: seq<Record>, x: Record, key: string)
    requires SortedByDate(t) && t != []
    requires LexLe(DateKey(t[0]), DateKey(x)) && DateKey(t[0]) != DateKey(x)
    ensures WithKey([x] + t, key) == WithKey(t, key) + (if DateKey(x) == key then [x] else [])
  {
    WithKeyCons(x, t, key);
    if DateKey(x) == key {
      NewerKeyAbsent(t, x);
      WithKeyNone(t, key);
    }
  }

  lemma {:induction false} InsertWithKey(t: seq<Record>, x: Record, key: string)
    requires SortedByDate(t)
    ensures WithKey(Insert(t, x), key) == WithKey(t, key) + (if DateKey(x) == key then [x] else [])
    decreases |t|
  {
    if t != [] {
      if LexLe(DateKey(t[0]), DateKey(x)) && DateKey(t[0]) != DateKey(x) {
        FrontWithKey(t, x, key);
      } else {
        SortedTail(t);
        InsertWithKey(t[1..], x, key);
        WithKeyCons(t[0], Insert(t[1..], x), key);
      }
    }
  }

  /** Stability: the records sharing a key keep their original order. */
  lemma {:induction false} SortByDateStable(s: seq<Record>, key: string)
    ensures WithKey(SortByDate(s), key) == WithKey(s, key)
    decreases |s|
  {
    if s != [] {
      var n := |s| - 1;
      SortByDateStable(s[..n], key);
      SortByDateSpec(s[..n]);
      InsertWithKey(SortByDate(s[..n]), s[n], key);
      assert s == s[..n] + [s[n]];
      WithKeyAppend(s[..n], s[n], key);
    }
  }

  /** `all_payments.sort(...)`: ordering text dates; comparing a date that is
      not text with another raises (taken to be so for every such date), and
      fewer than two records are never compared. */
  function SortOutcome(all: seq<Record>): (r: Eval<seq<Record>>)
    ensures r.Raised? <==> |all| >= 2 && exists k :: 0 <= k < |all| && !DateIsText(all[k])
  {
    if |all| < 2 || forall k :: 0 <= k < |all| ==> DateIsText(all[k]) then Ok(SortByDate(all)) else Raised
  }

  /** A sorted outcome holds exactly the collected records, newest first,
      and keeps the order of records with equal dates. */
  lemma SortOutcomeSpec(all: seq<Record>)
    ensures SortOutcome(all).Ok? ==>
      && SortedByDate(SortOutcome(all).value)
      && multiset(SortOutcome(all).value) == multiset(all)
      && forall key :: WithKey(SortOutcome(all).value, key) == WithKey(all, key)
  {
    SortByDateSpec(all);
    forall key ensures WithKey(SortByDate(all), key) == WithKey(all, key) {
      SortByDateStable(all, key);
    }
  }
}
