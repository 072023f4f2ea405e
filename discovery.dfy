/** Location discovery (`_extract_location_ids`): which locations the
    dashboard lists, in which order, and what the client records about each. */
module Discovery {
  import opened Values
  import opened Text
  import opened Http
  import opened Markup

  datatype LocationKind = Apartment | Parking | UnknownKind

  /** The `type` string stored for a kind. */
  function KindName(k: LocationKind): string {
    match k
    case Apartment => "apartment"
    case Parking => "parking"
    case UnknownKind => "unknown"
  }

  /** The entry `_location_info[id]`: `name` and `id` always, `apartment`
      only when the caption names one, `type`, and `association_id` once the
      page showed one. */
  datatype LocationInfo = LocationInfo(
    name: string,
    id: string,
    apartment: Option<string>,
    kind: LocationKind,
    associationId: Option<string>)

  const ApartmentMarker := ", ap. "
  const ParkingMarker := "PARCARI"

  /** The entry built from the caption of a newly seen id. The apartment is
      cut from the raw caption, the name is the stripped caption, and the
      parking marker is only looked at when the apartment marker is there. */
  function ParseCaption(id: string, caption: string): (info: LocationInfo)
    ensures info.name == Strip(caption) && info.id == id && info.associationId == None
    ensures info.apartment.Some? <==> Contains(caption, ApartmentMarker)
    ensures Contains(caption, ApartmentMarker) ==>
      info.apartment == Some(UpTo(After(caption, ApartmentMarker), ','))
    ensures info.kind == Parking <==>
      info.apartment.Some? && (Contains(caption, ParkingMarker) || StartsWith(info.apartment.value, "S"))
    ensures info.kind == UnknownKind <==> info.apartment.None?
  {
    if Contains(caption, ApartmentMarker) then
      SecondPieceUpToComma(caption, ApartmentMarker);
      var apt := Split(Split(caption, ApartmentMarker)[1], ",")[0];
      var kind := if Contains(caption, ParkingMarker) || StartsWith(apt, "S") then Parking else Apartment;
      LocationInfo(Strip(caption), id, Some(apt), kind, None)
    else
      LocationInfo(Strip(caption), id, None, UnknownKind, None)
  }

  /** A caption with the parking marker but without the apartment marker is
      classified as unknown, not as parking. */
  lemma ParkingMarkerAloneIsUnknown(id: string, caption: string)
    requires Contains(caption, ParkingMarker) && !Contains(caption, ApartmentMarker)
    ensures ParseCaption(id, caption).kind == UnknownKind
    ensures ParseCaption(id, caption).apartment == None
  {
  }

  predicate NoDuplicates(s: seq<string>) {
    forall i, j :: 0 <= i < j < |s| ==> s[i] != s[j]
  }

  predicate HasId(ms: seq<CodeMatch>, x: string) {
    exists k :: 0 <= k < |ms| && ms[k].id == x
  }

  /** The position of the first match that carries `x`. */
  function FirstMatch(ms: seq<CodeMatch>, x: string): (k: nat)
    requires HasId(ms, x)
    ensures k < |ms| && ms[k].id == x
    ensures forall j :: 0 <= j < k ==> ms[j].id != x
  {
    if ms[0].id == x then 0
    else
      assert HasId(ms[1..], x) by {
        var k :| 0 <= k < |ms| && ms[k].id == x;
        assert ms[1..][k - 1].id == x;
      }
      1 + FirstMatch(ms[1..], x)
  }

  lemma FirstMatchIs(ms: seq<CodeMatch>, x: string, k: nat)
    requires k < |ms| && ms[k].id == x
    requires forall j :: 0 <= j < k ==> ms[j].id != x
    ensures HasId(ms, x) && FirstMatch(ms, x) == k
  {
  }

  /** The ids the loop appends, `if loc_id not in location_ids`, defined
      match by match as the loop sees them. */
  function UniqueIds(ms: seq<CodeMatch>): seq<string>
    decreases |ms|
  {
    if ms == [] then []
    else
      var p := UniqueIds(ms[..|ms| - 1]);
      var x := ms[|ms| - 1].id;
      if x in p then p else p + [x]
  }

  /** An id of the shorter list keeps its first match in the longer one. */
  lemma FirstMatchInPrefix(ms: seq<CodeMatch>, n: nat, y: string)
    requires n <= |ms| && HasId(ms[..n], y)
    ensures HasId(ms, y) && FirstMatch(ms, y) == FirstMatch(ms[..n], y)
  {
    var k := FirstMatch(ms[..n], y);
    assert ms[k] == ms[..n][k];
    forall j | 0 <= j < k ensures ms[j].id != y {
      assert ms[j] == ms[..n][j];
    }
    FirstMatchIs(ms, y, k);
  }

  lemma HasIdSplit(ms: seq<CodeMatch>, y: string)
    requires ms != []
    ensures HasId(ms, y) <==> HasId(ms[..|ms| - 1], y) || y == ms[|ms| - 1].id
  {
    var n := |ms| - 1;
    if HasId(ms, y) && y != ms[n].id {
      var k :| 0 <= k < |ms| && ms[k].id == y;
      assert ms[..n][k] == ms[k];
    }
    if HasId(ms[..n], y) {
      var k :| 0 <= k < n && ms[..n][k].id == y;
      assert ms[k] == ms[..n][k];
    }
  }

  lemma FirstMatchLast(ms: seq<CodeMatch>)
    requires ms != [] && !HasId(ms[..|ms| - 1], ms[|ms| - 1].id)
    ensures FirstMatch(ms, ms[|ms| - 1].id) == |ms| - 1
  {
    var n := |ms| - 1;
    forall j | 0 <= j < n ensures ms[j].id != ms[n].id {
      assert ms[..n][j] == ms[j];
    }
    FirstMatchIs(ms, ms[n].id, n);
  }

  /** An id of all but the last match keeps its first match. */
  lemma PrefixFirstMatches(ms: seq<CodeMatch>)
    requires ms != []
    ensures forall y :: HasId(ms[..|ms| - 1], y) ==>
      HasId(ms, y) && FirstMatch(ms, y) == FirstMatch(ms[..|ms| - 1], y)
  {
    forall y | HasId(ms[..|ms| - 1], y)
      ensures HasId(ms, y) && FirstMatch(ms, y) == FirstMatch(ms[..|ms| - 1], y)
    {
      FirstMatchInPrefix(ms, |ms| - 1, y);
    }
  }

  /** The ids of the matches are those of all but the last, and the last's. */
  lemma PrefixHasIds(ms: seq<CodeMatch>)
    requires ms != []
    ensures forall y :: HasId(ms, y) <==> HasId(ms[..|ms| - 1], y) || y == ms[|ms| - 1].id
  {
    forall y ensures HasId(ms, y) <==> HasId(ms[..|ms| - 1], y) || y == ms[|ms| - 1].id {
      HasIdSplit(ms, y);
    }
  }

  /** The discovered ids are duplicate-free, hold exactly the ids of the
      matches, and follow the order in which each id first occurs. */
  lemma {:induction false} UniqueIdsSpec(ms: seq<CodeMatch>)
    ensures NoDuplicates(UniqueIds(ms))
    ensures forall x :: x in UniqueIds(ms) <==> HasId(ms, x)
    ensures forall i, j :: 0 <= i < j < |UniqueIds(ms)| ==>
      FirstMatch(ms, UniqueIds(ms)[i]) < FirstMatch(ms, UniqueIds(ms)[j])
    decreases |ms|
  {
    if ms != [] {
      UniqueIdsSpec(ms[..|ms| - 1]);
      PrefixFirstMatches(ms);
      PrefixHasIds(ms);
      if !HasId(ms[..|ms| - 1], ms[|ms| - 1].id) {
        FirstMatchLast(ms);
      }
    }
  }

  /** What the loop has written into `_location_info` after the matches `ms`:
      an entry for every newly seen id, none for a repeat. */
  function Infos(ms: seq<CodeMatch>): map<string, LocationInfo>
    decreases |ms|
  {
    if ms == [] then map[]
    else
      var prev := Infos(ms[..|ms| - 1]);
      var m := ms[|ms| - 1];
      if m.id in UniqueIds(ms[..|ms| - 1]) then prev else prev[m.id := ParseCaption(m.id, m.caption)]
  }

  /** One more match: a new id is appended and gets its entry, a repeated one
      changes nothing. */
  lemma MatchStep(ms: seq<CodeMatch>, k: nat)
    requires k < |ms|
    ensures var ids := UniqueIds(ms[..k]); var m := ms[k];
      && UniqueIds(ms[..k + 1]) == (if m.id in ids then ids else ids + [m.id])
      && Infos(ms[..k + 1]) == (if m.id in ids then Infos(ms[..k]) else Infos(ms[..k])[m.id := ParseCaption(m.id, m.caption)])
  {
    assert ms[..k + 1][..k] == ms[..k];
  }

  /** Updating a merged map is updating its right-hand side. */
  lemma MergeUpdate(a: map<string, LocationInfo>, b: map<string, LocationInfo>, x: string, v: LocationInfo)
    ensures (a + b)[x := v] == a + b[x := v]
  {
  }

  /** Every id of the matches has an entry, and the entry is built from the
      caption of the id's first match. */
  lemma {:induction false} InfosSpec(ms: seq<CodeMatch>)
    ensures forall x :: x in Infos(ms) <==> HasId(ms, x)
    ensures forall x :: x in Infos(ms) ==> Infos(ms)[x] == ParseCaption(x, ms[FirstMatch(ms, x)].caption)
  {
    InfosKeys(ms);
    InfosValues(ms);
  }

  lemma {:induction false} InfosKeys(ms: seq<CodeMatch>)
    ensures forall x :: x in Infos(ms) <==> HasId(ms, x)
    decreases |ms|
  {
    if ms != [] {
      var front := ms[..|ms| - 1];
      var m := ms[|ms| - 1];
      InfosKeys(front);
      assert m.id in UniqueIds(front) <==> HasId(front, m.id) by {
        UniqueIdsSpec(front);
      }
      assert Infos(ms).Keys == Infos(front).Keys + {m.id};
      forall x ensures x in Infos(ms) <==> HasId(ms, x) {
        HasIdSplit(ms, x);
      }
    }
  }

  lemma {:induction false} InfosValues(ms: seq<CodeMatch>)
    ensures forall x :: x in Infos(ms) && HasId(ms, x) ==>
      Infos(ms)[x] == ParseCaption(x, ms[FirstMatch(ms, x)].caption)
    decreases |ms|
  {
    if ms != [] {
      var front := ms[..|ms| - 1];
      var m := ms[|ms| - 1];
      InfosValues(front);
      InfosKeys(front);
      assert m.id in UniqueIds(front) <==> HasId(front, m.id) by {
        UniqueIdsSpec(front);
      }
      var prev := Infos(front);
      var r := Infos(ms);
      assert r == if HasId(front, m.id) then prev else prev[m.id := ParseCaption(m.id, m.caption)];
      forall x | x in r && HasId(ms, x) ensures r[x] == ParseCaption(x, ms[FirstMatch(ms, x)].caption) {
        if x in prev {
          FirstMatchInPrefix(ms, |ms| - 1, x);
          assert r[x] == prev[x];
        } else {
          FirstMatchLast(ms);
        }
      }
    }
  }

  /** The second loop: `association_id` set on the entry of every id of `ids`. */
  function Associate(info: map<string, LocationInfo>, ids: seq<string>, assoc: string): (r: map<string, LocationInfo>)
    ensures r.Keys == info.Keys
    ensures forall x :: x in info && x !in ids ==> r[x] == info[x]
    ensures forall x :: x in info && x in ids ==> r[x] == info[x].(associationId := Some(assoc))
  {
    map x | x in info :: if x in ids then info[x].(associationId := Some(assoc)) else info[x]
  }

  /** `_extract_location_ids` on the dashboard response `page`, given the
      entries `known` from earlier calls: the ids it returns and the new
      `_location_info`. */
  function Discover(known: map<string, LocationInfo>, page: Response): (seq<string>, map<string, LocationInfo>)
  {
    if page.ConnectionError? || page.status != 200 then ([], known)
    else
      var ms := CodeMatches(page.text);
      var ids := UniqueIds(ms);
      var info := known + Infos(ms);
      match FirstAssoc(page.text)
      case None => (ids, info)
      case Some(a) => (ids, Associate(info, ids, a))
  }

  /** A failed dashboard page discovers nothing and changes nothing. */
  lemma DiscoverFailed(known: map<string, LocationInfo>, page: Response)
    requires page.ConnectionError? || page.status != 200
    ensures Discover(known, page) == ([], known)
  {
  }

  /** The ids of a page: all digits, duplicate-free, exactly the ids of the
      `data-code` matches, in the order each first occurs. */
  lemma DiscoverIds(known: map<string, LocationInfo>, page: Response)
    requires page.Response? && page.status == 200
    ensures var ids := Discover(known, page).0; var ms := CodeMatches(page.text);
      && NoDuplicates(ids)
      && (forall k :: 0 <= k < |ids| ==> IsDigits(ids[k]))
      && (forall x :: x in ids <==> HasId(ms, x))
      && (forall i, j :: 0 <= i < j < |ids| ==> FirstMatch(ms, ids[i]) < FirstMatch(ms, ids[j]))
  {
    var ms := CodeMatches(page.text);
    UniqueIdsSpec(ms);
    var ids := UniqueIds(ms);
    assert Discover(known, page).0 == ids;
    forall k | 0 <= k < |ids| ensures IsDigits(ids[k]) {
      var j := FirstMatch(ms, ids[k]);
    }
  }

  /** The entries after a page hold the earlier ones and one per id found. */
  lemma DiscoverKeys(known: map<string, LocationInfo>, page: Response)
    requires page.Response? && page.status == 200
    ensures var (ids, info) := Discover(known, page);
      forall x :: x in info <==> x in known || x in ids
  {
    var ms := CodeMatches(page.text);
    UniqueIdsSpec(ms);
    InfosSpec(ms);
  }

  /** An entry of an earlier call for an id the page no longer shows is kept
      as it was: entries are never cleared. */
  lemma DiscoverKeeps(known: map<string, LocationInfo>, page: Response)
    requires page.Response? && page.status == 200
    ensures var (ids, info) := Discover(known, page);
      forall x :: x in known && x !in ids ==> x in info && info[x] == known[x]
  {
    var ms := CodeMatches(page.text);
    UniqueIdsSpec(ms);
    InfosSpec(ms);
  }

  /** Every id of the page gets the entry of its first caption, with the
      page's first association id when there is one. */
  lemma DiscoverEntries(known: map<string, LocationInfo>, page: Response)
    requires page.Response? && page.status == 200
    ensures var (ids, info) := Discover(known, page); var ms := CodeMatches(page.text);
      forall x :: x in ids ==>
        (HasId(ms, x) && x in info
         && info[x] == ParseCaption(x, ms[FirstMatch(ms, x)].caption).(associationId := FirstAssoc(page.text)))
  {
    var ms := CodeMatches(page.text);
    UniqueIdsSpec(ms);
    InfosSpec(ms);
    var ids := UniqueIds(ms);
    var merged := known + Infos(ms);
    var assoc := FirstAssoc(page.text);
    var info := if assoc.None? then merged else Associate(merged, ids, assoc.value);
    assert Discover(known, page) == (ids, info);
    forall x | x in ids
      ensures x in info && info[x] == ParseCaption(x, ms[FirstMatch(ms, x)].caption).(associationId := assoc)
    {
      assert merged[x] == Infos(ms)[x];
    }
  }
}
