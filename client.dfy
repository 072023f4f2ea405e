/** `AdminisLocuinteAPI`: the client's state, one specification function per
    public operation (the new state, the result and the requests sent), the
    properties those operations promise, and the class whose methods carry
    out each operation step by step and are proved to match its step. */
module ApiClient {
  import opened Values
  import opened Text
  import opened Http
  import opened Markup
  import opened Discovery
  import opened Aggregation
  import opened PaymentHistory

  datatype Credentials = Credentials(username: string, password: string)

  /** The four fields the client updates: the cookie jar, the authenticated
      flag, the cached location ids and the location entries. */
  datatype ClientState = ClientState(
    cookies: map<string, string>,
    authenticated: bool,
    locationIds: seq<string>,
    locationInfo: map<string, LocationInfo>)

  const InitialState := ClientState(map[], false, [], map[])

  /** One operation: the state after it, its outcome and what it sent. */
  datatype Step<+T> = Step(state: ClientState, result: Eval<T>, sent: seq<Request>)

  /** The login form, in the order the client builds it. */
  function LoginForm(c: Credentials): seq<(string, string)> {
    [("email", c.username), ("password", c.password), ("formSubmitted", "1")]
  }

  /** The login page is fetched without the client's cookies. */
  const LoginPageRequest := HttpGet(LoginPage, map[])

  /** `authenticate`. */
  function AuthStep(s: ClientState, c: Credentials, server: Server): Step<bool> {
    var page := server(LoginPageRequest);
    if page.ConnectionError? || page.status != 200 then Step(s, Raised, [LoginPageRequest])
    else
      var jar := s.cookies + page.cookies;
      var post := HttpPost(LoginPage, LoginForm(c), jar);
      var answer := server(post);
      if answer.ConnectionError? then Step(s.(cookies := jar), Raised, [LoginPageRequest, post])
      else
        var jar' := jar + answer.cookies;
        var ok := answer.status == 302 && "adminis" in jar';
        Step(s.(cookies := jar', authenticated := s.authenticated || ok), Ok(ok), [LoginPageRequest, post])
  }

  /** `if not self._authenticated: await self.authenticate()`, whose boolean
      answer is dropped. */
  function LoginStep(s: ClientState, c: Credentials, server: Server): Step<()> {
    if s.authenticated then Step(s, Ok(()), [])
    else
      var a := AuthStep(s, c, server);
      Step(a.state, if a.result.Raised? then Raised else Ok(()), a.sent)
  }

  /** `if not self._location_ids: self._location_ids = await self._extract_location_ids()` */
  function DiscoverStep(s: ClientState, server: Server): (ClientState, seq<Request>) {
    if s.locationIds != [] then (s, [])
    else
      var req := HttpGet(Dashboard, s.cookies);
      var (ids, info) := Discover(s.locationInfo, server(req));
      (s.(locationIds := ids, locationInfo := info), [req])
  }

  /** `get_data`. */
  function PollStep(s: ClientState, c: Credentials, server: Server, parse: FloatParser): Step<Snapshot> {
    var login := LoginStep(s, c, server);
    if login.result.Raised? then Step(login.state, Raised, login.sent)
    else
      var (s', reqs) := DiscoverStep(login.state, server);
      if s'.locationIds == [] then Step(s', Ok(EmptySnapshot), login.sent + reqs)
      else
        var (entries, last) := Gather(server, s'.cookies, s'.locationInfo, s'.locationIds, parse);
        Step(s', Ok(Snapshot(entries, Summary(0.0, |s'.locationIds|, last))),
             login.sent + reqs + PollRequests(s'.locationIds, s'.cookies))
  }

  /** `[location_id] if location_id else self._location_ids`: an empty id
      selects every location, like a missing one. */
  function HistoryTargets(s: ClientState, locationId: Option<string>): seq<string> {
    if locationId.Some? && locationId.value != "" then [locationId.value] else s.locationIds
  }

  /** `get_payment_history`. */
  function HistoryStep(s: ClientState, c: Credentials, server: Server, locationId: Option<string>): Step<seq<Record>> {
    var login := LoginStep(s, c, server);
    if login.result.Raised? then Step(login.state, Raised, login.sent)
    else
      var (s', reqs) := DiscoverStep(login.state, server);
      var targets := HistoryTargets(s', locationId);
      Step(s', SortOutcome(Collect(server, s'.cookies, targets)), login.sent + reqs + HistoryRequests(targets, s'.cookies))
  }

  /** `get_locations`. */
  function LocationsStep(s: ClientState, c: Credentials, server: Server): Step<seq<string>> {
    var login := LoginStep(s, c, server);
    if login.result.Raised? then Step(login.state, Raised, login.sent)
    else
      var (s', reqs) := DiscoverStep(login.state, server);
      Step(s', Ok(s'.locationIds), login.sent + reqs)
  }

  /** `get_billing_info`: a login of its own, then `get_data` (which logs in
      again if the first attempt was refused), then the summary. */
  function BillingStep(s: ClientState, c: Credentials, server: Server, parse: FloatParser): Step<Summary> {
    var login := LoginStep(s, c, server);
    if login.result.Raised? then Step(login.state, Raised, login.sent)
    else
      var poll := PollStep(login.state, c, server, parse);
      Step(poll.state, if poll.result.Raised? then Raised else Ok(poll.result.value.summary), login.sent + poll.sent)
  }

  /** What authentication promises. A login page that is unreachable or not
      200 raises before anything is posted and changes nothing. Otherwise the
      form is posted with the jar as merged from the page, and (when the post
      gets an answer) the cookies of the post overwrite those of the page,
      which overwrite the earlier ones; the answer is true exactly for a 302
      with an `adminis` cookie in the jar. The flag is never cleared. */
  lemma AuthSpec(s: ClientState, c: Credentials, server: Server)
    ensures var st := AuthStep(s, c, server); var page := server(LoginPageRequest);
      && st.state.locationIds == s.locationIds && st.state.locationInfo == s.locationInfo
      && (s.authenticated ==> st.state.authenticated)
      && st.state.authenticated == (s.authenticated || st.result == Ok(true))
      && (page.ConnectionError? || page.status != 200 ==>
            st.result.Raised? && st.state == s && st.sent == [LoginPageRequest])
      && (page.Response? && page.status == 200 ==>
            var jar := s.cookies + page.cookies;
            var answer := server(HttpPost(LoginPage, LoginForm(c), jar));
            && st.sent == [LoginPageRequest, HttpPost(LoginPage, LoginForm(c), jar)]
            && (answer.ConnectionError? ==> st.result.Raised? && st.state.cookies == jar)
            && (answer.Response? ==>
                  && st.result == Ok(answer.status == 302 && "adminis" in st.state.cookies)
                  && (forall key :: key in st.state.cookies <==> key in s.cookies || key in page.cookies || key in answer.cookies)
                  && (forall key :: key in answer.cookies ==> st.state.cookies[key] == answer.cookies[key])
                  && (forall key :: key in page.cookies && key !in answer.cookies ==> st.state.cookies[key] == page.cookies[key])
                  && (forall key :: key in s.cookies && key !in page.cookies && key !in answer.cookies ==>
                        st.state.cookies[key] == s.cookies[key])))
  {
  }

  /** The ids are duplicate-free digit strings, each with an entry. */
  predicate WellFormed(s: ClientState) {
    && NoDuplicates(s.locationIds)
    && (forall k :: 0 <= k < |s.locationIds| ==> IsDigits(s.locationIds[k]))
    && (forall k :: 0 <= k < |s.locationIds| ==> s.locationIds[k] in s.locationInfo)
  }

  lemma InitialWellFormed()
    ensures WellFormed(InitialState)
  {
  }

  lemma LoginKeepsLocations(s: ClientState, c: Credentials, server: Server)
    ensures LoginStep(s, c, server).state.locationIds == s.locationIds
    ensures LoginStep(s, c, server).state.locationInfo == s.locationInfo
  {
  }

  /** Discovery, when it runs, leaves a well-formed state; when ids are
      cached it changes nothing and sends nothing. */
  lemma DiscoverStepSpec(s: ClientState, server: Server)
    requires WellFormed(s)
    ensures WellFormed(DiscoverStep(s, server).0)
    ensures s.locationIds != [] ==> DiscoverStep(s, server) == (s, [])
    ensures DiscoverStep(s, server).0.cookies == s.cookies
    ensures DiscoverStep(s, server).0.authenticated == s.authenticated
    ensures forall x :: x in s.locationInfo ==> x in DiscoverStep(s, server).0.locationInfo
  {
    if s.locationIds == [] {
      var page := server(HttpGet(Dashboard, s.cookies));
      if page.Response? && page.status == 200 {
        DiscoverIds(s.locationInfo, page);
        DiscoverKeys(s.locationInfo, page);
      }
    }
  }

  /** `get_data` raises only when the login it attempts raises; the poll's
      own failures never escape. */
  lemma PollRaisesOnlyOnLogin(s: ClientState, c: Credentials, server: Server, parse: FloatParser)
    ensures PollStep(s, c, server, parse).result.Raised? <==> !s.authenticated && AuthStep(s, c, server).result.Raised?
  {
  }

  /** A refused login (`False`) does not stop the poll. */
  lemma PollIgnoresRefusedLogin(s: ClientState, c: Credentials, server: Server, parse: FloatParser)
    requires !s.authenticated && AuthStep(s, c, server).result == Ok(false)
    ensures PollStep(s, c, server, parse).result.Ok?
    ensures !PollStep(s, c, server, parse).state.authenticated
  {
  }

  /** When discovery has to run and finds nothing, the answer is the empty
      snapshot, and that is the only way the ids stay empty. */
  lemma PollEmpty(s: ClientState, c: Credentials, server: Server, parse: FloatParser)
    ensures var st := PollStep(s, c, server, parse);
      st.result.Ok? && st.state.locationIds == [] ==> st.result == Ok(EmptySnapshot)
    ensures var st := PollStep(s, c, server, parse);
      st.result.Ok? && st.result.value.locations == [] ==> st.state.locationIds == []
  {
    var st := PollStep(s, c, server, parse);
    var login := LoginStep(s, c, server);
    if st.result.Ok? {
      var (s', reqs) := DiscoverStep(login.state, server);
      if s'.locationIds != [] {
        GatherEntries(server, s'.cookies, s'.locationInfo, s'.locationIds, parse);
      }
    }
  }

  /** The shape of a non-empty snapshot: one entry per cached id, in order,
      each being that location's own fetches; `location_count` is the number
      of ids, `total_pending` is 0.0, and the last payment is the one offered
      by the first location that offers one. */
  lemma PollShape(s: ClientState, c: Credentials, server: Server, parse: FloatParser)
    ensures var st := PollStep(s, c, server, parse); var ids := st.state.locationIds;
      st.result.Ok? && ids != [] ==>
        var snap := st.result.value; var cookies := st.state.cookies; var info := st.state.locationInfo;
        && |snap.locations| == |ids|
        && (forall k :: 0 <= k < |ids| ==>
              snap.locations[k] == (ids[k], LocationEntry(server, cookies, info, ids[k],
                                                          FirstCandidate(server, cookies, ids[..k], parse).None?, parse).0))
        && snap.summary == Summary(0.0, |ids|, FirstCandidate(server, cookies, ids, parse))
  {
    var st := PollStep(s, c, server, parse);
    var ids := st.state.locationIds;
    if st.result.Ok? && ids != [] {
      GatherEntries(server, st.state.cookies, st.state.locationInfo, ids, parse);
      GatherLast(server, st.state.cookies, st.state.locationInfo, ids, parse);
    }
  }

  /** Three requests sent one by one extend the trace as one block. */
  lemma ThreeRequests(a: seq<Request>, b: seq<Request>, x: Request, y: Request, z: Request)
    ensures a + b + [x] + [y] + [z] == a + (b + [x, y, z])
  {
  }

  lemma OneRequest(a: seq<Request>, b: seq<Request>, x: Request)
    ensures a + b + [x] == a + (b + [x])
  {
  }

  /** Requests sent by consecutive stages make one trace. */
  lemma TraceAppend(a: seq<Request>, b: seq<Request>, c: seq<Request>, d: seq<Request>)
    ensures a + b + c + d == a + (b + c + d)
  {
  }

  /** A successful poll is the login, the discovery and the loop over the
      ids discovery leaves. */
  lemma PollStepResult(s: ClientState, c: Credentials, server: Server, parse: FloatParser)
    ensures var st := PollStep(s, c, server, parse); var login := LoginStep(s, c, server);
      st.result.Ok? ==>
        && login.result.Ok?
        && st.state == DiscoverStep(login.state, server).0
        && (st.state.locationIds == [] ==> st.result.value == EmptySnapshot)
        && (st.state.locationIds != [] ==>
              st.result.value.locations == Gather(server, st.state.cookies, st.state.locationInfo, st.state.locationIds, parse).0)
  {
  }

  /** On a well-formed state every entry of the snapshot carries its
      location's info. */
  lemma PollCarriesInfo(s: ClientState, c: Credentials, server: Server, parse: FloatParser)
    requires WellFormed(s)
    ensures var st := PollStep(s, c, server, parse);
      st.result.Ok? ==> forall k :: 0 <= k < |st.result.value.locations| ==>
        && st.result.value.locations[k].0 in st.state.locationInfo
        && st.result.value.locations[k].1.info == Some(st.state.locationInfo[st.result.value.locations[k].0])
  {
    var st := PollStep(s, c, server, parse);
    PollStepResult(s, c, server, parse);
    if st.result.Ok? {
      var login := LoginStep(s, c, server);
      LoginKeepsLocations(s, c, server);
      DiscoverStepSpec(login.state, server);
      assert WellFormed(st.state);
      if st.state.locationIds != [] {
        GatherInfo(server, st.state.cookies, st.state.locationInfo, st.state.locationIds, parse);
      }
    }
  }

  /** Logging in and then discovering keeps a state well formed. */
  lemma LoginDiscoverWellFormed(s: ClientState, c: Credentials, server: Server)
    requires WellFormed(s)
    ensures WellFormed(LoginStep(s, c, server).state)
    ensures WellFormed(DiscoverStep(LoginStep(s, c, server).state, server).0)
  {
    var login := LoginStep(s, c, server);
    assert login.state.locationIds == s.locationIds && login.state.locationInfo == s.locationInfo;
    DiscoverStepSpec(login.state, server);
  }

  /** A poll leaves the state of its login, or of the discovery after it. */
  lemma PollState(s: ClientState, c: Credentials, server: Server, parse: FloatParser)
    ensures var login := LoginStep(s, c, server);
      PollStep(s, c, server, parse).state ==
        if login.result.Raised? then login.state else DiscoverStep(login.state, server).0
  {
  }

  lemma PollKeepsWellFormed(s: ClientState, c: Credentials, server: Server, parse: FloatParser)
    requires WellFormed(s)
    ensures WellFormed(PollStep(s, c, server, parse).state)
  {
    LoginDiscoverWellFormed(s, c, server);
    PollState(s, c, server, parse);
  }

  /** Every operation leaves a well-formed state well-formed. */
  lemma OperationsKeepWellFormed(s: ClientState, c: Credentials, server: Server, parse: FloatParser, locationId: Option<string>)
    requires WellFormed(s)
    ensures WellFormed(AuthStep(s, c, server).state)
    ensures WellFormed(PollStep(s, c, server, parse).state)
    ensures WellFormed(HistoryStep(s, c, server, locationId).state)
    ensures WellFormed(LocationsStep(s, c, server).state)
    ensures WellFormed(BillingStep(s, c, server, parse).state)
  {
    LoginDiscoverWellFormed(s, c, server);
    PollKeepsWellFormed(s, c, server, parse);
    var login := LoginStep(s, c, server);
    if login.result.Ok? {
      PollKeepsWellFormed(login.state, c, server, parse);
    }
  }

  /** The poll loop only fetches per-location resources. */
  lemma {:induction false} PollRequestsAreFetches(ids: seq<string>, cookies: map<string, string>)
    ensures forall k :: 0 <= k < |PollRequests(ids, cookies)| ==>
      PollRequests(ids, cookies)[k].HttpGet? && PollRequests(ids, cookies)[k].page.ApiPage?
    decreases |ids|
  {
    if ids != [] {
      PollRequestsAreFetches(ids[..|ids| - 1], cookies);
    }
  }

  /** Once ids are cached, a poll never loads the dashboard again and keeps
      the ids, whatever the portal answers. */
  lemma PollDiscoversOnce(s: ClientState, c: Credentials, server: Server, parse: FloatParser)
    requires s.locationIds != []
    ensures var st := PollStep(s, c, server, parse);
      && st.state.locationIds == s.locationIds
      && st.state.locationInfo == s.locationInfo
      && forall k :: 0 <= k < |st.sent| ==> st.sent[k].page != Dashboard
  {
    var login := LoginStep(s, c, server);
    PollRequestsAreFetches(s.locationIds, login.state.cookies);
  }

  /** When the merge succeeds it holds exactly the collected records, newest
      date first, each tagged with a requested location, with ties in
      collection order; it raises only on a failed login or on dates that
      cannot be compared. */
  lemma HistoryStepSpec(s: ClientState, c: Credentials, server: Server, locationId: Option<string>)
    ensures var st := HistoryStep(s, c, server, locationId);
      var targets := HistoryTargets(st.state, locationId);
      var all := Collect(server, st.state.cookies, targets);
      && (st.result.Raised? <==>
            (!s.authenticated && AuthStep(s, c, server).result.Raised?) || SortOutcome(all).Raised?)
      && (st.result.Ok? ==>
            && SortedByDate(st.result.value)
            && multiset(st.result.value) == multiset(all)
            && (forall key :: WithKey(st.result.value, key) == WithKey(all, key))
            && (forall i :: 0 <= i < |st.result.value| ==>
                  "location_id" in st.result.value[i]
                  && exists k :: 0 <= k < |targets| && st.result.value[i]["location_id"] == JStr(targets[k])))
  {
    var st := HistoryStep(s, c, server, locationId);
    var targets := HistoryTargets(st.state, locationId);
    var all := Collect(server, st.state.cookies, targets);
    if st.result.Ok? {
      assert st.result == SortOutcome(all);
      SortOutcomeSpec(all);
      CollectTagged(server, st.state.cookies, targets);
      TagsSurvivePermutation(st.result.value, all, targets);
    }
  }

  /** Reordering the records keeps every record's tag. */
  lemma TagsSurvivePermutation(rs: seq<Record>, all: seq<Record>, targets: seq<string>)
    requires multiset(rs) == multiset(all)
    requires forall i :: 0 <= i < |all| ==>
      "location_id" in all[i] && exists k :: 0 <= k < |targets| && all[i]["location_id"] == JStr(targets[k])
    ensures forall i :: 0 <= i < |rs| ==>
      "location_id" in rs[i] && exists k :: 0 <= k < |targets| && rs[i]["location_id"] == JStr(targets[k])
  {
    forall i | 0 <= i < |rs|
      ensures "location_id" in rs[i] && exists k :: 0 <= k < |targets| && rs[i]["location_id"] == JStr(targets[k])
    {
      assert rs[i] in multiset(all);
      var j :| 0 <= j < |all| && all[j] == rs[i];
    }
  }

  /** A single requested location is fetched alone, even when ids are
      cached: after the login and the discovery the only request is that
      location's history, and the answer is its records sorted. */
  lemma HistoryOneLocation(s: ClientState, c: Credentials, server: Server, locationId: string)
    requires locationId != []
    ensures var st := HistoryStep(s, c, server, Some(locationId)); var login := LoginStep(s, c, server);
      login.result.Ok? ==>
        && st.sent == login.sent + DiscoverStep(login.state, server).1 + [HistoryRequest(locationId, st.state.cookies)]
        && st.result == SortOutcome(TaggedRecords(FetchResult(server(HistoryRequest(locationId, st.state.cookies))), locationId))
  {
    var login := LoginStep(s, c, server);
    if login.result.Ok? {
      var d := DiscoverStep(login.state, server);
      assert HistoryTargets(d.0, Some(locationId)) == [locationId];
      CollectOne(server, d.0.cookies, locationId);
    }
  }

  /** `get_locations` answers the cached ids, and with ids cached on an
      authenticated client it sends nothing and changes nothing. */
  lemma LocationsSpec(s: ClientState, c: Credentials, server: Server)
    ensures var st := LocationsStep(s, c, server);
      st.result.Ok? ==> st.result.value == st.state.locationIds
    ensures s.authenticated && s.locationIds != [] ==> LocationsStep(s, c, server) == Step(s, Ok(s.locationIds), [])
  {
  }

  /** `get_billing_info` answers the summary of the `get_data` it runs after
      its own login attempt. */
  lemma BillingSpec(s: ClientState, c: Credentials, server: Server, parse: FloatParser)
    ensures var st := BillingStep(s, c, server, parse); var login := LoginStep(s, c, server);
      login.result.Ok? ==>
        var poll := PollStep(login.state, c, server, parse);
        && st.state == poll.state
        && (st.result.Ok? <==> poll.result.Ok?)
        && (st.result.Ok? ==> st.result.value == poll.result.value.summary)
    ensures BillingStep(s, c, server, parse).result.Ok? ==>
      BillingStep(s, c, server, parse).result.value.totalPending == 0.0
  {
    var login := LoginStep(s, c, server);
    if login.result.Ok? {
      var poll := PollStep(login.state, c, server, parse);
      if poll.result.Ok? {
        PollEmpty(login.state, c, server, parse);
        PollShape(login.state, c, server, parse);
      }
    }
  }

  /** The client. The portal answers are the `server` argument of each call;
      `sent` records every request made, in order. */
  class Api {
    const credentials: Credentials
    var cookies: map<string, string>
    var authenticated: bool
    var locationIds: seq<string>
    var locationInfo: map<string, LocationInfo>
    ghost var sent: seq<Request>

    function State(): ClientState
      reads this
    {
      ClientState(cookies, authenticated, locationIds, locationInfo)
    }

    constructor (username: string, password: string)
      ensures credentials == Credentials(username, password)
      ensures State() == InitialState && sent == []
    {
      credentials := Credentials(username, password);
      cookies := map[];
      authenticated := false;
      locationIds := [];
      locationInfo := map[];
      sent := [];
    }

    /** One HTTP call. */
    method Send(server: Server, req: Request) returns (resp: Response)
      modifies this`sent
      ensures resp == server(req) && sent == old(sent) + [req]
    {
      resp := server(req);
      sent := sent + [req];
    }

    /** `_fetch_pending_payments`, `_fetch_payment_history`, `_fetch_counters`. */
    method Fetch(server: Server, r: Resource, locationId: string) returns (body: Eval<Json>)
      modifies this`sent
      ensures body == FetchResult(server(ResourceRequest(r, locationId, cookies)))
      ensures sent == old(sent) + [ResourceRequest(r, locationId, cookies)]
    {
      var resp := Send(server, HttpGet(ApiPage(r, locationId), cookies));
      if resp.ConnectionError? || resp.status != 200 {
        body := Raised;
      } else if resp.json.None? {
        body := Raised;
      } else {
        body := Ok(resp.json.value);
      }
    }

    method Authenticate(server: Server) returns (r: Eval<bool>)
      modifies this
      ensures var st := AuthStep(old(State()), credentials, server);
        State() == st.state && r == st.result && sent == old(sent) + st.sent
    {
      var page := Send(server, LoginPageRequest);
      if page.ConnectionError? || page.status != 200 {
        return Raised;
      }
      cookies := cookies + page.cookies;
      var answer := Send(server, HttpPost(LoginPage, LoginForm(credentials), cookies));
      if answer.ConnectionError? {
        return Raised;
      }
      cookies := cookies + answer.cookies;
      if answer.status == 302 {
        if "adminis" in cookies {
          authenticated := true;
          return Ok(true);
        }
        return Ok(false);
      }
      return Ok(false);
    }

    /** Logs in when not yet authenticated; `false` when that raised. */
    method LoginIfNeeded(server: Server) returns (ok: bool)
      modifies this
      ensures var st := LoginStep(old(State()), credentials, server);
        State() == st.state && ok == st.result.Ok? && sent == old(sent) + st.sent
    {
      ok := true;
      if !authenticated {
        var r := Authenticate(server);
        ok := r.Ok?;
      }
    }

    /** The match loop of `_extract_location_ids`: each id not seen before is
        appended and gets an entry built from its caption. */
    method RecordMatches(ms: seq<CodeMatch>) returns (ids: seq<string>)
      modifies this`locationInfo
      ensures ids == UniqueIds(ms)
      ensures locationInfo == old(locationInfo) + Infos(ms)
    {
      ids := [];
      var k := 0;
      while k < |ms|
        invariant 0 <= k <= |ms|
        invariant ids == UniqueIds(ms[..k])
        invariant locationInfo == old(locationInfo) + Infos(ms[..k])
      {
        var m := ms[k];
        MatchStep(ms, k);
        if m.id !in ids {
          ids := ids + [m.id];
          MergeUpdate(old(locationInfo), Infos(ms[..k]), m.id, ParseCaption(m.id, m.caption));
          locationInfo := locationInfo[m.id := ParseCaption(m.id, m.caption)];
        }
        k := k + 1;
      }
      assert ms[..k] == ms;
    }

    /** The association loop: `association_id` on the entry of every id. */
    method AttachAssociation(ids: seq<string>, assoc: string)
      requires NoDuplicates(ids)
      requires forall k :: 0 <= k < |ids| ==> ids[k] in locationInfo
      modifies this`locationInfo
      ensures locationInfo == Associate(old(locationInfo), ids, assoc)
    {
      var j := 0;
      while j < |ids|
        invariant 0 <= j <= |ids|
        invariant locationInfo == Associate(old(locationInfo), ids[..j], assoc)
      {
        var id := ids[j];
        ghost var prev := locationInfo;
        assert ids[..j + 1] == ids[..j] + [id];
        assert prev[id] == old(locationInfo)[id] by {
          assert id !in ids[..j];
        }
        locationInfo := locationInfo[id := locationInfo[id].(associationId := Some(assoc))];
        assert locationInfo == Associate(old(locationInfo), ids[..j + 1], assoc) by {
          forall x | x in old(locationInfo)
            ensures x in ids[..j + 1] <==> x in ids[..j] || x == id
          {
          }
        }
        j := j + 1;
      }
      assert ids[..j] == ids;
    }

    /** `_extract_location_ids`. */
    method ExtractLocationIds(server: Server) returns (ids: seq<string>)
      modifies this`locationInfo, this`sent
      ensures var page := server(HttpGet(Dashboard, cookies));
        (ids, locationInfo) == Discover(old(locationInfo), page)
      ensures sent == old(sent) + [HttpGet(Dashboard, cookies)]
    {
      var page := Send(server, HttpGet(Dashboard, cookies));
      if page.ConnectionError? || page.status != 200 {
        return [];
      }
      var ms := CodeMatches(page.text);
      ids := RecordMatches(ms);
      var assoc := FirstAssoc(page.text);
      if assoc.Some? {
        UniqueIdsSpec(ms);
        InfosSpec(ms);
        AttachAssociation(ids, assoc.value);
      }
    }

    method DiscoverIfNeeded(server: Server)
      modifies this
      ensures State() == DiscoverStep(old(State()), server).0
      ensures sent == old(sent) + DiscoverStep(old(State()), server).1
    {
      if locationIds == [] {
        var ids := ExtractLocationIds(server);
        locationIds := ids;
        assert (locationIds, locationInfo) == Discover(old(locationInfo), server(HttpGet(Dashboard, cookies)));
      }
    }

    /** The location loop of `get_data`: three fetches per location and the
        running `last_payment`. */
    method PollLocations(server: Server, parse: FloatParser) returns (entries: seq<(string, LocationData)>, last: Option<LastPayment>)
      modifies this`sent
      ensures (entries, last) == Gather(server, cookies, locationInfo, locationIds, parse)
      ensures sent == old(sent) + PollRequests(locationIds, cookies)
    {
      entries := [];
      last := None;
      var k := 0;
      while k < |locationIds|
        invariant 0 <= k <= |locationIds|
        invariant (entries, last) == Gather(server, cookies, locationInfo, locationIds[..k], parse)
        invariant sent == old(sent) + PollRequests(locationIds[..k], cookies)
      {
        var id := locationIds[k];
        assert locationIds[..k + 1] == locationIds[..k] + [id];
        GatherSnoc(server, cookies, locationInfo, locationIds[..k], id, parse);
        var pending := Fetch(server, PendingPayments, id);
        var history := Fetch(server, PaymentsHistory, id);
        var counters := Fetch(server, Counters, id);
        ThreeRequests(old(sent), PollRequests(locationIds[..k], cookies), ResourceRequest(PendingPayments, id, cookies),
                      ResourceRequest(PaymentsHistory, id, cookies), ResourceRequest(Counters, id, cookies));
        var h := HistoryOutcome(history, last.None?, id, parse);
        var info := if id in locationInfo then Some(locationInfo[id]) else None;
        var data := LocationData(info, PendingField(pending), h.0, if counters.Ok? then counters.value else JNull);
        EntryOfBodies(server, cookies, locationInfo, id, last.None?, parse, pending, history, counters);
        entries := entries + [(id, data)];
        if last.None? {
          last := h.1;
        }
        k := k + 1;
      }
      assert locationIds[..k] == locationIds;
    }

    /** `get_data`. */
    method GetData(server: Server, parse: FloatParser) returns (r: Eval<Snapshot>)
      modifies this
      ensures var st := PollStep(old(State()), credentials, server, parse);
        State() == st.state && r == st.result && sent == old(sent) + st.sent
    {
      ghost var s0 := State();
      ghost var login := LoginStep(s0, credentials, server);
      var ok := LoginIfNeeded(server);
      if !ok {
        return Raised;
      }
      ghost var afterLogin := sent;
      DiscoverIfNeeded(server);
      ghost var d := DiscoverStep(login.state, server);
      assert State() == d.0 && sent == afterLogin + d.1;
      if locationIds == [] {
        assert PollStep(s0, credentials, server, parse) == Step(d.0, Ok(EmptySnapshot), login.sent + d.1);
        return Ok(EmptySnapshot);
      }
      ghost var beforeLoop := sent;
      var entries, last := PollLocations(server, parse);
      r := Ok(Snapshot(entries, Summary(0.0, |locationIds|, last)));
      assert PollStep(s0, credentials, server, parse) == Step(d.0, r, login.sent + d.1 + PollRequests(locationIds, cookies));
      TraceAppend(old(sent), login.sent, d.1, PollRequests(locationIds, cookies));
    }

    /** The inner loop of `get_payment_history`: tag and append each record
        of `es` until one is not a dictionary. */
    method AppendTagged(all: seq<Record>, es: seq<Json>, t: string) returns (all': seq<Record>)
      ensures all' == all + TagAll(es, t)
    {
      all' := all;
      var j := 0;
      while j < |es|
        invariant 0 <= j <= ObjectPrefix(es)
        invariant all' == all + TagAll(es, t)[..j]
      {
        if !es[j].JObj? {
          break;
        }
        assert TagAll(es, t)[..j + 1] == TagAll(es, t)[..j] + [Tag(es[j].fields, t)];
        all' := all' + [Tag(es[j].fields, t)];
        j := j + 1;
      }
      assert TagAll(es, t)[..j] == TagAll(es, t);
    }

    /** One location of `get_payment_history`: fetch its history and append
        its tagged records; a failing location adds nothing. */
    method AddLocationHistory(server: Server, all: seq<Record>, t: string) returns (all': seq<Record>)
      modifies this`sent
      ensures all' == all + TaggedRecords(FetchResult(server(HistoryRequest(t, cookies))), t)
      ensures sent == old(sent) + [HistoryRequest(t, cookies)]
    {
      all' := all;
      var body := Fetch(server, PaymentsHistory, t);
      if body.Ok? && body.value.JObj? {
        var results := Get(body.value.fields, "results");
        if Truthy(results) && results.JArr? {
          all' := AppendTagged(all, results.elems, t);
        } else if results.JArr? {
          assert TagAll(results.elems, t) == [];
        }
      }
    }

    /** The location loop of `get_payment_history`. */
    method CollectHistory(server: Server, targets: seq<string>) returns (all: seq<Record>)
      modifies this`sent
      ensures all == Collect(server, cookies, targets)
      ensures sent == old(sent) + HistoryRequests(targets, cookies)
    {
      all := [];
      var k := 0;
      while k < |targets|
        invariant 0 <= k <= |targets|
        invariant all == Collect(server, cookies, targets[..k])
        invariant sent == old(sent) + HistoryRequests(targets[..k], cookies)
      {
        var t := targets[k];
        assert targets[..k + 1] == targets[..k] + [t];
        CollectSnoc(server, cookies, targets[..k], t);
        HistoryRequestsSnoc(targets[..k], t, cookies);
        OneRequest(old(sent), HistoryRequests(targets[..k], cookies), HistoryRequest(t, cookies));
        all := AddLocationHistory(server, all, t);
        k := k + 1;
      }
      assert targets[..k] == targets;
    }

    /** `get_payment_history`. */
    method GetPaymentHistory(server: Server, locationId: Option<string>) returns (r: Eval<seq<Record>>)
      modifies this
      ensures var st := HistoryStep(old(State()), credentials, server, locationId);
        State() == st.state && r == st.result && sent == old(sent) + st.sent
    {
      ghost var s0 := State();
      ghost var sent0 := sent;
      ghost var login := LoginStep(s0, credentials, server);
      var ok := LoginIfNeeded(server);
      if !ok {
        return Raised;
      }
      ghost var afterLogin := sent;
      DiscoverIfNeeded(server);
      ghost var d := DiscoverStep(login.state, server);
      assert State() == d.0 && sent == afterLogin + d.1;
      ghost var afterDiscover := sent;
      var targets := if locationId.Some? && locationId.value != "" then [locationId.value] else locationIds;
      assert targets == HistoryTargets(d.0, locationId);
      var all := CollectHistory(server, targets);
      r := SortOutcome(all);
      assert sent == afterDiscover + HistoryRequests(targets, cookies);
      TraceAppend(sent0, login.sent, d.1, HistoryRequests(targets, cookies));
      assert HistoryStep(s0, credentials, server, locationId)
          == Step(d.0, SortOutcome(Collect(server, cookies, targets)), login.sent + d.1 + HistoryRequests(targets, cookies));
    }

    /** `get_locations`. */
    method GetLocations(server: Server) returns (r: Eval<seq<string>>)
      modifies this
      ensures var st := LocationsStep(old(State()), credentials, server);
        State() == st.state && r == st.result && sent == old(sent) + st.sent
    {
      var ok := LoginIfNeeded(server);
      if !ok {
        return Raised;
      }
      DiscoverIfNeeded(server);
      return Ok(locationIds);
    }

    /** `get_billing_info`. */
    method GetBillingInfo(server: Server, parse: FloatParser) returns (r: Eval<Summary>)
      modifies this
      ensures var st := BillingStep(old(State()), credentials, server, parse);
        State() == st.state && r == st.result && sent == old(sent) + st.sent
    {
      var ok := LoginIfNeeded(server);
      if !ok {
        return Raised;
      }
      var data := GetData(server, parse);
      if data.Raised? {
        return Raised;
      }
      return Ok(data.value.summary);
    }
  }
}
