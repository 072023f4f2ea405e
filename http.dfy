/** The portal's wire surface: requests, responses and the fixed URL scheme
    of `const.py`. The portal itself is a function from request to response,
    so every call the client makes is visible in what it sends. */
module Http {
  import opened Values
  import opened Text

  /** The three per-location JSON resources the client polls. */
  datatype Resource = PendingPayments | PaymentsHistory | Counters

  /** The addresses the client requests; `Url` spells each one out. */
  datatype Page = LoginPage | Dashboard | ApiPage(resource: Resource, locationId: string)

  datatype Request =
    | HttpGet(page: Page, cookies: map<string, string>)
    | HttpPost(page: Page, form: seq<(string, string)>, cookies: map<string, string>)

  /** What one HTTP call yields: a status, the cookies the response sets (name
      to value), the body as text, and the body as JSON (`None` when
      `response.json()` would raise, for a body that is not JSON or is not
      served as JSON). `ConnectionError` is a transport failure, raised before
      any status is known. */
  datatype Response =
    | Response(status: int, cookies: map<string, string>, text: string, json: Option<Json>)
    | ConnectionError

  /** The portal as it answers during one call of the client. */
  type Server = Request -> Response

  const BaseUrl := "https://adminislocuinte.ro"
  const LoginUrl := BaseUrl + "/contul-meu/autentificare/"
  const DashboardUrl := BaseUrl + "/i/"
  const ApiRoot := BaseUrl + "/api/"
  const ReceiptPrefix := ApiRoot + "receipt/"

  function ResourcePrefix(r: Resource): string {
    match r
    case PendingPayments => ApiRoot + "pending-payments/"
    case PaymentsHistory => ApiRoot + "payments-history/"
    case Counters => ApiRoot + "counters/"
  }

  /** `API_*.format(location_id=...)` */
  function ResourceUrl(r: Resource, locationId: string): (url: string)
    ensures StartsWith(url, ResourcePrefix(r)) && url[|url| - 1] == '/'
  {
    ResourcePrefix(r) + locationId + "/"
  }

  lemma PrefixesDiffer(r1: Resource, r2: Resource)
    requires r1 != r2
    ensures |ResourcePrefix(r1)| > |ApiRoot| + 1 && |ResourcePrefix(r2)| > |ApiRoot| + 1
    ensures ResourcePrefix(r1)[..|ApiRoot| + 2] != ResourcePrefix(r2)[..|ApiRoot| + 2]
  {
    var n := |ApiRoot|;
    assert ResourcePrefix(r1)[n] == ResourcePrefix(r1)[..n + 2][n];
    assert ResourcePrefix(r2)[n + 1] == ResourcePrefix(r2)[..n + 2][n + 1];
    assert ResourcePrefix(r1)[n + 1] == ResourcePrefix(r1)[..n + 2][n + 1];
    assert ResourcePrefix(r2)[n] == ResourcePrefix(r2)[..n + 2][n];
  }

  /** An address begins with its resource's prefix. */
  lemma UrlHead(r: Resource, a: string)
    ensures |ResourcePrefix(r)| > |ApiRoot| + 1
    ensures ResourceUrl(r, a)[..|ApiRoot| + 2] == ResourcePrefix(r)[..|ApiRoot| + 2]
  {
    var p := ResourcePrefix(r);
    assert ResourceUrl(r, a) == p + (a + "/");
  }

  /** Two addresses with one prefix name the same id. */
  lemma SamePrefixSameId(p: string, a: string, b: string)
    requires p + a + "/" == p + b + "/"
    ensures a == b
  {
    assert a + "/" == (p + a + "/")[|p|..];
    assert b + "/" == (p + b + "/")[|p|..];
    assert a == (a + "/")[..|a|];
    assert b == (b + "/")[..|b|];
  }

  /** Two resource addresses coincide only for the same resource of the same
      location, so no request of the poll answers for another. */
  lemma ResourceUrlInjective(r1: Resource, a: string, r2: Resource, b: string)
    requires ResourceUrl(r1, a) == ResourceUrl(r2, b)
    ensures r1 == r2 && a == b
  {
    if r1 != r2 {
      PrefixesDiffer(r1, r2);
      UrlHead(r1, a);
      UrlHead(r2, b);
    } else {
      SamePrefixSameId(ResourcePrefix(r1), a, b);
    }
  }

  /** No resource address is the login page or the dashboard. */
  lemma ResourceUrlNotPage(r: Resource, a: string)
    ensures ResourceUrl(r, a) != LoginUrl && ResourceUrl(r, a) != DashboardUrl
  {
    var n := |BaseUrl| + 1;
    assert ResourceUrl(r, a)[n] == 'a';
    assert LoginUrl[n] == 'c';
    assert DashboardUrl[n] == 'i';
  }

  /** Every address the client requests lies under the portal's base
      address and ends in `/`. */
  function Url(p: Page): (url: string)
    ensures StartsWith(url, BaseUrl + "/") && url[|url| - 1] == '/'
  {
    match p
    case LoginPage => LoginUrl
    case Dashboard => DashboardUrl
    case ApiPage(r, id) => ResourceUrl(r, id)
  }

  /** Distinct pages have distinct addresses, so a portal answering by
      address is a portal answering by page. */
  lemma UrlInjective(p1: Page, p2: Page)
    requires Url(p1) == Url(p2)
    ensures p1 == p2
  {
    match p1
    case ApiPage(r1, a) =>
      ResourceUrlNotPage(r1, a);
      if p2.ApiPage? {
        ResourceUrlInjective(r1, a, p2.resource, p2.locationId);
      }
    case LoginPage =>
      if p2.ApiPage? {
        ResourceUrlNotPage(p2.resource, p2.locationId);
      }
    case Dashboard =>
      if p2.ApiPage? {
        ResourceUrlNotPage(p2.resource, p2.locationId);
      }
  }

  /** `_fetch_pending_payments`, `_fetch_payment_history`, `_fetch_counters`:
      the decoded body of a 200 response; any other status, a body that is not
      JSON, or a transport failure raises. */
  function FetchResult(resp: Response): (r: Eval<Json>)
    ensures r.Ok? <==> resp.Response? && resp.status == 200 && resp.json.Some?
    ensures r.Ok? ==> r.value == resp.json.value
  {
    if resp.ConnectionError? || resp.status != 200 then Raised
    else match resp.json
      case None => Raised
      case Some(j) => Ok(j)
  }

  /** The address `_fetch_receipt` would use: the month form when both `month`
      and `year` are truthy (given and not zero), the current-receipt form
      otherwise. The receipt fetch itself is never made by the client. */
  function ReceiptUrl(locationId: string, month: Option<int>, year: Option<int>): (url: string)
    ensures StartsWith(url, ReceiptPrefix + locationId + "/") && url[|url| - 1] == '/'
  {
    if month.Some? && month.value != 0 && year.Some? && year.value != 0 then
      ReceiptPrefix + locationId + "/" + (IntToString(month.value) + "-" + IntToString(year.value) + "/")
    else
      ReceiptPrefix + locationId + "/"
  }

  /** For digit location ids the two receipt forms never share an address,
      and the current-receipt address names its location. */
  lemma ReceiptUrlForms(a: string, b: string, month: Option<int>, year: Option<int>)
    requires IsDigits(a) && IsDigits(b)
    ensures ReceiptUrl(a, None, None) == ReceiptUrl(b, None, None) ==> a == b
    ensures month.Some? && month.value != 0 && year.Some? && year.value != 0 ==>
      ReceiptUrl(a, None, None) != ReceiptUrl(b, month, year)
  {
    if ReceiptUrl(a, None, None) == ReceiptUrl(b, None, None) {
      SamePrefixSameId(ReceiptPrefix, a, b);
    }
    if month.Some? && month.value != 0 && year.Some? && year.value != 0 {
      var tail := IntToString(month.value) + "-" + IntToString(year.value) + "/";
      assert ReceiptUrl(b, month, year) == ReceiptPrefix + b + "/" + tail;
      SlashEndsId(ReceiptPrefix, a, b, tail);
    }
  }

  /** After a common prefix, a digit id closed by `/` is never a digit id,
      a `/` and a non-empty tail. */
  lemma SlashEndsId(p: string, a: string, b: string, tail: string)
    requires IsDigits(a) && IsDigits(b) && tail != []
    ensures p + a + "/" != p + b + "/" + tail
  {
    var u := p + a + "/";
    var v := p + b + "/" + tail;
    if |a| > |b| {
      assert u[|p| + |b|] == a[|b|] && v[|p| + |b|] == '/';
    } else if |a| == |b| {
      assert |u| < |v|;
    } else {
      assert u[|p| + |a|] == '/' && v[|p| + |a|] == b[|a|];
    }
  }

}
