/** One fetch from the screener service (`fetch_from_chartink`): a warm-up
    GET of the home page, a GET of the screener page whose HTML carries the
    anti-forgery token in `<meta name="csrf-token" content=...>`, then a POST
    of the query to the widget endpoint with that token in the headers.
    The network is not modelled: the service's answers to the three requests
    are a parameter, and the fetch records which requests it sent. */
module Chartink {
  import opened Wrappers
  import opened Exceptions
  import opened Json
  import OrderedMap

  const CiHome := "https://chartink.com"
  const CiScreener := CiHome + "/screener"
  const CiWidgetProcess := CiHome + "/widget/process"

  const CsrfHeader := "X-CSRF-TOKEN"
  const OriginHeader := "Origin"
  const RefererHeader := "Referer"
  const QueryField := "query"

  type Headers = OrderedMap.Entries<string>

  /** The screener page as far as the fetch looks at it: its status, its final
      URL after redirects, and the `content` attribute of its csrf-token meta
      tag (None when there is no such tag or the tag has no content). */
  datatype ScreenerPage = ScreenerPage(status: int, url: string, csrfContent: Option<string>)

  /** The widget endpoint's reply: its status and its body decoded as JSON
      (None when the body is not JSON). */
  datatype WidgetReply = WidgetReply(status: int, body: Option<Json>)

  /** What the service answers to each request of one fetch; a Failure is an
      exception raised by the HTTP client before any response (timeout,
      connection refused). The warm-up response's content is never read. */
  datatype Exchange = Exchange(
    home: Result<int, Error>,
    screener: Result<ScreenerPage, Error>,
    widget: Result<WidgetReply, Error>)

  datatype Request =
    | Get(url: string)
    | Post(url: string, form: OrderedMap.Entries<string>, headers: Headers)

  /** The requests a fetch sent, in order, and what it returned or raised. */
  datatype Fetch = Fetch(sent: seq<Request>, outcome: Result<Json, Error>)

  /** `raise_for_status` raises for client and server errors. */
  predicate RaisesForStatus(status: int) {
    400 <= status < 600
  }

  /** The token check: a page without the meta tag, or whose tag has a missing
      or empty `content`, raises "CSRF token not found". */
  function CsrfToken(page: ScreenerPage): (r: Result<string, Error>)
    ensures r.Success? <==> page.csrfContent.Some? && page.csrfContent.value != ""
    ensures r.Success? ==> r.value == page.csrfContent.value
    ensures r.Failure? ==> r.error == CsrfTokenNotFound
  {
    match page.csrfContent
    case Some(content) => if content != "" then Success(content) else Failure(CsrfTokenNotFound)
    case None => Failure(CsrfTokenNotFound)
  }

  /** The POST's headers for a token and the screener page's URL. */
  function WidgetHeaders(token: string, referer: string): (h: Headers)
    ensures OrderedMap.DistinctKeys(h)
    ensures OrderedMap.Lookup(h, CsrfHeader) == Some(token)
    ensures OrderedMap.Lookup(h, OriginHeader) == Some(CiHome)
    ensures OrderedMap.Lookup(h, RefererHeader) == Some(referer)
  {
    var h :=
      [ (CsrfHeader, token),
        ("X-Requested-With", "XMLHttpRequest"),
        ("Accept", "application/json"),
        (OriginHeader, CiHome),
        (RefererHeader, referer),
        ("Content-Type", "application/x-www-form-urlencoded; charset=UTF-8") ];
    var names := [CsrfHeader, "X-Requested-With", "Accept", OriginHeader, RefererHeader, "Content-Type"];
    assert OrderedMap.Keys(h) == names;
    assert OrderedMap.Distinct(names);
    assert OrderedMap.Lookup(h, OriginHeader) == Some(CiHome) by {
      OrderedMap.LookupDistinct(h, 3);
    }
    assert OrderedMap.Lookup(h, RefererHeader) == Some(referer) by {
      OrderedMap.LookupDistinct(h, 4);
    }
    h
  }

  /** The header names, in the order the dict literal lists them. */
  lemma WidgetHeaderNames(token: string, referer: string)
    ensures OrderedMap.Keys(WidgetHeaders(token, referer))
      == [CsrfHeader, "X-Requested-With", "Accept", OriginHeader, RefererHeader, "Content-Type"]
  {
  }

  /** The three fixed values besides the token, Origin and Referer: an AJAX
      request that accepts JSON and sends a URL-encoded UTF-8 form. */
  lemma WidgetFixedValues(token: string, referer: string)
    ensures var h := WidgetHeaders(token, referer);
      && OrderedMap.Lookup(h, "X-Requested-With") == Some("XMLHttpRequest")
      && OrderedMap.Lookup(h, "Accept") == Some("application/json")
      && OrderedMap.Lookup(h, "Content-Type") == Some("application/x-www-form-urlencoded; charset=UTF-8")
  {
    var h := WidgetHeaders(token, referer);
    OrderedMap.LookupDistinct(h, 1);
    OrderedMap.LookupDistinct(h, 2);
    OrderedMap.LookupDistinct(h, 5);
  }

  /** The POST a fetch sends once it holds a token. */
  function WidgetRequest(query: string, token: string, page: ScreenerPage): Request {
    Post(CiWidgetProcess, [(QueryField, query)], WidgetHeaders(token, page.url))
  }

  /** Both GETs came back and the screener page's status passed
      `raise_for_status`: the point where the page's HTML is read. */
  predicate PageLoaded(ex: Exchange) {
    ex.home.Success? && ex.screener.Success? && !RaisesForStatus(ex.screener.value.status)
  }

  /** `fetch_from_chartink({"query": query})` against the answers in `ex`. */
  function FetchFromChartink(query: string, ex: Exchange): (f: Fetch)
    ensures |f.sent| <= 3
    ensures forall i :: 0 <= i < |f.sent| && f.sent[i].Post? ==>
      && i == 2
      && PageLoaded(ex)
      && CsrfToken(ex.screener.value).Success?
      && f.sent[i] == WidgetRequest(query, CsrfToken(ex.screener.value).value, ex.screener.value)
    ensures ex.home.Failure? ==> f.sent == [Get(CiHome)]
    ensures ex.home.Success? && !(PageLoaded(ex) && CsrfToken(ex.screener.value).Success?) ==>
      f.sent == [Get(CiHome), Get(CiScreener)]
    ensures PageLoaded(ex) && CsrfToken(ex.screener.value).Success? ==>
      f.sent == [Get(CiHome), Get(CiScreener), WidgetRequest(query, CsrfToken(ex.screener.value).value, ex.screener.value)]
    ensures ex.home.Failure? ==> f.outcome == Failure(ex.home.error)
    ensures ex.home.Success? && ex.screener.Failure? ==> f.outcome == Failure(ex.screener.error)
    ensures ex.home.Success? && ex.screener.Success? && RaisesForStatus(ex.screener.value.status) ==>
      f.outcome == Failure(HttpError(ex.screener.value.status))
    ensures PageLoaded(ex) && CsrfToken(ex.screener.value).Failure? ==> f.outcome == Failure(CsrfTokenNotFound)
    ensures PageLoaded(ex) && CsrfToken(ex.screener.value).Success? ==> f.outcome == WidgetOutcome(ex.widget)
    ensures f.outcome.Success? ==>
      && PageLoaded(ex)
      && CsrfToken(ex.screener.value).Success?
      && |f.sent| == 3
      && f.sent[2] == WidgetRequest(query, CsrfToken(ex.screener.value).value, ex.screener.value)
  {
    var gets := [Get(CiHome), Get(CiScreener)];
    if ex.home.Failure? then Fetch([Get(CiHome)], Failure(ex.home.error))
    else if ex.screener.Failure? then Fetch(gets, Failure(ex.screener.error))
    else
      var page := ex.screener.value;
      if RaisesForStatus(page.status) then Fetch(gets, Failure(HttpError(page.status)))
      else
        match CsrfToken(page)
        case Failure(e) => Fetch(gets, Failure(e))
        case Success(token) =>
          Fetch(gets + [WidgetRequest(query, token, page)], WidgetOutcome(ex.widget))
  }

  /** What the POST yields: the client's exception, `raise_for_status`, then
      `resp.json()`. */
  function WidgetOutcome(widget: Result<WidgetReply, Error>): (r: Result<Json, Error>)
    ensures r.Success? <==> widget.Success? && !RaisesForStatus(widget.value.status) && widget.value.body.Some?
    ensures r.Success? ==> r.value == widget.value.body.value
    ensures widget.Failure? ==> r == Failure(widget.error)
    ensures widget.Success? && RaisesForStatus(widget.value.status) ==> r == Failure(HttpError(widget.value.status))
    ensures widget.Success? && !RaisesForStatus(widget.value.status) && widget.value.body.None? ==> r == Failure(JsonDecodeError)
  {
    match widget
    case Failure(e) => Failure(e)
    case Success(reply) =>
      if RaisesForStatus(reply.status) then Failure(HttpError(reply.status))
      else
        match reply.body
        case None => Failure(JsonDecodeError)
        case Some(data) => Success(data)
  }

  /** The token guard: once the screener page has loaded, a missing or empty
      token makes the fetch raise "CSRF token not found" and no POST is sent. */
  lemma TokenGuard(query: string, ex: Exchange)
    requires PageLoaded(ex)
    requires ex.screener.value.csrfContent.None? || ex.screener.value.csrfContent == Some("")
    ensures FetchFromChartink(query, ex).outcome == Failure(CsrfTokenNotFound)
    ensures forall r :: r in FetchFromChartink(query, ex).sent ==> !r.Post?
  {
  }

  /** With a token the POST carries it under X-CSRF-TOKEN, with the fixed
      Origin and the screener page's own URL as Referer, and the query as the
      form's only field. */
  lemma PostCarriesToken(query: string, ex: Exchange, token: string)
    requires PageLoaded(ex)
    requires ex.screener.value.csrfContent == Some(token) && token != ""
    ensures var f := FetchFromChartink(query, ex);
      && |f.sent| == 3
      && f.sent[2].Post?
      && f.sent[2].url == CiWidgetProcess
      && f.sent[2].form == [(QueryField, query)]
      && OrderedMap.Lookup(f.sent[2].headers, CsrfHeader) == Some(token)
      && OrderedMap.Lookup(f.sent[2].headers, OriginHeader) == Some(CiHome)
      && OrderedMap.Lookup(f.sent[2].headers, RefererHeader) == Some(ex.screener.value.url)
  {
    var page := ex.screener.value;
    assert FetchFromChartink(query, ex).sent[2].headers == WidgetHeaders(token, page.url);
  }
}
