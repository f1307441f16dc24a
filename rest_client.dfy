/** The authenticated HTTP transport: URL and query construction, the bearer-token header, and the
    classification of response status codes that drives token renewal and retries. */
module RestClient {
  import opened Strings
  import opened Json

  const ACCEPT := "Accept"
  const AUTHORIZATION := "Authorization"
  const JSON_MEDIA_TYPE := "application/json"

  /** What the service sent back; the HTTP exchange itself happens outside the model. */
  datatype HttpResponse = HttpResponse(status: int, text: string, json: Value, headers: map<string, string>)

  /** What a verb method returns on success: the decoded body and the response headers. */
  datatype Reply = Reply(json: Value, headers: map<string, string>)

  datatype Verb = GET | POST | PATCH | DELETE

  /** The request a verb method logs and dispatches: base URL with its path segments, query entries, JSON payload. */
  datatype Request = Request(verb: Verb, urlBase: string, segments: seq<Value>, query: seq<string>, payload: Value)

  /** The outcome `_verify_response` assigns to a status code. */
  datatype Verdict =
    | Accepted        // 200: returns normally and clears the renewal flag
    | HiddenNotFound  // 404: returns normally, shown to the caller as "no results"
    | RenewAndRetry   // 401/403 before a renewal: fetches a new token, raises a retryable error
    | ClientFailure   // any other 4xx, including 401/403 right after a renewal
    | ServerFailure   // 5xx
    | OtherFailure    // every remaining status, 1xx, 2xx other than 200 and 3xx included

  predicate IsAuthFailure(status: int) {
    status == 401 || status == 403
  }

  /** The classification of `_verify_response`, given whether the token was just renewed. */
  function Classify(status: int, renewed: bool): (v: Verdict)
    ensures v == Accepted <==> status == 200
    ensures v == HiddenNotFound <==> status == 404
    ensures v == RenewAndRetry <==> IsAuthFailure(status) && !renewed
    ensures v == ServerFailure <==> 500 <= status < 600
    ensures v == ClientFailure <==> 400 <= status < 500 && status != 404 && !(IsAuthFailure(status) && !renewed)
    ensures v == OtherFailure <==> status != 200 && !(400 <= status < 600)
  {
    if status != 200 then
      if IsAuthFailure(status) && !renewed then RenewAndRetry
      else if 500 <= status < 600 then ServerFailure
      else if 400 <= status < 500 then (if status != 404 then ClientFailure else HiddenNotFound)
      else OtherFailure
    else Accepted
  }

  /** The exception a verdict raises, if any. */
  function Raised(v: Verdict, status: int, text: string): (e: Option<Error>)
    ensures e.None? <==> v == Accepted || v == HiddenNotFound
  {
    match v
    case Accepted => None
    case HiddenNotFound => None
    case RenewAndRetry => Some(RequestException(status))
    case ClientFailure => Some(CvaClientError(status, text))
    case ServerFailure => Some(CvaServerError(status, text))
    case OtherFailure => Some(ValueError(IntToString(status) + ":" + text))
  }

  /** The renewal flag after a response: cleared by a 200, set by a renewal, otherwise kept. */
  function RenewedAfter(renewed: bool, status: int): bool {
    if status == 200 then false
    else if Classify(status, renewed) == RenewAndRetry then true
    else renewed
  }

  /** Number of token renewals performed while the responses `statuses` are verified in order. */
  function Renewals(renewed: bool, statuses: seq<int>): nat
    decreases |statuses|
  {
    if statuses == [] then 0
    else
      (if Classify(statuses[0], renewed) == RenewAndRetry then 1 else 0)
      + Renewals(RenewedAfter(renewed, statuses[0]), statuses[1..])
  }

  predicate HasAuthFailure(statuses: seq<int>) {
    exists i :: 0 <= i < |statuses| && IsAuthFailure(statuses[i])
  }

  /** In a run of responses none of which is a 200, the token is renewed once if the run holds a 401/403
      and the flag was clear at its start, and never otherwise: at most one renewal between two 200s. */
  lemma {:induction false} RenewalStreak(renewed: bool, streak: seq<int>)
    requires forall i :: 0 <= i < |streak| ==> streak[i] != 200
    ensures Renewals(renewed, streak) == if !renewed && HasAuthFailure(streak) then 1 else 0
    decreases |streak|
  {
    if streak != [] {
      var next := RenewedAfter(renewed, streak[0]);
      RenewalStreak(next, streak[1..]);
      assert HasAuthFailure(streak) <==> IsAuthFailure(streak[0]) || HasAuthFailure(streak[1..]) by {
        if HasAuthFailure(streak[1..]) {
          var i :| 0 <= i < |streak[1..]| && IsAuthFailure(streak[1..][i]);
          assert IsAuthFailure(streak[i + 1]);
        }
        if HasAuthFailure(streak) && !IsAuthFailure(streak[0]) {
          var i :| 0 <= i < |streak| && IsAuthFailure(streak[i]);
          assert IsAuthFailure(streak[1..][i - 1]);
        }
      }
    }
  }

  /** A 200 makes a later renewal possible again, whatever happened before it. */
  lemma {:induction false} OkRearmsRenewal(renewed: bool, before: seq<int>, streak: seq<int>)
    requires forall i :: 0 <= i < |streak| ==> streak[i] != 200
    requires HasAuthFailure(streak)
    ensures Renewals(renewed, before + [200] + streak) == Renewals(renewed, before) + 1
    decreases |before|
  {
    if before == [] {
      assert [200] + streak == before + [200] + streak;
      assert ([200] + streak)[1..] == streak;
      RenewalStreak(false, streak);
    } else {
      assert (before + [200] + streak)[1..] == before[1..] + [200] + streak;
      OkRearmsRenewal(RenewedAfter(renewed, before[0]), before[1..], streak);
    }
  }

  /** `not self._token`. */
  predicate HasToken(token: Option<string>) {
    token.Some? && token.value != ""
  }

  /** The path segments `_build_url` gives to the URL: the endpoint base split on "/", then a string
      endpoint split on "/", a list endpoint as it is, or any other endpoint as one segment. */
  function PathSegments(endpointBase: Option<string>, endpoint: Value): (segments: seq<Value>) {
    var base := if endpointBase.Some? && endpointBase.value != "" then Texts(Split(endpointBase.value, '/')) else [];
    match endpoint
    case Str(s) => base + Texts(Split(s, '/'))
    case Arr(items) => base + items
    case _ => base + [endpoint]
  }

  function Texts(parts: seq<string>): (r: seq<Value>)
    ensures |r| == |parts| && forall i :: 0 <= i < |parts| ==> r[i] == Str(parts[i])
  {
    seq(|parts|, i requires 0 <= i < |parts| => Str(parts[i]))
  }

  /** The text of segments that are all strings. */
  function SegmentTexts(segments: seq<Value>): seq<string>
    requires forall i :: 0 <= i < |segments| ==> segments[i].Str?
  {
    seq(|segments|, i requires 0 <= i < |segments| => segments[i].s)
  }

  lemma {:induction false} JoinAppend(a: seq<string>, b: seq<string>, sep: char)
    requires a != [] && b != []
    ensures Join(a + b, sep) == Join(a, sep) + [sep] + Join(b, sep)
    decreases |a|
  {
    if |a| > 1 {
      assert (a + b)[1..] == a[1..] + b;
      JoinAppend(a[1..], b, sep);
    }
  }

  /** With a base and a string endpoint, the URL path is the base and the endpoint joined by "/". */
  lemma UrlPathOfStringEndpoint(base: string, endpoint: string)
    requires base != ""
    ensures forall i :: 0 <= i < |PathSegments(Some(base), Str(endpoint))| ==> PathSegments(Some(base), Str(endpoint))[i].Str?
    ensures Join(SegmentTexts(PathSegments(Some(base), Str(endpoint))), '/') == base + "/" + endpoint
  {
    var a, b := Split(base, '/'), Split(endpoint, '/');
    var segments := PathSegments(Some(base), Str(endpoint));
    assert segments == Texts(a) + Texts(b);
    assert SegmentTexts(segments) == a + b;
    JoinAppend(a, b, '/');
    JoinSplit(base, '/');
    JoinSplit(endpoint, '/');
  }

  /** The query entries one parameter contributes: one `k=e` per element of a list, in order, or one `k=v`. */
  function Expand(k: string, v: Value): (entries: seq<string>) {
    if v.Arr? then seq(|v.items|, j requires 0 <= j < |v.items| => Entry(k, v.items[j]))
    else [Entry(k, v)]
  }

  /** One query entry, `"{}={}".format(k, v)`. */
  function Entry(k: string, v: Value): string {
    k + "=" + Show(v)
  }

  lemma ExpandEntries(k: string, v: Value)
    ensures |Expand(k, v)| == Width(v)
    ensures v.Arr? ==> forall j :: 0 <= j < |v.items| ==> Expand(k, v)[j] == Entry(k, v.items[j])
    ensures !v.Arr? ==> Expand(k, v) == [Entry(k, v)]
  {
  }

  /** Number of query entries a value expands to. */
  function Width(v: Value): nat {
    if v.Arr? then |v.items| else 1
  }

  /** The query entries of a parameter dictionary, parameter after parameter. */
  function QueryEntries(params: Params): seq<string> {
    if params == [] then [] else Expand(params[0].0, params[0].1) + QueryEntries(params[1..])
  }

  /** Total number of query entries: the widths of all parameters added up. */
  function TotalWidth(params: Params): nat {
    if params == [] then 0 else Width(params[0].1) + TotalWidth(params[1..])
  }

  lemma {:induction false} QueryEntriesAppend(p: Params, q: Params)
    ensures QueryEntries(p + q) == QueryEntries(p) + QueryEntries(q)
    decreases |p|
  {
    if p == [] {
      assert p + q == q;
    } else {
      assert (p + q)[1..] == p[1..] + q;
      QueryEntriesAppend(p[1..], q);
    }
  }

  /** A dictionary of one parameter gives that parameter's entries. */
  lemma QueryEntriesSingle(x: (string, Value))
    ensures QueryEntries([x]) == Expand(x.0, x.1)
  {
    assert [x][1..] == [];
  }

  /** Parameter `i` contributes its entries exactly between those of the parameters before and after it. */
  lemma QueryEntriesSlot(params: Params, i: nat)
    requires i < |params|
    ensures QueryEntries(params) == QueryEntries(params[..i]) + Expand(params[i].0, params[i].1) + QueryEntries(params[i + 1..])
  {
    var before, x, after := params[..i], params[i], params[i + 1..];
    Decompose(params, i);
    QueryEntriesAppend(before + [x], after);
    QueryEntriesAppend(before, [x]);
    QueryEntriesSingle(x);
  }

  lemma Decompose<T>(s: seq<T>, i: nat)
    requires i < |s|
    ensures s == s[..i] + [s[i]] + s[i + 1..]
  {
  }

  /** The number of entries is the sum of the widths; no parameters give no entries. */
  lemma {:induction false} QueryEntriesCount(params: Params)
    ensures |QueryEntries(params)| == TotalWidth(params)
    decreases |params|
  {
    if params != [] {
      QueryEntriesCount(params[1..]);
      ExpandEntries(params[0].0, params[0].1);
    }
  }

  class RestClient {
    const urlBase: string
    const endpointBase: Option<string>
    /** `_get_token`: the token the `n`-th authentication returns. */
    const getToken: nat -> string
    var token: Option<string>
    var renewedToken: bool
    var headers: map<string, string>
    /** How many times `_get_token` has been called. */
    var tokenRequests: nat
    /** Token renewals made by `VerifyResponse` since the last 200 response. */
    ghost var renewalsSinceOk: nat

    ghost predicate Valid()
      reads this
    {
      && renewalsSinceOk == (if renewedToken then 1 else 0)
      && ACCEPT in headers && headers[ACCEPT] == JSON_MEDIA_TYPE
    }

    constructor (urlBase: string, endpointBase: Option<string>, getToken: nat -> string)
      ensures Valid()
      ensures this.urlBase == urlBase && this.endpointBase == endpointBase && this.getToken == getToken
      ensures token == None && !renewedToken && headers == map[ACCEPT := JSON_MEDIA_TYPE] && tokenRequests == 0
    {
      this.urlBase := urlBase;
      this.endpointBase := endpointBase;
      this.getToken := getToken;
      headers := map[ACCEPT := JSON_MEDIA_TYPE];
      token := None;
      renewedToken := false;
      tokenRequests := 0;
      renewalsSinceOk := 0;
    }

    /** `_build_url`: the path segments of the request URL for `endpoint`. */
    method BuildSegments(endpoint: Value) returns (segments: seq<Value>)
      ensures segments == PathSegments(endpointBase, endpoint)
    {
      segments := [];
      if endpointBase.Some? && endpointBase.value != "" {
        segments := Texts(Split(endpointBase.value, '/'));
      }
      var e := endpoint;
      if e.Str? {
        e := Arr(Texts(Split(e.s, '/')));
      }
      if e.Arr? {
        segments := segments + e.items;
      } else {
        segments := segments + [e];
      }
    }

    /** `_build_parameters`: the `k=v` entries logged for a parameter dictionary. */
    static method BuildParameters(params: Params) returns (parsed: seq<string>)
      ensures parsed == QueryEntries(params)
    {
      parsed := [];
      for i := 0 to |params|
        invariant parsed == QueryEntries(params[..i])
      {
        var (k, v) := params[i];
        if v.Arr? {
          parsed := parsed + seq(|v.items|, j requires 0 <= j < |v.items| => Entry(k, v.items[j]));
        } else {
          parsed := parsed + [Entry(k, v)];
        }
        assert params[..i + 1] == params[..i] + [params[i]];
        QueryEntriesAppend(params[..i], [params[i]]);
        QueryEntriesSingle(params[i]);
      }
      assert params[..|params|] == params;
    }

    /** `_set_authenticated_header`: fetches a token when there is none or a renewal is asked for,
        then sends the token as the `Authorization` header. */
    method SetAuthenticatedHeader(renew: bool)
      requires Valid()
      modifies this
      ensures Valid()
      ensures var fetched := renew || !HasToken(old(token));
        && token == (if fetched then Some(getToken(old(tokenRequests))) else old(token))
        && tokenRequests == old(tokenRequests) + (if fetched then 1 else 0)
      ensures token.Some? && headers == old(headers)[AUTHORIZATION := token.value]
      ensures renewedToken == old(renewedToken) && renewalsSinceOk == old(renewalsSinceOk)
    {
      if !HasToken(token) || renew {
        token := Some(getToken(tokenRequests));
        tokenRequests := tokenRequests + 1;
      }
      headers := headers[AUTHORIZATION := token.value];
    }

    /** The state `VerifyResponse` leaves after a response with `status`, from the state before it. */
    ghost predicate VerifiedFrom(status: int, token0: Option<string>, renewed0: bool,
                                 headers0: map<string, string>, requests0: nat)
      reads this
    {
      && renewedToken == RenewedAfter(renewed0, status)
      && if Classify(status, renewed0) == RenewAndRetry then
           && token == Some(getToken(requests0))
           && tokenRequests == requests0 + 1
           && headers == headers0[AUTHORIZATION := token.value]
         else
           token == token0 && tokenRequests == requests0 && headers == headers0
    }

    /** `_verify_response`: raises what the status calls for, renewing the token on the first 401/403. */
    method VerifyResponse(status: int, text: string) returns (raised: Option<Error>)
      requires Valid()
      modifies this
      ensures Valid()
      ensures raised == Raised(Classify(status, old(renewedToken)), status, text)
      ensures VerifiedFrom(status, old(token), old(renewedToken), old(headers), old(tokenRequests))
      ensures renewalsSinceOk <= 1
    {
      if status != 200 {
        if (status == 403 || status == 401) && !renewedToken {
          SetAuthenticatedHeader(true);
          renewedToken := true;
          renewalsSinceOk := renewalsSinceOk + 1;
          raised := Some(RequestException(status));
          return;
        }
        if 500 <= status < 600 {
          raised := Some(CvaServerError(status, text));
        } else if 400 <= status < 500 {
          if status != 404 {
            raised := Some(CvaClientError(status, text));
          } else {
            raised := None;
          }
        } else {
          raised := Some(ValueError(IntToString(status) + ":" + text));
        }
      } else {
        renewedToken := false;
        renewalsSinceOk := 0;
        raised := None;
      }
    }

    /** `_get`, `_patch` and `_delete`: refuse a missing endpoint, otherwise build the request, take the
        service's response and verify it. */
    method Call(verb: Verb, endpoint: Value, params: Params, response: HttpResponse)
      returns (request: Option<Request>, r: Result<Reply>)
      requires Valid()
      requires verb != POST
      modifies this
      ensures Valid()
      ensures endpoint == Null ==>
        && request == None
        && r == Failure(ValueError(if verb == PATCH then "Must define endpoint before patch" else "Must define endpoint before get"))
        && unchanged(this)
      ensures endpoint != Null ==>
        && request == Some(Request(verb, urlBase, PathSegments(endpointBase, endpoint), QueryEntries(params), Null))
        && r == Answer(Raised(Classify(response.status, old(renewedToken)), response.status, response.text), response)
        && VerifiedFrom(response.status, old(token), old(renewedToken), old(headers), old(tokenRequests))
    {
      if endpoint == Null {
        var message := if verb == PATCH then "Must define endpoint before patch" else "Must define endpoint before get";
        return None, Failure(ValueError(message));
      }
      var segments := BuildSegments(endpoint);
      var query := BuildParameters(params);
      request := Some(Request(verb, urlBase, segments, query, Null));
      var raised := VerifyResponse(response.status, response.text);
      r := Answer(raised, response);
    }

    /** `_post`: refuse a missing endpoint or payload, otherwise send the payload and, unless `verify` is
        false, verify the response. */
    method Post(endpoint: Value, payload: Value, verify: bool, params: Params, response: HttpResponse)
      returns (request: Option<Request>, r: Result<Reply>)
      requires Valid()
      modifies this
      ensures Valid()
      ensures endpoint == Null || payload == Null ==>
        && request == None
        && r == Failure(ValueError("Must define payload and endpoint before post"))
        && unchanged(this)
      ensures endpoint != Null && payload != Null ==>
        && request == Some(Request(POST, urlBase, PathSegments(endpointBase, endpoint), QueryEntries(params), payload))
        && (verify ==>
              && r == Answer(Raised(Classify(response.status, old(renewedToken)), response.status, response.text), response)
              && VerifiedFrom(response.status, old(token), old(renewedToken), old(headers), old(tokenRequests)))
        && (!verify ==> r == Success(Reply(response.json, response.headers)) && unchanged(this))
    {
      if endpoint == Null || payload == Null {
        return None, Failure(ValueError("Must define payload and endpoint before post"));
      }
      var segments := BuildSegments(endpoint);
      var query := BuildParameters(params);
      request := Some(Request(POST, urlBase, segments, query, payload));
      var raised := None;
      if verify {
        raised := VerifyResponse(response.status, response.text);
      }
      r := Answer(raised, response);
    }
  }

  /** What a verb method hands back: the raised exception, or the response body and headers. */
  function Answer(raised: Option<Error>, response: HttpResponse): (r: Result<Reply>)
    ensures r.Failure? <==> raised.Some?
  {
    match raised
    case Some(e) => Failure(e)
    case None => Success(Reply(response.json, response.headers))
  }
}
