/** The CVA client on top of the transport: credentials and the bearer token, the response envelope,
    the pagination cursor, and the reshaping of results keyed by `_id`. */
module CvaClient {
  import opened Strings
  import opened Json
  import RestClient

  const ENDPOINT_BASE := "cva/api/0"
  const LIMIT_PARAM := "limit"
  const MARKER_PARAM := "marker"
  const LIMIT_HEADER := "X-Pagination-Limit"
  const MARKER_HEADER := "X-Pagination-Marker"
  const INCLUDE_AGGREGATIONS := "include_aggregations"
  const ID := "_id"
  const BEARER := "Bearer "

  /** The endpoint base splits into "cva", "api" and "0". */
  lemma BaseSegments()
    ensures Split(ENDPOINT_BASE, '/') == ["cva", "api", "0"]
  {
    var parts := ["cva", "api", "0"];
    assert parts[1..] == ["api", "0"] && parts[1..][1..] == ["0"];
    assert Join(["0"], '/') == "0";
    assert Join(["api", "0"], '/') == "api/0";
    assert Join(parts, '/') == ENDPOINT_BASE;
    assert '/' !in "cva" && '/' !in "api" && '/' !in "0";
    SplitJoin(parts, '/');
  }

  /** A truthy optional string: present and non-empty. */
  predicate HasText(s: Option<string>) {
    s.Some? && s.value != ""
  }

  /** The constructor's credential check: a token, or a user together with a password (which may be empty). */
  predicate HasCredentials(token: Option<string>, user: Option<string>, password: Option<string>) {
    HasText(token) || (HasText(user) && password.Some?)
  }

  /** The stored form of a caller's token: every "Bearer " removed, then one "Bearer " in front. */
  function NormaliseToken(token: string): (r: string)
    ensures StartsWith(r, BEARER)
  {
    BEARER + RemoveAll(token, BEARER)
  }

  /** A bare token gets the prefix. */
  lemma NormaliseBareToken(token: string)
    requires !Contains(token, BEARER)
    ensures NormaliseToken(token) == BEARER + token
  {
    RemoveAbsent(token, BEARER);
  }

  /** A token that already carries the prefix once is kept as it is: no double prefix. */
  lemma NormalisePrefixedToken(rest: string)
    requires !Contains(rest, BEARER)
    ensures NormaliseToken(BEARER + rest) == BEARER + rest
  {
    var t := BEARER + rest;
    assert t[..|BEARER|] == BEARER;
    assert t[|BEARER|..] == rest;
    RemoveAbsent(rest, BEARER);
  }

  /** `get_token`: `results[0]['token']` of the authentication response, prefixed as a bearer token. */
  function TokenFromAuthResults(results: Value): (r: Result<string>)
    ensures r.Success? <==> results.Arr? && |results.items| > 0 && results.items[0].Obj? && "token" in results.items[0].fields
    ensures r.Success? ==> r.value == BEARER + Show(results.items[0].fields["token"])
    ensures results.Obj? ==> r == Failure(KeyError("0"))
    ensures results == Arr([]) || results == Str([]) ==> r == Failure(IndexError)
    ensures results.Arr? && |results.items| > 0 && results.items[0].Obj? && "token" !in results.items[0].fields ==>
      r == Failure(KeyError("token"))
    ensures results.Null? || results.Bool? || results.Num? || (results.Str? && results.s != []) ==> r.Failure? && r.error.TypeError?
  {
    var first :- First(results);
    var token :- Get(first, "token");
    Success(BEARER + Show(token))
  }

  /** `__init__`: refuses missing credentials, stores the normalised token, and sets the `Authorization`
      header, fetching a token from the authentication endpoint when none was given. `authTokens(n)` is
      the token the `n`-th authentication returns for these credentials. */
  method Connect(urlBase: string, token: Option<string>, user: Option<string>, password: Option<string>,
                 authTokens: nat -> string)
    returns (r: Result<RestClient.RestClient>)
    ensures r.Failure? <==> !HasCredentials(token, user, password)
    ensures r.Failure? ==> r.error == ValueError("Missing credentials")
    ensures r.Success? ==>
      var c := r.value;
      && fresh(c) && c.Valid()
      && c.urlBase == urlBase && c.endpointBase == Some(ENDPOINT_BASE)
      && (forall n :: c.getToken(n) == BEARER + authTokens(n))
      && !c.renewedToken
      && (HasText(token) ==> c.token == Some(NormaliseToken(token.value)) && c.tokenRequests == 0)
      && (!HasText(token) ==> c.token == Some(BEARER + authTokens(0)) && c.tokenRequests == 1)
      && c.token.Some? && StartsWith(c.token.value, BEARER)
      && c.headers == map[RestClient.ACCEPT := RestClient.JSON_MEDIA_TYPE, RestClient.AUTHORIZATION := c.token.value]
  {
    if !(HasText(token) || (HasText(user) && password.Some?)) {
      return Failure(ValueError("Missing credentials"));
    }
    var c := new RestClient.RestClient(urlBase, Some(ENDPOINT_BASE), (n: nat) => BEARER + authTokens(n));
    c.token := if HasText(token) then Some(NormaliseToken(token.value)) else None;
    c.SetAuthenticatedHeader(false);
    assert StartsWith(BEARER + authTokens(0), BEARER);
    return Success(c);
  }

  /** The envelope `{error, warning, response: [{result}]}` carries a first result. */
  predicate HasResult(fields: map<string, Value>) {
    && "response" in fields && fields["response"].Arr? && |fields["response"].items| > 0
    && fields["response"].items[0].Obj? && "result" in fields["response"].items[0].fields
  }

  /** A `response` on which the test for a first result itself raises: it has no length, it is a
      non-empty dict (no key `0`), its first element cannot be searched, or its first element holds
      "result" without being a dict. */
  predicate Malformed(fields: map<string, Value>) {
    "response" in fields &&
    var v := fields["response"];
    || v.Null? || v.Bool? || v.Num?
    || (v.Obj? && v.fields != map[])
    || (v.Arr? && v.items != [] &&
        var first := v.items[0];
        || first.Null? || first.Bool? || first.Num?
        || (first.Str? && Contains(first.s, "result"))
        || (first.Arr? && Str("result") in first.items))
  }

  /** `parse_result`: a truthy `error` raises whatever else the envelope holds; otherwise the first
      response's `result`, or an empty list when the envelope has none. A warning is only logged.
      Python's own errors escape from a body that is not a dict and from a malformed `response`. */
  function ParseResult(body: Value): (r: Result<Value>)
    ensures !body.Obj? ==> r.Failure? && r.error.AttributeError?
    ensures body.Obj? && Truthy(Member(body.fields, "error")) ==> r == Failure(ValueError(Show(body.fields["error"])))
    ensures body.Obj? && !Truthy(Member(body.fields, "error")) ==>
      && (r.Failure? <==> Malformed(body.fields))
      && (r.Failure? ==> r.error.TypeError? || r.error.KeyError?)
      && (HasResult(body.fields) ==> r == Success(body.fields["response"].items[0].fields["result"]))
      && (!HasResult(body.fields) && !Malformed(body.fields) ==> r == Success(Arr([])))
  {
    if !body.Obj? then Failure(AttributeError("'" + TypeName(body) + "' object has no attribute 'get'"))
    else
      var error := Member(body.fields, "error");
      if Truthy(error) then Failure(ValueError(Show(error)))
      else if "response" !in body.fields then Success(Arr([]))
      else
        var response := body.fields["response"];
        var size :- Len(response);
        if size == 0 then Success(Arr([]))
        else
          var first :- First(response);
          var found :- In("result", first);
          if !found then Success(Arr([]))
          else Get(first, "result")
  }

  /** Adding, changing or removing a warning never changes what `parse_result` does. */
  lemma WarningIgnored(fields: map<string, Value>, warning: Value)
    ensures ParseResult(Obj(fields["warning" := warning])) == ParseResult(Obj(fields))
    ensures ParseResult(Obj(fields - {"warning"})) == ParseResult(Obj(fields))
  {
    var with, without := fields["warning" := warning], fields - {"warning"};
    assert Member(with, "error") == Member(fields, "error");
    assert Member(without, "error") == Member(fields, "error");
    assert HasResult(with) == HasResult(fields);
    assert HasResult(without) == HasResult(fields);
  }

  /** `build_next_page_params`: the next request's `limit` and `marker`, or nothing when the response
      carries no (or an empty) marker header. */
  function BuildNextPageParams(headers: map<string, string>): (next: Params)
    ensures next == [] <==> MARKER_HEADER !in headers || headers[MARKER_HEADER] == ""
    ensures next != [] ==>
      && |next| == 2
      && Lookup(next, LIMIT_PARAM) == Some(if LIMIT_HEADER in headers then Str(headers[LIMIT_HEADER]) else Null)
      && Lookup(next, MARKER_PARAM) == Some(Str(headers[MARKER_HEADER]))
  {
    var limit := if LIMIT_HEADER in headers then Str(headers[LIMIT_HEADER]) else Null;
    if MARKER_HEADER in headers && headers[MARKER_HEADER] != "" then
      Assign(Assign([], LIMIT_PARAM, limit), MARKER_PARAM, Str(headers[MARKER_HEADER]))
    else []
  }

  /** A record `x['_id']` can be read from. */
  predicate HasId(v: Value) {
    v.Obj? && ID in v.fields
  }

  /** The exception `x['_id']` raises on an element without an `_id`. */
  function IdError(v: Value): Error {
    if v.Obj? then KeyError(ID) else TypeError("element is not a dict")
  }

  /** The first element without an `_id` is at index `i`. */
  predicate FirstWithoutId(results: seq<Value>, i: int) {
    0 <= i < |results| && !HasId(results[i]) && forall j :: 0 <= j < i ==> HasId(results[j])
  }

  /** `results2list`: the `_id` of every result, in order; fails on the first result that has none. */
  function Results2List(results: seq<Value>): (r: Result<seq<Value>>)
    ensures r.Success? <==> forall i :: 0 <= i < |results| ==> HasId(results[i])
    ensures r.Success? ==> |r.value| == |results| && forall i :: 0 <= i < |results| ==> r.value[i] == results[i].fields[ID]
    ensures r.Failure? ==> exists i :: FirstWithoutId(results, i) && r.error == IdError(results[i])
  {
    if results == [] then Success([])
    else if !HasId(results[0]) then
      assert FirstWithoutId(results, 0);
      Failure(IdError(results[0]))
    else
      match Results2List(results[1..])
      case Failure(e) =>
        ghost var i :| FirstWithoutId(results[1..], i) && e == IdError(results[1..][i]);
        assert FirstWithoutId(results, i + 1);
        Failure(e)
      case Success(ids) => Success([results[0].fields[ID]] + ids)
  }

  /** Python refuses lists and dicts as dict keys. */
  predicate Hashable(v: Value) {
    !v.Arr? && !v.Obj?
  }

  /** A result `results2dict` can take: a dict with a hashable `_id`. */
  predicate IsRecord(v: Value) {
    HasId(v) && Hashable(v.fields[ID])
  }

  /** The exception `results2dict` raises on an element that is not a record. */
  function RecordError(v: Value): Error {
    if IsRecord(v) then ValueError("") else if HasId(v) then TypeError("unhashable type") else IdError(v)
  }

  /** The record with its `_id` taken out. */
  function WithoutId(v: Value): (r: Value)
    ensures r.Obj? && ID !in r.fields
    ensures v.Obj? ==> r.fields == v.fields - {ID}
  {
    Obj(if v.Obj? then v.fields - {ID} else map[])
  }

  /** The `_id` of a result, `null` for one that has none. */
  function IdOf(v: Value): Value {
    if HasId(v) then v.fields[ID] else Null
  }

  /** No result after `i` has the same `_id` as result `i`. */
  predicate LastWithId(results: seq<Value>, i: int) {
    0 <= i < |results| && forall j :: i < j < |results| ==> IdOf(results[j]) != IdOf(results[i])
  }

  /** The ids of the results. */
  function IdSet(results: seq<Value>): set<Value> {
    set i | 0 <= i < |results| :: IdOf(results[i])
  }

  /** `results2dict`: a dict from each result's `_id` to the rest of the result; when ids repeat the later
      result wins. Fails on the first result that has no hashable `_id`. */
  function Results2Dict(results: seq<Value>): (r: Result<map<Value, Value>>)
    ensures r.Success? <==> forall i :: 0 <= i < |results| ==> IsRecord(results[i])
    ensures r.Success? ==> r.value.Keys == IdSet(results)
    ensures r.Success? ==> forall k :: k in r.value ==> r.value[k].Obj? && ID !in r.value[k].fields
    ensures r.Success? ==> forall i :: LastWithId(results, i) ==> r.value[IdOf(results[i])] == WithoutId(results[i])
    ensures r.Failure? ==>
      exists i :: (0 <= i < |results| && !IsRecord(results[i]) && r.error == RecordError(results[i])
                   && forall j :: 0 <= j < i ==> IsRecord(results[j]))
  {
    if results == [] then Success(map[])
    else
      var n := |results| - 1;
      var front, last := results[..n], results[n];
      AllRecordsSplit(results, front);
      match Results2Dict(front)
      case Failure(e) =>
        FrontFailure(results, front, e);
        Failure(e)
      case Success(m) =>
        if !IsRecord(last) then
          assert forall j :: 0 <= j < n ==> front[j] == results[j];
          Failure(RecordError(last))
        else
          var r := m[IdOf(last) := WithoutId(last)];
          AddLast(results, front, m);
          Success(r)
  }

  /** All results are records exactly when all but the last are and the last is. */
  lemma AllRecordsSplit(results: seq<Value>, front: seq<Value>)
    requires |results| > 0 && front == results[..|results| - 1]
    ensures (forall i :: 0 <= i < |results| ==> IsRecord(results[i])) <==>
            (forall i :: 0 <= i < |front| ==> IsRecord(front[i])) && IsRecord(results[|results| - 1])
  {
    if (forall i :: 0 <= i < |front| ==> IsRecord(front[i])) && IsRecord(results[|results| - 1]) {
      forall i | 0 <= i < |results| ensures IsRecord(results[i]) {
        if i < |front| { assert results[i] == front[i]; }
      }
    }
  }

  /** A failure on all but the last result is a failure on the first bad one of all of them. */
  lemma FrontFailure(results: seq<Value>, front: seq<Value>, e: Error)
    requires |results| > 0 && front == results[..|results| - 1]
    requires exists i :: (0 <= i < |front| && !IsRecord(front[i]) && e == RecordError(front[i])
                          && forall j :: 0 <= j < i ==> IsRecord(front[j]))
    ensures exists i :: (0 <= i < |results| && !IsRecord(results[i]) && e == RecordError(results[i])
                         && forall j :: 0 <= j < i ==> IsRecord(results[j]))
  {
  }

  /** Adding the last record to the dict of the others gives the dict of all of them. */
  lemma AddLast(results: seq<Value>, front: seq<Value>, m: map<Value, Value>)
    requires |results| > 0 && IsRecord(results[|results| - 1]) && front == results[..|results| - 1]
    requires m.Keys == IdSet(front)
    requires forall i :: LastWithId(front, i) ==> m[IdOf(front[i])] == WithoutId(front[i])
    ensures var r := m[IdOf(results[|results| - 1]) := WithoutId(results[|results| - 1])];
      && r.Keys == IdSet(results)
      && forall i :: LastWithId(results, i) ==> r[IdOf(results[i])] == WithoutId(results[i])
  {
    AddLastKeys(results, front, m.Keys);
    AddLastValues(results, front, m);
  }

  /** The ids of all records are those of the others and the last one's. */
  lemma AddLastKeys(results: seq<Value>, front: seq<Value>, keys: set<Value>)
    requires |results| > 0 && IsRecord(results[|results| - 1]) && front == results[..|results| - 1]
    requires keys == IdSet(front)
    ensures keys + {IdOf(results[|results| - 1])} == IdSet(results)
  {
    var n := |results| - 1;
    forall k | k in keys ensures k in IdSet(results) {
      var i :| 0 <= i < n && k == IdOf(front[i]);
      assert k == IdOf(results[i]);
    }
    assert IdOf(results[n]) in IdSet(results);
    forall k | k in IdSet(results) ensures k in keys + {IdOf(results[n])} {
      var i :| 0 <= i < |results| && k == IdOf(results[i]);
      if i < n {
        assert k == IdOf(front[i]);
      }
    }
  }

  /** A record other than the last that is the last with its id among all records is so among the others,
      and its id is not the last one's. */
  lemma AddLastValues(results: seq<Value>, front: seq<Value>, m: map<Value, Value>)
    requires |results| > 0 && IsRecord(results[|results| - 1]) && front == results[..|results| - 1]
    requires m.Keys == IdSet(front)
    requires forall i :: LastWithId(front, i) ==> m[IdOf(front[i])] == WithoutId(front[i])
    ensures var r := m[IdOf(results[|results| - 1]) := WithoutId(results[|results| - 1])];
      forall i :: LastWithId(results, i) ==> r[IdOf(results[i])] == WithoutId(results[i])
  {
    var n := |results| - 1;
    var r := m[IdOf(results[n]) := WithoutId(results[n])];
    forall i | LastWithId(results, i) ensures r[IdOf(results[i])] == WithoutId(results[i]) {
      if i < n {
        assert IdOf(results[n]) != IdOf(results[i]);
        assert front[i] == results[i];
        assert LastWithId(front, i) by {
          forall j | i < j < n ensures IdOf(front[j]) != IdOf(front[i]) {
            assert front[j] == results[j];
          }
        }
      }
    }
  }

  /** The answer of `get_aggregation_query`: the dict form with aggregations, the list of ids without. */
  datatype Aggregation = AsDict(records: map<Value, Value>) | AsList(ids: seq<Value>)

  /** `get_aggregation_query`: sends `include_aggregations` equal to the flag on a GET of the joined path
      and reshapes the results accordingly. `get` is the envelope-unwrapping GET of the client. `caller`
      is the caller's dict afterwards: it is updated in place unless it was empty. */
  method GetAggregationQuery(path: seq<string>, includeAggregations: bool, params: Params,
                             get: (string, Params) -> Result<seq<Value>>)
    returns (sent: Params, caller: Params, r: Result<Aggregation>)
    ensures Lookup(sent, INCLUDE_AGGREGATIONS) == Some(Bool(includeAggregations))
    ensures forall k :: k != INCLUDE_AGGREGATIONS ==> Lookup(sent, k) == Lookup(params, k)
    ensures caller == if params == [] then params else sent
    ensures get(Join(path, '/'), sent).Failure? ==> r == Failure(get(Join(path, '/'), sent).error)
    ensures get(Join(path, '/'), sent).Success? ==>
      var results := get(Join(path, '/'), sent).value;
      && (r.Success? ==> (r.value.AsDict? <==> includeAggregations))
      && (includeAggregations ==> r.Success? == Results2Dict(results).Success?
                                  && (r.Success? ==> r.value.records == Results2Dict(results).value))
      && (!includeAggregations ==> r.Success? == Results2List(results).Success?
                                   && (r.Success? ==> r.value.ids == Results2List(results).value))
  {
    var p := params;
    if p == [] {
      p := [];
    }
    p := Assign(p, INCLUDE_AGGREGATIONS, Bool(includeAggregations));
    sent := p;
    caller := if params == [] then params else p;
    var got := get(Join(path, '/'), sent);
    if got.Failure? {
      return sent, caller, Failure(got.error);
    }
    if includeAggregations {
      var d := Results2Dict(got.value);
      r := if d.Success? then Success(AsDict(d.value)) else Failure(d.error);
    } else {
      var l := Results2List(got.value);
      r := if l.Success? then Success(AsList(l.value)) else Failure(l.error);
    }
  }

  /** What one GET of an endpoint yields: the unwrapped results and the response headers. */
  datatype Page = Page(results: seq<Value>, headers: map<string, string>)

  /** The service behind one endpoint: the page it answers to each parameter dictionary. */
  type Server = Params -> Page

  /** `get` and `delete`: the transport call, then the unwrapped envelope and the next-page cursor. */
  method Fetch(client: RestClient.RestClient, verb: RestClient.Verb, endpoint: Value, params: Params,
               response: RestClient.HttpResponse)
    returns (request: Option<RestClient.Request>, r: Result<(Value, Params)>)
    requires client.Valid()
    requires verb == RestClient.GET || verb == RestClient.DELETE
    modifies client
    ensures client.Valid()
    ensures endpoint == Null ==> request == None && r.Failure? && unchanged(client)
    ensures endpoint != Null ==>
      && request == Some(RestClient.Request(verb, client.urlBase, RestClient.PathSegments(client.endpointBase, endpoint),
                                            RestClient.QueryEntries(params), Null))
      && client.VerifiedFrom(response.status, old(client.token), old(client.renewedToken), old(client.headers), old(client.tokenRequests))
      && var raised := RestClient.Raised(RestClient.Classify(response.status, old(client.renewedToken)), response.status, response.text);
         && (raised.Some? ==> r == Failure(raised.value))
         && (raised.None? ==> r == Pair(ParseResult(response.json), BuildNextPageParams(response.headers)))
  {
    var raw;
    request, raw := client.Call(verb, endpoint, params, response);
    if raw.Failure? {
      return request, Failure(raw.error);
    }
    r := Pair(ParseResult(raw.value.json), BuildNextPageParams(raw.value.headers));
  }

  /** `post`: as `Fetch`, through the transport's POST with verification. */
  method Post(client: RestClient.RestClient, endpoint: Value, payload: Value, params: Params,
              response: RestClient.HttpResponse)
    returns (request: Option<RestClient.Request>, r: Result<(Value, Params)>)
    requires client.Valid()
    modifies client
    ensures client.Valid()
    ensures endpoint == Null || payload == Null ==> request == None && r.Failure? && unchanged(client)
    ensures endpoint != Null && payload != Null ==>
      && request == Some(RestClient.Request(RestClient.POST, client.urlBase, RestClient.PathSegments(client.endpointBase, endpoint),
                                            RestClient.QueryEntries(params), payload))
      && client.VerifiedFrom(response.status, old(client.token), old(client.renewedToken), old(client.headers), old(client.tokenRequests))
      && var raised := RestClient.Raised(RestClient.Classify(response.status, old(client.renewedToken)), response.status, response.text);
         && (raised.Some? ==> r == Failure(raised.value))
         && (raised.None? ==> r == Pair(ParseResult(response.json), BuildNextPageParams(response.headers)))
  {
    var raw;
    request, raw := client.Post(endpoint, payload, true, params, response);
    if raw.Failure? {
      return request, Failure(raw.error);
    }
    r := Pair(ParseResult(raw.value.json), BuildNextPageParams(raw.value.headers));
  }

  /** The result and the cursor together, failing when the envelope holds an error. */
  function Pair(result: Result<Value>, next: Params): (r: Result<(Value, Params)>)
    ensures r.Success? <==> result.Success?
  {
    if result.Failure? then Failure(result.error) else Success((result.value, next))
  }
}
