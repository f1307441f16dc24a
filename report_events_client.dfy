/** The report-events sub-client: the lazy cursor paginator, the count mode and the query paths. */
module ReportEventsClient {
  import opened Strings
  import opened Json
  import RestClient
  import CvaClient

  const BASE_ENDPOINT := "report-events"
  const COUNT := "count"
  const VARIANTS := "variants"
  const GENES := "genes"

  /** One request of a pagination run and the page it was answered with. */
  datatype Exchange = Exchange(request: Params, page: CvaClient.Page)

  /** The cursor a page hands on. */
  function Cursor(page: CvaClient.Page): Params {
    CvaClient.BuildNextPageParams(page.headers)
  }

  /** The parameters of the request after `page`: its cursor's `limit` and `marker` written into `params`. */
  function Advance(params: Params, page: CvaClient.Page): (next: Params)
    requires Cursor(page) != []
    ensures Lookup(next, CvaClient.LIMIT_PARAM) == Lookup(Cursor(page), CvaClient.LIMIT_PARAM)
    ensures Lookup(next, CvaClient.MARKER_PARAM) == Lookup(Cursor(page), CvaClient.MARKER_PARAM)
    ensures forall k :: k != CvaClient.LIMIT_PARAM && k != CvaClient.MARKER_PARAM ==> Lookup(next, k) == Lookup(params, k)
  {
    var cursor := Cursor(page);
    var p := Assign(params, CvaClient.LIMIT_PARAM, LookupOr(cursor, CvaClient.LIMIT_PARAM, Null));
    Assign(p, CvaClient.MARKER_PARAM, LookupOr(cursor, CvaClient.MARKER_PARAM, Null))
  }

  /** Starting from `params`, the cursor chain of `server` ends within `fuel` pages. */
  ghost predicate Finishes(server: CvaClient.Server, params: Params, fuel: nat)
    decreases fuel
  {
    fuel > 0 &&
    var page := server(params);
    Cursor(page) == [] || Finishes(server, Advance(params, page), fuel - 1)
  }

  /** Every exchange of a pagination run, in order, up to the first page without a cursor. */
  ghost function Run(server: CvaClient.Server, params: Params, fuel: nat): (run: seq<Exchange>)
    requires Finishes(server, params, fuel)
    ensures |run| >= 1 && run[0] == Exchange(params, server(params))
    decreases fuel
  {
    var page := server(params);
    [Exchange(params, page)] + if Cursor(page) == [] then [] else Run(server, Advance(params, page), fuel - 1)
  }

  /** The requests of a run. */
  function RequestsOf(run: seq<Exchange>): (requests: seq<Params>)
    ensures |requests| == |run| && forall i :: 0 <= i < |run| ==> requests[i] == run[i].request
  {
    seq(|run|, i requires 0 <= i < |run| => run[i].request)
  }

  /** The transformed results of one page. */
  function Batch<T>(page: CvaClient.Page, transform: Value -> T): (batch: seq<T>)
    ensures |batch| == |page.results| && forall i :: 0 <= i < |batch| ==> batch[i] == transform(page.results[i])
  {
    seq(|page.results|, i requires 0 <= i < |page.results| => transform(page.results[i]))
  }

  /** Every item the pages of a run yield, page after page. */
  function Stream<T>(run: seq<Exchange>, transform: Value -> T): seq<T> {
    if run == [] then [] else Stream(run[..|run| - 1], transform) + Batch(run[|run| - 1].page, transform)
  }

  /** The stream of two consecutive stretches of a run is the stream of one followed by the other. */
  lemma {:induction false} StreamAppend<T>(a: seq<Exchange>, b: seq<Exchange>, transform: Value -> T)
    ensures Stream(a + b, transform) == Stream(a, transform) + Stream(b, transform)
    decreases |b|
  {
    if b != [] {
      var b', last := b[..|b| - 1], b[|b| - 1];
      assert (a + b)[..|a + b| - 1] == a + b';
      assert (a + b)[|a + b| - 1] == last;
      assert Stream(b, transform) == Stream(b', transform) + Batch(last.page, transform);
      StreamAppend(a, b', transform);
    } else {
      assert a + b == a;
    }
  }

  /** A consumer that wants `want` items (all of them when `None`) has had enough after `count`. */
  predicate Satisfied(want: Option<nat>, count: nat) {
    want.Some? && count >= want.value
  }

  /** How many items a consumer that wants `want` gets out of `available`. */
  function Taken(want: Option<nat>, available: nat): (n: nat)
    ensures n <= available
    ensures Satisfied(want, available) ==> n == want.value
    ensures !Satisfied(want, available) ==> n == available
  {
    if want.Some? && want.value < available then want.value else available
  }

  /** After its first exchange a run goes on as the run from the advanced parameters, or stops when the
      first page carries no cursor. */
  lemma RunStep(server: CvaClient.Server, params: Params, fuel: nat)
    requires Finishes(server, params, fuel)
    ensures var run, page := Run(server, params, fuel), server(params);
      && (Cursor(page) == [] <==> |run| == 1)
      && (Cursor(page) != [] ==> Finishes(server, Advance(params, page), fuel - 1)
                                 && run[1..] == Run(server, Advance(params, page), fuel - 1))
  {
  }

  /** Each request after the first carries the previous page's `limit` and `marker`, and every page but
      the last carries a cursor while the last does not. */
  lemma {:induction false} CursorPropagation(server: CvaClient.Server, params: Params, fuel: nat, k: nat)
    requires Finishes(server, params, fuel)
    requires k < |Run(server, params, fuel)|
    ensures var run := Run(server, params, fuel);
      && run[k].page == server(run[k].request)
      && (k + 1 == |run| <==> Cursor(run[k].page) == [])
      && (k + 1 < |run| ==> run[k + 1].request == Advance(run[k].request, run[k].page))
    decreases fuel
  {
    var run, page := Run(server, params, fuel), server(params);
    RunStep(server, params, fuel);
    if k > 0 {
      var next := Advance(params, page);
      var rest := Run(server, next, fuel - 1);
      CursorPropagation(server, next, fuel - 1, k - 1);
      assert run[k] == rest[k - 1];
      if k + 1 < |run| {
        assert run[k + 1] == rest[k];
      }
    } else if k + 1 < |run| {
      assert run[1] == Run(server, Advance(params, page), fuel - 1)[0];
    }
  }

  /** All requests of a run agree with the first on every key other than `limit` and `marker`. */
  lemma {:induction false} OtherKeysKept(server: CvaClient.Server, params: Params, fuel: nat, k: nat, key: string)
    requires Finishes(server, params, fuel)
    requires k < |Run(server, params, fuel)|
    requires key != CvaClient.LIMIT_PARAM && key != CvaClient.MARKER_PARAM
    ensures Lookup(Run(server, params, fuel)[k].request, key) == Lookup(params, key)
    decreases fuel
  {
    var run, page := Run(server, params, fuel), server(params);
    RunStep(server, params, fuel);
    if k > 0 {
      var next := Advance(params, page);
      OtherKeysKept(server, next, fuel - 1, k - 1, key);
      assert run[k] == run[1..][k - 1];
    }
  }

  /** The stream grows by one page's batch per exchange. */
  lemma StreamStep<T>(run: seq<Exchange>, k: nat, transform: Value -> T)
    requires k < |run|
    ensures Stream(run[..k + 1], transform) == Stream(run[..k], transform) + Batch(run[k].page, transform)
  {
    assert run[..k + 1][..k] == run[..k];
  }

  lemma PrefixOfAppend<T>(a: seq<T>, b: seq<T>, i: nat)
    requires i <= |b|
    ensures (a + b)[..|a| + i] == a + b[..i]
  {
  }

  /** The `k`-th exchange of a run whose remainder is the run from `p`: what the loop of the paginator
      learns from one request. */
  lemma RunAt(server: CvaClient.Server, params: Params, fuel: nat, k: nat, p: Params, f: nat)
    requires Finishes(server, params, fuel) && Finishes(server, p, f)
    requires k < |Run(server, params, fuel)| && Run(server, params, fuel)[k..] == Run(server, p, f)
    ensures var run, page := Run(server, params, fuel), server(p);
      && run[k] == Exchange(p, page)
      && (Cursor(page) == [] <==> k + 1 == |run|)
      && (Cursor(page) != [] ==> Finishes(server, Advance(p, page), f - 1) && run[k + 1..] == Run(server, Advance(p, page), f - 1))
  {
    var run := Run(server, params, fuel);
    RunStep(server, p, f);
    assert run[k] == run[k..][0];
    assert run[k + 1..] == run[k..][1..];
  }

  /** One more exchange adds its page's batch to the stream and its request to the requests. */
  lemma PrefixStep<T>(run: seq<Exchange>, k: nat, transform: Value -> T)
    requires k < |run|
    ensures Stream(run[..k + 1], transform) == Stream(run[..k], transform) + Batch(run[k].page, transform)
    ensures RequestsOf(run[..k + 1]) == RequestsOf(run[..k]) + [run[k].request]
    ensures run[..k + 1][..k] == run[..k]
  {
    StreamStep(run, k, transform);
    assert run[..k + 1][..k] == run[..k];
  }

  /** The generator's `for` loop over one page: hands the items to the consumer one by one until the page
      is used up or the consumer has had enough. */
  method Deliver<T>(events: seq<T>, batch: seq<T>, want: Option<nat>) returns (delivered: seq<T>, satisfied: bool)
    requires !Satisfied(want, |events|)
    ensures |events| <= |delivered| <= |events| + |batch|
    ensures delivered == (events + batch)[..|delivered|]
    ensures satisfied == Satisfied(want, |delivered|)
    ensures satisfied ==> |delivered| == want.value
    ensures !satisfied ==> delivered == events + batch
  {
    delivered, satisfied := events, false;
    var i := 0;
    while i < |batch| && !satisfied
      invariant 0 <= i <= |batch|
      invariant delivered == events + batch[..i]
      invariant satisfied == Satisfied(want, |delivered|)
      invariant satisfied ==> |delivered| == want.value
    {
      delivered := delivered + [batch[i]];
      i := i + 1;
      assert batch[..i] == batch[..i - 1] + [batch[i - 1]];
      satisfied := Satisfied(want, |delivered|);
    }
    assert !satisfied ==> batch[..i] == batch;
    PrefixOfAppend(events, batch, i);
  }

  /** The consumer has received `events`, the start of the items `fetched`: all of them unless it has had
      enough, and then exactly as many as it wants. */
  ghost predicate Consumed<T>(want: Option<nat>, events: seq<T>, fetched: seq<T>, satisfied: bool) {
    && satisfied == Satisfied(want, |events|)
    && |events| <= |fetched| && events == fetched[..|events|]
    && (satisfied ==> |events| == want.value)
    && (!satisfied ==> events == fetched)
  }

  /** The paginator's view of a run after `requests` went out: they are the run's first requests,
      `fetched` is what their pages yielded, and while `more` holds the rest of the run starts from `p`.
      No request went out once the pages before it had satisfied the consumer. */
  ghost predicate Fetched<T>(server: CvaClient.Server, params: Params, fuel: nat, transform: Value -> T, want: Option<nat>,
                             requests: seq<Params>, p: Params, f: nat, more: bool, fetched: seq<T>)
    requires Finishes(server, params, fuel)
  {
    var run := Run(server, params, fuel);
    && |requests| <= |run| && requests == RequestsOf(run[..|requests|])
    && (more ==> |requests| < |run| && Finishes(server, p, f) && run[|requests|..] == Run(server, p, f))
    && (!more ==> |requests| == |run|)
    && fetched == Stream(run[..|requests|], transform)
    && (|requests| > 0 ==> !Satisfied(want, |Stream(run[..|requests| - 1], transform)|))
  }

  /** One turn of the paginator's loop: the request from `p` is the run's next one, and its page extends
      what was fetched; the run goes on from the advanced parameters exactly when the page has a cursor. */
  lemma FetchStep<T>(server: CvaClient.Server, params: Params, fuel: nat, transform: Value -> T, want: Option<nat>,
                     requests: seq<Params>, p: Params, f: nat, fetched: seq<T>)
    requires Finishes(server, params, fuel)
    requires Fetched(server, params, fuel, transform, want, requests, p, f, true, fetched)
    requires !Satisfied(want, |fetched|)
    ensures var page := server(p);
      && (Cursor(page) != [] ==> f > 0 && Fetched(server, params, fuel, transform, want, requests + [p], Advance(p, page), f - 1, true,
                                                   fetched + Batch(page, transform)))
      && (Cursor(page) == [] ==> Fetched(server, params, fuel, transform, want, requests + [p], p, f, false,
                                         fetched + Batch(page, transform)))
  {
    var run, k := Run(server, params, fuel), |requests|;
    RunAt(server, params, fuel, k, p, f);
    PrefixStep(run, k, transform);
  }

  /** When the paginator's loop stops, the consumer has had enough or the run is over, and what it
      received is what the fetched pages yield, cut at what it wants. */
  lemma FetchedEnd<T>(server: CvaClient.Server, params: Params, fuel: nat, transform: Value -> T, want: Option<nat>,
                      requests: seq<Params>, p: Params, f: nat, more: bool, fetched: seq<T>, events: seq<T>)
    requires Finishes(server, params, fuel)
    requires Fetched(server, params, fuel, transform, want, requests, p, f, more, fetched)
    requires Consumed(want, events, fetched, Satisfied(want, |events|))
    requires more ==> Satisfied(want, |events|)
    ensures |requests| <= |Run(server, params, fuel)|
    ensures requests == RequestsOf(Run(server, params, fuel)[..|requests|])
    ensures var fetched := Stream(Run(server, params, fuel)[..|requests|], transform);
      events == fetched[..Taken(want, |fetched|)]
    ensures |requests| < |Run(server, params, fuel)| ==>
      Satisfied(want, |Stream(Run(server, params, fuel)[..|requests|], transform)|)
    ensures |requests| > 0 ==> !Satisfied(want, |Stream(Run(server, params, fuel)[..|requests| - 1], transform)|)
  {
  }

  /** `_paginate_report_events` driven by a consumer that takes `want` items (all of them when `None`)
      from the generator: the items it receives and the requests the generator sends. The cursor chain
      is assumed to end, which `fuel` witnesses. */
  method PaginateReportEvents<T>(server: CvaClient.Server, transform: Value -> T, params: Params, want: Option<nat>, ghost fuel: nat)
    returns (events: seq<T>, requests: seq<Params>)
    requires Finishes(server, params, fuel)
    ensures |requests| <= |Run(server, params, fuel)|
    ensures requests == RequestsOf(Run(server, params, fuel)[..|requests|])
    // The items are the transformed results of the pages fetched, in order.
    ensures var fetched := Stream(Run(server, params, fuel)[..|requests|], transform);
      events == fetched[..Taken(want, |fetched|)]
    // The run only stops early for a consumer that has had enough.
    ensures |requests| < |Run(server, params, fuel)| ==>
      Satisfied(want, |Stream(Run(server, params, fuel)[..|requests|], transform)|)
    // No read-ahead: the last page was only asked for once the earlier ones were used up.
    ensures |requests| > 0 ==> !Satisfied(want, |Stream(Run(server, params, fuel)[..|requests| - 1], transform)|)
  {
    ghost var f := fuel;
    ghost var fetched: seq<T> := [];
    var p := params;
    events, requests := [], [];
    var satisfied := Satisfied(want, 0);
    var more := true;
    while more && !satisfied
      invariant Fetched(server, params, fuel, transform, want, requests, p, f, more, fetched)
      invariant Consumed(want, events, fetched, satisfied)
      decreases if more then f + 1 else 0
    {
      var page := server(p);
      var batch := Batch(page, transform);
      FetchStep(server, params, fuel, transform, want, requests, p, f, fetched);
      assert events + batch == fetched + batch;
      fetched := fetched + batch;
      requests := requests + [p];
      if Cursor(page) != [] {
        p := Advance(p, page);
        f := f - 1;
        assert Fetched(server, params, fuel, transform, want, requests, p, f, true, fetched);
      } else {
        more := false;
        assert Fetched(server, params, fuel, transform, want, requests, p, f, false, fetched);
      }
      events, satisfied := Deliver(events, batch, want);
    }
    FetchedEnd(server, params, fuel, transform, want, requests, p, f, more, fetched, events);
  }

  /** Whether `params` asks for a count, `params.get('count', False)` being truthy. */
  predicate CountMode(params: Params) {
    Truthy(LookupOr(params, COUNT, Bool(false)))
  }

  /** What `get_report_events` hands back: the count, or the report events. */
  datatype Listing<T> = Total(count: Value) | Events(events: seq<T>)

  /** `get_report_events`: in count mode the first result of a single GET, with no pagination;
      otherwise the paginated report events. */
  method GetReportEvents<T>(server: CvaClient.Server, transform: Value -> T, params: Params, want: Option<nat>, ghost fuel: nat)
    returns (r: Result<Listing<T>>, requests: seq<Params>)
    requires !CountMode(params) ==> Finishes(server, params, fuel)
    ensures CountMode(params) ==>
      && requests == [params]
      && var results := server(params).results;
         r == if results == [] then Failure(IndexError) else Success(Total(results[0]))
    ensures !CountMode(params) ==>
      && r.Success? && r.value.Events?
      && var run := Run(server, params, fuel);
         && |requests| <= |run| && requests == RequestsOf(run[..|requests|])
         && var fetched := Stream(run[..|requests|], transform);
            && r.value.events == fetched[..Taken(want, |fetched|)]
            // It stops before the cursor chain ends only for a consumer that has had enough,
            && (|requests| < |run| ==> Satisfied(want, |fetched|))
            // and asks for a page only once the pages before it are used up.
            && (|requests| > 0 ==> !Satisfied(want, |Stream(run[..|requests| - 1], transform)|))
  {
    if CountMode(params) {
      var page := server(params);
      requests := [params];
      if page.results == [] {
        return Failure(IndexError), requests;
      }
      return Success(Total(page.results[0])), requests;
    }
    var events;
    events, requests := PaginateReportEvents(server, transform, params, want, fuel);
    r := Success(Events(events));
  }

  /** `count`: sets `count` to true and asks `get_report_events`, which makes exactly one request. */
  method Count<T>(server: CvaClient.Server, transform: Value -> T, params: Params)
    returns (r: Result<Value>, requests: seq<Params>)
    ensures requests == [Assign(params, COUNT, Bool(true))]
    ensures var results := server(requests[0]).results;
      r == if results == [] then Failure(IndexError) else Success(results[0])
  {
    var p := Assign(params, COUNT, Bool(true));
    assert CountMode(p);
    var listing;
    listing, requests := GetReportEvents(server, transform, p, Some(0), 0);
    r := if listing.Failure? then Failure(listing.error) else Success(listing.value.count);
  }

  /** `_by_gene_id`. */
  function ByGeneId(assembly: string, geneId: string): seq<Value> {
    [Str("genes"), Str(assembly), Str(geneId)]
  }

  /** `_by_transcript_id`. */
  function ByTranscriptId(assembly: string, transcriptId: string): seq<Value> {
    [Str("transcripts"), Str(assembly), Str(transcriptId)]
  }

  /** `_by_genomic_coordinates`. */
  function ByGenomicCoordinates(assembly: string, chromosome: string, start: int, end: int): seq<Value> {
    [Str("genomic-regions"), Str(assembly), Str(chromosome), Num(start), Num(end)]
  }

  /** A query path: the endpoint, the selection, and the kind of entity asked for. */
  function QueryPath(selection: seq<Value>, output: string): (path: seq<Value>)
    ensures |path| == |selection| + 2
    ensures path[0] == Str(BASE_ENDPOINT) && path[1..|path| - 1] == selection && path[|path| - 1] == Str(output)
  {
    [Str(BASE_ENDPOINT)] + selection + [Str(output)]
  }

  /** The four query paths have five segments for a gene or a transcript and seven for a region. */
  lemma QueryPathShapes(assembly: string, id: string, chromosome: string, start: int, end: int)
    ensures QueryPath(ByGeneId(assembly, id), VARIANTS) == [Str(BASE_ENDPOINT), Str("genes"), Str(assembly), Str(id), Str(VARIANTS)]
    ensures QueryPath(ByTranscriptId(assembly, id), VARIANTS) == [Str(BASE_ENDPOINT), Str("transcripts"), Str(assembly), Str(id), Str(VARIANTS)]
    ensures |QueryPath(ByGenomicCoordinates(assembly, chromosome, start, end), VARIANTS)| == 7
    ensures QueryPath(ByGenomicCoordinates(assembly, chromosome, start, end), GENES)[3..6] == [Str(chromosome), Num(start), Num(end)]
  {
  }

  /** A list endpoint lands below the client's base: "cva", "api", "0", then the path unchanged. */
  lemma QueryPathSegments(path: seq<Value>)
    ensures RestClient.PathSegments(Some(CvaClient.ENDPOINT_BASE), Arr(path)) == [Str("cva"), Str("api"), Str("0")] + path
  {
    CvaClient.BaseSegments();
    BaseTexts(Split(CvaClient.ENDPOINT_BASE, '/'));
  }

  /** The segments of the base are the three texts. */
  lemma BaseTexts(parts: seq<string>)
    requires parts == ["cva", "api", "0"]
    ensures RestClient.Texts(parts) == [Str("cva"), Str("api"), Str("0")]
  {
    var texts := RestClient.Texts(parts);
    assert texts[0] == Str("cva") && texts[1] == Str("api") && texts[2] == Str("0");
  }

  /** What a getter hands back for `response`: the exception the status raises, or the unwrapped envelope. */
  function Outcome(response: RestClient.HttpResponse, renewed: bool): Result<Value> {
    var raised := RestClient.Raised(RestClient.Classify(response.status, renewed), response.status, response.text);
    if raised.Some? then Failure(raised.value) else CvaClient.ParseResult(response.json)
  }

  /** The getters: a GET of the query path with the caller's query, handing back its results. */
  method GetByPath(client: RestClient.RestClient, path: seq<Value>, params: Params, response: RestClient.HttpResponse)
    returns (request: Option<RestClient.Request>, r: Result<Value>)
    requires client.Valid()
    modifies client
    ensures client.Valid()
    ensures client.VerifiedFrom(response.status, old(client.token), old(client.renewedToken), old(client.headers), old(client.tokenRequests))
    ensures request.Some? && request.value.verb == RestClient.GET
    ensures client.endpointBase == Some(CvaClient.ENDPOINT_BASE) ==>
      request.value.segments == [Str("cva"), Str("api"), Str("0")] + path
    ensures request.value.query == RestClient.QueryEntries(params)
    ensures r == Outcome(response, old(client.renewedToken))
  {
    var answer;
    request, answer := CvaClient.Fetch(client, RestClient.GET, Arr(path), params, response);
    if client.endpointBase == Some(CvaClient.ENDPOINT_BASE) {
      QueryPathSegments(path);
    }
    r := if answer.Failure? then Failure(answer.error) else Success(answer.value.0);
  }

  /** `get_variants_by_gene_id`. */
  method GetVariantsByGeneId(client: RestClient.RestClient, assembly: string, geneId: string, params: Params,
                             response: RestClient.HttpResponse)
    returns (request: Option<RestClient.Request>, r: Result<Value>)
    requires client.Valid()
    modifies client
    ensures client.Valid()
    ensures client.VerifiedFrom(response.status, old(client.token), old(client.renewedToken), old(client.headers), old(client.tokenRequests))
    ensures request.Some? && request.value.verb == RestClient.GET
    ensures client.endpointBase == Some(CvaClient.ENDPOINT_BASE) ==>
      request.value.segments == [Str("cva"), Str("api"), Str("0"), Str(BASE_ENDPOINT), Str("genes"), Str(assembly), Str(geneId), Str(VARIANTS)]
    ensures request.value.query == RestClient.QueryEntries(params)
    ensures r == Outcome(response, old(client.renewedToken))
  {
    request, r := GetByPath(client, QueryPath(ByGeneId(assembly, geneId), VARIANTS), params, response);
  }

  /** `get_variants_by_transcript_id`. */
  method GetVariantsByTranscriptId(client: RestClient.RestClient, assembly: string, transcriptId: string, params: Params,
                                   response: RestClient.HttpResponse)
    returns (request: Option<RestClient.Request>, r: Result<Value>)
    requires client.Valid()
    modifies client
    ensures client.Valid()
    ensures client.VerifiedFrom(response.status, old(client.token), old(client.renewedToken), old(client.headers), old(client.tokenRequests))
    ensures request.Some? && request.value.verb == RestClient.GET
    ensures client.endpointBase == Some(CvaClient.ENDPOINT_BASE) ==>
      request.value.segments == [Str("cva"), Str("api"), Str("0"), Str(BASE_ENDPOINT), Str("transcripts"), Str(assembly), Str(transcriptId), Str(VARIANTS)]
    ensures request.value.query == RestClient.QueryEntries(params)
    ensures r == Outcome(response, old(client.renewedToken))
  {
    request, r := GetByPath(client, QueryPath(ByTranscriptId(assembly, transcriptId), VARIANTS), params, response);
  }

  /** `get_variants_by_genomic_region` (`output` is "variants") and `get_genes_by_genomic_region` ("genes"). */
  method GetByGenomicRegion(client: RestClient.RestClient, output: string, assembly: string, chromosome: string,
                            start: int, end: int, params: Params, response: RestClient.HttpResponse)
    returns (request: Option<RestClient.Request>, r: Result<Value>)
    requires output == VARIANTS || output == GENES
    requires client.Valid()
    modifies client
    ensures client.Valid()
    ensures client.VerifiedFrom(response.status, old(client.token), old(client.renewedToken), old(client.headers), old(client.tokenRequests))
    ensures request.Some? && request.value.verb == RestClient.GET
    ensures client.endpointBase == Some(CvaClient.ENDPOINT_BASE) ==>
      request.value.segments == [Str("cva"), Str("api"), Str("0"), Str(BASE_ENDPOINT), Str("genomic-regions"), Str(assembly),
                                 Str(chromosome), Num(start), Num(end), Str(output)]
    ensures request.value.query == RestClient.QueryEntries(params)
    ensures r == Outcome(response, old(client.renewedToken))
  {
    request, r := GetByPath(client, QueryPath(ByGenomicCoordinates(assembly, chromosome, start, end), output), params, response);
  }
}
