/** The cases sub-client: the path formatters, the check of a list of parameter dictionaries, the count
    short-circuit and the parameter set-up of two queries. */
module CasesClient {
  import opened Strings
  import opened Json
  import CvaClient
  import RestClient

  const BASE_ENDPOINT := "cases"
  const COUNT := "count"
  const AS_DATA_FRAME := "as_data_frame"
  const HPO_IDS := "hpoIds"
  const TYPE := "type"
  /** The report event types shared variants can be asked for. */
  const REPORT_EVENT_TYPES := ["genomics_england_tiering", "candidate", "reported", "questionnaire"]
  const NOT_DICTS := "Cannot accept a list of 'params' not being only by dicts"
  const DIFFERENT_FILTERS := "Cannot accept a list of 'params' with different lists of filters"

  /** `_by_gene_id`. */
  function ByGeneId(assembly: string, geneId: string): string {
    "gene-ids/" + assembly + "/" + geneId
  }

  /** `_by_transcript_id`. */
  function ByTranscriptId(assembly: string, transcriptId: string): string {
    "transcript-ids/" + assembly + "/" + transcriptId
  }

  /** `_by_gene_symbol`. */
  function ByGeneSymbol(assembly: string, geneSymbol: string): string {
    "gene-symbols/" + assembly + "/" + geneSymbol
  }

  /** `_by_panel`. */
  function ByPanel(panelName: string): string {
    "panels/" + panelName
  }

  /** `_by_genomic_coordinates`, the positions written as `str` writes integers. */
  function ByGenomicCoordinates(assembly: string, chromosome: string, start: int, end: int): string {
    "genomic-regions/" + assembly + "/" + chromosome + "/" + IntToString(start) + "/" + IntToString(end)
  }

  /** A string without "/" is one path segment. */
  predicate Segment(s: string) {
    '/' !in s
  }

  /** An integer's decimal form holds no "/". */
  lemma IntSegment(n: int)
    ensures Segment(IntToString(n))
  {
    var s := IntToString(n);
    forall i | 0 <= i < |s| ensures s[i] != '/' {
      assert s[i] == '-' || '0' <= s[i] <= '9';
    }
  }

  /** Each gene, transcript or symbol path splits back into its kind, the assembly and the identifier. */
  lemma IdentifierPaths(assembly: string, id: string)
    requires Segment(assembly) && Segment(id)
    ensures Split(ByGeneId(assembly, id), '/') == ["gene-ids", assembly, id]
    ensures Split(ByTranscriptId(assembly, id), '/') == ["transcript-ids", assembly, id]
    ensures Split(ByGeneSymbol(assembly, id), '/') == ["gene-symbols", assembly, id]
    ensures Split(ByPanel(id), '/') == ["panels", id]
  {
    ThreeSegments("gene-ids", assembly, id);
    assert "gene-ids/" == "gene-ids" + "/";
    ThreeSegments("transcript-ids", assembly, id);
    assert "transcript-ids/" == "transcript-ids" + "/";
    ThreeSegments("gene-symbols", assembly, id);
    assert "gene-symbols/" == "gene-symbols" + "/";
    var panel := ["panels", id];
    assert panel[1..] == [id];
    assert "panels/" == "panels" + "/";
    assert Join(panel, '/') == ByPanel(id);
    SplitJoin(panel, '/');
  }

  lemma ThreeSegments(kind: string, assembly: string, id: string)
    requires Segment(kind) && Segment(assembly) && Segment(id)
    ensures Split(kind + "/" + assembly + "/" + id, '/') == [kind, assembly, id]
  {
    var parts := [kind, assembly, id];
    assert parts[1..] == [assembly, id] && parts[1..][1..] == [id];
    assert Join([assembly, id], '/') == assembly + "/" + id;
    assert Join(parts, '/') == kind + "/" + (assembly + "/" + id);
    assert kind + "/" + (assembly + "/" + id) == kind + "/" + assembly + "/" + id;
    SplitJoin(parts, '/');
  }

  /** The region path splits back into its kind, the assembly, the chromosome and the two positions. */
  lemma RegionPath(assembly: string, chromosome: string, start: int, end: int)
    requires Segment(assembly) && Segment(chromosome)
    ensures Split(ByGenomicCoordinates(assembly, chromosome, start, end), '/') ==
            ["genomic-regions", assembly, chromosome, IntToString(start), IntToString(end)]
  {
    var s, e := IntToString(start), IntToString(end);
    IntSegment(start);
    IntSegment(end);
    var parts := ["genomic-regions", assembly, chromosome, s, e];
    assert parts[1..] == [assembly, chromosome, s, e];
    assert parts[1..][1..] == [chromosome, s, e];
    assert parts[1..][1..][1..] == [s, e];
    assert parts[1..][1..][1..][1..] == [e];
    assert Join([s, e], '/') == s + "/" + e;
    assert Join([chromosome, s, e], '/') == chromosome + "/" + (s + "/" + e);
    assert Join([assembly, chromosome, s, e], '/') == assembly + "/" + (chromosome + "/" + (s + "/" + e));
    assert "genomic-regions/" == "genomic-regions" + "/";
    assert Join(parts, '/') == "genomic-regions" + "/" + (assembly + "/" + (chromosome + "/" + (s + "/" + e)));
    assert "genomic-regions" + "/" + (assembly + "/" + (chromosome + "/" + (s + "/" + e)))
        == ByGenomicCoordinates(assembly, chromosome, start, end);
    SplitJoin(parts, '/');
  }

  /** Every element is a dict. */
  predicate AllDicts(params: seq<Value>) {
    forall i :: 0 <= i < |params| ==> params[i].Obj?
  }

  /** No later dict has a key the first one lacks. */
  predicate KeysWithinFirst(params: seq<Value>)
    requires AllDicts(params)
  {
    forall i :: 0 < i < |params| ==> params[i].fields.Keys <= params[0].fields.Keys
  }

  /** `_params_sanity_checks`: refuses a list with an element that is not a dict, then a list in which a
      later dict has a filter the first one lacks. */
  method ParamsSanityChecks(params: seq<Value>) returns (raised: Option<Error>)
    ensures !AllDicts(params) ==> raised == Some(ValueError(NOT_DICTS))
    ensures AllDicts(params) && !KeysWithinFirst(params) ==> raised == Some(ValueError(DIFFERENT_FILTERS))
    ensures raised == None <==> AllDicts(params) && KeysWithinFirst(params)
  {
    var i := 0;
    while i < |params|
      invariant 0 <= i <= |params|
      invariant forall j :: 0 <= j < i ==> params[j].Obj?
    {
      if !params[i].Obj? {
        return Some(ValueError(NOT_DICTS));
      }
      i := i + 1;
    }
    var keys: Option<set<string>> := None;
    i := 0;
    while i < |params|
      invariant 0 <= i <= |params|
      invariant AllDicts(params)
      invariant keys == if i == 0 then None else Some(params[0].fields.Keys)
      invariant forall j :: 0 < j < i ==> params[j].fields.Keys <= params[0].fields.Keys
    {
      var p := params[i].fields.Keys;
      if keys == None {
        keys := Some(p);
      } else if |p - keys.value| > 0 {
        assert !(params[i].fields.Keys <= params[0].fields.Keys) by {
          var x :| x in p - keys.value;
        }
        return Some(ValueError(DIFFERENT_FILTERS));
      } else {
        assert p - keys.value == {};
        forall x | x in p ensures x in keys.value {
          assert x !in p - keys.value;
        }
      }
      i := i + 1;
    }
    return None;
  }

  /** Missing filters are tolerated: dropping keys from a later dict of an accepted list keeps it accepted,
      and so does leaving dicts out at the end. */
  lemma AcceptedStaysAccepted(params: seq<Value>, i: nat, keep: set<string>, n: nat)
    requires AllDicts(params) && KeysWithinFirst(params)
    requires 0 < i < |params| && n <= |params|
    ensures var fewer := params[i := Obj(map k | k in params[i].fields && k in keep :: params[i].fields[k])];
      AllDicts(fewer) && KeysWithinFirst(fewer)
    ensures AllDicts(params[..n]) && KeysWithinFirst(params[..n])
  {
    assert forall j :: 0 <= j < n ==> params[..n][j] == params[j];
  }

  /** `count`: `get_cases(count=True, **params)`. A caller's own `count` collides with the keyword;
      a caller's `as_data_frame` is taken by `get_cases` and leaves the query. */
  function CountParams(params: Params): (r: Result<Params>)
    ensures r.Failure? <==> HasKey(params, COUNT)
    ensures r.Success? ==> Lookup(r.value, COUNT) == Some(Bool(true)) && !HasKey(r.value, AS_DATA_FRAME)
    ensures r.Success? ==> forall k :: k != COUNT && k != AS_DATA_FRAME ==> Lookup(r.value, k) == Lookup(params, k)
  {
    if HasKey(params, COUNT) then Failure(TypeError("get_cases() got multiple values for keyword argument 'count'"))
    else Success([(COUNT, Bool(true))] + Without(params, AS_DATA_FRAME))
  }

  /** The dict without the key `k`. */
  function Without(p: Params, k: string): (r: Params)
    ensures !HasKey(r, k)
    ensures forall k' :: k' != k ==> Lookup(r, k') == Lookup(p, k')
  {
    if p == [] then []
    else if p[0].0 == k then Without(p[1..], k)
    else
      [p[0]] + Without(p[1..], k)
  }

  /** Whether `get_cases` counts, `params.get('count', False)` being truthy. */
  predicate CountMode(params: Params) {
    Truthy(LookupOr(params, COUNT, Bool(false)))
  }

  /** What `get_cases` hands back: the count, or the query handed to the generic paginator. */
  datatype Cases = Total(count: Value) | Paginated(params: Params, asDataFrame: bool)

  /** `get_cases`: in count mode the first result of one GET of "cases"; otherwise nothing is requested
      here and the query goes to the generic paginator. */
  method GetCases(server: CvaClient.Server, asDataFrame: bool, params: Params)
    returns (r: Result<Cases>, requests: seq<Params>)
    ensures CountMode(params) ==>
      && requests == [params]
      && var results := server(params).results;
         r == if results == [] then Failure(IndexError) else Success(Total(results[0]))
    ensures !CountMode(params) ==> requests == [] && r == Success(Paginated(params, asDataFrame))
  {
    if CountMode(params) {
      var page := server(params);
      requests := [params];
      if page.results == [] {
        return Failure(IndexError), requests;
      }
      return Success(Total(page.results[0])), requests;
    }
    return Success(Paginated(params, asDataFrame)), [];
  }

  /** `count` of the cases client: exactly one request, with `count` set, and its first result. */
  method Count(server: CvaClient.Server, params: Params) returns (r: Result<Value>, requests: seq<Params>)
    ensures HasKey(params, COUNT) ==> r.Failure? && requests == []
    ensures !HasKey(params, COUNT) ==>
      && |requests| == 1 && requests[0] == CountParams(params).value
      && var results := server(requests[0]).results;
         r == if results == [] then Failure(IndexError) else Success(results[0])
  {
    var sent := CountParams(params);
    if sent.Failure? {
      return Failure(sent.error), [];
    }
    var asDataFrame := LookupOr(params, AS_DATA_FRAME, Bool(false));
    assert CountMode(sent.value);
    var cases;
    cases, requests := GetCases(server, Truthy(asDataFrame), sent.value);
    r := if cases.Failure? then Failure(cases.error) else Success(cases.value.count);
  }

  /** `get_similar_cases_by_phenotypes`: sends the phenotypes as `hpoIds` to
      "cases/phenotypes/similar-cases"; no result is `None`. `get` is the client's unwrapping GET. */
  method GetSimilarCasesByPhenotypes(phenotypes: seq<Value>, params: Params, get: (string, Params) -> Result<Value>)
    returns (sent: Params, r: Result<Option<Value>>)
    ensures Lookup(sent, HPO_IDS) == Some(Arr(phenotypes))
    ensures forall k :: k != HPO_IDS ==> Lookup(sent, k) == Lookup(params, k)
    ensures var answer := get(BASE_ENDPOINT + "/phenotypes/similar-cases", sent);
      r == if answer.Failure? then Failure(answer.error)
           else if Truthy(answer.value) then Success(Some(answer.value))
           else Success(None)
  {
    var p := Assign(params, HPO_IDS, Arr(phenotypes));
    sent := p;
    var answer := get(BASE_ENDPOINT + "/phenotypes/similar-cases", p);
    if answer.Failure? {
      return sent, Failure(answer.error);
    }
    if !Truthy(answer.value) {
      return sent, Success(None);
    }
    return sent, Success(Some(answer.value));
  }

  /** The assertion message for a report event type outside `REPORT_EVENT_TYPES`, which lists the valid
      values as Python prints a list of strings. */
  function InvalidReportEventType(reportEventType: string): string {
    "Invalid report event type provided '" + reportEventType + "'. Valid values: "
    + Repr(Arr(RestClient.Texts(REPORT_EVENT_TYPES)))
  }

  /** `get_shared_variants_cases_by_case`: refuses a report event type outside `REPORT_EVENT_TYPES`, then
      sends it as `type` to "cases/{id}/{version}/shared-variants"; no result is `None`. */
  method GetSharedVariantsCasesByCase(caseId: string, caseVersion: int, reportEventType: string, params: Params,
                                      get: (string, Params) -> Result<Value>)
    returns (sent: Option<Params>, r: Result<Option<Value>>)
    ensures reportEventType !in REPORT_EVENT_TYPES ==>
      sent == None && r == Failure(AssertionError(InvalidReportEventType(reportEventType)))
    ensures reportEventType in REPORT_EVENT_TYPES ==>
      && sent.Some?
      && Lookup(sent.value, TYPE) == Some(Str(reportEventType))
      && (forall k :: k != TYPE ==> Lookup(sent.value, k) == Lookup(params, k))
      && var answer := get(SharedVariantsPath(caseId, caseVersion), sent.value);
         r == if answer.Failure? then Failure(answer.error)
              else if Truthy(answer.value) then Success(Some(answer.value))
              else Success(None)
  {
    if reportEventType !in REPORT_EVENT_TYPES {
      return None, Failure(AssertionError(InvalidReportEventType(reportEventType)));
    }
    var p := Assign(params, TYPE, Str(reportEventType));
    sent := Some(p);
    var answer := get(SharedVariantsPath(caseId, caseVersion), p);
    if answer.Failure? {
      return sent, Failure(answer.error);
    }
    if !Truthy(answer.value) {
      return sent, Success(None);
    }
    return sent, Success(Some(answer.value));
  }

  /** The endpoint of shared variants. */
  function SharedVariantsPath(caseId: string, caseVersion: int): string {
    BASE_ENDPOINT + "/" + caseId + "/" + IntToString(caseVersion) + "/shared-variants"
  }
}
