# pyark in Dafny

pyark is the Python client of the CVA service. The service holds genomic case, variant and report-event data. This project models the client's core and proves properties of it:

- **The authenticated transport** (`RestClient`). It builds URL segments and query entries. It holds the bearer token and the renewal flag in fields. It classifies response status codes: the first 401/403 renews the token and signals a retry, and a 200 re-arms renewal.
- **The CVA layer** (`CvaClient`). It checks credentials and normalises the token. It unwraps the `{error, warning, response: [{result}]}` envelope and turns the pagination headers into the next cursor. It reshapes results keyed by `_id` and answers aggregation queries.
- **The report-events paginator** (`ReportEventsClient`). A lazy generator follows the `limit`/`marker` cursor page by page. The sub-client also has a count short-circuit and the query paths.
- **The cases sub-client** (`CasesClient`). It has the path formatters, the check of a list of parameter dictionaries, the count short-circuit, and the parameter set-up of the similar-cases and shared-variants queries.
- **The variant-identifier parser** (`ModelsMapping`). It is an exact model of Python's `re.match` of `(GRCh37|GRCh38):(.*):([ 0-9]*):(-| |[ACGTacgt]*):(-| |[ACGTacgt]*)`, including the backtracking choice of the longest chromosome.
- **The variant helpers** (`VariantWrappers`). They pick a representation by assembly and fall back from GRCh38 to GRCh37. They also hold the small-variant test and the largest population frequency over a study filter.

`Strings` (split, join, strip, decimal text) and `Json` (decoded JSON values, ordered keyword-argument dictionaries, the exceptions) hold what Python provides built in.

Python values map onto the model as follows:

- Python exceptions are `Json.Error` values inside a `Result`.
- An HTTP exchange is a `RestClient.HttpResponse` handed in: status, text, decoded body and headers.
- The service behind a paginated endpoint is a function from the request's parameters to a page (`CvaClient.Server`).
- Token fetching is a supplier `getToken(n)`, the token the `n`-th authentication returns.
- A consumer of the lazy generator is the number of items it wants (`None` for all).
- The classes built by `fromJsonDict` are a `transform` function.

Points to note about the code's behaviour:

- **The renewal flag lives on the client object, not on one logical call.** Only a 200 clears it, so a second 401/403 after any number of non-200 answers is fatal. `RenewalStreak` states this.
- **The envelope is unwrapped only after the status check.** A body `error` never comes before a status failure.
- **An empty `result` under a present `response[0]` is returned as it is.** It is not replaced by `[]`.
- **The caller's token loses every occurrence of "Bearer "**, not only a leading one (`str.replace`, modelled by `Strings.RemoveAll`).
- **Count mode returns `results[0]` of whatever type**, and raises `IndexError` on an empty result.
- **The report-events paginator has no `max_results`.** Truncation is the consumer's, through `want`.
- **`1xx`, `3xx` and 2xx codes other than 200 raise `ValueError`** with `status:text`.

## Model

| member | source | states |
|---|---|---|
| RestClient.Classify | pyark/rest_client.py:119-138 | each status gets one verdict, each as an if-and-only-if: 200 accepted, 404 hidden; 401/403 renew-and-retry exactly when no renewal is pending; 5xx server failure; other 4xx (401/403 right after a renewal included) client failure; every other code a generic failure |
| RestClient.Raised | pyark/rest_client.py:119-138 | nothing is raised exactly on a 200 or a 404 |
| RestClient.RenewalStreak | pyark/rest_client.py:119-141 | over any run of non-200 responses the token is renewed once if the run holds a 401/403 and the flag was clear, and never otherwise: at most one renewal between two 200s |
| RestClient.OkRearmsRenewal | pyark/rest_client.py:139-141 | after a 200, whatever came before, a later run holding a 401/403 renews the token exactly once more |
| RestClient.UrlPathOfStringEndpoint | pyark/rest_client.py:27-39 | with an endpoint base and a string endpoint, every segment is text and the segments joined by "/" give back base + "/" + endpoint |
| RestClient.ExpandEntries | pyark/rest_client.py:107-111 | a list with n elements gives n entries `k=e` in element order; any other value gives exactly one `k=v` |
| RestClient.QueryEntriesAppend | pyark/rest_client.py:105-112 | the entries of two dictionaries one after the other are the entries of the first followed by those of the second |
| RestClient.QueryEntriesSlot | pyark/rest_client.py:107-111 | each parameter's entries sit, in dictionary order, between those of the parameters before it and those after it |
| RestClient.QueryEntriesCount | pyark/rest_client.py:105-112 | the number of entries is the sum over the parameters of their widths; no parameters give no entries |
| RestClient.RestClient.constructor | pyark/rest_client.py:14-21 | no token, flag clear, headers exactly `Accept: application/json`, no token fetched yet |
| RestClient.RestClient.BuildSegments | pyark/rest_client.py:27-39 | the segments are the base split on "/" when there is a non-empty base, then a string endpoint split on "/", a list endpoint unchanged, or any other endpoint as one segment |
| RestClient.RestClient.BuildParameters | pyark/rest_client.py:104-112 | the loop produces the query entries of the whole dictionary, parameter after parameter |
| RestClient.RestClient.SetAuthenticatedHeader | pyark/rest_client.py:41-44 | a token is fetched exactly when there is none or a renewal is asked for; afterwards `Authorization` holds the token, every other header is unchanged and the renewal flag is untouched |
| RestClient.RestClient.VerifyResponse | pyark/rest_client.py:114-141 | raises what `Classify` calls for; a renewal fetches one new token, sets `Authorization` to it and sets the flag; a 200 clears the flag; every other status changes nothing; the invariant keeps renewals since the last 200 at most one |
| RestClient.RestClient.Call | pyark/rest_client.py:65-102 | a missing endpoint raises `ValueError` with no request and no state change; otherwise the request carries the URL segments and query entries, and the answer is the verified response's body and headers or its exception |
| RestClient.RestClient.Post | pyark/rest_client.py:50-63 | a missing endpoint or payload raises `ValueError`, changing nothing; otherwise the payload is sent and the response verified unless `verify` is false, in which case nothing changes |
| RestClient.Answer | pyark/rest_client.py:76-77 | a verb method fails exactly when verification raised |
| CvaClient.BaseSegments | pyark/cva_client.py:11 | the endpoint base is the three segments "cva", "api", "0" |
| CvaClient.NormaliseToken | pyark/cva_client.py:56 | the stored token always starts with "Bearer " |
| CvaClient.NormaliseBareToken | pyark/cva_client.py:56 | a token with no "Bearer " in it becomes "Bearer " + token |
| CvaClient.NormalisePrefixedToken | pyark/cva_client.py:56 | "Bearer " + x, x free of "Bearer ", is kept as it is: no double prefix |
| CvaClient.TokenFromAuthResults | pyark/cva_client.py:70-75 | `results[0]['token']`: succeeds exactly when the first result is a dict with a `token`, giving "Bearer " + that token; a dict `results` raises `KeyError` for `0`, an empty list or string `IndexError`, a first result without `token` `KeyError('token')`, and a scalar or non-empty string `TypeError` |
| CvaClient.Connect | pyark/cva_client.py:45-60 | raises `ValueError("Missing credentials")` exactly without a non-empty token or a non-empty user with a password (empty accepted); otherwise a fresh client below "cva/api/0" whose token is the normalised one, or a fetched one when none was given, and whose `Authorization` header holds it |
| CvaClient.ParseResult | pyark/cva_client.py:196-209 | a body that is not a dict raises `AttributeError`; a truthy `error` raises `ValueError` whatever else the envelope holds; otherwise Python's own `TypeError`/`KeyError` exactly when `response` is malformed (no length, a non-empty dict, or a first element that cannot be searched or holds "result" without being a dict), else the first response's `result` when there is one, else `[]` |
| CvaClient.WarningIgnored | pyark/cva_client.py:203-205 | adding, changing or removing a warning never changes the outcome |
| CvaClient.BuildNextPageParams | pyark/cva_client.py:186-194 | the cursor is empty exactly when the marker header is absent or empty; otherwise it holds exactly `limit` (the header or None) and `marker` |
| CvaClient.Results2List | pyark/cva_client.py:222-231 | succeeds exactly when every result has an `_id`, and then keeps length and order, giving each result's `_id`; otherwise fails on the first result without one |
| CvaClient.Results2Dict | pyark/cva_client.py:211-220 | succeeds exactly when every result is a dict with a hashable `_id`; the keys are then exactly the ids, no value holds `_id`, and the last result with an id gives its value; otherwise fails on the first bad result |
| CvaClient.GetAggregationQuery | pyark/cva_client.py:233-252 | always sends `include_aggregations` equal to the flag with every other parameter kept; answers the dict form exactly when the flag is set, the list form otherwise; the caller's non-empty dict is updated in place |
| CvaClient.Fetch | pyark/cva_client.py:81-87 | a GET or DELETE through the transport, then the unwrapped envelope together with the next cursor, or the exception raised on the way |
| CvaClient.Post | pyark/cva_client.py:77-79 | the same for a verified POST with a payload |
| Json.Assign | pyark/cva_client.py:247 | `d[k] = v` on a dictionary: `k` maps to `v` afterwards, every other key is unchanged, and the size grows only for a new key |
| ReportEventsClient.Advance | pyark/subclients/report_events_client.py:30-32 | the next request carries the page's `limit` and `marker`, and every other key of the current request |
| ReportEventsClient.Run | pyark/subclients/report_events_client.py:25-36 | a run starts with the first request and its page |
| ReportEventsClient.RunStep | pyark/subclients/report_events_client.py:30-34 | a run stops after its first page exactly when that page has no cursor; otherwise it goes on from the advanced parameters |
| ReportEventsClient.CursorPropagation | pyark/subclients/report_events_client.py:28-34 | every page of a run is the server's answer to its request; only the last page has no cursor; request k+1 is request k advanced by page k's cursor |
| ReportEventsClient.OtherKeysKept | pyark/subclients/report_events_client.py:30-32 | every request of a run agrees with the first on every key other than `limit` and `marker` |
| ReportEventsClient.StreamAppend | pyark/subclients/report_events_client.py:35-36 | the items of two stretches of pages are the items of the first followed by those of the second |
| ReportEventsClient.Taken | pyark/subclients/report_events_client.py:35-36 | a consumer gets what it wants when that many are available, and everything otherwise |
| ReportEventsClient.Deliver | pyark/subclients/report_events_client.py:35-36 | the inner loop hands over the page's items in order until it runs out or the consumer has had enough, and it stops at exactly the wanted count |
| ReportEventsClient.PaginateReportEvents | pyark/subclients/report_events_client.py:25-36 | the requests are a prefix of the run; the consumer receives the concatenation, in order, of the transformed items of the pages fetched, cut at what it wants; the run stops early only for a satisfied consumer; the last page was asked for only once the earlier ones were used up (no read-ahead) |
| ReportEventsClient.GetReportEvents | pyark/subclients/report_events_client.py:18-23 | in count mode there is exactly one request and its first result is returned (`IndexError` on none), with no pagination; otherwise the paginated events, with the run cut short only for a satisfied consumer and no page asked for before the earlier ones were used up |
| ReportEventsClient.Count | pyark/subclients/report_events_client.py:14-16 | exactly one request, the caller's parameters with `count` set to true, answered by its first result |
| ReportEventsClient.QueryPath | pyark/subclients/report_events_client.py:61-62 | a query path is "report-events", the selection, then the entity asked for |
| ReportEventsClient.QueryPathShapes | pyark/subclients/report_events_client.py:42-52 | gene and transcript paths have five segments, region paths seven, the coordinates in place |
| ReportEventsClient.QueryPathSegments | pyark/subclients/report_events_client.py:63 | a list endpoint lands below "cva", "api", "0" unchanged |
| ReportEventsClient.GetByPath | pyark/subclients/report_events_client.py:63-64 | one GET of the path below the base with the caller's query; the client's token state after the call is the transport's verdict on the status; the answer is the status exception, else the unwrapped envelope |
| ReportEventsClient.GetVariantsByGeneId | pyark/subclients/report_events_client.py:54-64 | GET of cva/api/0/report-events/genes/{assembly}/{gene}/variants with the caller's query; the token state follows the status and the answer is the status exception or the unwrapped envelope |
| ReportEventsClient.GetVariantsByTranscriptId | pyark/subclients/report_events_client.py:66-76 | GET of cva/api/0/report-events/transcripts/{assembly}/{transcript}/variants with the caller's query; the token state follows the status and the answer is the status exception or the unwrapped envelope |
| ReportEventsClient.GetByGenomicRegion | pyark/subclients/report_events_client.py:78-104 | GET of cva/api/0/report-events/genomic-regions/{assembly}/{chromosome}/{start}/{end}/ followed by variants or genes, with the caller's query; the token state follows the status and the answer is the status exception or the unwrapped envelope |
| CasesClient.IdentifierPaths | pyark/subclients/cases_client.py:36-50 | the gene, transcript, symbol and panel paths split back into their kind and their arguments |
| CasesClient.RegionPath | pyark/subclients/cases_client.py:52-55 | the region path splits back into its kind, assembly, chromosome and the decimal positions |
| CasesClient.IntSegment | pyark/subclients/cases_client.py:54-55 | an integer's decimal form holds no "/" |
| CasesClient.ParamsSanityChecks | pyark/subclients/cases_client.py:75-85 | raises the non-dict error exactly when some element is not a dict, the filters error exactly when a later dict has a key the first lacks, and accepts otherwise |
| CasesClient.AcceptedStaysAccepted | pyark/subclients/cases_client.py:79-85 | missing filters are tolerated: dropping keys from a later dict, or dicts from the end, keeps a list accepted |
| CasesClient.CountParams | pyark/subclients/cases_client.py:21-22 | a caller's own `count` is a `TypeError`; otherwise `count` is true, `as_data_frame` is gone and every other key is kept |
| CasesClient.Without | pyark/subclients/cases_client.py:24 | the dictionary without one key, every other key kept |
| CasesClient.GetCases | pyark/subclients/cases_client.py:24-29 | in count mode exactly one request and its first result; otherwise no request here, the query goes on to the paginator |
| CasesClient.Count | pyark/subclients/cases_client.py:21-27 | exactly one request with `count` set, answered by its first result |
| CasesClient.GetSimilarCasesByPhenotypes | pyark/subclients/cases_client.py:268-281 | sends the phenotypes as `hpoIds` with every other key kept; an empty answer is None |
| CasesClient.GetSharedVariantsCasesByCase | pyark/subclients/cases_client.py:283-300 | an unknown report event type is an `AssertionError` with no request, whose message names it and lists the valid values as Python prints the list; otherwise sends it as `type` with every other key kept; an empty answer is None |
| ModelsMapping.AlternateEnd | pyark/models_mapping.py:11 | the last group's end as the regex engine takes it: one character for "-" or " ", else the longest run of bases |
| ModelsMapping.TailExact | pyark/models_mapping.py:11 | once the chromosome's end is fixed, the position and the reference are forced, and found exactly when a match exists |
| ModelsMapping.LastCandidate | pyark/models_mapping.py:11 | the last end of the chromosome that a match can use, and none after it |
| ModelsMapping.MapVariantIdToVariant | pyark/models_mapping.py:5-27 | `ValueError("Wrong variant identifier: …")` exactly when the pattern does not match at the start; otherwise the groups of the match with the longest chromosome, the position stripped |
| ModelsMapping.NoCandidate | pyark/models_mapping.py:11-19 | without a candidate end for the chromosome there is no match |
| ModelsMapping.LastIsLongest | pyark/models_mapping.py:11 | no match has a longer chromosome than the one the parser takes |
| ModelsMapping.AssemblyOfMatch | pyark/models_mapping.py:11-13 | the assembly is "GRCh37" or "GRCh38", and the identifier starts with it and ":" |
| ModelsMapping.FieldsOfMatch | pyark/models_mapping.py:11-17 | reference and alternate are each "-", " " or a run of ACGTacgt |
| ModelsMapping.GroupFields | pyark/models_mapping.py:11-17 | the groups of a match fit their patterns and, joined by colons, open the identifier |
| ModelsMapping.MatchedPrefix | pyark/models_mapping.py:11-17 | the identifier starts with assembly:chromosome:raw position:reference:alternate; the raw position holds only digits and spaces and is what the position is stripped from; anything after the alternate is ignored |
| ModelsMapping.Examples | pyark/models_mapping.py:11-19 | "GRCh38:1:100:A:T" parses; an unknown assembly does not |
| Strings.Strip | pyark/models_mapping.py:15 | no space is left at either end |
| Strings.StripRemovesSpaces | pyark/models_mapping.py:15 | the result is a middle part of the input surrounded only by spaces |
| VariantWrappers.RepresentationByAssembly | pyark/models/wrappers.py:7-15 | None exactly when no representation is on the assembly; otherwise the first one that is |
| VariantWrappers.DefaultRepresentation | pyark/models/wrappers.py:17-24 | the GRCh38 representation when there is one, otherwise the GRCh37 lookup |
| VariantWrappers.DefaultPrefersGRCh38 | pyark/models/wrappers.py:21-24 | None exactly when there is neither assembly; GRCh38 whenever present; GRCh37 only when there is no GRCh38 |
| VariantWrappers.IsSmallVariant | pyark/models/wrappers.py:41-45 | with five or more fields the answer is whether the fourth and the fifth are both upper-case ACGT runs, whatever follows; fewer than four fields raise `IndexError`; with exactly four, `IndexError` only when the fourth passes, else false |
| VariantWrappers.SmallVariantOfFields | pyark/models/wrappers.py:42-45 | on five colon-free fields the answer is whether reference and alternate are both upper-case ACGT runs (empty allowed) |
| VariantWrappers.LowerCaseIsNotSmall | pyark/models/wrappers.py:44-45 | a single upper-case base is small, its lower-case form is not |
| VariantWrappers.IncludeFrequencyByEntry | pyark/models/wrappers.py:50-55 | a non-empty filter includes a frequency exactly when one entry is the dict of its study and population with no other key |
| VariantWrappers.IncludedFrequencies | pyark/models/wrappers.py:60-61 | the frequencies list holds exactly the alternate-allele frequencies that pass the filter |
| VariantWrappers.Max | pyark/models/wrappers.py:64 | the maximum is one of the values and at least each of them |
| VariantWrappers.MaxAlleleFrequency | pyark/models/wrappers.py:57-64 | 0.0 when no frequency passes the filter (none at all included); otherwise one of the included frequencies and at least every one of them |
| VariantWrappers.UnfilteredMaximum | pyark/models/wrappers.py:51-53 | with an empty filter the result is the largest of all frequencies |

## Left out

- HTTP dispatch, sessions and the `session` flag, and logging: the response is an input and log lines are not modelled.
- URL encoding by `furl`: only the list of path segments is modelled.
- The backoff retrier: `_verify_response` signals a retryable failure as `RequestException`; attempt counts and delays are not modelled.
- `_get_token` as a network call is a supplier of tokens. A token request that itself meets a 401/403 would re-enter renewal; that recursion is not modelled.
- The generic `_paginate` of the cases client (pyark/subclients/cases_client.py:29) is not part of this model. `CasesClient.GetCases` stops at handing it the query.
- pandas rendering (`render`, `render_single_result`, `as_data_frame`) and the protocol classes' `fromJsonDict`/`toJsonDict`: the latter are the `transform` parameter, and `get_variant_annotation_by_assembly`/`get_default_variant_annotation` are left out with them.
- The lazy sub-client factories and the `disable_validation`/`disable_annotation` fields of the constructor: wiring without logic.
- Names that disagree across the files are read as one coherent transport:
  - the constructor's `set_authenticated_header` and `self.token` are the transport's `_set_authenticated_header` and `_token`;
  - `super().get/post/delete` are `_get/_post/_delete`;
  - `_LIMIT_PARAM`/`_MARKER_PARAM` are `LIMIT_PARAM`/`MARKER_PARAM`;
  - the sub-clients' `self._get` is the envelope-unwrapping `get`, whose second value is the next cursor rather than the raw header dict.
- The cases client's getters built with `os.path.join` on a list, `get_summary`, `get_case`, `search`, the similar-cases-by-case and shared-genes queries: thin wrappers over one GET whose only logic is modelled elsewhere; the other sub-clients likewise.
- Concurrency: the parallel by-id fetch is not in the code modelled.
- ReportEventsClient.PaginateReportEvents: requires the cursor chain to end (the ghost `fuel` and `Finishes`), even for a consumer that stops early; in Python the generator is suspended at each `yield`, so a consumer that stops early is served by a server that always returns a marker, which the model does not cover.
- ReportEventsClient.PaginateReportEvents: the paginating server never fails, so a status failure or an envelope error on a later page is not modelled; the count mode's one request likewise always answers.
- A body that is not JSON makes `response.json()` raise; the model's response always carries a decoded body.
- Json.Value: numbers are integers; JSON floats are not represented.
- CvaClient.Results2Dict: returns a map, so the insertion order of the Python dict is lost.
- CvaClient.Connect: takes the tokens of successive authentications as given; a failing authentication post or a response from which `TokenFromAuthResults` raises is not propagated through construction or renewal.
- Python's `KeyError(0)` is `KeyError("0")`, as the error type holds string keys.
- The `ReportEventType` values are their string names, as in the protocol classes.
- Json.Repr: nested dicts are rendered as "{...}" and string escapes are not reproduced, so messages and query entries holding them are approximate.
- Python's equality of `1`, `1.0` and `True` as dict keys is not modelled: JSON values of different kinds are different keys.
- VariantWrappers.IsSmallVariant: returns a boolean where Python returns the match object or None; only its truth value is modelled.
- VariantWrappers.DefaultRepresentation: assumes a representation object is always truthy.
- VariantWrappers.MaxAlleleFrequency: frequencies are exact reals; floating-point rounding is not modelled, and a `None` frequency list is the empty list.
