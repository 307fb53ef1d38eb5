# API smoke tester — Dafny model

A model of the core of a configuration-driven HTTP smoke tester. The tester reads a JSON
document describing services (a name, a base URL, a timeout) and their endpoints (a name,
a path, a method, an expected status, an optional latency bound). It requests every endpoint
in order and records, for each check, whether the status and the latency met expectations.
It then reports `total`, `passed` and `failed`. The process exits non-zero when any check failed.

Two parts are modelled:

- `SmokeConfig` (`config.dfy`) covers `load_config` once the JSON has been parsed.
  The parsed document is a datatype of typed, optional fields. `Field<T>` is
  `Absent | Null | Given(v)`, which is how `dict.get` sees a key. `Listing<T>` is
  `Missing | NotAList | Items(seq)`. Entries that are not JSON objects have their own
  constructors, because `.get` raises on them. `LoadConfig` returns every service in input
  order, or a `LoadError` that names the first offending service. There is never a partial
  result. `DocumentAccepted`, `ServiceAccepted` and `EndpointAccepted` say declaratively
  which documents load. `ServiceLoadedFrom` and `EndpointLoadedFrom` say what each accepted
  entry becomes.
- `SmokeRunner` (`runner.dfy`) covers `run_tests` and the exit decision of `main`.
  `RunTests` is a method with the source's nested loop over services and endpoints. It keeps
  the counters `total`, `passed` and `failed` and appends to a results list. It is proved
  equal to the functional specification `RunReport`, which classifies the flattened sequence
  of checks `Checks(services)`. The network and the clock are parameters:
  - `network(k, request)` is the reply the k-th check of the run receives: a status or a
    transport error.
  - `clock(k)` is the elapsed milliseconds that check measured.
- `SmokeScenarios` (`scenarios.dfy`) holds concrete runs: loading a base URL with a trailing
  slash, the 200/503/slow verdicts, an unsupported `PUT` followed by a passing check, and
  two services with two endpoints each where one check fails.

Where a reader might expect otherwise, the model follows the code:

- Endpoint `name` and `path` are only tested with `is None`, so empty strings are accepted.
- `base_url` is tested for truthiness before `rstrip("/")`, so `"///"` is accepted and becomes `""`.
- Neither `max_response_ms` nor `timeout_seconds` is checked for positivity.
- The method is not validated at load time. It is upper-cased, an explicit `null` becomes
  `"NONE"` (`str(None).upper()`), and any name other than GET, POST or HEAD fails only when
  the check runs.
- A `null` `expected_status` makes `int()` raise, so loading fails. A `null` `timeout_seconds`
  fails the same way in `float()`, but only after that service's endpoints were read. A `null`
  `max_response_ms` counts as absent.

## Model

| member | source | states |
|---|---|---|
| `SmokeConfig.UpperChar` | api_smoke_tester.py:50 | an ASCII lower-case letter maps to its upper-case partner; every other character is unchanged; no lower-case letter comes out |
| `SmokeConfig.Upper` | api_smoke_tester.py:50 | upper-casing keeps the length, maps each character by `UpperChar` and leaves no lower-case ASCII letter |
| `SmokeConfig.UpperIdempotent` | api_smoke_tester.py:50 | upper-casing an upper-cased method changes nothing |
| `SmokeConfig.StripTrailingSlashes` | api_smoke_tester.py:67 | `rstrip("/")` gives a prefix of the input that does not end in '/', and everything removed is '/' |
| `SmokeConfig.StripTrailingSlashesUnique` | api_smoke_tester.py:67 | any prefix that does not end in '/' and leaves only slashes behind is the stripped string |
| `SmokeConfig.StripTrailingSlashesIdempotent` | api_smoke_tester.py:67 | stripping twice is the same as stripping once |
| `SmokeConfig.StripAllSlashes` | api_smoke_tester.py:67 | a base URL made only of slashes (truthy, so it passes line 44) becomes the empty string |
| `SmokeConfig.MethodOf` | api_smoke_tester.py:50 | a given method is stored upper-cased |
| `SmokeConfig.Defaults` | api_smoke_tester.py:42-68 | an absent method is "GET" and a null one "NONE"; an absent expected status is 200; an absent timeout is 5.0; `max_response_ms` is None exactly when absent or null |
| `SmokeConfig.LoadEndpoint` | api_smoke_tester.py:47-63 | an endpoint entry loads iff it is an object with a non-null expected status and with name and path not None; a loaded entry carries its fields and defaults; otherwise the error names that endpoint |
| `SmokeConfig.LoadEndpoints` | api_smoke_tester.py:46-63 | the endpoints load iff each one does; the result keeps their count and order; a failure names the first bad endpoint, all earlier ones being fine |
| `SmokeConfig.LoadService` | api_smoke_tester.py:39-71 | a service entry loads iff it is an object with truthy name and base_url, a non-empty endpoints list of loadable endpoints and a non-null timeout; a loaded service has the stripped base URL, the defaulted timeout and its endpoints in order; any error names this service |
| `SmokeConfig.LoadServices` | api_smoke_tester.py:38-72 | the services load iff each one does; the result keeps their count and order; a failure names the first bad service, all earlier ones being fine |
| `SmokeConfig.LoadConfig` | api_smoke_tester.py:34-72 | loading succeeds iff the document is accepted, and then gives one normalised service per entry in input order; a missing, non-list or empty `services` is exactly the `NoServices` error; otherwise the error names the first bad service |
| `SmokeConfig.LoadedServicesNormalised` | api_smoke_tester.py:64-71 | every loaded base URL ends without '/', stripping it again changes nothing, and every loaded service has endpoints |
| `SmokeConfig.OneBadServiceRejectsAll` | api_smoke_tester.py:39-54 | one bad service anywhere makes the whole load fail, naming it or an earlier one |
| `SmokeRunner.VerbOf` | api_smoke_tester.py:87-94 | only the exact names "GET", "POST" and "HEAD" are dispatched, "GET" exactly as a GET, "POST" exactly as a POST and "HEAD" exactly as a HEAD |
| `SmokeRunner.UrlOf` | api_smoke_tester.py:84 | the target is the base URL followed verbatim by the path |
| `SmokeRunner.Attempt` | api_smoke_tester.py:85-95 | an unsupported method fails with that method and without any request; otherwise the request goes to the check's URL with the service's timeout, and the reply's status or transport error is the outcome |
| `SmokeRunner.Classify` | api_smoke_tester.py:96-144 | `ok` is `ok_status && ok_time`; no status exactly when an error is recorded, and then all three verdicts are false; `ok_status` compares with the expected status; `ok_time` holds with no bound and otherwise is `elapsed <= bound` (inclusive); `ok` holds iff a response with the expected status came within the bound |
| `SmokeRunner.ChecksOf` | api_smoke_tester.py:82 | the checks of one service are its endpoints in order |
| `SmokeRunner.RunTests` | api_smoke_tester.py:75-151 | the nested loop returns exactly `RunReport`: one classified result per check in service-then-endpoint order, `total` the number of results, `passed` and `failed` the counts of ok and not-ok results |
| `SmokeRunner.ChecksCount` | api_smoke_tester.py:81-83 | the run has one check per endpoint of every service |
| `SmokeRunner.ChecksOrder` | api_smoke_tester.py:81-84 | endpoint j of service i is check number (endpoints of the earlier services) + j |
| `SmokeRunner.CountsAddUp` | api_smoke_tester.py:101-127 | every result lands in exactly one of `passed` and `failed` |
| `SmokeRunner.NoFailuresIffAllOk` | api_smoke_tester.py:101-127 | `failed` is 0 iff every result is ok |
| `SmokeRunner.RunSummaryAddsUp` | api_smoke_tester.py:77-150 | `total == passed + failed == len(results)` and equals the sum of the services' endpoint counts, whatever the replies (a failed check never stops the run) |
| `SmokeRunner.RunResultAt` | api_smoke_tester.py:81-113 | the result at endpoint j of service i names that service and endpoint, has URL `base_url + path`, its method, expected status and measured time, and is the classification of that endpoint's own attempt at position k, so `Classify`'s verdicts hold there |
| `SmokeRunner.ExitStatus` | api_smoke_tester.py:190-191 | the exit status is 0 iff loading succeeded and no check failed, and 1 otherwise |
| `SmokeRunner.SmokeTest` | api_smoke_tester.py:177-178 | checks run only when loading succeeds; a load error is passed on unchanged |
| `SmokeRunner.SmokeTestPassesIffAllOk` | api_smoke_tester.py:177-191 | from the document to the exit status: 0 exactly when the document is accepted and every check of the run is ok |
| `SmokeRunner.RunFailsIffSomeCheckFails` | api_smoke_tester.py:190-191 | a completed run exits with status 1 iff some result is not ok (a load error always exits 1, by `ExitStatus`) |
| `SmokeScenarios.ExampleLoads` | api_smoke_tester.py:34-72 | `"https://example.test/"` loads as `"https://example.test"` with method GET, timeout 5.0 and the given status and bound |
| `SmokeScenarios.ExampleVerdicts` | api_smoke_tester.py:96-100 | 200 in 120 ms passes; 503 fails on status; 200 in 900 ms fails on time; 200 in exactly 500 ms passes |
| `SmokeScenarios.UnsupportedMethodDoesNotStopTheRun` | api_smoke_tester.py:87-148 | a PUT check has no status, an unsupported-method error and is not ok, and the GET check after it still runs and passes |
| `SmokeScenarios.OneFailureInFour` | api_smoke_tester.py:75-191 | two services of two endpoints with one 503 give total 4, passed 3, failed 1 and a failing exit status |

## Left out

- The file-existence check, `json.load` and report writing (`api_smoke_tester.py:29-32`, `179-181`) are file I/O. The model starts from a parsed document.
- `requests.get/post/head` and `time.perf_counter` are replaced by the `network` and `clock` parameters. Timeouts, redirects and the empty POST body are the network's business. Elapsed time is a given number of milliseconds.
- Python floats are modelled as exact reals, so the latency comparison has no rounding.
- JSON values of other types than the model's fields are not modelled. This covers a number used as a name, a string used as a status or timeout, and Python's `str()`, `int()` and `float()` coercion of them. The one conversion failure modelled is `int(None)`/`float(None)` on an explicit null.
- `SmokeConfig.Upper`: handles ASCII letters only, not Unicode case mapping.
- `SmokeConfig.LoadService`: a truthy `endpoints` value that is not a list fails in Python inside the endpoint loop, with an `AttributeError` or `TypeError`. The model reports the same `InvalidService` fault as for a missing or empty list. Only which error is reported differs, and the error text is not modelled.
- Progress lines, the final summary print and all error-message texts are not modelled. An unsupported method's error is `UnsupportedMethod(method)`, and a transport error carries the network's message.
- `print` itself is assumed not to raise. In the source the unsupported-method message contains 'ø' and is printed inside the `except` handler (`api_smoke_tester.py:94`, `145-148`). If stdout cannot encode it or the pipe is closed, that exception escapes `run_tests` and stops the run. So "a failed check never stops the run" holds for the model, not in every environment of the source. The progress print of a completed check (`api_smoke_tester.py:121-125`) sits inside the `try`. If it raises and the handler's own print then succeeds, that check is counted twice, once at `101-104` and again at `127`, and its result is appended twice. So `total == passed + failed == len(results)` also holds only when `print` does not raise.
- `build_parser` and argument parsing are not modelled. An exception that escapes `main` is taken to exit with status 1, as Python does for an unhandled exception.
