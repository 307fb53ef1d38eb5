/**
 * The execution engine: `run_tests` walks every endpoint of every service in order,
 * sends one request per check, classifies the outcome and tallies the run, and `main`
 * turns the tally into the process's exit status.
 *
 * The network and the monotonic clock are parameters. `network(k, request)` is what the
 * k-th check (counting from 0 over the whole run) gets back for `request`: a response
 * status or a transport failure. `clock(k)` is the time in milliseconds the k-th check
 * measured between its start and the moment the call returned or raised.
 */
module SmokeRunner {
  import opened Wrappers
  import opened SmokeConfig

  /** The request methods the engine can send. */
  datatype Verb = Get | Post | Head

  /** One HTTP request: verb, target and the owning service's timeout in seconds.
      A POST carries an empty (`None`) JSON body. */
  datatype Request = Request(verb: Verb, url: string, timeoutSeconds: real)

  /** What the network gives back for one request. */
  datatype Reply = Response(status: int) | TransportError(message: string)

  type Network = (nat, Request) -> Reply
  type Clock = nat -> real

  /** Why a check produced no response. */
  datatype CheckError = UnsupportedMethod(httpMethod: string) | Transport(message: string)

  /** One entry of the report's `results` list. `statusCode` and `error` are `None` where the
      source leaves `status_code` null or omits `error`. */
  datatype CheckResult = CheckResult(
    service: string, endpoint: string, url: string, httpMethod: string,
    statusCode: Option<int>, expectedStatus: int,
    responseMs: real, maxResponseMs: Option<real>,
    okStatus: bool, okTime: bool, ok: bool,
    error: Option<CheckError>)

  datatype Summary = Summary(total: nat, passed: nat, failed: nat)

  /** What `run_tests` returns. */
  datatype Report = Report(summary: Summary, results: seq<CheckResult>)

  /** One endpoint together with the service that owns it. */
  datatype Check = Check(service: ServiceConfig, endpoint: EndpointConfig)

  // ---------------------------------------------------------------------------------------
  // One check

  /** The dispatch on the method: only the three literal upper-case names are sent. */
  function VerbOf(httpMethod: string): (v: Option<Verb>)
    ensures v.Some? <==> httpMethod in {"GET", "POST", "HEAD"}
    ensures v == Some(Get) <==> httpMethod == "GET"
    ensures v == Some(Post) <==> httpMethod == "POST"
    ensures v == Some(Head) <==> httpMethod == "HEAD"
  {
    if httpMethod == "GET" then Some(Get)
    else if httpMethod == "POST" then Some(Post)
    else if httpMethod == "HEAD" then Some(Head)
    else None
  }

  /** The target of a check: the (already stripped) base URL followed verbatim by the path. */
  function UrlOf(c: Check): (url: string)
    ensures |url| == |c.service.baseUrl| + |c.endpoint.path|
    ensures url[..|c.service.baseUrl|] == c.service.baseUrl
    ensures url[|c.service.baseUrl|..] == c.endpoint.path
  {
    c.service.baseUrl + c.endpoint.path
  }

  /** Check number `k` is attempted: an unsupported method fails before any request is
      made, so its outcome does not depend on the network at all. */
  function Attempt(k: nat, c: Check, network: Network): (r: Result<int, CheckError>)
    ensures VerbOf(c.endpoint.httpMethod).None? ==> r == Failure(UnsupportedMethod(c.endpoint.httpMethod))
    ensures VerbOf(c.endpoint.httpMethod).Some? ==>
              var reply := network(k, Request(VerbOf(c.endpoint.httpMethod).value, UrlOf(c), c.service.timeoutSeconds));
              && (r.Success? <==> reply.Response?)
              && (reply.Response? ==> r.value == reply.status)
              && (reply.TransportError? ==> r.error == Transport(reply.message))
  {
    match VerbOf(c.endpoint.httpMethod)
    case None => Failure(UnsupportedMethod(c.endpoint.httpMethod))
    case Some(verb) =>
      match network(k, Request(verb, UrlOf(c), c.service.timeoutSeconds))
      case Response(status) => Success(status)
      case TransportError(msg) => Failure(Transport(msg))
  }

  /** Whether the elapsed time meets the endpoint's bound; the bound itself passes. */
  predicate WithinBound(elapsedMs: real, maxResponseMs: Option<real>) {
    maxResponseMs.None? || elapsedMs <= maxResponseMs.value
  }

  /** The result recorded for check `c` whose attempt ended with `outcome` after `elapsedMs`. */
  function Classify(c: Check, outcome: Result<int, CheckError>, elapsedMs: real): (r: CheckResult)
    ensures r.service == c.service.name && r.endpoint == c.endpoint.name
    ensures r.url == UrlOf(c) && r.httpMethod == c.endpoint.httpMethod
    ensures r.expectedStatus == c.endpoint.expectedStatus && r.maxResponseMs == c.endpoint.maxResponseMs
    ensures r.responseMs == elapsedMs
    ensures r.ok == (r.okStatus && r.okTime)
    ensures r.statusCode.None? <==> r.error.Some?
    ensures r.statusCode.None? ==> !r.okStatus && !r.okTime && !r.ok
    ensures outcome.Failure? ==> r.statusCode == None && r.error == Some(outcome.error)
    ensures outcome.Success? ==> r.statusCode == Some(outcome.value)
    ensures outcome.Success? ==> (r.okStatus <==> outcome.value == c.endpoint.expectedStatus)
    ensures outcome.Success? ==> (r.okTime <==> WithinBound(elapsedMs, c.endpoint.maxResponseMs))
    ensures outcome.Success? && c.endpoint.maxResponseMs.None? ==> r.okTime
    ensures r.ok <==> outcome.Success? && outcome.value == c.endpoint.expectedStatus
                      && WithinBound(elapsedMs, c.endpoint.maxResponseMs)
  {
    match outcome
    case Success(status) =>
      var okStatus := status == c.endpoint.expectedStatus;
      var okTime := if c.endpoint.maxResponseMs.Some? then elapsedMs <= c.endpoint.maxResponseMs.value else true;
      CheckResult(c.service.name, c.endpoint.name, UrlOf(c), c.endpoint.httpMethod,
                  Some(status), c.endpoint.expectedStatus, elapsedMs, c.endpoint.maxResponseMs,
                  okStatus, okTime, okStatus && okTime, None)
    case Failure(err) =>
      CheckResult(c.service.name, c.endpoint.name, UrlOf(c), c.endpoint.httpMethod,
                  None, c.endpoint.expectedStatus, elapsedMs, c.endpoint.maxResponseMs,
                  false, false, false, Some(err))
  }

  // ---------------------------------------------------------------------------------------
  // The whole run, as a specification

  /** The first `n` endpoints of `svc`, in order. */
  function ChecksOf(svc: ServiceConfig, n: nat): (cs: seq<Check>)
    requires n <= |svc.endpoints|
    ensures |cs| == n
    ensures forall j :: 0 <= j < n ==> cs[j] == Check(svc, svc.endpoints[j])
  {
    seq(n, j requires 0 <= j < n => Check(svc, svc.endpoints[j]))
  }

  /** Every check of the run: services in order, endpoints in order within each service. */
  function Checks(services: seq<ServiceConfig>): seq<Check> {
    if services == [] then []
    else
      var last := services[|services| - 1];
      Checks(services[..|services| - 1]) + ChecksOf(last, |last.endpoints|)
  }

  /** The sum of `len(svc.endpoints)` over all services. */
  function TotalEndpoints(services: seq<ServiceConfig>): nat {
    if services == [] then 0 else |services[0].endpoints| + TotalEndpoints(services[1..])
  }

  /** Classifies the checks `cs`, the k-th of which is check number `k` of the run. */
  function Execute(cs: seq<Check>, network: Network, clock: Clock): (rs: seq<CheckResult>)
    ensures |rs| == |cs|
  {
    seq(|cs|, k requires 0 <= k < |cs| => Classify(cs[k], Attempt(k, cs[k], network), clock(k)))
  }

  function CountPassed(rs: seq<CheckResult>): nat {
    if rs == [] then 0 else CountPassed(rs[..|rs| - 1]) + (if rs[|rs| - 1].ok then 1 else 0)
  }

  function CountFailed(rs: seq<CheckResult>): nat {
    if rs == [] then 0 else CountFailed(rs[..|rs| - 1]) + (if rs[|rs| - 1].ok then 0 else 1)
  }

  /** The report a run produces. */
  function RunReport(services: seq<ServiceConfig>, network: Network, clock: Clock): Report {
    var rs := Execute(Checks(services), network, clock);
    Report(Summary(|rs|, CountPassed(rs), CountFailed(rs)), rs)
  }

  // ---------------------------------------------------------------------------------------
  // The engine

  /** `run_tests`: one pass over every endpoint of every service. A failing check is counted
      and recorded, and the run carries on with the next one. */
  method RunTests(services: seq<ServiceConfig>, network: Network, clock: Clock) returns (report: Report)
    ensures report == RunReport(services, network, clock)
  {
    var results: seq<CheckResult> := [];
    var total, passed, failed := 0, 0, 0;
    var i := 0;
    while i < |services|
      invariant 0 <= i <= |services|
      invariant results == Execute(Checks(services[..i]), network, clock)
      invariant total == |results| && passed == CountPassed(results) && failed == CountFailed(results)
    {
      var svc := services[i];
      ghost var done := Checks(services[..i]);
      var j := 0;
      while j < |svc.endpoints|
        invariant 0 <= j <= |svc.endpoints|
        invariant results == Execute(done + ChecksOf(svc, j), network, clock)
        invariant total == |results| && passed == CountPassed(results) && failed == CountFailed(results)
      {
        var ep := svc.endpoints[j];
        var k := total;
        total := total + 1;
        var check := Check(svc, ep);
        var outcome := Attempt(k, check, network);
        var elapsedMs := clock(k);
        var r := Classify(check, outcome, elapsedMs);
        if outcome.Failure? {
          failed := failed + 1;
        } else if r.ok {
          passed := passed + 1;
        } else {
          failed := failed + 1;
        }
        ChecksOfStep(svc, j);
        ExecuteAppend(done + ChecksOf(svc, j), check, done + ChecksOf(svc, j + 1), network, clock);
        CountAppend(results, r);
        results := results + [r];
        j := j + 1;
      }
      ChecksStep(services, i);
      i := i + 1;
    }
    assert services[..i] == services;
    report := Report(Summary(total, passed, failed), results);
  }

  lemma ChecksOfStep(svc: ServiceConfig, j: nat)
    requires j < |svc.endpoints|
    ensures ChecksOf(svc, j + 1) == ChecksOf(svc, j) + [Check(svc, svc.endpoints[j])]
  {
  }

  lemma ChecksStep(services: seq<ServiceConfig>, i: nat)
    requires i < |services|
    ensures Checks(services[..i + 1])
            == Checks(services[..i]) + ChecksOf(services[i], |services[i].endpoints|)
  {
    assert services[..i + 1][..i] == services[..i];
  }

  lemma CountAppend(rs: seq<CheckResult>, r: CheckResult)
    ensures CountPassed(rs + [r]) == CountPassed(rs) + (if r.ok then 1 else 0)
    ensures CountFailed(rs + [r]) == CountFailed(rs) + (if r.ok then 0 else 1)
  {
  }

  /** Running one more check appends its result and leaves the earlier ones alone. */
  lemma ExecuteAppend(cs: seq<Check>, c: Check, cs': seq<Check>, network: Network, clock: Clock)
    requires cs' == cs + [c]
    ensures Execute(cs', network, clock)
            == Execute(cs, network, clock) + [Classify(c, Attempt(|cs|, c, network), clock(|cs|))]
  {
  }

  // ---------------------------------------------------------------------------------------
  // Properties of a run

  lemma {:induction false} TotalEndpointsAppend(services: seq<ServiceConfig>, svc: ServiceConfig)
    ensures TotalEndpoints(services + [svc]) == TotalEndpoints(services) + |svc.endpoints|
  {
    if services != [] {
      assert (services + [svc])[1..] == services[1..] + [svc];
      TotalEndpointsAppend(services[1..], svc);
    }
  }

  /** There is one check per endpoint of every service. */
  lemma {:induction false} ChecksCount(services: seq<ServiceConfig>)
    ensures |Checks(services)| == TotalEndpoints(services)
  {
    if services != [] {
      var init := services[..|services| - 1];
      var last := services[|services| - 1];
      ChecksCount(init);
      assert init + [last] == services;
      TotalEndpointsAppend(init, last);
    }
  }

  /** The checks of the first `m` services come first, in the same order. */
  lemma {:induction false} ChecksPrefix(services: seq<ServiceConfig>, m: nat)
    requires m <= |services|
    ensures Checks(services[..m]) <= Checks(services)
    decreases |services| - m
  {
    if m < |services| {
      ChecksPrefix(services, m + 1);
      assert services[..m + 1][..m] == services[..m];
    } else {
      assert services[..m] == services;
    }
  }

  /** Endpoint `j` of service `i` is check number `TotalEndpoints(services[..i]) + j`:
      services in order, endpoints in order within each service. */
  lemma ChecksOrder(services: seq<ServiceConfig>, i: nat, j: nat)
    requires i < |services| && j < |services[i].endpoints|
    ensures TotalEndpoints(services[..i]) + j < |Checks(services)|
    ensures Checks(services)[TotalEndpoints(services[..i]) + j] == Check(services[i], services[i].endpoints[j])
  {
    var upto := services[..i + 1];
    assert upto[..i] == services[..i];
    ChecksCount(services[..i]);
    ChecksPrefix(services, i + 1);
  }

  lemma {:induction false} CountsAddUp(rs: seq<CheckResult>)
    ensures CountPassed(rs) + CountFailed(rs) == |rs|
  {
    if rs != [] {
      CountsAddUp(rs[..|rs| - 1]);
    }
  }

  /** No check failed exactly when every result is ok. */
  lemma {:induction false} NoFailuresIffAllOk(rs: seq<CheckResult>)
    ensures CountFailed(rs) == 0 <==> forall k :: 0 <= k < |rs| ==> rs[k].ok
  {
    if rs != [] {
      var init := rs[..|rs| - 1];
      NoFailuresIffAllOk(init);
      assert forall k :: 0 <= k < |init| ==> init[k] == rs[k];
    }
  }

  /** The counts add up: every endpoint is run once and lands in exactly one bucket. */
  lemma RunSummaryAddsUp(services: seq<ServiceConfig>, network: Network, clock: Clock)
    ensures var r := RunReport(services, network, clock);
            && r.summary.total == r.summary.passed + r.summary.failed
            && r.summary.total == |r.results|
            && r.summary.total == TotalEndpoints(services)
  {
    var r := RunReport(services, network, clock);
    CountsAddUp(r.results);
    ChecksCount(services);
  }

  /** The result for endpoint `j` of service `i` sits at its place in the run and describes
      that endpoint, whatever happened to the checks before it. */
  lemma RunResultAt(services: seq<ServiceConfig>, network: Network, clock: Clock, i: nat, j: nat)
    requires i < |services| && j < |services[i].endpoints|
    ensures var k := TotalEndpoints(services[..i]) + j;
            var rs := RunReport(services, network, clock).results;
            && k < |rs|
            && rs[k].service == services[i].name
            && rs[k].endpoint == services[i].endpoints[j].name
            && rs[k].url == services[i].baseUrl + services[i].endpoints[j].path
            && rs[k].httpMethod == services[i].endpoints[j].httpMethod
            && rs[k].expectedStatus == services[i].endpoints[j].expectedStatus
            && rs[k].responseMs == clock(k)
            && rs[k] == Classify(Check(services[i], services[i].endpoints[j]),
                                 Attempt(k, Check(services[i], services[i].endpoints[j]), network), clock(k))
  {
    ChecksOrder(services, i, j);
    var k := TotalEndpoints(services[..i]) + j;
    var cs := Checks(services);
    assert RunReport(services, network, clock).results[k]
           == Classify(cs[k], Attempt(k, cs[k], network), clock(k));
  }

  // ---------------------------------------------------------------------------------------
  // The exit decision of `main`

  /** The process's exit status: an exception while loading, or any failed check, exits 1. */
  function ExitStatus(run: Result<Report, LoadError>): (code: int)
    ensures code == 0 || code == 1
    ensures code == 0 <==> run.Success? && run.value.summary.failed == 0
  {
    match run
    case Failure(_) => 1
    case Success(report) => if report.summary.failed > 0 then 1 else 0
  }

  /** `main` after argument parsing: load, and only on success run every check. */
  function SmokeTest(doc: RawDocument, network: Network, clock: Clock): (run: Result<Report, LoadError>)
    ensures run.Failure? <==> LoadConfig(doc).Failure?
    ensures run.Failure? ==> run.error == LoadConfig(doc).error
    ensures run.Success? ==> run.value == RunReport(LoadConfig(doc).value, network, clock)
  {
    match LoadConfig(doc)
    case Failure(err) => Failure(err)
    case Success(services) => Success(RunReport(services, network, clock))
  }

  /** A completed run signals failure exactly when some check is not ok. */
  lemma RunFailsIffSomeCheckFails(services: seq<ServiceConfig>, network: Network, clock: Clock)
    ensures var report := RunReport(services, network, clock);
            ExitStatus(Success(report)) == 1 <==> exists k :: 0 <= k < |report.results| && !report.results[k].ok
  {
    NoFailuresIffAllOk(RunReport(services, network, clock).results);
  }

  /** From the document to the exit status: 0 exactly when the document loads and every
      check of the run is ok. */
  lemma SmokeTestPassesIffAllOk(doc: RawDocument, network: Network, clock: Clock)
    ensures var run := SmokeTest(doc, network, clock);
            ExitStatus(run) == 0
            <==> (DocumentAccepted(doc) && forall k :: 0 <= k < |run.value.results| ==> run.value.results[k].ok)
  {
    var run := SmokeTest(doc, network, clock);
    if run.Success? {
      NoFailuresIffAllOk(run.value.results);
    }
  }
}
