/**
 * Concrete runs: one configuration document loaded and checked against simulated replies.
 */
module SmokeScenarios {
  import opened Wrappers
  import opened SmokeConfig
  import opened SmokeRunner

  const HealthEntry: RawEndpoint :=
    EndpointObject(Given("health"), Given("/health"), Absent, Given(200), Given(500.0))

  const ExampleDocument: RawDocument :=
    DocumentObject(Items([ServiceObject(Given("api"), Given("https://example.test/"), Absent,
                                        Items([HealthEntry]))]))

  const Health: EndpointConfig := EndpointConfig("health", "/health", "GET", 200, Some(500.0))
  const Api: ServiceConfig := ServiceConfig("api", "https://example.test", 5.0, [Health])

  /** The trailing slash of the base URL is stripped and the method defaults to GET. */
  lemma ExampleLoads()
    ensures LoadConfig(ExampleDocument) == Success([Api])
  {
    StripTrailingSlashesUnique("https://example.test/", "https://example.test");
    Defaults(Absent, Absent, Absent, Absent);
    assert DocumentAccepted(ExampleDocument);
    var c := LoadConfig(ExampleDocument).value;
    assert ServiceLoadedFrom(c[0], ExampleDocument.services.items[0]);
    assert EndpointLoadedFrom(c[0].endpoints[0], HealthEntry);
    assert c[0].endpoints == [Health];
    assert c == [Api];
  }

  /** 200 within 120 ms passes; 503 fails on status; 200 after 900 ms fails on time. */
  lemma ExampleVerdicts()
    ensures Classify(Check(Api, Health), Success(200), 120.0).ok
    ensures var r := Classify(Check(Api, Health), Success(503), 120.0); !r.okStatus && !r.ok
    ensures var r := Classify(Check(Api, Health), Success(200), 900.0); !r.okTime && !r.ok
    ensures Classify(Check(Api, Health), Success(200), 500.0).ok
  {
  }

  /** The health check of a service, answered with `status` after `clock(k)` milliseconds. */
  lemma HealthVerdict(svc: ServiceConfig, k: nat, network: Network, clock: Clock, status: int)
    requires network(k, Request(Get, svc.baseUrl + "/health", svc.timeoutSeconds)) == Response(status)
    ensures Classify(Check(svc, Health), Attempt(k, Check(svc, Health), network), clock(k)).ok
            <==> status == 200 && clock(k) <= 500.0
  {
  }

  const Put: EndpointConfig := EndpointConfig("update", "/items", "PUT", 200, None)

  const PutThenHealth: ServiceConfig := ServiceConfig("api", "https://example.test", 5.0, [Put, Health])

  lemma PutThenHealthInOrder()
    ensures Checks([PutThenHealth]) == [Check(PutThenHealth, Put), Check(PutThenHealth, Health)]
  {
    assert [PutThenHealth][..0] == [];
  }

  /** An unsupported method yields an error result without a status, and the endpoint after
      it is still run. */
  lemma UnsupportedMethodDoesNotStopTheRun(network: Network, clock: Clock)
    requires network(1, Request(Get, "https://example.test/health", 5.0)) == Response(200)
    requires clock(1) <= 500.0
    ensures var rs := RunReport([PutThenHealth], network, clock).results;
            && |rs| == 2
            && rs[0].statusCode.None? && rs[0].error == Some(UnsupportedMethod("PUT")) && !rs[0].ok
            && rs[1].ok
  {
    PutThenHealthInOrder();
    assert "https://example.test" + "/health" == "https://example.test/health";
    HealthVerdict(PutThenHealth, 1, network, clock, 200);
    assert VerbOf("PUT").None?;
    assert Attempt(0, Check(PutThenHealth, Put), network) == Failure(UnsupportedMethod("PUT"));
  }

  const ServiceA: ServiceConfig := ServiceConfig("a", "http://a", 5.0, [Health, Health])
  const ServiceB: ServiceConfig := ServiceConfig("b", "http://b", 5.0, [Health, Health])

  /** The network of the last scenario: the third check gets 503, every other one 200. */
  function ThirdCheckFails(k: nat, req: Request): Reply {
    if k == 2 then Response(503) else Response(200)
  }

  const FourChecks: seq<Check> :=
    [Check(ServiceA, Health), Check(ServiceA, Health), Check(ServiceB, Health), Check(ServiceB, Health)]

  lemma FourChecksInOrder()
    ensures Checks([ServiceA, ServiceB]) == FourChecks
  {
    assert [ServiceA, ServiceB][..1] == [ServiceA];
    assert [ServiceA][..0] == [];
    assert Checks([ServiceA]) == ChecksOf(ServiceA, 2) == FourChecks[..2];
  }

  lemma FourVerdicts(clock: Clock)
    requires forall k :: clock(k) == 10.0
    ensures var rs := Execute(FourChecks, ThirdCheckFails, clock);
            rs[0].ok && rs[1].ok && !rs[2].ok && rs[3].ok
  {
  }

  lemma {:induction false} CountFour(rs: seq<CheckResult>)
    requires |rs| == 4 && rs[0].ok && rs[1].ok && !rs[2].ok && rs[3].ok
    ensures CountPassed(rs) == 3 && CountFailed(rs) == 1
  {
    assert rs[..3][..2] == rs[..2] && rs[..2][..1] == rs[..1] && rs[..1][..0] == [];
    assert CountPassed(rs[..1]) == 1 && CountFailed(rs[..1]) == 0;
    assert CountPassed(rs[..2]) == 2 && CountFailed(rs[..2]) == 0;
    assert CountPassed(rs[..3]) == 2 && CountFailed(rs[..3]) == 1;
  }

  /** Two services with two endpoints each, one of them answering 503. */
  lemma OneFailureInFour(clock: Clock)
    requires forall k :: clock(k) == 10.0
    ensures var run := Success(RunReport([ServiceA, ServiceB], ThirdCheckFails, clock));
            run.value.summary == Summary(4, 3, 1) && ExitStatus(run) == 1
  {
    FourChecksInOrder();
    FourVerdicts(clock);
    CountFour(Execute(FourChecks, ThirdCheckFails, clock));
  }
}
