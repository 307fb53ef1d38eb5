/**
 * Validation and normalisation of the smoke tester's configuration: what `load_config`
 * does with the document once `json.load` has parsed it.
 *
 * The parsed document is modelled with already-typed fields. A field of a JSON object is
 * seen the way `dict.get` sees it: missing, an explicit `null`, or a value. Loading either
 * yields every service in input order or stops at the first offending entry; no partial
 * configuration is ever returned.
 */
module SmokeConfig {
  import opened Wrappers

  /** One key of a JSON object, as read with `dict.get`. */
  datatype Field<T> = Absent | Null | Given(value: T)

  /** A key that should hold a JSON list: missing or null, some other JSON value, or a list. */
  datatype Listing<T> = Missing | NotAList | Items(items: seq<T>)

  /** One entry of a service's `endpoints` list. */
  datatype RawEndpoint =
    | EndpointObject(name: Field<string>, path: Field<string>, httpMethod: Field<string>,
                     expectedStatus: Field<int>, maxResponseMs: Field<real>)
    | EndpointNotAnObject

  /** One entry of the document's `services` list. */
  datatype RawService =
    | ServiceObject(name: Field<string>, baseUrl: Field<string>, timeoutSeconds: Field<real>,
                    endpoints: Listing<RawEndpoint>)
    | ServiceNotAnObject

  /** The parsed configuration document. */
  datatype RawDocument = DocumentObject(services: Listing<RawService>) | DocumentNotAnObject

  /** A validated endpoint check (`EndpointConfig`). */
  datatype EndpointConfig = EndpointConfig(name: string, path: string, httpMethod: string,
                                           expectedStatus: int, maxResponseMs: Option<real>)

  /** A validated service (`ServiceConfig`). */
  datatype ServiceConfig = ServiceConfig(name: string, baseUrl: string, timeoutSeconds: real,
                                         endpoints: seq<EndpointConfig>)

  /** What went wrong inside one service entry. */
  datatype ServiceFault =
    | InvalidService          // not an object, or a falsy name, base_url or endpoints
    | InvalidEndpoint(endpoint: nat)  // that endpoint is not an object, lacks name/path, or has a null expected_status
    | InvalidTimeout          // timeout_seconds is null, so float() raises

  /** Why loading stopped; the exception's text is not modelled. */
  datatype LoadError =
    | NotAnObject             // the document is not a JSON object, so `data.get` raises
    | NoServices              // services missing, not a list, or empty
    | BadService(service: nat, fault: ServiceFault)

  const DefaultTimeoutSeconds: real := 5.0
  const DefaultMethod: string := "GET"
  const DefaultExpectedStatus: int := 200

  /** Python truthiness of a string-valued field: present, not null, not empty. */
  predicate Truthy(f: Field<string>) {
    f.Given? && f.value != ""
  }

  /** `x is None` for a value read with `dict.get`. */
  predicate IsNone<T>(f: Field<T>) {
    !f.Given?
  }

  // ---------------------------------------------------------------------------------------
  // String normalisation

  predicate IsLower(c: char) {
    'a' <= c <= 'z'
  }

  function UpperChar(c: char): (u: char)
    ensures !IsLower(u)
    ensures IsLower(c) ==> u as int == c as int - 32
    ensures !IsLower(c) ==> u == c
  {
    if IsLower(c) then (c as int - 32) as char else c
  }

  /** `str.upper()` restricted to ASCII letters. */
  function Upper(s: string): (r: string)
    ensures |r| == |s|
    ensures forall k :: 0 <= k < |r| ==> !IsLower(r[k])
    ensures forall k :: 0 <= k < |r| ==> r[k] == UpperChar(s[k])
  {
    seq(|s|, k requires 0 <= k < |s| => UpperChar(s[k]))
  }

  lemma UpperIdempotent(s: string)
    ensures Upper(Upper(s)) == Upper(s)
  {
  }

  /** `s.rstrip("/")`: drops every trailing slash. */
  function StripTrailingSlashes(s: string): (r: string)
    ensures r <= s
    ensures r == [] || r[|r| - 1] != '/'
    ensures forall k :: |r| <= k < |s| ==> s[k] == '/'
    decreases |s|
  {
    if |s| > 0 && s[|s| - 1] == '/' then StripTrailingSlashes(s[..|s| - 1]) else s
  }

  /** Stripping is determined by its contract: the unique prefix that ends without a slash
      and leaves only slashes behind. */
  lemma StripTrailingSlashesUnique(s: string, p: string)
    requires p <= s
    requires p == [] || p[|p| - 1] != '/'
    requires forall k :: |p| <= k < |s| ==> s[k] == '/'
    ensures StripTrailingSlashes(s) == p
  {
  }

  lemma StripTrailingSlashesIdempotent(s: string)
    ensures StripTrailingSlashes(StripTrailingSlashes(s)) == StripTrailingSlashes(s)
  {
  }

  /** A base URL made only of slashes passes the truthiness check and becomes empty. */
  lemma StripAllSlashes(n: nat)
    ensures StripTrailingSlashes(seq(n, _ => '/')) == ""
  {
  }

  // ---------------------------------------------------------------------------------------
  // Defaults

  /** `str(e.get("method", "GET")).upper()`; a null method prints as "None". */
  function MethodOf(f: Field<string>): (m: string)
    ensures f.Given? ==> m == Upper(f.value)
  {
    match f
    case Absent => Upper(DefaultMethod)
    case Null => Upper("None")
    case Given(m) => Upper(m)
  }

  /** `int(e.get("expected_status", 200))` for a field that is not null. */
  function ExpectedStatusOf(f: Field<int>): int
    requires !f.Null?
  {
    if f.Given? then f.value else DefaultExpectedStatus
  }

  /** `float(max_ms) if max_ms is not None else None`. */
  function MaxResponseOf(f: Field<real>): Option<real> {
    if f.Given? then Some(f.value) else None
  }

  /** `float(s.get("timeout_seconds", 5.0))` for a field that is not null. */
  function TimeoutOf(f: Field<real>): real
    requires !f.Null?
  {
    if f.Given? then f.value else DefaultTimeoutSeconds
  }

  lemma Defaults(ep: Field<string>, st: Field<int>, mx: Field<real>, to: Field<real>)
    ensures ep.Absent? ==> MethodOf(ep) == "GET"
    ensures ep.Null? ==> MethodOf(ep) == "NONE"
    ensures st.Absent? ==> ExpectedStatusOf(st) == 200
    ensures to.Absent? ==> TimeoutOf(to) == 5.0
    ensures MaxResponseOf(mx).None? <==> IsNone(mx)
  {
  }

  // ---------------------------------------------------------------------------------------
  // Which entries are accepted, and what they become

  /** An endpoint entry survives the loader: it is an object, `int()` of its expected status
      does not raise, and neither name nor path is None (empty strings are fine). */
  predicate EndpointAccepted(e: RawEndpoint) {
    e.EndpointObject? && !e.expectedStatus.Null? && !IsNone(e.name) && !IsNone(e.path)
  }

  /** A service entry survives the loader. */
  predicate ServiceAccepted(s: RawService) {
    && s.ServiceObject?
    && Truthy(s.name) && Truthy(s.baseUrl)
    && s.endpoints.Items? && |s.endpoints.items| > 0
    && (forall k :: 0 <= k < |s.endpoints.items| ==> EndpointAccepted(s.endpoints.items[k]))
    && !s.timeoutSeconds.Null?
  }

  /** The document survives the loader. */
  predicate DocumentAccepted(doc: RawDocument) {
    && doc.DocumentObject?
    && doc.services.Items? && |doc.services.items| > 0
    && forall k :: 0 <= k < |doc.services.items| ==> ServiceAccepted(doc.services.items[k])
  }

  /** `c` is what the loader makes of the accepted entry `e`. */
  predicate EndpointLoadedFrom(c: EndpointConfig, e: RawEndpoint)
    requires EndpointAccepted(e)
  {
    && c.name == e.name.value && c.path == e.path.value
    && c.httpMethod == MethodOf(e.httpMethod)
    && c.expectedStatus == ExpectedStatusOf(e.expectedStatus)
    && c.maxResponseMs == MaxResponseOf(e.maxResponseMs)
  }

  /** `c` is what the loader makes of the accepted entry `s`, endpoints in input order. */
  predicate ServiceLoadedFrom(c: ServiceConfig, s: RawService)
    requires ServiceAccepted(s)
  {
    && c.name == s.name.value
    && c.baseUrl == StripTrailingSlashes(s.baseUrl.value)
    && c.timeoutSeconds == TimeoutOf(s.timeoutSeconds)
    && |c.endpoints| == |s.endpoints.items|
    && forall k :: 0 <= k < |c.endpoints| ==> EndpointLoadedFrom(c.endpoints[k], s.endpoints.items[k])
  }

  // ---------------------------------------------------------------------------------------
  // The loader

  /** One endpoint entry `e`, number `j` of service `i`. The status is converted before the
      None check on name and path, so a null status fails the entry as well. */
  function LoadEndpoint(i: nat, j: nat, e: RawEndpoint): (r: Result<EndpointConfig, LoadError>)
    ensures r.Success? <==> EndpointAccepted(e)
    ensures r.Success? ==> EndpointLoadedFrom(r.value, e)
    ensures r.Failure? ==> r.error == BadService(i, InvalidEndpoint(j))
  {
    match e
    case EndpointNotAnObject => Failure(BadService(i, InvalidEndpoint(j)))
    case EndpointObject(name, path, httpMethod, status, maxMs) =>
      if status.Null? then Failure(BadService(i, InvalidEndpoint(j)))
      else if IsNone(name) || IsNone(path) then Failure(BadService(i, InvalidEndpoint(j)))
      else Success(EndpointConfig(name.value, path.value, MethodOf(httpMethod),
                                  ExpectedStatusOf(status), MaxResponseOf(maxMs)))
  }

  /** The endpoint entries `raw[j..]` of service `i`, in order, stopping at the first bad one. */
  function LoadEndpoints(i: nat, raw: seq<RawEndpoint>, j: nat): (r: Result<seq<EndpointConfig>, LoadError>)
    requires j <= |raw|
    ensures r.Success? <==> forall k :: j <= k < |raw| ==> EndpointAccepted(raw[k])
    ensures r.Success? ==> |r.value| == |raw| - j
    ensures r.Success? ==> forall k :: 0 <= k < |r.value| ==> EndpointLoadedFrom(r.value[k], raw[j + k])
    ensures r.Failure? ==> r.error.BadService? && r.error.service == i && r.error.fault.InvalidEndpoint?
    ensures r.Failure? ==> j <= r.error.fault.endpoint < |raw|
    ensures r.Failure? ==> !EndpointAccepted(raw[r.error.fault.endpoint])
    ensures r.Failure? ==> forall k :: j <= k < r.error.fault.endpoint ==> EndpointAccepted(raw[k])
    decreases |raw| - j
  {
    if j == |raw| then Success([])
    else
      match LoadEndpoint(i, j, raw[j])
      case Failure(err) => Failure(err)
      case Success(c) =>
        match LoadEndpoints(i, raw, j + 1)
        case Failure(err) => Failure(err)
        case Success(rest) => Success([c] + rest)
  }

  /** Service entry number `i`: its own fields first, then its endpoints, then the timeout. */
  function LoadService(i: nat, s: RawService): (r: Result<ServiceConfig, LoadError>)
    ensures r.Success? <==> ServiceAccepted(s)
    ensures r.Success? ==> ServiceLoadedFrom(r.value, s)
    ensures r.Failure? ==> r.error.BadService? && r.error.service == i
  {
    match s
    case ServiceNotAnObject => Failure(BadService(i, InvalidService))
    case ServiceObject(name, baseUrl, timeout, endpoints) =>
      if !Truthy(name) || !Truthy(baseUrl) || !endpoints.Items? || |endpoints.items| == 0 then
        Failure(BadService(i, InvalidService))
      else
        match LoadEndpoints(i, endpoints.items, 0)
        case Failure(err) => Failure(err)
        case Success(eps) =>
          if timeout.Null? then Failure(BadService(i, InvalidTimeout))
          else Success(ServiceConfig(name.value, StripTrailingSlashes(baseUrl.value),
                                     TimeoutOf(timeout), eps))
  }

  /** The service entries `raw[i..]`, in order, stopping at the first bad one. */
  function LoadServices(raw: seq<RawService>, i: nat): (r: Result<seq<ServiceConfig>, LoadError>)
    requires i <= |raw|
    ensures r.Success? <==> forall k :: i <= k < |raw| ==> ServiceAccepted(raw[k])
    ensures r.Success? ==> |r.value| == |raw| - i
    ensures r.Success? ==> forall k :: 0 <= k < |r.value| ==> ServiceLoadedFrom(r.value[k], raw[i + k])
    ensures r.Failure? ==> r.error.BadService? && i <= r.error.service < |raw|
    ensures r.Failure? ==> !ServiceAccepted(raw[r.error.service])
    ensures r.Failure? ==> forall k :: i <= k < r.error.service ==> ServiceAccepted(raw[k])
    decreases |raw| - i
  {
    if i == |raw| then Success([])
    else
      match LoadService(i, raw[i])
      case Failure(err) => Failure(err)
      case Success(c) =>
        match LoadServices(raw, i + 1)
        case Failure(err) => Failure(err)
        case Success(rest) =>
          assert forall k :: 1 <= k < |rest| + 1 ==> ([c] + rest)[k] == rest[k - 1];
          Success([c] + rest)
  }

  /** `load_config` after `json.load`. */
  function LoadConfig(doc: RawDocument): (r: Result<seq<ServiceConfig>, LoadError>)
    ensures r.Success? <==> DocumentAccepted(doc)
    ensures r.Success? ==> |r.value| == |doc.services.items|
    ensures r.Success? ==> forall k :: 0 <= k < |r.value| ==> ServiceLoadedFrom(r.value[k], doc.services.items[k])
    ensures r == Failure(NotAnObject) <==> doc.DocumentNotAnObject?
    ensures r == Failure(NoServices) <==>
              doc.DocumentObject? && !(doc.services.Items? && |doc.services.items| > 0)
    ensures r.Failure? && r.error.BadService? ==>
              && doc.DocumentObject? && doc.services.Items?
              && r.error.service < |doc.services.items|
              && !ServiceAccepted(doc.services.items[r.error.service])
              && forall k :: 0 <= k < r.error.service ==> ServiceAccepted(doc.services.items[k])
  {
    match doc
    case DocumentNotAnObject => Failure(NotAnObject)
    case DocumentObject(services) =>
      if !services.Items? || |services.items| == 0 then Failure(NoServices)
      else LoadServices(services.items, 0)
  }

  // ---------------------------------------------------------------------------------------
  // Properties of a loaded configuration

  /** Every loaded base URL ends without a slash, so stripping it again changes nothing;
      every loaded service has at least one endpoint. */
  lemma LoadedServicesNormalised(doc: RawDocument, services: seq<ServiceConfig>)
    requires LoadConfig(doc) == Success(services)
    ensures forall k :: 0 <= k < |services| ==>
              && (services[k].baseUrl == [] || services[k].baseUrl[|services[k].baseUrl| - 1] != '/')
              && StripTrailingSlashes(services[k].baseUrl) == services[k].baseUrl
              && |services[k].endpoints| > 0
  {
  }

  /** A service with a bad entry anywhere makes the whole load fail. */
  lemma OneBadServiceRejectsAll(doc: RawDocument, k: nat)
    requires doc.DocumentObject? && doc.services.Items? && k < |doc.services.items|
    requires !ServiceAccepted(doc.services.items[k])
    ensures LoadConfig(doc).Failure?
    ensures LoadConfig(doc).error.BadService? && LoadConfig(doc).error.service <= k
  {
  }
}
