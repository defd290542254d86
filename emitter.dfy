/** The event-to-metric derivation of mashecls-to-statsd: the read loop's
    control-message filter, the three metric keys built from the first record
    of an event, and the four buffer mutations pushed under each key. */
module Emitter {
  import opened Strings
  import opened Strconv
  import opened Ecls
  import opened Statsd

  /** The stand-in for an empty package, plan or API-method name. */
  const Placeholder: string := "-"

  /** Acknowledgements from the streaming service begin with this text. */
  const ControlPrefix: string := "Response To"

  /** The metric-name roots of the three statsd clients. */
  const ServiceRoot: string := "mashery.service"
  const DeveloperRoot: string := "mashery.developer"
  const EndpointRoot: string := "mashery.endpoint"

  /** A frame of the stream that is an acknowledgement, not an event. */
  predicate IsControl(message: string)
  {
    HasPrefix(message, ControlPrefix)
  }

  /** A package, plan or API-method name as it appears in the service key. */
  function OrPlaceholder(name: string): (r: string)
    ensures r != []
    ensures name == [] ==> r == Placeholder
    ensures name != [] ==> r == name
  {
    if |name| == 0 then Placeholder else name
  }

  /** The placeholder shows up exactly for an empty name or a name that is
      itself `-`, so the two give the same key; and it brings no dot into
      the key that the name did not have. */
  lemma PlaceholderIff(name: string)
    ensures OrPlaceholder(name) == Placeholder <==> (name == [] || name == Placeholder)
    ensures '.' in OrPlaceholder(name) <==> '.' in name
  {
  }

  /** The seven dot-separated segments of the service key: an empty one
      before the leading dot, then service, package, plan, endpoint, API
      method and HTTP method. */
  function ServiceSegments(r: EclsRecord): (segs: seq<string>)
  {
    ["", r.serviceName, OrPlaceholder(r.packageName), OrPlaceholder(r.planName),
     r.endpointName, OrPlaceholder(r.apiMethodName), r.httpMethod]
  }

  /** The key under `mashery.service`, as the format string
      `.%s.%s.%s.%s.%s.%s` fills it. */
  function ServiceKey(r: EclsRecord): (k: string)
  {
    "." + r.serviceName + "." + OrPlaceholder(r.packageName) + "." + OrPlaceholder(r.planName)
      + "." + r.endpointName + "." + OrPlaceholder(r.apiMethodName) + "." + r.httpMethod
  }

  /** The service key is its seven segments joined by dots. */
  lemma ServiceKeyJoinsSegments(r: EclsRecord)
    ensures ServiceKey(r) == Join(ServiceSegments(r), '.')
  {
    var segs := ServiceSegments(r);
    var j5 := segs[5] + "." + segs[6];
    var j4 := segs[4] + "." + j5;
    var j3 := segs[3] + "." + j4;
    var j2 := segs[2] + "." + j3;
    var j1 := segs[1] + "." + j2;
    JoinCons(segs[5..], '.');
    JoinCons(segs[4..], '.');
    JoinCons(segs[3..], '.');
    JoinCons(segs[2..], '.');
    JoinCons(segs[1..], '.');
    JoinCons(segs, '.');
    assert Join(segs, '.') == "" + "." + j1;
  }

  /** The key under `mashery.developer`: the API key after a dot. */
  function DeveloperKey(r: EclsRecord): (k: string)
  {
    "." + r.apiKey
  }

  /** The key under `mashery.endpoint`: a dot, then the request URI cut at
      its first `?`. */
  function EndpointKey(r: EclsRecord): (k: string)
  {
    "." + Split(r.uri, '?')[0]
  }

  /** The query string never reaches the endpoint key: the key is a dot and
      then the part of the URI before its first `?`, or the whole URI when it
      has none. */
  lemma EndpointKeyStripsQuery(r: EclsRecord)
    ensures var k := EndpointKey(r);
      && |k| >= 1 && k[0] == '.' && '?' !in k
      && HasPrefix(r.uri, k[1..])
      && ('?' !in r.uri ==> k == "." + r.uri)
      && ('?' in r.uri ==> r.uri[|k| - 1] == '?')
  {
    FirstPiece(r.uri, '?');
    var k := EndpointKey(r);
    assert k[1..] == Split(r.uri, '?')[0];
  }

  /** Every key component but the first is free of dots. */
  predicate DotFree(r: EclsRecord)
  {
    && '.' !in r.serviceName && '.' !in r.packageName && '.' !in r.planName
    && '.' !in r.endpointName && '.' !in r.apiMethodName && '.' !in r.httpMethod
  }

  /** When no component holds a dot, the service key splits back into exactly
      seven segments: an empty one and six that each follow a dot. Package,
      plan and API-method name are replaced by the placeholder exactly when
      they are empty; service name, endpoint name and HTTP method are taken
      as they are, the HTTP method even when empty. */
  lemma ServiceKeyParts(r: EclsRecord)
    requires DotFree(r)
    ensures var parts := Split(ServiceKey(r), '.');
      && |parts| == 7
      && parts[0] == []
      && parts[1] == r.serviceName
      && parts[2] == (if r.packageName == [] then Placeholder else r.packageName)
      && parts[3] == (if r.planName == [] then Placeholder else r.planName)
      && parts[4] == r.endpointName
      && parts[5] == (if r.apiMethodName == [] then Placeholder else r.apiMethodName)
      && parts[6] == r.httpMethod
  {
    var segs := ServiceSegments(r);
    assert forall i :: 0 <= i < |segs| ==> '.' !in segs[i];
    ServiceKeyJoinsSegments(r);
    JoinThenSplit(segs, '.');
  }

  /** When the API key holds no dot, the developer key splits back into an
      empty segment and the API key, unchanged even when it is empty. */
  lemma DeveloperKeyParts(r: EclsRecord)
    requires '.' !in r.apiKey
    ensures Split(DeveloperKey(r), '.') == ["", r.apiKey]
  {
    JoinThenSplit(["", r.apiKey], '.');
    assert Join(["", r.apiKey], '.') == "" + "." + r.apiKey;
  }

  /** The four mutations pushed under one key: the byte count as a gauge, one
      increment of the counter for the status code, one of the counter for
      the response string, and the execution time as a timing sample. */
  function Group(key: string, statusCode: string, responseString: string, bytes: int64, execTimeMs: int64)
    : (g: seq<Mutation>)
  {
    [ Mutation.Absolute(key + ".bytes", bytes),
      Mutation.Incr(key + ".status_code." + statusCode, 1),
      Mutation.Incr(key + ".response_string." + responseString, 1),
      Mutation.Timing(key + ".total_request_exec_time", execTimeMs) ]
  }

  /** Every mutation of a group is named under the group's key. */
  lemma GroupKeyedUnder(key: string, statusCode: string, responseString: string, bytes: int64, execTimeMs: int64)
    ensures var g := Group(key, statusCode, responseString, bytes, execTimeMs);
      forall i :: 0 <= i < |g| ==> HasPrefix(g[i].key, key + ".")
  {
    var g := Group(key, statusCode, responseString, bytes, execTimeMs);
    forall i | 0 <= i < |g| ensures HasPrefix(g[i].key, key + ".") {
      assert g[i].key[..|key| + 1] == key + ".";
    }
  }

  /** What one event adds to each of the three buffers. */
  datatype Derived = Derived(service: seq<Mutation>, developer: seq<Mutation>, endpoint: seq<Mutation>)

  /** The mutations `emit` derives from a record, given the execution time in
      milliseconds that it computes from `total_request_exec_time`. */
  function Derive(r: EclsRecord, execTimeMs: int64): (d: Derived)
  {
    var bytes := ParseInt(r.bytes).value;
    Derived(
      Group(ServiceKey(r), r.httpStatusCode, r.responseString, bytes, execTimeMs),
      Group(DeveloperKey(r), r.httpStatusCode, r.responseString, bytes, execTimeMs),
      Group(EndpointKey(r), r.httpStatusCode, r.responseString, bytes, execTimeMs))
  }

  /** What every event yields: four mutations per namespace, whether or not
      the byte count parses, each named under its own namespace's key; the
      values are computed once, so the three namespaces receive the same
      kinds of mutation with the same values in the same order: the byte
      count as ParseInt returned it (its error discarded), two counter
      increments of 1, and the execution time. */
  lemma DeriveShape(r: EclsRecord, execTimeMs: int64)
    ensures var d := Derive(r, execTimeMs);
      && |d.service| == 4 && |d.developer| == 4 && |d.endpoint| == 4
      && (forall i :: 0 <= i < 4 ==>
            && HasPrefix(d.service[i].key, ServiceKey(r) + ".")
            && HasPrefix(d.developer[i].key, DeveloperKey(r) + ".")
            && HasPrefix(d.endpoint[i].key, EndpointKey(r) + "."))
      && (forall i :: 0 <= i < 4 ==>
            && d.service[i].value == d.developer[i].value == d.endpoint[i].value
            && d.service[i].Absolute? == d.developer[i].Absolute? == d.endpoint[i].Absolute?
            && d.service[i].Incr? == d.developer[i].Incr? == d.endpoint[i].Incr?)
      && d.service[0].Absolute? && d.service[0].value == ParseInt(r.bytes).value
      && d.service[1].Incr? && d.service[1].value == 1
      && d.service[2].Incr? && d.service[2].value == 1
      && d.service[3].Timing? && d.service[3].value == execTimeMs
  {
    var bytes := ParseInt(r.bytes).value;
    GroupKeyedUnder(ServiceKey(r), r.httpStatusCode, r.responseString, bytes, execTimeMs);
    GroupKeyedUnder(DeveloperKey(r), r.httpStatusCode, r.responseString, bytes, execTimeMs);
    GroupKeyedUnder(EndpointKey(r), r.httpStatusCode, r.responseString, bytes, execTimeMs);
  }

  /** What the read loop did with one frame: ignored it as an acknowledgement,
      handed it to `emit`, or crashed in `emit` because the decoded message had
      no record. The flag says whether the unmarshal error was logged first. */
  datatype Outcome = Ignored | Emitted(loggedUnmarshalError: bool) | Panicked(loggedUnmarshalError: bool)

  /** The three global statsd buffers, one per namespace. */
  class Pipeline {
    const service: StatsdBuffer
    const developer: StatsdBuffer
    const endpoint: StatsdBuffer

    /** The three namespaces never share a buffer. */
    ghost predicate Valid()
    {
      service != developer && developer != endpoint && service != endpoint
    }

    /** The buffers `init` creates, each on a client with its metric root. */
    constructor ()
      ensures Valid()
      ensures fresh(service) && fresh(developer) && fresh(endpoint)
      ensures service.prefix == ServiceRoot && developer.prefix == DeveloperRoot && endpoint.prefix == EndpointRoot
      ensures service.pending == [] && developer.pending == [] && endpoint.pending == []
    {
      service := new StatsdBuffer(ServiceRoot);
      endpoint := new StatsdBuffer(EndpointRoot);
      developer := new StatsdBuffer(DeveloperRoot);
    }

    /** `emit`: reads the first record only and pushes its four mutations into
        each buffer in turn; no buffer receives anything but its own four. */
    method Emit(e: Ecls, execTimeMs: int64)
      requires Valid()
      requires |e.data| >= 1
      modifies service, developer, endpoint
      ensures service.pending == old(service.pending) + Derive(e.data[0], execTimeMs).service
      ensures developer.pending == old(developer.pending) + Derive(e.data[0], execTimeMs).developer
      ensures endpoint.pending == old(endpoint.pending) + Derive(e.data[0], execTimeMs).endpoint
    {
      var r := e.data[0];
      var bytes := ParseInt(r.bytes).value;

      var statName := ServiceKey(r);
      service.Absolute(statName + ".bytes", bytes);
      service.Incr(statName + ".status_code." + r.httpStatusCode, 1);
      service.Incr(statName + ".response_string." + r.responseString, 1);
      service.Timing(statName + ".total_request_exec_time", execTimeMs);

      statName := DeveloperKey(r);
      developer.Absolute(statName + ".bytes", bytes);
      developer.Incr(statName + ".status_code." + r.httpStatusCode, 1);
      developer.Incr(statName + ".response_string." + r.responseString, 1);
      developer.Timing(statName + ".total_request_exec_time", execTimeMs);

      statName := EndpointKey(r);
      endpoint.Absolute(statName + ".bytes", bytes);
      endpoint.Incr(statName + ".status_code." + r.httpStatusCode, 1);
      endpoint.Incr(statName + ".response_string." + r.responseString, 1);
      endpoint.Timing(statName + ".total_request_exec_time", execTimeMs);
    }

    /** One pass of the read loop over a received frame. `decoded` is what
        unmarshalling the frame left in the `ECLS` value and `unmarshalOk`
        whether it reported no error; a failure is only logged, and `emit`
        runs regardless. An acknowledgement changes nothing; a decoded value
        without records makes `emit` fail on `Data[0]` before any push. */
    method HandleMessage(message: string, decoded: Ecls, unmarshalOk: bool, execTimeMs: int64)
      returns (o: Outcome)
      requires Valid()
      modifies service, developer, endpoint
      ensures IsControl(message) ==>
        o == Ignored && unchanged(service, developer, endpoint)
      ensures !IsControl(message) && |decoded.data| == 0 ==>
        o == Panicked(!unmarshalOk) && unchanged(service, developer, endpoint)
      ensures !IsControl(message) && |decoded.data| >= 1 ==>
        && o == Emitted(!unmarshalOk)
        && service.pending == old(service.pending) + Derive(decoded.data[0], execTimeMs).service
        && developer.pending == old(developer.pending) + Derive(decoded.data[0], execTimeMs).developer
        && endpoint.pending == old(endpoint.pending) + Derive(decoded.data[0], execTimeMs).endpoint
    {
      if IsControl(message) {
        o := Ignored;
      } else if |decoded.data| == 0 {
        o := Panicked(!unmarshalOk);
      } else {
        Emit(decoded, execTimeMs);
        o := Emitted(!unmarshalOk);
      }
    }
  }

  /** A URI with a query string: the endpoint key is the path alone. */
  lemma EndpointKeyOfQuery(r: EclsRecord, path: string, query: string)
    requires r.uri == path + "?" + query && '?' !in path
    ensures EndpointKey(r) == "." + path
  {
    assert r.uri[|path|] == '?' && r.uri[..|path|] == path;
    FirstPieceAt(r.uri, '?', |path|);
  }

  /** A worked example event: its service key carries the HTTP method as a
      sixth segment. */
  lemma ItemsEventKeys(r: EclsRecord)
    requires && r.serviceName == "svc" && r.packageName == "pkgA" && r.planName == "planX"
             && r.endpointName == "ep1" && r.apiMethodName == "GET" && r.apiKey == "key123"
             && r.httpMethod == "GET"
    ensures ServiceKey(r) == ".svc.pkgA.planX.ep1.GET.GET"
    ensures DeveloperKey(r) == ".key123"
  {
  }

  /** The example's request URI, the path `/v1/items` with the query string
      `x=1`: its endpoint key keeps only the path. */
  lemma ItemsEventEndpointKey(r: EclsRecord, path: string)
    requires path == "/v1/items" && r.uri == path + "?x=1"
    ensures EndpointKey(r) == "./v1/items"
  {
    EndpointKeyOfQuery(r, path, "x=1");
  }

  /** The mutations of the example event: the byte count 512 is parsed
      exactly and reaches every namespace. */
  lemma ItemsEvent(r: EclsRecord)
    requires && r.serviceName == "svc" && r.packageName == "pkgA" && r.planName == "planX"
             && r.endpointName == "ep1" && r.apiMethodName == "GET" && r.apiKey == "key123"
             && r.httpStatusCode == "200" && r.responseString == "OK" && r.bytes == "512"
             && r.httpMethod == "GET"
    ensures Derive(r, 50).service[0] == Mutation.Absolute(".svc.pkgA.planX.ep1.GET.GET.bytes", 512)
    ensures Derive(r, 50).developer[1] == Mutation.Incr(".key123.status_code.200", 1)
    ensures Derive(r, 50).endpoint[0].value == 512
  {
    ItemsBytes(r);
    ItemsEventKeys(r);
  }

  /** The example's byte count, "512", is parsed exactly. */
  lemma ItemsBytes(r: EclsRecord)
    requires r.bytes == "512"
    ensures ParseInt(r.bytes) == Parsed(512, NoError)
  {
    assert FormatNat(5) == "5";
    assert FormatNat(51) == "51";
    assert FormatInt(512) == r.bytes;
    FormatThenParse(512);
  }

  /** The example's endpoint gauge: named under the path alone, with the
      query string `x=1` dropped, and carrying the parsed byte count. */
  lemma ItemsEventEndpoint(r: EclsRecord, path: string)
    requires r.bytes == "512" && path == "/v1/items" && r.uri == path + "?x=1"
    ensures Derive(r, 50).endpoint[0] == Mutation.Absolute("./v1/items.bytes", 512)
  {
    ItemsBytes(r);
    ItemsEventEndpointKey(r, path);
  }
}
