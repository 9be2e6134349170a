/** The client object: its configuration, the session's user id, the request
    it builds and the delivery of one event. */
module Sdk {
  import opened Wrappers
  import opened Constants
  import opened Options
  import opened Event
  import opened Delivery

  /** A header name: one of the names in the constant table, or the
      data-source-context name, which that table does not define. */
  datatype HeaderName = Field(name: string) | DataSourceContext

  const DataSourceValue: string := "sdk"
  const Post: string := "POST"

  datatype HttpRequest = HttpRequest(httpMethod: string, url: string, headers: map<HeaderName, string>)

  /** One upload: the request and the body sent with it. */
  datatype Upload = Upload(request: HttpRequest, body: Bytes)

  /** What one `sendEvent` does, in order within each part: the uploads, the
      delays waited before each retry, and the completion calls. */
  datatype Trace = Trace(uploads: seq<Upload>, delays: seq<real>, completions: seq<Completion>)

  class CohoSDK {
    const tenantId: string
    const endpoint: string
    const retries: int
    const retryDelay: real
    const enableLogging: bool
    var userId: Option<string>

    /** Copies the options, resolves the region once, and starts with no
        user id. */
    constructor (options: CohoSDKOptions)
      ensures tenantId == options.tenantId && endpoint == GetEndpoint(options.region)
      ensures retries == options.retries && retryDelay == options.retryDelay
      ensures enableLogging == options.enableLogging
      ensures userId == None
    {
      tenantId := options.tenantId;
      endpoint := GetEndpoint(options.region);
      retries := options.retries;
      retryDelay := options.retryDelay;
      enableLogging := options.enableLogging;
      userId := None;
    }

    /** Every region has an endpoint on the ingestion route. */
    static function GetEndpoint(region: Region): (url: string)
      ensures EndsWith(url, IngestionPath)
      ensures region == US ==> url == UsEndpoint
      ensures region == EU ==> url == EuEndpoint
    {
      EndpointsShareRoute();
      match region
      case US => UsEndpoint
      case EU => EuEndpoint
    }

    /** Distinct regions resolve to distinct endpoints. */
    static lemma EndpointInjective(a: Region, b: Region)
      ensures GetEndpoint(a) == GetEndpoint(b) <==> a == b
    {
      EndpointsShareRoute();
    }

    /** Overwrites the stored id, whatever was there. */
    method SetUserId(id: string)
      modifies this
      ensures userId == Some(id)
    {
      userId := Some(id);
    }

    /** The request every upload uses: a JSON POST to the configured endpoint
        carrying the tenant id and the fixed user-id-key marker. It depends on
        the configuration only, never on the session's user id. */
    function CreateRequest(): (req: HttpRequest)
      ensures req.httpMethod == Post && req.url == endpoint
      ensures req.headers.Keys ==
        {Field(ContentType), Field(Accept), Field(TenantIdKey), Field(UserIdKey), DataSourceContext}
      ensures req.headers[Field(ContentType)] == ApplicationJson
      ensures req.headers[Field(Accept)] == AcceptAll
      ensures req.headers[Field(TenantIdKey)] == tenantId
      ensures req.headers[Field(UserIdKey)] == UserIdMarker
      ensures req.headers[DataSourceContext] == DataSourceValue
    {
      var headers := map[];
      var headers := headers[Field(ContentType) := ApplicationJson];
      var headers := headers[Field(Accept) := AcceptAll];
      var headers := headers[Field(TenantIdKey) := tenantId];
      var headers := headers[Field(UserIdKey) := UserIdMarker];
      var headers := headers[DataSourceContext := DataSourceValue];
      HttpRequest(Post, endpoint, headers)
    }

    /** The trace of the retry chain for one body: `Deliver`'s number of
        uploads, all of the same request and body, one delay before each
        retry, and the completion if there is one. */
    function DeliveryTrace(body: Bytes, network: seq<Response>): Trace {
      var run := Deliver(retries, network, 0);
      Trace(
        seq(run.requests, _ => Upload(CreateRequest(), body)),
        seq(run.requests - 1, _ => retryDelay),
        if run.completion.Some? then [run.completion.value] else [])
    }

    /** The trace of `sendEvent` for a session user id `user`. */
    function ExpectedTrace(
      user: Option<string>,
      eventName: string,
      additional: EventRecord,
      device: DeviceContext,
      serialize: Payload -> Result<Bytes, string>,
      network: seq<Response>): Trace
    {
      match user
      case None => Trace([], [], [Failure(MissingUserId)])
      case Some(id) =>
        match serialize(Wrap(EventFor(eventName, id, device, additional)))
        case Failure(cause) => Trace([], [], [Failure(SerializationFailed(cause))])
        case Success(body) => DeliveryTrace(body, network)
    }

    /** `sendRequest` and `handleError`: upload, classify the answer, and
        either complete or wait and upload the same body again with the
        counter one higher. */
    method SendRequest(body: Bytes, network: seq<Response>) returns (trace: Trace)
      ensures trace == DeliveryTrace(body, network)
    {
      var request := CreateRequest();
      var attempts: nat := 0;
      var uploads := [Upload(request, body)];
      var delays: seq<real> := [];
      var done: Option<Completion> := None;
      while done.None? && attempts < |network|
        invariant attempts <= |network|
        invariant |uploads| == attempts + 1
        invariant forall i :: 0 <= i < |uploads| ==> uploads[i] == Upload(request, body)
        invariant |delays| == attempts
        invariant forall i :: 0 <= i < |delays| ==> delays[i] == retryDelay
        invariant done.None? ==> Deliver(retries, network, attempts) == Deliver(retries, network, 0)
        invariant done.Some? ==> Deliver(retries, network, 0) == Run(attempts + 1, done)
        decreases |network| - attempts, if done.None? then 1 else 0
      {
        match Classify(network[attempts]) {
          case Delivered =>
            done := Some(Success(()));
          case Failed(code, _) =>
            match HandleError(attempts, retries, code) {
              case Retry(next) =>
                delays := delays + [retryDelay];
                attempts := next;
                uploads := uploads + [Upload(request, body)];
              case GiveUp(error) =>
                done := Some(Failure(error));
            }
        }
      }
      trace := Trace(uploads, delays, if done.Some? then [done.value] else []);
    }

    /** `sendEvent`: reads the user id once, fails at once without it or when
        the payload cannot be serialized, and otherwise runs the retry chain
        on the one serialized body. */
    method SendEvent(
      eventName: string,
      additionalProperties: EventRecord := map[],
      device: DeviceContext,
      serialize: Payload -> Result<Bytes, string>,
      network: seq<Response>) returns (trace: Trace)
      ensures trace == ExpectedTrace(userId, eventName, additionalProperties, device, serialize, network)
    {
      match userId {
        case None =>
          trace := Trace([], [], [Failure(MissingUserId)]);
        case Some(id) =>
          var encoded := EncodeEvent(eventName, id, device, additionalProperties, serialize);
          match encoded {
            case Failure(cause) =>
              trace := Trace([], [], [Failure(SerializationFailed(cause))]);
            case Success(body) =>
              trace := SendRequest(body, network);
          }
      }
    }

    /** Without a user id nothing is uploaded and the caller is told so. */
    lemma MissingUserIdSendsNothing(
      eventName: string, additional: EventRecord, device: DeviceContext,
      serialize: Payload -> Result<Bytes, string>, network: seq<Response>)
      ensures ExpectedTrace(None, eventName, additional, device, serialize, network)
        == Trace([], [], [Failure(MissingUserId)])
    {
    }

    /** The completion is called at most once, and exactly once unless the
        last upload is still waiting for an answer the network never gave. */
    lemma CompletesOnce(
      user: Option<string>, eventName: string, additional: EventRecord, device: DeviceContext,
      serialize: Payload -> Result<Bytes, string>, network: seq<Response>)
      ensures var t := ExpectedTrace(user, eventName, additional, device, serialize, network);
        |t.completions| <= 1 &&
        (|t.completions| == 0 <==> |t.uploads| == |network| + 1)
    {
      CompletesUnlessWaiting(retries, network, 0);
    }

    /** All uploads of one send are the same request with the same body, at
        most `retries + 1` of them, with the configured delay before each
        one after the first. */
    lemma UploadsRepeatOneBody(
      user: Option<string>, eventName: string, additional: EventRecord, device: DeviceContext,
      serialize: Payload -> Result<Bytes, string>, network: seq<Response>)
      ensures var t := ExpectedTrace(user, eventName, additional, device, serialize, network);
        |t.uploads| <= Max(0, retries) + 1 &&
        (forall i :: 0 <= i < |t.uploads| ==> t.uploads[i] == Upload(CreateRequest(), t.uploads[0].body)) &&
        (t.uploads != [] ==> |t.delays| == |t.uploads| - 1) &&
        (forall i :: 0 <= i < |t.delays| ==> t.delays[i] == retryDelay)
    {
      RequestsBounded(retries, network, 0);
    }

    /** Once anything was uploaded, the caller sees success or the one
        terminal error. */
    lemma FailureAfterUploadIsFinal(
      user: Option<string>, eventName: string, additional: EventRecord, device: DeviceContext,
      serialize: Payload -> Result<Bytes, string>, network: seq<Response>)
      ensures var t := ExpectedTrace(user, eventName, additional, device, serialize, network);
        t.uploads != [] ==>
          t.completions == [] || t.completions == [Success(())] || t.completions == [Failure(FinalError)]
    {
      OnlyFinalErrorFails(retries, network, 0);
    }

    /** The uploaded body is the serialization of the event built from the
        user id the send started with. */
    lemma UploadedBodyCarriesSnapshot(
      id: string, eventName: string, additional: EventRecord, device: DeviceContext,
      serialize: Payload -> Result<Bytes, string>, network: seq<Response>)
      ensures var t := ExpectedTrace(Some(id), eventName, additional, device, serialize, network);
        forall u :: u in t.uploads ==>
          serialize(Wrap(EventFor(eventName, id, device, additional))) == Success(u.body)
    {
    }
  }
}
