/**
 * AuthorizeClient: the client PingAuthorizeNode calls. Two decision requests, one to a PingOne
 * decision endpoint and one to a PingAuthorize governance engine; both POST a one-member JSON
 * body with a bearer token, and both return the response body without looking at the status.
 */
module AuthorizeClient {
  import opened Results
  import opened Exceptions
  import opened JsonValues
  import opened Http
  import opened PingOne

  const GovernancePath := "/governance-engine"

  /** The governance-engine URI of a PingAuthorize endpoint. */
  function GovernanceUri(endpoint: string): string {
    endpoint + GovernancePath
  }

  /** The request p1AZEvaluateDecisionRequest sends. */
  function P1AZRequest(config: PingOneConfig, token: AccessToken, decisionEndpointId: string, decisionData: Json): Request {
    Request(Some(DecisionEndpointUri(config, decisionEndpointId)), Some("POST"),
            JsonBearerHeaders(token.rendering), Wrap("parameters", decisionData))
  }

  /** The request pingAZEvaluateDecisionRequest sends; a null token is concatenated as "null". */
  function PingAZRequest(endpoint: string, accessToken: Option<string>, decisionData: Json): Request {
    Request(Some(GovernanceUri(endpoint)), Some("POST"),
            JsonBearerHeaders(JavaText(accessToken)), Wrap("attributes", decisionData))
  }

  /**
   * Reading the response: an interrupted wait and a body that is not JSON become
   * NodeProcessException; any status with a JSON body is returned as it is.
   */
  function ReadResponse(exchange: Exchange): (r: Result<Json, Thrown>)
    ensures r.Ok? <==> exchange.Received? && exchange.entity.json.Some?
    ensures r.Ok? ==> r.value == exchange.entity.json.value
    ensures r == Err(NodeProcess(WaitInterrupted)) <==> exchange.Interrupted?
    ensures r.Err? ==> r.error.NodeProcess?
  {
    match exchange
    case Interrupted => Err(NodeProcess(WaitInterrupted))
    case Received(_, entity) =>
      match entity.json
      case None => Err(NodeProcess(BodyUnreadable))
      case Some(body) => Ok(body)
  }

  /** There is no status check: two responses that differ only in their status read the same. */
  lemma StatusNotChecked(status1: int, status2: int, entity: Entity)
    ensures ReadResponse(Received(status1, entity)) == ReadResponse(Received(status2, entity))
  {
  }

  /** The outcome of p1AZEvaluateDecisionRequest; a null configuration fails on its first use. */
  function P1AZResult(token: AccessToken, config: Option<PingOneConfig>, decisionEndpointId: string,
                      decisionData: Json, transport: Transport): Result<Json, Thrown>
  {
    match config
    case None => Err(NullPointer)
    case Some(c) =>
      if !transport.acceptsUri(DecisionEndpointUri(c, decisionEndpointId)) then Err(IllegalArgument)
      else ReadResponse(transport.send(P1AZRequest(c, token, decisionEndpointId, decisionData)))
  }

  /** The outcome of pingAZEvaluateDecisionRequest. */
  function PingAZResult(endpoint: string, accessToken: Option<string>, decisionData: Json,
                        transport: Transport): Result<Json, Thrown>
  {
    if !transport.acceptsUri(GovernanceUri(endpoint)) then Err(IllegalArgument)
    else ReadResponse(transport.send(PingAZRequest(endpoint, accessToken, decisionData)))
  }

  /**
   * Executes a PingOne Authorize decision. The thread's interrupt flag is set exactly when
   * the wait for the response was interrupted.
   */
  method P1AZEvaluateDecisionRequest(token: AccessToken, config: Option<PingOneConfig>, decisionEndpointId: string,
                                     decisionData: Json, transport: Transport, thread: CallingThread)
    returns (r: Result<Json, Thrown>)
    modifies thread
    ensures r == P1AZResult(token, config, decisionEndpointId, decisionData, transport)
    ensures thread.interrupted == (old(thread.interrupted) || r == Err(NodeProcess(WaitInterrupted)))
  {
    if config.None? {
      return Err(NullPointer);
    }
    var c := config.value;
    var request := NewRequest;
    var uri := DecisionEndpointUri(c, decisionEndpointId);
    if !transport.acceptsUri(uri) {
      return Err(IllegalArgument);
    }
    var parameters := Wrap("parameters", decisionData);
    request := request.(uri := Some(uri));
    request := request.(verb := Some("POST"));
    request := AddHeader(request, Header("Authorization", BearerPrefix + token.rendering));
    request := AddHeader(request, Header("Accept", "application/json"));
    request := AddHeader(request, Header("Content-Type", "application/json"));
    request := request.(entity := parameters);
    assert request == P1AZRequest(c, token, decisionEndpointId, decisionData);
    r := Send(request, transport, thread);
  }

  /** Executes a PingAuthorize decision; the interrupt flag behaves as for the PingOne request. */
  method PingAZEvaluateDecisionRequest(endpoint: string, accessToken: Option<string>, decisionData: Json,
                                       transport: Transport, thread: CallingThread)
    returns (r: Result<Json, Thrown>)
    modifies thread
    ensures r == PingAZResult(endpoint, accessToken, decisionData, transport)
    ensures thread.interrupted == (old(thread.interrupted) || r == Err(NodeProcess(WaitInterrupted)))
  {
    var request := NewRequest;
    var uri := GovernanceUri(endpoint);
    if !transport.acceptsUri(uri) {
      return Err(IllegalArgument);
    }
    var attributes := Wrap("attributes", decisionData);
    request := request.(uri := Some(uri));
    request := request.(verb := Some("POST"));
    request := AddHeader(request, Header("Authorization", BearerPrefix + JavaText(accessToken)));
    request := AddHeader(request, Header("Accept", "application/json"));
    request := AddHeader(request, Header("Content-Type", "application/json"));
    request := request.(entity := attributes);
    assert request == PingAZRequest(endpoint, accessToken, decisionData);
    r := Send(request, transport, thread);
  }

  /** The try block both requests share: send, wait, read the JSON body. */
  method Send(request: Request, transport: Transport, thread: CallingThread) returns (r: Result<Json, Thrown>)
    modifies thread
    ensures r == ReadResponse(transport.send(request))
    ensures thread.interrupted == (old(thread.interrupted) || r == Err(NodeProcess(WaitInterrupted)))
  {
    var exchange := transport.send(request);
    match exchange
    case Interrupted =>
      thread.interrupted := true;
      r := Err(NodeProcess(WaitInterrupted));
    case Received(_, entity) =>
      if entity.json.None? {
        r := Err(NodeProcess(BodyUnreadable));
      } else {
        r := Ok(entity.json.value);
      }
  }

  /** The governance-engine URI has the endpoint's '/'-segments and one more, governance-engine. */
  lemma GovernanceUriSegments(endpoint: string)
    ensures Segments(GovernanceUri(endpoint)) == Segments(endpoint) + ["governance-engine"]
  {
    assert GovernanceUri(endpoint) == endpoint + "/" + "governance-engine" by {
      assert GovernancePath == "/" + "governance-engine";
      Assoc(endpoint, "/", "governance-engine");
    }
    SegmentsOfJoinPlain(endpoint, "governance-engine");
  }

  /**
   * The PingAuthorize request: POST to the endpoint's governance-engine path, the payload under
   * "attributes" and nothing else, JSON both ways, and the token as the bearer credential.
   */
  lemma PingAZRequestShape(endpoint: string, accessToken: Option<string>, decisionData: Json)
    ensures var request := PingAZRequest(endpoint, accessToken, decisionData);
      && request.verb == Some("POST")
      && Segments(request.uri.value) == Segments(endpoint) + ["governance-engine"]
      && Get(request.entity, "attributes") == decisionData && request.entity.fields.Keys == {"attributes"}
      && BearerCredential(request.headers) == Some(JavaText(accessToken))
      && HeaderValue(request.headers, "Accept") == Some("application/json")
      && HeaderValue(request.headers, "Content-Type") == Some("application/json")
  {
    GovernanceUriSegments(endpoint);
    WrapUnwrap("attributes", decisionData);
    JsonBearerHeadersRoundTrip(JavaText(accessToken));
  }

  /**
   * The PingOne request: POST to the environment's decision endpoint, the payload under
   * "parameters" and nothing else, JSON both ways, and the token's rendering as the bearer credential.
   */
  lemma P1AZRequestShape(config: PingOneConfig, token: AccessToken, decisionEndpointId: string, decisionData: Json)
    requires '/' !in config.domainSuffix && '/' !in config.environmentId && '/' !in decisionEndpointId
    ensures var request := P1AZRequest(config, token, decisionEndpointId, decisionData);
      && request.verb == Some("POST")
      && |Segments(request.uri.value)| == 8
      && Segments(request.uri.value)[5] == config.environmentId
      && Segments(request.uri.value)[7] == decisionEndpointId
      && Get(request.entity, "parameters") == decisionData && request.entity.fields.Keys == {"parameters"}
      && BearerCredential(request.headers) == Some(token.rendering)
  {
    DecisionEndpointUriSegments(config, decisionEndpointId);
    WrapUnwrap("parameters", decisionData);
    JsonBearerHeadersRoundTrip(token.rendering);
  }
}
