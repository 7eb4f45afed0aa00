/**
 * PingOneAuthorizeClient: the client PingOneAuthorizeNode calls. Same decision endpoint and
 * headers as AuthorizeClient's PingOne request, but the method is set to the empty text and
 * the payload is sent as it is, without a "parameters" wrapper.
 */
module PingOneAuthorizeClient {
  import opened Results
  import opened Exceptions
  import opened JsonValues
  import opened Http
  import opened PingOne
  import AuthorizeClient

  /** The request evaluateDecisionRequest sends. */
  function EvaluationRequest(config: PingOneConfig, token: AccessToken, decisionEndpointId: string, decisionData: Json): Request {
    Request(Some(DecisionEndpointUri(config, decisionEndpointId)), Some(""),
            JsonBearerHeaders(token.rendering), decisionData)
  }

  /** The outcome of evaluateDecisionRequest; a null configuration fails on its first use. */
  function EvaluationResult(token: AccessToken, config: Option<PingOneConfig>, decisionEndpointId: string,
                            decisionData: Json, transport: Transport): Result<Json, Thrown>
  {
    match config
    case None => Err(NullPointer)
    case Some(c) =>
      if !transport.acceptsUri(DecisionEndpointUri(c, decisionEndpointId)) then Err(IllegalArgument)
      else AuthorizeClient.ReadResponse(transport.send(EvaluationRequest(c, token, decisionEndpointId, decisionData)))
  }

  /**
   * Executes a PingOne Authorize decision. The thread's interrupt flag is set exactly when the
   * wait for the response was interrupted; the status is not checked.
   */
  method EvaluateDecisionRequest(token: AccessToken, config: Option<PingOneConfig>, decisionEndpointId: string,
                                 decisionData: Json, transport: Transport, thread: CallingThread)
    returns (r: Result<Json, Thrown>)
    modifies thread
    ensures r == EvaluationResult(token, config, decisionEndpointId, decisionData, transport)
    ensures thread.interrupted == (old(thread.interrupted) || r == Err(NodeProcess(WaitInterrupted)))
  {
    if config.None? {
      return Err(NullPointer);
    }
    var c := config.value;
    var request := NewRequest;
    var uri := DecisionEndpointUri(c, decisionEndpointId);
    if !transport.acceptsUri(uri) {
      return Err(IllegalArgument);
    }
    request := request.(uri := Some(uri));
    request := request.(verb := Some(""));
    request := AddHeader(request, Header("Authorization", BearerPrefix + token.rendering));
    request := AddHeader(request, Header("Accept", "application/json"));
    request := AddHeader(request, Header("Content-Type", "application/json"));
    request := request.(entity := decisionData);
    assert request == EvaluationRequest(c, token, decisionEndpointId, decisionData);
    r := AuthorizeClient.Send(request, transport, thread);
  }

  /**
   * Against AuthorizeClient's PingOne request: the same URI and the same three headers, but an
   * empty method instead of POST, and the payload itself where AuthorizeClient sends it wrapped.
   */
  lemma DiffersFromAuthorizeClient(config: PingOneConfig, token: AccessToken, decisionEndpointId: string, decisionData: Json)
    ensures var mine := EvaluationRequest(config, token, decisionEndpointId, decisionData);
      var theirs := AuthorizeClient.P1AZRequest(config, token, decisionEndpointId, decisionData);
      && mine.uri == theirs.uri
      && mine.headers == theirs.headers
      && mine.verb == Some("") && theirs.verb == Some("POST")
      && mine.entity == Get(theirs.entity, "parameters")
  {
    WrapUnwrap("parameters", decisionData);
  }

  /** The bearer credential a server reads is the token's rendering. */
  lemma EvaluationCarriesToken(config: PingOneConfig, token: AccessToken, decisionEndpointId: string, decisionData: Json)
    ensures BearerCredential(EvaluationRequest(config, token, decisionEndpointId, decisionData).headers) == Some(token.rendering)
  {
    JsonBearerHeadersRoundTrip(token.rendering);
  }
}
