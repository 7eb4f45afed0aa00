/**
 * PingAuthorizeService: a PingAuthorize decision client that, unlike AuthorizeClient, checks
 * the response status and reports every failure as PingAuthorizeServiceException.
 */
module PingAuthorizeService {
  import opened Results
  import opened Exceptions
  import opened JsonValues
  import opened Http
  import AuthorizeClient

  const BearerName := "Bearer"

  /** The request the service sends: POST, the payload under "attributes", one Authorization header. */
  function ServiceRequest(endpoint: string, accessToken: string, decisionData: Json): Request {
    Request(Some(AuthorizeClient.GovernanceUri(endpoint)), Some("POST"),
            [Header("Authorization", BearerName + " " + accessToken)], Wrap("attributes", decisionData))
  }

  /**
   * The status branch: 201 or 200 returns the JSON body; any other status is rejected with the
   * status and the body text; an interrupted wait or an unreadable body is a service failure.
   */
  function Classify(exchange: Exchange): (r: Result<Json, Thrown>)
    ensures r.Ok? <==> exchange.Received? && exchange.status in {200, 201} && exchange.entity.json.Some?
    ensures r.Ok? ==> r.value == exchange.entity.json.value
    ensures (r.Err? && r.error.ServiceRejected?) <==> exchange.Received? && exchange.status !in {200, 201}
    ensures r.Err? && r.error.ServiceRejected? ==>
      r.error.status == exchange.status && r.error.body == exchange.entity.text
    ensures r.Err? ==> r.error.ServiceRejected? || r.error.ServiceFailure?
  {
    match exchange
    case Interrupted => Err(ServiceFailure(ServiceInterrupted))
    case Received(status, entity) =>
      if status == 201 || status == 200 then
        (match entity.json
         case None => Err(ServiceFailure(ServiceIo))
         case Some(body) => Ok(body))
      else
        Err(ServiceRejected(status, entity.text))
  }

  /**
   * The outcome of pingAZEvaluateDecisionRequest. URI.create runs before the try block, so a
   * malformed endpoint escapes as IllegalArgumentException, unwrapped.
   */
  function ServiceResult(endpoint: string, accessToken: string, decisionData: Json, transport: Transport): Result<Json, Thrown> {
    if !transport.acceptsUri(AuthorizeClient.GovernanceUri(endpoint)) then Err(IllegalArgument)
    else if !transport.acceptsBearer(accessToken) then Err(ServiceFailure(MalformedHeader))
    else Classify(transport.send(ServiceRequest(endpoint, accessToken, decisionData)))
  }

  /**
   * Sends the decision request. The method has no thread in its frame: an interrupted wait is
   * reported without restoring the interrupt flag.
   */
  method PingAZEvaluateDecisionRequest(endpoint: string, accessToken: string, decisionData: Json, transport: Transport)
    returns (r: Result<Json, Thrown>)
    ensures r == ServiceResult(endpoint, accessToken, decisionData, transport)
    ensures r.Ok? ==> transport.send(ServiceRequest(endpoint, accessToken, decisionData)).status in {200, 201}
  {
    var uri := AuthorizeClient.GovernanceUri(endpoint);
    if !transport.acceptsUri(uri) {
      return Err(IllegalArgument);
    }
    var body := Wrap("attributes", decisionData);
    var request := NewRequest.(uri := Some(uri)).(verb := Some("POST"));
    request := request.(entity := body);
    var headerAdded;
    request, headerAdded := AddAuthorizationHeader(request, accessToken, transport);
    if !headerAdded {
      return Err(ServiceFailure(MalformedHeader));
    }
    assert BearerName + " " + accessToken == "Bearer " + accessToken;
    assert request == ServiceRequest(endpoint, accessToken, decisionData);
    var exchange := transport.send(request);
    if exchange.Interrupted? {
      r := Err(ServiceFailure(ServiceInterrupted));
    } else if exchange.status == 201 || exchange.status == 200 {
      if exchange.entity.json.None? {
        r := Err(ServiceFailure(ServiceIo));
      } else {
        r := Ok(exchange.entity.json.value);
      }
    } else {
      r := Err(ServiceRejected(exchange.status, exchange.entity.text));
    }
  }

  /**
   * addAuthorizationHeader: appends an Authorization header whose raw value is "Bearer " and
   * the token, or fails with MalformedHeaderException, leaving the request as it was.
   */
  method AddAuthorizationHeader(request: Request, accessToken: string, transport: Transport)
    returns (result: Request, added: bool)
    ensures added == transport.acceptsBearer(accessToken)
    ensures added ==> result == AddHeader(request, Header("Authorization", "Bearer " + accessToken))
    ensures !added ==> result == request
  {
    if !transport.acceptsBearer(accessToken) {
      return request, false;
    }
    assert BearerName + " " == "Bearer ";
    result := AddHeader(request, Header("Authorization", BearerName + " " + accessToken));
    added := true;
  }

  /** A server reads the token back from the service's one header, and finds no Accept header. */
  lemma ServiceRequestCredential(endpoint: string, accessToken: string, decisionData: Json)
    ensures BearerCredential(ServiceRequest(endpoint, accessToken, decisionData).headers) == Some(accessToken)
    ensures HeaderValue(ServiceRequest(endpoint, accessToken, decisionData).headers, "Accept") == None
  {
    var v := BearerName + " " + accessToken;
    assert BearerName + " " == BearerPrefix;
    assert v[..|BearerPrefix|] == BearerPrefix && v[|BearerPrefix|..] == accessToken;
    assert "Accept"[1] != "Authorization"[1];
  }

  /**
   * Against AuthorizeClient's PingAuthorize request: the same URI, body and bearer credential;
   * the service adds no Accept or Content-Type header of its own.
   */
  lemma AgreesWithAuthorizeClient(endpoint: string, accessToken: string, decisionData: Json)
    ensures var mine := ServiceRequest(endpoint, accessToken, decisionData);
      var theirs := AuthorizeClient.PingAZRequest(endpoint, Some(accessToken), decisionData);
      && mine.uri == theirs.uri && mine.verb == theirs.verb && mine.entity == theirs.entity
      && BearerCredential(mine.headers) == BearerCredential(theirs.headers) == Some(accessToken)
      && HeaderValue(mine.headers, "Accept") == None
  {
    ServiceRequestCredential(endpoint, accessToken, decisionData);
    JsonBearerHeadersRoundTrip(accessToken);
  }
}
