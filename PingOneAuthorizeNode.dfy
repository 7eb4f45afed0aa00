/**
 * PingOneAuthorizeNode: renders the configured attributes of node state as text, asks
 * PingOneAuthorizeClient for a PingOne Authorize decision, stores the raw response, and goes
 * to the first statement's rendering when it is a configured statement, otherwise to the
 * outcome of the decision's rendering. Every exception inside its try block ends in clientError.
 *
 * `render` stands for JsonValue.toString(): the model keeps it a parameter, and the lemmas at
 * the end say what follows for a rendering that quotes strings and for one that does not.
 */
module PingOneAuthorizeNode {
  import opened Results
  import opened Exceptions
  import opened JsonValues
  import opened Http
  import opened PingOne
  import opened Tree
  import opened Outcomes
  import PingOneAuthorizeClient
  import PingAuthorizeNode

  datatype FlowType = PAZ | P1AZ

  /** The node configuration, fixed for the node's lifetime. */
  datatype Config = Config(
    flowType: FlowType,
    endpointUrl: string,
    configName: string,
    decisionEndpointId: string,
    attributeMap: seq<string>,
    statements: seq<string>,
    useContinue: bool)

  const StatementsAttr := "statements"
  const UseContinueAttr := "useContinue"

  /** getFlowType: only PAZ names the PAZ flow; P1AZ and a null argument (None) both give "P1AZ". */
  function GetFlowType(flowType: Option<FlowType>): (r: string)
    ensures r == "PAZ" <==> flowType == Some(PAZ)
    ensures r == "P1AZ" <==> flowType != Some(PAZ)
  {
    assert |"PAZ"| != |"P1AZ"|;
    if flowType == Some(PAZ) then "PAZ" else "P1AZ"
  }

  function GetUseContinue(config: Config): (r: int)
    ensures r == 1 <==> config.useContinue
    ensures r == 0 <==> !config.useContinue
  {
    if config.useContinue then 1 else 0
  }

  /** String.valueOf(get(key)): "null" for a missing entry, the rendering otherwise. */
  function ParameterText(entry: Option<Json>, render: Json -> string): string {
    match entry
    case None => "null"
    case Some(j) => render(j)
  }

  /** The parameters map: one text per configured attribute. */
  function RenderedParameters(attributeMap: seq<string>, values: map<string, Json>, render: Json -> string)
    : map<string, string>
  {
    map key | key in attributeMap :: ParameterText(if key in values then Some(values[key]) else None, render)
  }

  /** JsonValue.json of a map of texts: an object of strings. */
  function TextObject(m: map<string, string>): (r: Json)
    ensures r.JObject? && r.fields.Keys == m.Keys
    ensures forall key :: key in m ==> r.fields[key] == JString(m[key])
  {
    JObject(map key | key in m :: JString(m[key]))
  }

  /** The loop that fills the parameters map from node state. */
  method CollectParameters(attributeMap: seq<string>, state: NodeState, render: Json -> string)
    returns (parameters: map<string, string>)
    ensures parameters.Keys == set key | key in attributeMap
    ensures forall key :: key in parameters ==> parameters[key] == ParameterText(state.Get(key), render)
    ensures parameters == RenderedParameters(attributeMap, state.values, render)
  {
    parameters := map[];
    for i := 0 to |attributeMap|
      invariant parameters.Keys == set key | key in attributeMap[..i]
      invariant forall key :: key in parameters ==> parameters[key] == ParameterText(state.Get(key), render)
    {
      var key := attributeMap[i];
      parameters := parameters[key := ParameterText(state.Get(key), render)];
      assert attributeMap[..i + 1] == attributeMap[..i] + [key];
    }
    assert attributeMap[..|attributeMap|] == attributeMap;
  }

  /** The rendering of the first statement, and of the decision, choose the outcome; nothing here throws. */
  function Decide(response: Json, statements: seq<string>, render: Json -> string): string {
    var statement := render(At(Get(response, StatementsAttr), 0));
    if statement in statements then statement
    else DecisionOutcome(render(Get(response, "decision")))
  }

  /** The outcome and the transient entries written once token acquisition and the client call have returned or thrown. */
  function AfterCall(call: Result<Json, Thrown>, statements: seq<string>, appender: string, render: Json -> string): Step {
    match call
    case Err(e) => Step(ClientErrorId, Diagnostics(appender, e))
    case Ok(response) => Step(Decide(response, statements, render), map[DecisionKey := Value(response)])
  }

  /**
   * Token acquisition and the client call; `tokenFor` stands for the token utility, and
   * `sharedConfig` is the PingOne configuration looked up by name (None when there is none).
   */
  function CallResult(config: Config, sharedConfig: Option<PingOneConfig>,
                      tokenFor: Option<PingOneConfig> -> Result<AccessToken, Thrown>,
                      parameters: map<string, string>, transport: Transport): Result<Json, Thrown>
  {
    match tokenFor(sharedConfig)
    case Err(e) => Err(e)
    case Ok(token) =>
      PingOneAuthorizeClient.EvaluationResult(token, sharedConfig, config.decisionEndpointId,
                                              TextObject(parameters), transport)
  }

  /** process: always goes to an outcome; exceptions inside the try block end in clientError. */
  method Process(config: Config, sharedConfig: Option<PingOneConfig>, appender: string, render: Json -> string,
                 tokenFor: Option<PingOneConfig> -> Result<AccessToken, Thrown>,
                 state: NodeState, transport: Transport, thread: CallingThread)
    returns (r: Action)
    modifies state`transient, thread
    ensures var call := CallResult(config, sharedConfig, tokenFor,
                                   RenderedParameters(config.attributeMap, state.values, render), transport);
      var step := AfterCall(call, config.statements, appender, render);
      && r == GoTo(step.outcome)
      && state.transient == old(state.transient) + step.writes
      && thread.interrupted == (old(thread.interrupted)
                                || (tokenFor(sharedConfig).Ok? && call == Err(NodeProcess(WaitInterrupted))))
    ensures r.GoTo? && r.outcome in DecisionIds(config.statements)
  {
    var parameters := CollectParameters(config.attributeMap, state, render);
    var call: Result<Json, Thrown>;
    var token := tokenFor(sharedConfig);
    if token.Err? {
      call := Err(token.error);
    } else {
      call := PingOneAuthorizeClient.EvaluateDecisionRequest(token.value, sharedConfig, config.decisionEndpointId,
                                                             TextObject(parameters), transport, thread);
    }
    var outcome := Conclude(call, config.statements, appender, render, state);
    OutcomeIsDeclared(call, config.statements, appender, render);
    r := GoTo(outcome);
  }

  /** The part of the try block after the client call, and its catch. */
  method Conclude(call: Result<Json, Thrown>, statements: seq<string>, appender: string, render: Json -> string,
                  state: NodeState)
    returns (outcome: string)
    modifies state`transient
    ensures var step := AfterCall(call, statements, appender, render);
      outcome == step.outcome && state.transient == old(state.transient) + step.writes
  {
    if call.Err? {
      RecordException(state, appender, call.error);
      return ClientErrorId;
    }
    var response := call.value;
    state.PutTransient(DecisionKey, Value(response));
    var statement := render(At(Get(response, StatementsAttr), 0));
    if statement in statements {
      return statement;
    }
    var decision := render(Get(response, "decision"));
    outcome := DecisionOutcome(decision);
  }

  /** The outcome list getOutcomes returns, or the exception it throws. */
  function OutcomesFor(attributes: Json, render: Json -> string, bundle: string -> string)
    : Result<seq<OutcomeDecl>, Thrown>
  {
    if render(Get(attributes, UseContinueAttr)) == "true" then Ok(ContinueOutcomes(bundle))
    else if attributes == JNull then Ok(DecisionOutcomes([], bundle))
    else
      match RequiredStringList(Get(attributes, StatementsAttr))
      case Ok(statements) => Ok(DecisionOutcomes(statements, bundle))
      case Err(e) => Err(e)
  }

  /**
   * OutcomeProvider.getOutcomes: continue mode only when the rendering of the useContinue
   * attribute is exactly "true"; otherwise the configured statements, which must be present as
   * a list of strings unless the node attributes are null.
   */
  method GetOutcomes(attributes: Json, render: Json -> string, bundle: string -> string)
    returns (r: Result<seq<OutcomeDecl>, Thrown>)
    ensures r == OutcomesFor(attributes, render, bundle)
  {
    var useContinue := render(Get(attributes, UseContinueAttr));
    if useContinue == "true" {
      var outcomes := BuildOutcomes(true, [], bundle);
      return Ok(outcomes);
    }
    var statements := [];
    if attributes != JNull {
      var list := RequiredStringList(Get(attributes, StatementsAttr));
      if list.Err? {
        return Err(list.error);
      }
      statements := list.value;
    }
    var outcomes := BuildOutcomes(false, statements, bundle);
    r := Ok(outcomes);
  }

  /** The outcome of every call is declared by the catalog outside continue mode. */
  lemma OutcomeIsDeclared(call: Result<Json, Thrown>, statements: seq<string>, appender: string, render: Json -> string)
    ensures AfterCall(call, statements, appender, render).outcome in DecisionIds(statements)
  {
  }

  /**
   * Every failure of token acquisition or of the call goes to clientError with the two
   * diagnostic entries; a response, once received, is stored and never leads to an exception.
   */
  lemma FailuresGoToClientError(call: Result<Json, Thrown>, statements: seq<string>, appender: string,
                                render: Json -> string)
    ensures var step := AfterCall(call, statements, appender, render);
      && (call.Err? ==> step.outcome == ClientErrorId
                        && step.writes.Keys == {ExceptionKey(appender), StackTraceKey(appender)})
      && (call.Ok? ==> step.writes == map[DecisionKey := Value(call.value)])
  {
    DiagnosticKeysDistinct(appender, if call.Err? then call.error else NullPointer);
  }

  /** A configured statement rendering wins over the decision. */
  lemma ConfiguredStatementWins(response: Json, statements: seq<string>, render: Json -> string)
    requires render(At(Get(response, StatementsAttr), 0)) in statements
    ensures Decide(response, statements, render) == render(At(Get(response, StatementsAttr), 0))
  {
  }

  /** A rendering that writes strings between double quotes, with nothing escaped. */
  ghost predicate QuotesStrings(render: Json -> string) {
    forall s :: render(JString(s)) == "\"" + s + "\""
  }

  /** A rendering whose every string starts with a double quote, as a JSON writer's does, escaping or not. */
  ghost predicate OpensWithQuote(render: Json -> string) {
    forall s :: |render(JString(s))| > 0 && render(JString(s))[0] == '"'
  }

  /** A rendering that writes strings as their bare text. */
  ghost predicate BareStrings(render: Json -> string) {
    forall s :: render(JString(s)) == s
  }

  /**
   * With a quoting rendering, a string decision never reaches permit, deny or indeterminate:
   * the rendering of "PERMIT" is "\"PERMIT\"", which the switch sends to its default branch.
   */
  lemma QuotedDecisionIsClientError(render: Json -> string, statements: seq<string>, response: Json, decision: string)
    requires OpensWithQuote(render)
    requires render(At(Get(response, StatementsAttr), 0)) !in statements
    requires Get(response, "decision") == JString(decision)
    ensures Decide(response, statements, render) == ClientErrorId
  {
    var shown := render(JString(decision));
    assert |shown| > 0 && shown[0] == '"';
    assert shown !in {"PERMIT", "DENY", "INDETERMINATE"} by {
      assert "PERMIT"[0] != '"' && "DENY"[0] != '"' && "INDETERMINATE"[0] != '"';
    }
  }

  /** With a bare rendering, a string decision reaches its outcome as in PingAuthorizeNode. */
  lemma BareDecisionMapsVerdicts(render: Json -> string, statements: seq<string>, response: Json, decision: string)
    requires BareStrings(render)
    requires render(At(Get(response, StatementsAttr), 0)) !in statements
    requires Get(response, "decision") == JString(decision)
    ensures Decide(response, statements, render) == DecisionOutcome(decision)
  {
    assert render(JString(decision)) == decision;
  }

  /** With a quoting rendering, a string attribute is sent with its quotes, and a missing one as "null". */
  lemma ParametersAreQuoted(render: Json -> string, attributeMap: seq<string>, values: map<string, Json>,
                            key: string, text: string)
    requires QuotesStrings(render)
    requires key in attributeMap
    ensures key in values && values[key] == JString(text) ==>
      TextObject(RenderedParameters(attributeMap, values, render)).fields[key] == JString("\"" + text + "\"")
    ensures key !in values ==>
      TextObject(RenderedParameters(attributeMap, values, render)).fields[key] == JString("null")
  {
  }

  /**
   * The two providers on the same node attributes: a useContinue rendering of exactly "true"
   * puts both in continue mode, but a rendering that only contains it, such as the quoted
   * "\"true\"", puts PingAuthorizeNode in continue mode and this node out of it.
   */
  lemma ContinueTestsCompared(attributes: Json, render: Json -> string, bundle: string -> string)
    ensures render(Get(attributes, UseContinueAttr)) == "true" ==>
      && OutcomesFor(attributes, render, bundle) == Ok(ContinueOutcomes(bundle))
      && PingAuthorizeNode.OutcomesFor(attributes, render, bundle) == Ok(ContinueOutcomes(bundle))
    ensures render(Get(attributes, UseContinueAttr)) == "\"true\"" ==>
      && PingAuthorizeNode.OutcomesFor(attributes, render, bundle) == Ok(ContinueOutcomes(bundle))
      && OutcomesFor(attributes, render, bundle) != Ok(ContinueOutcomes(bundle))
  {
    assert "true"[..4] == "true";
    assert "\"true\""[1..][..4] == "true";
    ContinueCatalogIds(bundle);
    match RequiredStringList(Get(attributes, StatementsAttr))
    case Ok(statements) => DecisionCatalogIds(statements, bundle);
    case Err(_) =>
    DecisionCatalogIds([], bundle);
  }
}
