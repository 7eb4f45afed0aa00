/**
 * PingAuthorizeNode: reads the access token and the configured attributes from node state,
 * asks AuthorizeClient for a PingAuthorize decision, stores the raw response, and goes to
 * the first statement's code when it is configured, otherwise to the outcome of the decision.
 */
module PingAuthorizeNode {
  import opened Results
  import opened Exceptions
  import opened JsonValues
  import opened Http
  import opened Tree
  import opened Outcomes
  import AuthorizeClient

  /** The node configuration, fixed for the node's lifetime. */
  datatype Config = Config(
    endpointUrl: string,
    accessTokenAttribute: string,
    attributeMap: seq<string>,
    statementCodes: seq<string>,
    useContinue: bool)

  const StatementCodesAttr := "statementCodes"
  const UseContinueAttr := "useContinue"
  const StatementsKey := "statements"

  function GetUseContinue(config: Config): (r: int)
    ensures r == 1 <==> config.useContinue
    ensures r == 0 <==> !config.useContinue
  {
    if config.useContinue then 1 else 0
  }

  /** get(accessTokenAttribute).asString(): a missing attribute fails on the null reference. */
  function ReadAccessToken(entry: Option<Json>): (r: Result<Option<string>, Thrown>)
    ensures entry.None? ==> r == Err(NullPointer)
    ensures entry == Some(JNull) ==> r == Ok(None)
    ensures forall s :: entry == Some(JString(s)) ==> r == Ok(Some(s))
    ensures entry.Some? && !entry.value.JNull? && !entry.value.JString? ==> r == Err(JsonValueError)
    ensures r.Ok? ==> entry == Some(if r.value.Some? then JString(r.value.value) else JNull)
  {
    match entry
    case None => Err(NullPointer)
    case Some(j) => AsString(j)
  }

  /** The value put for an attribute: what get finds, and null when it finds nothing. */
  function ValueOrNull(values: map<string, Json>, key: string): Json {
    if key in values then values[key] else JNull
  }

  /** The parameters object: one member per configured attribute. */
  function Parameters(attributeMap: seq<string>, values: map<string, Json>): map<string, Json> {
    map key | key in attributeMap :: ValueOrNull(values, key)
  }

  /** The loop that fills the parameters object from node state. */
  method CollectParameters(attributeMap: seq<string>, state: NodeState) returns (parameters: map<string, Json>)
    ensures parameters.Keys == set key | key in attributeMap
    ensures forall key :: key in parameters ==> parameters[key] == ValueOrNull(state.values, key)
    ensures parameters == Parameters(attributeMap, state.values)
  {
    parameters := map[];
    for i := 0 to |attributeMap|
      invariant parameters.Keys == set key | key in attributeMap[..i]
      invariant forall key :: key in parameters ==> parameters[key] == ValueOrNull(state.values, key)
    {
      var key := attributeMap[i];
      var entry := state.Get(key);
      parameters := parameters[key := if entry.Some? then entry.value else JNull];
      assert attributeMap[..i + 1] == attributeMap[..i] + [key];
    }
    assert attributeMap[..|attributeMap|] == attributeMap;
  }

  /** response.get("statements").get(0).get("code").asString(). */
  function StatementCode(response: Json): Result<Option<string>, Thrown> {
    AsString(Get(At(Get(response, StatementsKey), 0), "code"))
  }

  /**
   * The choice made once the response is in: a configured first-statement code wins;
   * otherwise the switch on the decision, where a null decision throws. Err is an exception
   * thrown inside the try block.
   */
  function Decide(response: Json, statementCodes: seq<string>): Result<string, Thrown> {
    match StatementCode(response)
    case Err(e) => Err(e)
    case Ok(code) =>
      if code.Some? && code.value in statementCodes then Ok(code.value)
      else
        match AsString(Get(response, "decision"))
        case Err(e) => Err(e)
        case Ok(None) => Err(NullPointer)
        case Ok(Some(decision)) => Ok(DecisionOutcome(decision))
  }

  function AfterCall(call: Result<Json, Thrown>, statementCodes: seq<string>, appender: string): Step {
    match call
    case Err(e) => Step(ClientErrorId, Diagnostics(appender, e))
    case Ok(response) =>
      match Decide(response, statementCodes)
      case Ok(outcome) => Step(outcome, map[DecisionKey := Value(response)])
      case Err(e) => Step(ClientErrorId, map[DecisionKey := Value(response)] + Diagnostics(appender, e))
  }

  /** process: one decision request and exactly one action. */
  method Process(config: Config, appender: string, state: NodeState, transport: Transport, thread: CallingThread)
    returns (r: Action)
    modifies state`transient, thread
    ensures var token := ReadAccessToken(state.Get(config.accessTokenAttribute));
      token.Err? ==>
        && r == Raised(token.error)
        && state.transient == old(state.transient)
        && thread.interrupted == old(thread.interrupted)
    ensures var token := ReadAccessToken(state.Get(config.accessTokenAttribute));
      token.Ok? ==>
        var call := AuthorizeClient.PingAZResult(config.endpointUrl, token.value,
                                                 JObject(Parameters(config.attributeMap, state.values)), transport);
        var step := AfterCall(call, config.statementCodes, appender);
        && r == GoTo(step.outcome)
        && state.transient == old(state.transient) + step.writes
        && thread.interrupted == (old(thread.interrupted) || call == Err(NodeProcess(WaitInterrupted)))
    ensures r.GoTo? ==> r.outcome in DecisionIds(config.statementCodes)
  {
    var token := ReadAccessToken(state.Get(config.accessTokenAttribute));
    if token.Err? {
      return Raised(token.error);
    }
    var parameters := CollectParameters(config.attributeMap, state);
    var call := AuthorizeClient.PingAZEvaluateDecisionRequest(config.endpointUrl, token.value, JObject(parameters),
                                                              transport, thread);
    var outcome := Conclude(call, config.statementCodes, appender, state);
    OutcomeIsDeclared(call, config.statementCodes, appender);
    r := GoTo(outcome);
  }

  /** The part of the try block after the client call, and its catch. */
  method Conclude(call: Result<Json, Thrown>, statementCodes: seq<string>, appender: string, state: NodeState)
    returns (outcome: string)
    modifies state`transient
    ensures var step := AfterCall(call, statementCodes, appender);
      outcome == step.outcome && state.transient == old(state.transient) + step.writes
  {
    if call.Err? {
      RecordException(state, appender, call.error);
      return ClientErrorId;
    }
    var response := call.value;
    state.PutTransient(DecisionKey, Value(response));
    outcome := Inspect(response, statementCodes, appender, state);
  }

  /** The inspection of a stored response: the statement code, then the decision; a throw is caught. */
  method Inspect(response: Json, statementCodes: seq<string>, appender: string, state: NodeState)
    returns (outcome: string)
    modifies state`transient
    ensures Decide(response, statementCodes).Ok? ==>
      outcome == Decide(response, statementCodes).value && state.transient == old(state.transient)
    ensures Decide(response, statementCodes).Err? ==>
      outcome == ClientErrorId
      && state.transient == old(state.transient) + Diagnostics(appender, Decide(response, statementCodes).error)
  {
    var code := StatementCode(response);
    if code.Err? {
      RecordException(state, appender, code.error);
      return ClientErrorId;
    }
    if code.value.Some? && code.value.value in statementCodes {
      return code.value.value;
    }
    var decision := AsString(Get(response, "decision"));
    if decision.Err? {
      RecordException(state, appender, decision.error);
      return ClientErrorId;
    }
    if decision.value.None? {
      RecordException(state, appender, NullPointer);
      return ClientErrorId;
    }
    outcome := DecisionOutcome(decision.value.value);
  }

  /** getInputs: the access-token attribute, required, then every mapped attribute, optional, in order. */
  method GetInputs(config: Config) returns (inputs: seq<InputState>)
    ensures |inputs| == |config.attributeMap| + 1
    ensures inputs[0] == InputState(config.accessTokenAttribute, true)
    ensures forall i :: 0 <= i < |config.attributeMap| ==> inputs[i + 1] == InputState(config.attributeMap[i], false)
  {
    inputs := [InputState(config.accessTokenAttribute, true)];
    for i := 0 to |config.attributeMap|
      invariant |inputs| == i + 1
      invariant inputs[0] == InputState(config.accessTokenAttribute, true)
      invariant forall j :: 0 <= j < i ==> inputs[j + 1] == InputState(config.attributeMap[j], false)
    {
      inputs := inputs + [InputState(config.attributeMap[i], false)];
    }
  }

  /** getOutputs: the node declares one output, the key it stores the decision response under. */
  function GetOutputs(): (outputs: seq<OutputState>)
    ensures |outputs| == 1 && outputs[0].name == DecisionKey
  {
    [OutputState(DecisionKey)]
  }

  /** The outcome list getOutcomes returns, or the exception it throws. */
  function OutcomesFor(attributes: Json, render: Json -> string, bundle: string -> string)
    : Result<seq<OutcomeDecl>, Thrown>
  {
    if Contains(render(Get(attributes, UseContinueAttr)), "true") then Ok(ContinueOutcomes(bundle))
    else if attributes == JNull then Ok(DecisionOutcomes([], bundle))
    else
      match RequiredStringList(Get(attributes, StatementCodesAttr))
      case Ok(codes) => Ok(DecisionOutcomes(codes, bundle))
      case Err(e) => Err(e)
  }

  /**
   * OutcomeProvider.getOutcomes: continue mode when the rendering of the useContinue attribute
   * contains "true"; otherwise the configured statement codes, which must be present as a list
   * of strings unless the node attributes are null.
   */
  method GetOutcomes(attributes: Json, render: Json -> string, bundle: string -> string)
    returns (r: Result<seq<OutcomeDecl>, Thrown>)
    ensures r == OutcomesFor(attributes, render, bundle)
  {
    var useContinue := render(Get(attributes, UseContinueAttr));
    if Contains(useContinue, "true") {
      var outcomes := BuildOutcomes(true, [], bundle);
      return Ok(outcomes);
    }
    var codes := [];
    if attributes != JNull {
      var list := RequiredStringList(Get(attributes, StatementCodesAttr));
      if list.Err? {
        return Err(list.error);
      }
      codes := list.value;
    }
    var outcomes := BuildOutcomes(false, codes, bundle);
    r := Ok(outcomes);
  }

  /** A first statement whose code is configured decides the outcome, whatever the decision says. */
  lemma ConfiguredCodeWins(fields: map<string, Json>, first: map<string, Json>, others: seq<Json>,
                           code: string, statementCodes: seq<string>)
    requires fields[StatementsKey := JArray([JObject(first)] + others)] == fields
    requires first["code" := JString(code)] == first
    requires code in statementCodes
    ensures Decide(JObject(fields), statementCodes) == Ok(code)
  {
    assert StatementsKey in fields && "code" in first;
  }

  /** Only the first statement is looked at: the statements after it never change the outcome. */
  lemma OnlyFirstStatementCounts(fields: map<string, Json>, first: Json, others1: seq<Json>, others2: seq<Json>,
                                 statementCodes: seq<string>)
    ensures Decide(JObject(fields[StatementsKey := JArray([first] + others1)]), statementCodes)
         == Decide(JObject(fields[StatementsKey := JArray([first] + others2)]), statementCodes)
  {
  }

  /**
   * Without statements (none, or an empty list) the decision alone decides: a decision text
   * through the switch, a missing or null decision by the exception the switch throws.
   */
  lemma NoStatementsMeansDecision(fields: map<string, Json>, statementCodes: seq<string>)
    requires StatementsKey !in fields || fields[StatementsKey] == JArray([])
    ensures forall decision :: Get(JObject(fields), "decision") == JString(decision) ==>
      Decide(JObject(fields), statementCodes) == Ok(DecisionOutcome(decision))
    ensures Get(JObject(fields), "decision") == JNull ==> Decide(JObject(fields), statementCodes) == Err(NullPointer)
  {
  }

  /**
   * When the first statement yields no code (no statements, no code member, a null code) or a
   * code that is not configured, the decision decides: a decision text through the switch, a
   * missing or null decision by the NullPointerException the switch throws, and any other
   * decision value by the exception asString throws.
   */
  lemma UnconfiguredCodeMeansDecision(response: Json, statementCodes: seq<string>)
    requires StatementCode(response).Ok?
    requires StatementCode(response).value.None? || StatementCode(response).value.value !in statementCodes
    ensures forall decision :: Get(response, "decision") == JString(decision) ==>
      Decide(response, statementCodes) == Ok(DecisionOutcome(decision))
    ensures Get(response, "decision") == JNull ==> Decide(response, statementCodes) == Err(NullPointer)
    ensures !Get(response, "decision").JString? && !Get(response, "decision").JNull? ==>
      Decide(response, statementCodes) == Err(JsonValueError)
  {
  }

  /** A first-statement code that is neither a string nor null throws before the decision is read. */
  lemma NonStringCodeThrows(response: Json, statementCodes: seq<string>)
    requires StatementCode(response).Err?
    ensures Decide(response, statementCodes) == Err(JsonValueError)
  {
  }

  /** Whatever the response, an outcome chosen without an exception is one the catalog declares outside continue mode. */
  lemma DecidedOutcomeIsDeclared(response: Json, statementCodes: seq<string>)
    ensures Decide(response, statementCodes).Ok? ==> Decide(response, statementCodes).value in DecisionIds(statementCodes)
  {
  }

  /**
   * Every exception caught in the try block goes to clientError and leaves exactly the two
   * diagnostic entries; the raw response, once received, is stored before it is inspected.
   */
  lemma CaughtExceptionsGoToClientError(call: Result<Json, Thrown>, statementCodes: seq<string>, appender: string)
    ensures var step := AfterCall(call, statementCodes, appender);
      && (call.Err? ==> step.outcome == ClientErrorId
                        && step.writes.Keys == {ExceptionKey(appender), StackTraceKey(appender)})
      && (call.Ok? ==> step.writes[DecisionKey] == Value(call.value))
      && (call.Ok? && Decide(call.value, statementCodes).Err? ==>
            step.outcome == ClientErrorId
            && step.writes.Keys == {DecisionKey, ExceptionKey(appender), StackTraceKey(appender)})
      && (call.Ok? && Decide(call.value, statementCodes).Ok? ==>
            step.outcome == Decide(call.value, statementCodes).value && step.writes.Keys == {DecisionKey})
  {
    DiagnosticKeysDistinct(appender, if call.Err? then call.error else NullPointer);
  }

  /** The outcome of every call is declared by the catalog outside continue mode. */
  lemma OutcomeIsDeclared(call: Result<Json, Thrown>, statementCodes: seq<string>, appender: string)
    ensures AfterCall(call, statementCodes, appender).outcome in DecisionIds(statementCodes)
  {
    if call.Ok? {
      DecidedOutcomeIsDeclared(call.value, statementCodes);
    }
  }

  /**
   * process never consults continue mode and never goes to continue: unless a configured code
   * is itself "continue", no response and no exception leads there.
   */
  lemma ProcessNeverContinues(call: Result<Json, Thrown>, statementCodes: seq<string>, appender: string)
    requires ContinueId !in statementCodes
    ensures AfterCall(call, statementCodes, appender).outcome != ContinueId
  {
    OutcomeIsDeclared(call, statementCodes, appender);
  }
}
