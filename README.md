# PingAuthorize marketplace nodes: decisions and their outcomes

This project models the decision path of two authentication-tree nodes for ForgeRock AM, PingAuthorizeNode and PingOneAuthorizeNode, in Dafny, and proves properties of that model.

- **process.** Each node reads configured attributes from the node state and asks an authorization service for a decision. It stores the raw response as the transient `decision` entry. It then goes to exactly one outcome:
  - a configured statement code taken from the first statement, if there is one;
  - otherwise the outcome for the decision: `permit`, `deny`, `indeterminate` or `clientError`;
  - `clientError` after any exception inside its try block. The two diagnostic transient entries are written in that case.
- **getOutcomes.** The outcome provider declares the outcome list the host draws. It is either continue mode, or the three verdicts followed by the configured codes and `clientError`.
- **Clients.** Three classes build the HTTP requests and classify the responses:
  - AuthorizeClient, with a PingOne decision-endpoint request and a PingAuthorize governance-engine request;
  - PingOneAuthorizeClient;
  - PingAuthorizeService.

The model has one module per source class, plus shared modules:

- **JsonValues** covers the JSON values as the nodes read them. A missing member or index reads as the null node. `asString` and `required().asList(String.class)` have their own failure cases.
- **Http** covers requests, headers, and the transport. The transport is an oracle standing for URI syntax, bearer-token syntax and the network.
- **PingOne** covers the PingOne configuration and the decision-endpoint URI.
- **Tree** covers the node state as a class:
  - `values` is what `get` sees;
  - `transient` is what `putTransient` updates.
- **Outcomes** covers the outcome ids, the decision switch and the outcome catalog.

Methods mirror the source's step-by-step code:

- the parameter loops;
- the request built by setters and `addHeaders`;
- the list builder of `getOutcomes`;
- `putTransient`;
- the calling thread's interrupt flag.

Each method is proved against a function that states its result, and lemmas state what the source promises about those functions.

PingOneAuthorizeNode compares `toString()` renderings of JSON nodes, not their string values. That rendering is a parameter `render` of the model. Two lemmas spell out its consequences:

- `QuotedDecisionIsClientError`: with a rendering whose every string starts with a double quote, as JSON text does whatever it escapes, a response whose first statement does not match and whose decision is a string never reaches `permit`, `deny` or `indeterminate`.
- `ParametersAreQuoted`: string attributes are sent with their quotes. The sample body in the comment at src/main/java/org/forgerock/am/marketplace/pingoneauthorize/PingOneAuthorizeClient.java:78 shows exactly that.
- `BareDecisionMapsVerdicts`: with a rendering that writes bare text, the verdicts of such a response map as in PingAuthorizeNode.

## Model

| member | source | states |
|---|---|---|
| JsonValues.AsString | src/main/java/org/forgerock/am/marketplace/pingoneauthorize/PingAuthorizeNode.java:159 | asString yields null exactly for the null node and the text exactly for a string node; any other node throws JsonValueException |
| JsonValues.RequiredStringList | src/main/java/org/forgerock/am/marketplace/pingoneauthorize/PingAuthorizeNode.java:234-235 | required().asList(String.class) succeeds exactly on a list whose every entry is a string, and returns those strings in order; otherwise it throws |
| JsonValues.WrapUnwrap | src/main/java/org/forgerock/am/marketplace/pingoneauthorize/AuthorizeClient.java:79-80 | the one-member body wrapper gives back the payload under its key and has no other member |
| Http.HeaderValue | src/main/java/org/forgerock/am/marketplace/pingoneauthorize/AuthorizeClient.java:84-86 | the value found for a header name comes from the first header of that name, and one is found exactly when such a header exists |
| Http.JsonBearerHeadersRoundTrip | src/main/java/org/forgerock/am/marketplace/pingoneauthorize/AuthorizeClient.java:84-86 | from the three headers, a server reads back exactly the token after "Bearer ", and application/json for Accept and for Content-Type |
| PingOne.DecisionEndpointUriSegments | src/main/java/org/forgerock/am/marketplace/pingoneauthorize/AuthorizeClient.java:69-76 | the PingOne URI's '/'-segments are https:, "", api.pingone plus the domain suffix, v1, environments, the environment id, decisionEndpoints and the endpoint id, so both ids can be read back |
| Tree.NodeState.Get | src/main/java/org/forgerock/am/marketplace/pingoneauthorize/PingAuthorizeNode.java:139 | get finds the value stored under the key, and nothing when there is none |
| Tree.NodeState.PutTransient | src/main/java/org/forgerock/am/marketplace/pingoneauthorize/PingAuthorizeNode.java:156 | putTransient sets one transient entry and leaves all others as they were |
| Tree.RecordException | src/main/java/org/forgerock/am/marketplace/pingoneauthorize/PingAuthorizeNode.java:178-183 | the catch block adds the Exception and StackTrace entries for the caught exception to the transient state |
| Tree.DiagnosticKeysDistinct | src/main/java/org/forgerock/am/marketplace/pingoneauthorize/PingAuthorizeNode.java:181-182 | the two diagnostic keys differ from each other and from "decision", so a catch writes exactly two new entries |
| Outcomes.DecisionOutcome | src/main/java/org/forgerock/am/marketplace/pingoneauthorize/PingAuthorizeNode.java:166-176 | PERMIT, DENY and INDETERMINATE go to permit, deny and indeterminate, each if and only if; every other text goes to clientError |
| Outcomes.BuildOutcomes | src/main/java/org/forgerock/am/marketplace/pingoneauthorize/PingAuthorizeNode.java:220-243 | the list builder yields [continue, clientError] in continue mode, otherwise permit, deny, indeterminate, one entry per code in order, then clientError |
| Outcomes.ContinueCatalogIds | src/main/java/org/forgerock/am/marketplace/pingoneauthorize/PingAuthorizeNode.java:226-227 | in continue mode the ids are exactly continue and clientError, whatever the codes are |
| Outcomes.DecisionCatalogIds | src/main/java/org/forgerock/am/marketplace/pingoneauthorize/PingAuthorizeNode.java:228-241 | otherwise the ids are permit, deny, indeterminate, the codes in order, then clientError; each code's id and label are the code itself |
| Outcomes.DecisionCatalogLabels | src/main/java/org/forgerock/am/marketplace/pingoneauthorize/PingAuthorizeNode.java:229-241 | that catalog has four entries more than there are codes, and permit, deny, indeterminate and clientError take their labels from the bundle |
| Outcomes.CatalogsShareOnlyClientError | src/main/java/org/forgerock/am/marketplace/pingoneauthorize/PingAuthorizeNode.java:226-241 | when no code is "continue", clientError is the only id that both catalogs declare |
| AuthorizeClient.ReadResponse | src/main/java/org/forgerock/am/marketplace/pingoneauthorize/AuthorizeClient.java:92-98 | any status with a JSON body returns that body; an interrupted wait, and only that, becomes NodeProcessException(interrupted); every failure is a NodeProcessException |
| AuthorizeClient.StatusNotChecked | src/main/java/org/forgerock/am/marketplace/pingoneauthorize/AuthorizeClient.java:130-131 | two responses that differ only in status read the same |
| AuthorizeClient.GovernanceUriSegments | src/main/java/org/forgerock/am/marketplace/pingoneauthorize/AuthorizeClient.java:112-114 | the governance-engine URI has the endpoint's '/'-segments followed by one more, governance-engine |
| AuthorizeClient.Send | src/main/java/org/forgerock/am/marketplace/pingoneauthorize/AuthorizeClient.java:128-137 | the result is the response reading, and the thread's interrupt flag is set exactly when the wait was interrupted |
| AuthorizeClient.P1AZEvaluateDecisionRequest | src/main/java/org/forgerock/am/marketplace/pingoneauthorize/AuthorizeClient.java:61-100 | the request built step by step is the PingOne request: a null configuration throws NullPointerException and a URI that URI.create refuses throws IllegalArgumentException; the response and interrupt flag follow as for Send |
| AuthorizeClient.PingAZEvaluateDecisionRequest | src/main/java/org/forgerock/am/marketplace/pingoneauthorize/AuthorizeClient.java:105-138 | the request built step by step is the PingAuthorize request: a refused URI throws IllegalArgumentException; the response and interrupt flag follow as for Send |
| AuthorizeClient.PingAZRequestShape | src/main/java/org/forgerock/am/marketplace/pingoneauthorize/AuthorizeClient.java:112-125 | the PingAuthorize request is a POST to the endpoint's segments plus governance-engine, with only "attributes" in the body, the token as the bearer credential, and JSON both ways |
| AuthorizeClient.P1AZRequestShape | src/main/java/org/forgerock/am/marketplace/pingoneauthorize/AuthorizeClient.java:69-87 | the PingOne request is a POST whose URI carries the environment id and the endpoint id as segments 5 and 7, with only "parameters" in the body and the token as the bearer credential |
| PingOneAuthorizeClient.EvaluateDecisionRequest | src/main/java/org/forgerock/am/marketplace/pingoneauthorize/PingOneAuthorizeClient.java:61-109 | the request built step by step is the PingOne URI with the empty method, the three headers and the payload itself; a null configuration and a refused URI throw; the interrupt flag is set exactly on an interrupted wait |
| PingOneAuthorizeClient.DiffersFromAuthorizeClient | src/main/java/org/forgerock/am/marketplace/pingoneauthorize/PingOneAuthorizeClient.java:90-95 | against AuthorizeClient's PingOne request the URI and headers are equal, the method is "" instead of POST, and the entity is the payload that AuthorizeClient wraps under "parameters" |
| PingOneAuthorizeClient.EvaluationCarriesToken | src/main/java/org/forgerock/am/marketplace/pingoneauthorize/PingOneAuthorizeClient.java:92 | the bearer credential a server reads is the token's rendering |
| PingAuthorizeService.Classify | src/main/java/org/forgerock/am/marketplace/pingauthorize/PingAuthorizeService.java:75-85 | the body is returned if and only if the status is 200 or 201 and the body is JSON; any other status is rejected with that status and the body text; every failure is a PingAuthorizeServiceException |
| PingAuthorizeService.PingAZEvaluateDecisionRequest | src/main/java/org/forgerock/am/marketplace/pingauthorize/PingAuthorizeService.java:55-86 | a refused URI escapes as IllegalArgumentException, a refused bearer token is a service failure, otherwise the response is classified; a returned value implies status 200 or 201; the method has no thread in its frame, so no interrupt flag is restored |
| PingAuthorizeService.AddAuthorizationHeader | src/main/java/org/forgerock/am/marketplace/pingauthorize/PingAuthorizeService.java:95-100 | one Authorization header whose value is "Bearer " and the token is appended, or, when the token is refused, the request is left as it was |
| PingAuthorizeService.ServiceRequestCredential | src/main/java/org/forgerock/am/marketplace/pingauthorize/PingAuthorizeService.java:95-99 | a server reads the token back from the service's single Authorization header and finds no Accept header |
| PingAuthorizeService.AgreesWithAuthorizeClient | src/main/java/org/forgerock/am/marketplace/pingauthorize/PingAuthorizeService.java:62-74 | against AuthorizeClient's PingAuthorize request the URI, method, body and bearer credential are equal, and there is no Accept header |
| PingAuthorizeNode.GetUseContinue | src/main/java/org/forgerock/am/marketplace/pingoneauthorize/PingAuthorizeNode.java:65-71 | 1 if and only if continue mode is configured, 0 if and only if it is not |
| PingAuthorizeNode.ReadAccessToken | src/main/java/org/forgerock/am/marketplace/pingoneauthorize/PingAuthorizeNode.java:139 | a missing token attribute throws NullPointerException; a null node reads as null, a string node as its text, and any other node throws JsonValueException |
| PingAuthorizeNode.CollectParameters | src/main/java/org/forgerock/am/marketplace/pingoneauthorize/PingAuthorizeNode.java:143-146 | the parameters have one member per configured attribute, holding the node-state value or null |
| PingAuthorizeNode.Process | src/main/java/org/forgerock/am/marketplace/pingoneauthorize/PingAuthorizeNode.java:135-185 | a failing token read escapes and changes nothing; otherwise the outcome, the transient entries and the interrupt flag are those of the client call and the choice after it; every outcome reached is declared outside continue mode |
| PingAuthorizeNode.Conclude | src/main/java/org/forgerock/am/marketplace/pingoneauthorize/PingAuthorizeNode.java:156-184 | after the call the node stores the response, then picks the configured code or the decision; a caught exception gives clientError and the diagnostics |
| PingAuthorizeNode.Inspect | src/main/java/org/forgerock/am/marketplace/pingoneauthorize/PingAuthorizeNode.java:159-183 | when the inspection succeeds the outcome is the configured code or the decision's outcome and nothing more is written; when it throws the outcome is clientError and exactly the diagnostics for that exception are added |
| PingAuthorizeNode.GetInputs | src/main/java/org/forgerock/am/marketplace/pingoneauthorize/PingAuthorizeNode.java:188-198 | the access-token attribute comes first and is required, then every mapped attribute in order, and these are optional |
| PingAuthorizeNode.GetOutputs | src/main/java/org/forgerock/am/marketplace/pingoneauthorize/PingAuthorizeNode.java:201-205 | exactly one output, "decision" |
| Outcomes.Contains | src/main/java/org/forgerock/am/marketplace/pingoneauthorize/PingAuthorizeNode.java:226 | the test holds exactly when the text occurs in the string at some index |
| PingAuthorizeNode.GetOutcomes | src/main/java/org/forgerock/am/marketplace/pingoneauthorize/PingAuthorizeNode.java:216-244 | a useContinue rendering containing "true" gives the continue catalog; null attributes give the catalog without codes; otherwise statementCodes must be a list of strings, which is appended in order, and anything else throws |
| PingAuthorizeNode.ConfiguredCodeWins | src/main/java/org/forgerock/am/marketplace/pingoneauthorize/PingAuthorizeNode.java:159-163 | a first statement whose code is configured decides the outcome, whatever the decision says |
| PingAuthorizeNode.OnlyFirstStatementCounts | src/main/java/org/forgerock/am/marketplace/pingoneauthorize/PingAuthorizeNode.java:159 | statements after the first never change the outcome |
| PingAuthorizeNode.NoStatementsMeansDecision | src/main/java/org/forgerock/am/marketplace/pingoneauthorize/PingAuthorizeNode.java:159-176 | with no statements the decision text alone chooses the outcome, and a missing decision throws NullPointerException |
| PingAuthorizeNode.UnconfiguredCodeMeansDecision | src/main/java/org/forgerock/am/marketplace/pingoneauthorize/PingAuthorizeNode.java:159-176 | when the first statement gives no code (no statements, no code, a null code) or an unconfigured one, a decision text chooses its outcome, a missing or null decision throws NullPointerException and any other decision value throws the JSON value exception |
| PingAuthorizeNode.NonStringCodeThrows | src/main/java/org/forgerock/am/marketplace/pingoneauthorize/PingAuthorizeNode.java:159-160 | a first-statement code that is neither a string nor null throws the JSON value exception, whatever the decision |
| PingAuthorizeNode.DecidedOutcomeIsDeclared | src/main/java/org/forgerock/am/marketplace/pingoneauthorize/PingAuthorizeNode.java:161-176 | an outcome chosen without an exception is declared by the catalog outside continue mode |
| PingAuthorizeNode.CaughtExceptionsGoToClientError | src/main/java/org/forgerock/am/marketplace/pingoneauthorize/PingAuthorizeNode.java:156-183 | a failed call gives clientError and exactly the two diagnostics; a received response is stored as "decision"; a failed inspection adds exactly the two diagnostics to it |
| PingAuthorizeNode.OutcomeIsDeclared | src/main/java/org/forgerock/am/marketplace/pingoneauthorize/PingAuthorizeNode.java:148-184 | every outcome after the call, exception or not, is declared outside continue mode |
| PingAuthorizeNode.ProcessNeverContinues | src/main/java/org/forgerock/am/marketplace/pingoneauthorize/PingAuthorizeNode.java:148-184 | unless a configured code is itself "continue", no response and no caught exception takes process to continue |
| PingOneAuthorizeNode.GetFlowType | src/main/java/org/forgerock/am/marketplace/pingoneauthorize/PingOneAuthorizeNode.java:73-76 | "PAZ" if and only if the argument is PAZ; "P1AZ" for P1AZ and for a null argument |
| PingOneAuthorizeNode.GetUseContinue | src/main/java/org/forgerock/am/marketplace/pingoneauthorize/PingOneAuthorizeNode.java:78-84 | 1 if and only if continue mode is configured, 0 if and only if it is not |
| PingOneAuthorizeNode.TextObject | src/main/java/org/forgerock/am/marketplace/pingoneauthorize/PingOneAuthorizeNode.java:161 | JsonValue.json of the parameters map is an object with the same keys, each holding its text as a string |
| PingOneAuthorizeNode.CollectParameters | src/main/java/org/forgerock/am/marketplace/pingoneauthorize/PingOneAuthorizeNode.java:141-144 | one text per configured attribute: "null" for a missing one, the rendering otherwise |
| PingOneAuthorizeNode.Process | src/main/java/org/forgerock/am/marketplace/pingoneauthorize/PingOneAuthorizeNode.java:135-198 | the node always goes to an outcome declared outside continue mode; a token failure or a failed call gives clientError with the diagnostics; the interrupt flag is set only when the client's wait was interrupted |
| PingOneAuthorizeNode.Conclude | src/main/java/org/forgerock/am/marketplace/pingoneauthorize/PingOneAuthorizeNode.java:166-196 | after the call the node stores the response, then picks the statement rendering or the decision's outcome; a failed call gives clientError and the diagnostics |
| PingOneAuthorizeNode.GetOutcomes | src/main/java/org/forgerock/am/marketplace/pingoneauthorize/PingOneAuthorizeNode.java:209-234 | a useContinue rendering equal to "true" gives the continue catalog; null attributes give the catalog without statements; otherwise "statements" must be a list of strings, which is appended in order, and anything else throws |
| PingOneAuthorizeNode.OutcomeIsDeclared | src/main/java/org/forgerock/am/marketplace/pingoneauthorize/PingOneAuthorizeNode.java:166-196 | every outcome after the call is declared outside continue mode |
| PingOneAuthorizeNode.FailuresGoToClientError | src/main/java/org/forgerock/am/marketplace/pingoneauthorize/PingOneAuthorizeNode.java:152-196 | a failed token or call gives clientError and exactly the two diagnostics; a received response leaves only the "decision" entry and never leads to an exception |
| PingOneAuthorizeNode.ConfiguredStatementWins | src/main/java/org/forgerock/am/marketplace/pingoneauthorize/PingOneAuthorizeNode.java:168-174 | a configured statement rendering wins over the decision |
| PingOneAuthorizeNode.QuotedDecisionIsClientError | src/main/java/org/forgerock/am/marketplace/pingoneauthorize/PingOneAuthorizeNode.java:176-189 | with a rendering whose strings all open with a double quote, any response whose first statement rendering is not configured and whose decision is a string goes to clientError |
| PingOneAuthorizeNode.BareDecisionMapsVerdicts | src/main/java/org/forgerock/am/marketplace/pingoneauthorize/PingOneAuthorizeNode.java:176-189 | with a rendering that writes bare text, any response whose first statement rendering is not configured and whose decision is a string goes to that decision's outcome under the shared switch |
| PingOneAuthorizeNode.ParametersAreQuoted | src/main/java/org/forgerock/am/marketplace/pingoneauthorize/PingOneAuthorizeNode.java:141-144 | with a rendering that quotes strings, a string attribute is sent as its quoted text and a missing one as "null" |
| PingOneAuthorizeNode.ContinueTestsCompared | src/main/java/org/forgerock/am/marketplace/pingoneauthorize/PingOneAuthorizeNode.java:215-217 | on the same node attributes, a useContinue rendering of exactly "true" gives both providers the continue catalog; the quoted rendering "\"true\"" gives it to PingAuthorizeNode, whose test at src/main/java/org/forgerock/am/marketplace/pingoneauthorize/PingAuthorizeNode.java:223-227 is containment, and not to this node |

## Left out

- The network send, the HTTP client's creation and its shutdown listener are left out. The transport is an oracle with three parts: URI syntax, bearer-token syntax, and the exchange.
- A response whose body is not JSON is modelled as one kind of I/O failure.
- The PingOne token utility and the shared-configuration lookup are oracles: `tokenFor` and an optional configuration.
- PingAuthorizeService.PingAZEvaluateDecisionRequest: a null access token is not modelled. The token is a plain string, and what the header library does with a null BearerToken is not part of this model.
- A null AccessToken object is not modelled separately. Its rendering would be "null".
- Bundle labels are a function `bundle`. Locale selection is left out.
- Diagnostic entries record which exception they are about. The text is left out: timestamp, message and stack trace.
- Logging is left out.
- `get` on node state sees `values`, the state as it was when the node was entered. AM's layering of shared, transient and secure state is not modelled.
- Null entries in the configured attribute or code lists are not modelled. Neither is a null configuration list.
- JsonValue.toString() is the parameter `render`. Its actual text format belongs to the JSON library, which is not part of this model.
- The copy and `put("parameters", …)` at src/main/java/org/forgerock/am/marketplace/pingoneauthorize/PingOneAuthorizeClient.java:85-86 are not modelled. Their effect depends on the JSON library's aliasing, and their result is not the entity sent.
- The Content-Type header that the HTTP library's setJson adds in PingAuthorizeService is not modelled.
- Exception messages are not modelled, only the exception kinds and the status and body text a rejection carries.
- An IOException while reading the body text of a rejected response is not modelled.
- The PingAuthorizeServiceException classes carry a message and nothing else. They are represented by the exception kinds.
- Host wiring is left out: the node annotations, injection, and the configuration defaults. Configuration is an immutable value.
- Continue mode at run time: neither process method reads `useContinue`, so the mode only changes the declared catalog; the `continue` outcome is reached at run time only when a configured statement code (or statement rendering) is itself "continue", which the model reproduces (`PingAuthorizeNode.ProcessNeverContinues`, `PingOneAuthorizeNode.ConfiguredStatementWins`).
- PingOneAuthorizeNode's Config carries the flow type, the endpoint URL and the configuration name. process never reads them, so no contract speaks of them.
