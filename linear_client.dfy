/**
 * The GraphQL client of the Linear agent (src/agent.py): the API key check,
 * the request payload, the handling of a decoded response, and the backlog
 * state lookup. The HTTPS transport is an oracle, `server`, that answers a
 * request given every request issued before it; `trace` records the requests
 * in the order they were issued.
 */
module LinearClient {
  import opened Wrappers
  import opened Text
  import opened Json
  import opened LinearQueries

  const API_URL := "https://api.linear.app/graphql"
  const KEY_NOT_SET := "LINEAR_API_KEY environment variable not set"
  const NO_BACKLOG := "No Backlog state found for team"

  /** One HTTPS POST: the URL, the headers, the operation it carries and the JSON payload. */
  datatype Request = Request(url: string, headers: seq<(string, string)>, op: Operation, payload: Fields)

  /** What the transport gives back: a decoded body, or the error urllib raised. */
  datatype Transport = Delivered(body: Json) | Unreachable(detail: string)

  /** The issue tracker, answering a request given the requests issued before it. */
  type Server = (seq<Request>, Request) -> Transport

  /** `get_api_key`: the value of LINEAR_API_KEY; unset or empty raises ValueError. */
  function GetApiKey(env: Option<string>): (r: Result<string, Error>)
    ensures r.Success? <==> env.Some? && env.value != ""
    ensures r.Success? ==> r.value == env.value
    ensures r.Failure? ==> r.error == ValueError(KEY_NOT_SET)
  {
    match env
    case Some(key) => if key == "" then Failure(ValueError(KEY_NOT_SET)) else Success(key)
    case None => Failure(ValueError(KEY_NOT_SET))
  }

  function Headers(key: string): seq<(string, string)> {
    [("Authorization", key), ("Content-Type", "application/json")]
  }

  /** `if variables:` for a `dict | None` argument. */
  predicate HasVariables(variables: Option<Fields>) {
    variables.Some? && variables.value != []
  }

  /** The keys of the payload dict, and its `variables`: present exactly when there are any. */
  predicate VariablesOf(payload: Fields, variables: Option<Fields>) {
    && Keys(payload) == ["query"] + (if HasVariables(variables) then ["variables"] else [])
    && (HasVariables(variables) ==> Lookup(payload, "variables") == Some(JObject(variables.value)))
  }

  /** The payload dict: `query` always, then `variables` exactly when there are any. */
  predicate PayloadOf(payload: Fields, query: string, variables: Option<Fields>) {
    && VariablesOf(payload, variables)
    && Lookup(payload, "query") == Some(JString(query))
  }

  /** The payload `execute_query` builds, by conditional insertion into a dict. */
  method BuildPayload(query: string, variables: Option<Fields>) returns (payload: Fields)
    ensures PayloadOf(payload, query, variables)
  {
    payload := [("query", JString(query))];
    if HasVariables(variables) {
      InsertLookup(payload, "variables", JObject(variables.value), "query");
      InsertLookup(payload, "variables", JObject(variables.value), "variables");
      payload := Insert(payload, "variables", JObject(variables.value));
    }
  }

  /** `e.get("message", str(e))` for one entry of `errors`. */
  function ErrorText(e: Json): Result<Json, Error> {
    match e
    case JObject(fields) => Success(GetOr(fields, "message", JString(Display(e))))
    case _ => Failure(AttributeError)
  }

  /** The list comprehension over `errors`: the first entry that is not a dict raises. */
  function ErrorTexts(errors: seq<Json>): (r: Result<seq<Json>, Error>)
    ensures r.Success? <==> forall i :: 0 <= i < |errors| ==> errors[i].JObject?
    ensures r.Success? ==> |r.value| == |errors|
    ensures r.Success? ==> forall i :: 0 <= i < |errors| ==> ErrorText(errors[i]) == Success(r.value[i])
    ensures r.Failure? ==> r.error == AttributeError
  {
    if forall i :: 0 <= i < |errors| ==> errors[i].JObject? then
      Success(seq(|errors|, i requires 0 <= i < |errors| => ErrorText(errors[i]).value))
    else Failure(AttributeError)
  }

  /** Lines 38-39 of `execute_query`: the `errors` entry of a response always raises. */
  function ReportedErrors(errors: Json): (r: Result<Json, Error>)
    ensures r.Failure?
    ensures r.error.RuntimeError? || r.error == TypeError || r.error == AttributeError
  {
    var entries :- Iterate(errors);
    var texts :- ErrorTexts(entries);
    var joined :- JoinStrings("; ", texts);
    Failure(RuntimeError("GraphQL errors: " + joined))
  }

  /** Lines 37-41 of `execute_query`: a decoded body becomes its `data`, or the error it reports. */
  function ResponseData(result: Json): (r: Result<Json, Error>)
    ensures r.Success? <==> result.JObject? && "errors" !in Keys(result.fields) && "data" in Keys(result.fields)
    ensures r.Success? ==> Lookup(result.fields, "data") == Some(r.value)
    ensures result.JObject? && "errors" in Keys(result.fields) ==> r.Failure? && r.error != KeyError("data")
    ensures result.JObject? && "errors" !in Keys(result.fields) && "data" !in Keys(result.fields)
      ==> r == Failure(KeyError("data"))
  {
    match result
    case JObject(fields) =>
      if "errors" in Keys(fields) then ReportedErrors(GetOr(fields, "errors", JNull))
      else Subscript(result, "data")
    case _ => Failure(TypeError)
  }

  /**
   * Every entry of an `errors` list is shown, in order, joined by "; ": its
   * `message` when it has one, its `str()` otherwise.
   */
  lemma ErrorsShown(result: Json, errors: seq<Json>, texts: seq<string>)
    requires result.JObject? && Lookup(result.fields, "errors") == Some(JArray(errors))
    requires |texts| == |errors|
    requires forall i :: 0 <= i < |errors| ==> errors[i].JObject? && EntryShows(errors[i], texts[i])
    ensures ResponseData(result) == Failure(RuntimeError("GraphQL errors: " + Join(texts, "; ")))
  {
    assert "errors" in Keys(result.fields);
    assert GetOr(result.fields, "errors", JNull) == JArray(errors);
    forall i | 0 <= i < |errors|
      ensures ErrorText(errors[i]) == Success(JString(texts[i]))
    {
      EntryText(errors[i], texts[i]);
    }
    TextsJoined(errors, texts);
  }

  /** The `errors` list itself, once each entry's text is known. */
  lemma TextsJoined(errors: seq<Json>, texts: seq<string>)
    requires |texts| == |errors|
    requires forall i :: 0 <= i < |errors| ==> ErrorText(errors[i]) == Success(JString(texts[i]))
    ensures ReportedErrors(JArray(errors)) == Failure(RuntimeError("GraphQL errors: " + Join(texts, "; ")))
  {
    var shown := seq(|errors|, i requires 0 <= i < |errors| => JString(texts[i]));
    var r := ErrorTexts(errors);
    assert r.Success?;
    assert forall i :: 0 <= i < |errors| ==> r.value[i] == shown[i];
    assert r.value == shown;
    var strings := seq(|shown|, i requires 0 <= i < |shown| => shown[i].s);
    assert strings == texts;
    assert JoinStrings("; ", shown) == Success(Join(texts, "; "));
  }

  /** `text` is what the entry `e` of `errors` contributes: its string `message`, or else `str(e)`. */
  predicate EntryShows(e: Json, text: string)
    requires e.JObject?
  {
    if "message" in Keys(e.fields) then Lookup(e.fields, "message") == Some(JString(text))
    else text == Repr(e)
  }

  lemma EntryText(e: Json, text: string)
    requires e.JObject? && EntryShows(e, text)
    ensures ErrorText(e) == Success(JString(text))
  {
  }

  /** When every entry has a `message`, the messages are reported, in order, joined by "; ". */
  lemma ErrorsReportedInOrder(result: Json, errors: seq<Json>, messages: seq<string>)
    requires result.JObject? && Lookup(result.fields, "errors") == Some(JArray(errors))
    requires |messages| == |errors|
    requires forall i :: 0 <= i < |errors| ==>
      errors[i].JObject? && Lookup(errors[i].fields, "message") == Some(JString(messages[i]))
    ensures ResponseData(result) == Failure(RuntimeError("GraphQL errors: " + Join(messages, "; ")))
  {
    ErrorsShown(result, errors, messages);
  }

  /** An empty `errors` list still raises, with nothing after the prefix. */
  lemma EmptyErrorsRaise(result: Json)
    requires result.JObject? && Lookup(result.fields, "errors") == Some(JArray([]))
    ensures ResponseData(result) == Failure(RuntimeError("GraphQL errors: "))
  {
    ErrorsShown(result, [], []);
    assert Join([], "; ") == "";
    assert "GraphQL errors: " + "" == "GraphQL errors: ";
  }

  /** A lone entry without a `message` is reported as its `str()`. */
  lemma UnlabelledErrorShown(result: Json, e: Json)
    requires result.JObject? && Lookup(result.fields, "errors") == Some(JArray([e]))
    requires e.JObject? && "message" !in Keys(e.fields)
    ensures ResponseData(result) == Failure(RuntimeError("GraphQL errors: " + Repr(e)))
  {
    ErrorsShown(result, [e], [Repr(e)]);
    assert Join([Repr(e)], "; ") == Repr(e);
  }

  /** The outcome of one exchange with the server, as `execute_query` returns or raises it. */
  function Receive(response: Transport): Result<Json, Error> {
    match response
    case Unreachable(detail) => Failure(UrlError(detail))
    case Delivered(body) => ResponseData(body)
  }

  /**
   * `request` is the POST `execute_query` makes for `op` and `variables` with
   * the key `key`. The document text in its `query` entry is stated apart, by
   * `Execute`, so that reasoning about traces does not carry the documents.
   */
  predicate Sent(request: Request, key: string, op: Operation, variables: Option<Fields>) {
    && request.url == API_URL
    && request.headers == Headers(key)
    && request.op == op
    && VariablesOf(request.payload, variables)
  }

  /** `after` is `before` plus one such request. */
  predicate Issued(before: seq<Request>, after: seq<Request>, key: string, op: Operation, variables: Option<Fields>) {
    && |after| == |before| + 1
    && after[..|before|] == before
    && Sent(after[|before|], key, op, variables)
  }

  /** A request stays issued when later requests follow it. */
  lemma IssuedPrefix(before: seq<Request>, looked: seq<Request>, after: seq<Request>,
                     key: string, op: Operation, variables: Option<Fields>)
    requires Issued(before, looked, key, op, variables)
    requires |looked| <= |after| && after[..|looked|] == looked
    ensures Issued(before, after[..|before| + 1], key, op, variables)
    ensures after[|before|] == looked[|before|]
  {
    var m := |looked|;
    assert m == |before| + 1;
    assert after[..m] == looked;
  }

  /** The whole of a one-request extension is that extension. */
  lemma IssuedWhole(before: seq<Request>, after: seq<Request>, key: string, op: Operation, variables: Option<Fields>)
    requires Issued(before, after, key, op, variables)
    ensures Issued(before, after[..|before| + 1], key, op, variables)
  {
    assert after[..|after|] == after;
  }

  /** A session against the issue tracker: the environment's key, the server, the requests so far. */
  class Client {
    const apiKey: Option<string>
    const server: Server
    var trace: seq<Request>

    constructor (apiKey: Option<string>, server: Server)
      ensures this.apiKey == apiKey && this.server == server && trace == []
    {
      this.apiKey := apiKey;
      this.server := server;
      trace := [];
    }

    /** `execute_query`: a missing key raises before anything is sent; otherwise one request goes out. */
    method Execute(op: Operation, variables: Option<Fields>) returns (r: Result<Json, Error>)
      modifies this
      ensures GetApiKey(apiKey).Failure? ==> trace == old(trace) && r == Failure(ValueError(KEY_NOT_SET))
      ensures GetApiKey(apiKey).Success? ==>
        && Issued(old(trace), trace, apiKey.value, op, variables)
        && Lookup(trace[|old(trace)|].payload, "query") == Some(JString(Document(op)))
        && r == Receive(server(old(trace), trace[|old(trace)|]))
    {
      var key :- GetApiKey(apiKey);
      var request := Prepare(key, op, Document(op), variables);
      var response := server(trace, request);
      trace := trace + [request];
      r := Receive(response);
    }
  }

  /** The POST `execute_query` makes: the fixed URL and headers, and the payload for the document `query` of `op`. */
  method Prepare(key: string, op: Operation, query: string, variables: Option<Fields>) returns (request: Request)
    ensures Sent(request, key, op, variables)
    ensures Lookup(request.payload, "query") == Some(JString(query))
  {
    var payload := BuildPayload(query, variables);
    request := Request(API_URL, Headers(key), op, payload);
  }

  /** The `for state in states` search: the `id` of the first state whose `type` is "backlog". */
  function FirstBacklog(states: seq<Json>): Result<Json, Error>
    decreases |states|
  {
    if states == [] then Failure(ValueError(NO_BACKLOG))
    else
      var kind :- Subscript(states[0], "type");
      if kind == JString("backlog") then Subscript(states[0], "id")
      else FirstBacklog(states[1..])
  }

  /** A state the search looks at and passes over: a dict whose `type` is something else. */
  predicate PassedOver(state: Json) {
    state.JObject? && "type" in Keys(state.fields) && Lookup(state.fields, "type") != Some(JString("backlog"))
  }

  /** A state the search stops at. */
  predicate IsBacklog(state: Json) {
    state.JObject? && Lookup(state.fields, "type") == Some(JString("backlog"))
  }

  /** The search passes over a prefix of states that are not the backlog. */
  lemma {:induction false} SkipsPassedOver(states: seq<Json>, k: nat)
    requires k <= |states|
    requires forall i :: 0 <= i < k ==> PassedOver(states[i])
    ensures FirstBacklog(states) == FirstBacklog(states[k..])
  {
    if k > 0 {
      assert PassedOver(states[0]);
      assert FirstBacklog(states) == FirstBacklog(states[1..]);
      assert states[1..][k - 1..] == states[k..];
      SkipsPassedOver(states[1..], k - 1);
    }
  }

  /** The first backlog state in list order is the one whose `id` is returned. */
  lemma BacklogIsFirst(states: seq<Json>, k: nat)
    requires k < |states|
    requires forall i :: 0 <= i < k ==> PassedOver(states[i])
    requires IsBacklog(states[k])
    ensures FirstBacklog(states) == Subscript(states[k], "id")
  {
    SkipsPassedOver(states, k);
  }

  /** No backlog state at all: ValueError. */
  lemma NoBacklogState(states: seq<Json>)
    requires forall i :: 0 <= i < |states| ==> PassedOver(states[i])
    ensures FirstBacklog(states) == Failure(ValueError(NO_BACKLOG))
  {
    SkipsPassedOver(states, |states|);
  }

  /** A state without `type` reached before any backlog state raises KeyError. */
  lemma UntypedStateRaises(states: seq<Json>, k: nat)
    requires k < |states|
    requires forall i :: 0 <= i < k ==> PassedOver(states[i])
    requires states[k].JObject? && "type" !in Keys(states[k].fields)
    ensures FirstBacklog(states) == Failure(KeyError("type"))
  {
    SkipsPassedOver(states, k);
  }

  /** The loop of `get_backlog_state_id`, with its early return. */
  method FindBacklog(states: seq<Json>) returns (r: Result<Json, Error>)
    ensures r == FirstBacklog(states)
  {
    var i := 0;
    while i < |states|
      invariant 0 <= i <= |states|
      invariant FirstBacklog(states[i..]) == FirstBacklog(states)
    {
      assert states[i..][1..] == states[i + 1..];
      var kind :- Subscript(states[i], "type");
      if kind == JString("backlog") {
        return Subscript(states[i], "id");
      }
      i := i + 1;
    }
    return Failure(ValueError(NO_BACKLOG));
  }

  /** The states of the team in a TeamStates answer; a missing or null team raises ValueError. */
  function TeamStates(teamId: Json, data: Json): Result<seq<Json>, Error> {
    var team :- Get(data, "team");
    if !Truthy(team) then Failure(ValueError("Team '" + Display(teamId) + "' not found"))
    else
      var nodes :- Path(team, ["states", "nodes"]);
      Iterate(nodes)
  }

  /** What `get_backlog_state_id` returns or raises for the answer to its lookup. */
  function Backlog(teamId: Json, response: Transport): Result<Json, Error> {
    var data :- Receive(response);
    var states :- TeamStates(teamId, data);
    FirstBacklog(states)
  }

  /** `get_backlog_state_id`: one TeamStates lookup, then the search. */
  method GetBacklogStateId(c: Client, teamId: Json) returns (r: Result<Json, Error>)
    modifies c
    ensures GetApiKey(c.apiKey).Failure? ==> c.trace == old(c.trace) && r == Failure(ValueError(KEY_NOT_SET))
    ensures GetApiKey(c.apiKey).Success? ==>
      && Issued(old(c.trace), c.trace, c.apiKey.value, TeamStatesQuery, Some([("teamId", teamId)]))
      && r == Backlog(teamId, c.server(old(c.trace), c.trace[|old(c.trace)|]))
  {
    var data :- c.Execute(TeamStatesQuery, Some([("teamId", teamId)]));
    var states :- TeamStates(teamId, data);
    r := FindBacklog(states);
  }

  /** A TeamStates answer whose `team` is null or absent names the team in a ValueError. */
  lemma MissingTeam(teamId: Json, response: Transport, data: Json)
    requires Receive(response) == Success(data)
    requires data.JObject? && !Truthy(GetOr(data.fields, "team", JNull))
    ensures Backlog(teamId, response) == Failure(ValueError("Team '" + Display(teamId) + "' not found"))
  {
  }
}
