/** The New Relic agent of `simplechat.py`: it declares three GraphQL tools to Gemini, runs the
    shared tool loop, answers every function call by POSTing the call's query to New Relic's
    NerdGraph endpoint (inserting the configured account ID into the query variables), and turns
    the loop's outcome into a reply string. */
module SimpleChat {
  import opened Wrappers
  import opened Strings
  import opened Py
  import opened Gemini
  import opened Orchestration
  import opened Sequences

  /** The Gemini model the agent talks to. */
  const Model := "gemini-2.5-pro-preview-05-06"
  /** The NerdGraph endpoint used when `NEW_RELIC_API_ENDPOINT` is not set. */
  const DefaultEndpoint := "https://api.newrelic.com/graphql"
  /** The `timeout` of every POST, in seconds. */
  const RequestTimeout: nat := 30

  // ---------------------------------------------------------------------------------------------
  // Configuration and the declared tools

  /** What the agent reads from the environment when it is created. */
  datatype Config = Config(
    geminiApiKey: Option<string>,
    newRelicApiKey: Option<string>,
    accountId: Option<string>,
    endpoint: string)

  function ConfigFrom(env: map<string, string>): (c: Config)
    ensures c.accountId == GetEnv(env, "NEW_RELIC_ACCOUNT_ID")
    ensures c.endpoint == if "NEW_RELIC_API_ENDPOINT" in env then env["NEW_RELIC_API_ENDPOINT"] else DefaultEndpoint
  {
    Config(GetEnv(env, "GEMINI_API_KEY"), GetEnv(env, "NEW_RELIC_USER_API_KEY"), GetEnv(env, "NEW_RELIC_ACCOUNT_ID"),
           if "NEW_RELIC_API_ENDPOINT" in env then env["NEW_RELIC_API_ENDPOINT"] else DefaultEndpoint)
  }

  /** One entry of the agent's tool table. */
  datatype Tool = Tool(name: string, description: string)

  /** The tool table, in its insertion order. */
  const Tools: seq<Tool> := [
    Tool("executeQuery", "Execute a GraphQL query against the New Relic API"),
    Tool("describeDomain", "Get information about the schema and available GraphQL types"),
    Tool("introspect", "Perform GraphQL introspection to discover the schema")
  ]

  /** The parameter schema every tool is declared with: a required string `query` and an
      optional object `variables`. */
  const QuerySchema := ObjectSchema(
    [Property("query", "string", "The GraphQL query to execute"),
     Property("variables", "object", "Variables for the GraphQL query")],
    ["query"])

  /** The function declarations built from a tool table, in its order, all with the query schema. */
  function DeclarationsOf(tools: seq<Tool>): (decls: seq<FunctionDeclaration>)
    ensures |decls| == |tools|
    ensures forall i :: 0 <= i < |tools| ==>
      decls[i] == FunctionDeclaration(tools[i].name, Some(tools[i].description), Some(QuerySchema))
  {
    if tools == [] then []
    else [FunctionDeclaration(tools[0].name, Some(tools[0].description), Some(QuerySchema))] + DeclarationsOf(tools[1..])
  }

  /** The agent declares three tools, `executeQuery`, `describeDomain` and `introspect`, each
      requiring a `query`. */
  lemma DeclaredTools()
    ensures var decls := DeclarationsOf(Tools);
      && |decls| == 3
      && decls[0].name == "executeQuery" && decls[1].name == "describeDomain" && decls[2].name == "introspect"
      && (forall i :: 0 <= i < |decls| ==> decls[i].parameters == Some(QuerySchema))
      && QuerySchema.required == ["query"] && QuerySchema.properties[0].name == "query"
  {
  }

  // ---------------------------------------------------------------------------------------------
  // `_execute_graphql`

  /** The POST `_execute_graphql` sends: endpoint, `API-Key` header, JSON payload, timeout. */
  datatype HttpRequest = HttpRequest(url: string, apiKey: Option<string>, payload: Json, timeout: nat)

  /** The body of a response as `response.json()` sees it. */
  datatype Body = Parsed(value: Json) | Unparsable

  /** What `requests.post` does: answer with a status code, a body and its text, or raise a
      `RequestException` with a message. */
  datatype HttpOutcome = Responded(status: nat, body: Body, text: string) | RequestFailed(message: string)

  /** The outside world of the New Relic tools: the HTTP client, `json.dumps` and `str` on a
      decoded JSON value. */
  datatype Services = Services(post: HttpRequest -> HttpOutcome, dumps: Json -> string, show: Json -> string)

  const AccountIdKey := "accountId"

  /** The variables after the account ID step: None becomes a new empty dict; the account ID is
      added under `accountId` when that key is absent and an account ID is configured. A dict is
      updated; any other value is left as it is, or makes the step raise: `in` raises on a number
      or a boolean, and a str or list cannot take the new item. */
  function WithAccountId(variables: Json, account: Option<string>): (r: Result<Json, Exception>)
    ensures variables.JObj? || variables.JNull? ==> r.Success? && r.value.JObj?
    ensures r.Success? && r.value.JObj? ==>
      var before := if variables.JObj? then variables.fields else map[];
      && (forall k :: k in before ==> k in r.value.fields && r.value.fields[k] == before[k])
      && (forall k :: k in r.value.fields && k !in before ==> k == AccountIdKey)
      && (AccountIdKey in r.value.fields <==> AccountIdKey in before || Truthy(account))
      && (AccountIdKey !in before && Truthy(account) ==> r.value.fields[AccountIdKey] == JStr(account.value))
    ensures r.Failure? <==>
      || variables.JNum? || variables.JBool?
      || ((variables.JStr? || variables.JArr?) && In(AccountIdKey, variables) == Success(false) && Truthy(account))
    ensures r.Success? && !variables.JObj? && !variables.JNull? ==> r.value == variables
  {
    var vars := if variables.JNull? then JObj(map[]) else variables;
    match In(AccountIdKey, vars)
    case Failure(e) => Failure(e)
    case Success(present) =>
      if present || !Truthy(account) then Success(vars)
      else
        match vars
        case JObj(fields) => Success(JObj(fields[AccountIdKey := JStr(account.value)]))
        case JStr(_) => Failure(Exception("TypeError", "'str' object does not support item assignment"))
        case _ => Failure(Exception("TypeError", "list indices must be integers or slices, not str"))
  }

  /** Inserting the account ID a second time changes nothing. */
  lemma WithAccountIdIdempotent(variables: Json, account: Option<string>)
    requires WithAccountId(variables, account).Success?
    ensures WithAccountId(WithAccountId(variables, account).value, account) == WithAccountId(variables, account)
  {
    var v := WithAccountId(variables, account).value;
    if v.JObj? {
      assert In(AccountIdKey, v) == Success(AccountIdKey in v.fields);
    }
  }

  /** The prefix of the message raised for a status code other than 200. */
  const StatusPrefix := "GraphQL request failed with status code "

  /** The message raised for a status code other than 200: the status code, then the body's
      `errors` entry when the body is a JSON object holding one, or the raw text when the body
      is not JSON or inspecting it raises (a JSON null, number or boolean; a str or list holding
      `errors`, which cannot be subscripted by a string). */
  function StatusError(status: nat, body: Body, text: string, show: Json -> string): (m: string)
    ensures StartsWith(m, StatusPrefix + NatToString(status))
    ensures body.Unparsable? ==> m == StatusPrefix + NatToString(status) + ": " + text
    ensures body.Parsed? && In("errors", body.value).Failure? ==> m == StatusPrefix + NatToString(status) + ": " + text
    ensures body.Parsed? && (body.value.JStr? || body.value.JArr?) ==>
      m == StatusPrefix + NatToString(status) + (if In("errors", body.value) == Success(true) then ": " + text else "")
    ensures body.Parsed? && body.value.JObj? && "errors" in body.value.fields ==>
      m == StatusPrefix + NatToString(status) + ": " + show(body.value.fields["errors"])
    ensures body.Parsed? && body.value.JObj? && "errors" !in body.value.fields ==>
      m == StatusPrefix + NatToString(status)
  {
    var head := StatusPrefix + NatToString(status);
    match body
    case Unparsable => head + ": " + text
    case Parsed(v) =>
      match In("errors", v)
      case Failure(_) => head + ": " + text
      case Success(present) =>
        if !present then head
        else if v.JObj? then head + ": " + show(v.fields["errors"])
        else head + ": " + text
  }

  const NetworkErrorPrefix := "Network error during GraphQL request: "
  const InvalidJson := "Invalid JSON response from GraphQL endpoint"

  /** The POST for a query and its (already completed) variables. */
  function GraphqlRequest(config: Config, query: Json, variables: Json): HttpRequest {
    HttpRequest(config.endpoint, config.newRelicApiKey,
                JObj(map["query" := query, "variables" := variables]), RequestTimeout)
  }

  /** What `result['errors']` raises on a decoded body that is a string or a list. */
  function ErrorsSubscript(v: Json): Exception {
    if v.JStr? then Exception("TypeError", "string indices must be integers, not 'str'")
    else Exception("TypeError", "list indices must be integers or slices, not str")
  }

  /** `_execute_graphql`: complete the variables, POST the query, and return the decoded body of
      a 200 response. GraphQL errors in such a body are only logged: the body is still returned.
      Logging them reads `result['errors']`, which raises when the body is a string or a list. */
  function ExecuteGraphql(config: Config, services: Services, query: Json, variables: Json): (r: Result<Json, Exception>)
    ensures WithAccountId(variables, config.accountId).Failure? ==>
      r == Failure(WithAccountId(variables, config.accountId).error)
    ensures r.Success? <==>
      && WithAccountId(variables, config.accountId).Success?
      && var sent := services.post(GraphqlRequest(config, query, WithAccountId(variables, config.accountId).value));
      && sent.Responded? && sent.status == 200 && sent.body.Parsed?
      && (sent.body.value.JObj? ||
          ((sent.body.value.JArr? || sent.body.value.JStr?) && In("errors", sent.body.value) == Success(false)))
    ensures r.Success? ==>
      services.post(GraphqlRequest(config, query, WithAccountId(variables, config.accountId).value)).body == Parsed(r.value)
  {
    match WithAccountId(variables, config.accountId)
    case Failure(e) => Failure(e)
    case Success(vars) =>
      match services.post(GraphqlRequest(config, query, vars))
      case RequestFailed(message) => Failure(Exception("Exception", NetworkErrorPrefix + message))
      case Responded(status, body, text) =>
        if status != 200 then Failure(Exception("Exception", StatusError(status, body, text, services.show)))
        else
          match body
          case Unparsable => Failure(Exception("Exception", InvalidJson))
          case Parsed(v) =>
            match In("errors", v)
            case Failure(e) => Failure(e)
            case Success(present) =>
              if present && !v.JObj? then Failure(ErrorsSubscript(v)) else Success(v)
  }

  /** Any status other than 200 fails with a message naming the status code. */
  lemma NonOkStatusFails(config: Config, services: Services, query: Json, variables: Json)
    requires WithAccountId(variables, config.accountId).Success?
    requires var sent := services.post(GraphqlRequest(config, query, WithAccountId(variables, config.accountId).value));
      sent.Responded? && sent.status != 200
    ensures var sent := services.post(GraphqlRequest(config, query, WithAccountId(variables, config.accountId).value));
      var r := ExecuteGraphql(config, services, query, variables);
      && r.Failure? && r.error.kind == "Exception"
      && StartsWith(r.error.message, StatusPrefix + NatToString(sent.status))
  {
  }

  /** A 200 response whose body reports GraphQL errors is still a success, body unchanged. */
  lemma GraphqlErrorsPassThrough(config: Config, services: Services, query: Json, variables: Json)
    requires WithAccountId(variables, config.accountId).Success?
    requires var sent := services.post(GraphqlRequest(config, query, WithAccountId(variables, config.accountId).value));
      sent.Responded? && sent.status == 200 && sent.body.Parsed? && sent.body.value.JObj? &&
      "errors" in sent.body.value.fields
    ensures var sent := services.post(GraphqlRequest(config, query, WithAccountId(variables, config.accountId).value));
      ExecuteGraphql(config, services, query, variables) == Success(sent.body.value)
  {
  }

  /** A 200 response whose body is a string or a list holding `errors` fails with the `TypeError`
      of indexing it by a string, raised while logging the errors. */
  lemma ErrorsInNonObjectBodyRaise(config: Config, services: Services, query: Json, variables: Json)
    requires WithAccountId(variables, config.accountId).Success?
    requires var sent := services.post(GraphqlRequest(config, query, WithAccountId(variables, config.accountId).value));
      sent.Responded? && sent.status == 200 && sent.body.Parsed? &&
      (sent.body.value.JStr? || sent.body.value.JArr?) && In("errors", sent.body.value) == Success(true)
    ensures var sent := services.post(GraphqlRequest(config, query, WithAccountId(variables, config.accountId).value));
      var r := ExecuteGraphql(config, services, query, variables);
      && r.Failure? && r.error.kind == "TypeError"
      && (sent.body.value.JStr? ==> r.error.message == "string indices must be integers, not 'str'")
      && (sent.body.value.JArr? ==> r.error.message == "list indices must be integers or slices, not str")
  {
  }

  /** With an account ID configured, every query that reaches the endpoint carries an
      `accountId` variable: the caller's own when it gave one, the configured one otherwise. */
  lemma AccountIdAlwaysSent(config: Config, query: Json, variables: Json)
    requires Truthy(config.accountId) && (variables.JObj? || variables.JNull?)
    ensures var vars := WithAccountId(variables, config.accountId).value;
      && vars.JObj? && AccountIdKey in vars.fields
      && vars.fields[AccountIdKey] ==
           if variables.JObj? && AccountIdKey in variables.fields then variables.fields[AccountIdKey]
           else JStr(config.accountId.value)
  {
  }

  // ---------------------------------------------------------------------------------------------
  // Answering function calls

  /** The function response to one call: run its `query` (default "") with its `variables`
      (default {}); the dumped result, or the failure as `Tool execution failed: <type>: <message>`.
      The tool's name plays no part. */
  function Dispatch(config: Config, services: Services, fc: FunctionCall): (r: ToolResponse)
    ensures var args := ArgsOrEmpty(fc.args);
      var result := ExecuteGraphql(config, services, Get(args, "query", JStr("")), Get(args, "variables", JObj(map[])));
      && (r.ToolResult? <==> result.Success?)
      && (result.Success? ==> r.result == services.dumps(result.value))
      && (result.Failure? ==> r.error == ToolFailurePrefix + Described(result.error))
  {
    var args := ArgsOrEmpty(fc.args);
    match ExecuteGraphql(config, services, Get(args, "query", JStr("")), Get(args, "variables", JObj(map[])))
    case Success(v) => ToolResult(services.dumps(v))
    case Failure(e) => ToolError(ToolFailurePrefix + Described(e))
  }

  /** All three tools do the same thing: the response depends on the arguments only. */
  lemma DispatchIgnoresToolName(config: Config, services: Services, fc: FunctionCall, name: string)
    ensures Dispatch(config, services, FunctionCall(name, fc.args)) == Dispatch(config, services, fc)
  {
  }

  /** How running a call rewrites it in place: when its `variables` argument is a dict, that very
      dict receives the account ID. A missing or null `variables` is replaced by a new dict, which
      leaves the call as it was. */
  function InjectAccountId(account: Option<string>, fc: FunctionCall): (r: FunctionCall)
    ensures r.name == fc.name
    ensures fc.args.None? ==> r == fc
    ensures fc.args.Some? ==> r.args.Some? && r.args.value.Keys == fc.args.value.Keys
    ensures fc.args.Some? ==> forall k :: k in fc.args.value && k != "variables" ==> r.args.value[k] == fc.args.value[k]
    ensures fc.args.Some? && "variables" in fc.args.value && fc.args.value["variables"].JObj? ==>
      && r.args.value["variables"] == WithAccountId(fc.args.value["variables"], account).value
      && (Truthy(account) ==> AccountIdKey in r.args.value["variables"].fields)
    ensures fc.args.Some? && !("variables" in fc.args.value && fc.args.value["variables"].JObj?) ==> r == fc
  {
    match fc.args
    case None => fc
    case Some(args) =>
      if "variables" in args && args["variables"].JObj? then
        FunctionCall(fc.name, Some(args["variables" := WithAccountId(args["variables"], account).value]))
      else fc
  }

  /** The loop the agent runs with a tool table. */
  function Wiring(config: Config, tools: seq<Tool>, backend: Backend, services: Services): Loop {
    Loop(Model, DeclarationsOf(tools), backend,
         (fc: FunctionCall) => Dispatch(config, services, fc),
         (fc: FunctionCall) => InjectAccountId(config.accountId, fc))
  }

  /** Rewriting a call's variables in place does not change what answering it again would give:
      the stored turns stay consistent with the responses after them. */
  lemma WiringAmendIsHarmless(config: Config, tools: seq<Tool>, backend: Backend, services: Services)
    ensures AmendIsHarmless(Wiring(config, tools, backend, services))
  {
    var p := Wiring(config, tools, backend, services);
    forall fc: FunctionCall ensures p.amend(fc).name == fc.name && p.respond(p.amend(fc)) == p.respond(fc) {
      var args := ArgsOrEmpty(fc.args);
      if fc.args.Some? && "variables" in args && args["variables"].JObj? {
        WithAccountIdIdempotent(args["variables"], config.accountId);
        var amended := ArgsOrEmpty(p.amend(fc).args);
        assert Get(amended, "query", JStr("")) == Get(args, "query", JStr(""));
        assert Get(amended, "variables", JObj(map[])) == WithAccountId(args["variables"], config.accountId).value;
      }
    }
  }

  /** The tool-result turns of the agent answer, call for call, the model turn before them, as
      that turn is stored after its variables were completed. */
  lemma ConverseToolTurnsAnswerCalls(config: Config, tools: seq<Tool>, backend: Backend, services: Services,
                                     history: seq<Content>, prompt: string)
    ensures ToolTurnsAnswer(Wiring(config, tools, backend, services), Converse(Wiring(config, tools, backend, services), history, prompt).turns)
  {
    WiringAmendIsHarmless(config, tools, backend, services);
    ToolTurnsAnswerCalls(Wiring(config, tools, backend, services), history, prompt);
  }

  // ---------------------------------------------------------------------------------------------
  // The reply of `agent_loop`

  const TruncationNotice := "Response exceeded maximum of " + NatToString(MaxToolTurns) + " tool calls. Partial response: "
  const ErrorPrefix := "Error processing request: "

  /** The string `agent_loop` returns (None when the final response has no text): the text of
      the final response, that text behind a notice when the model still asked for calls at the
      cap, or the message of the exception that ended the loop. */
  function AgentReply(run: Run): (r: Option<string>)
    ensures run.stop.Aborted? ==> r == Some(ErrorPrefix + run.stop.error.message)
    ensures run.stop.Finished? && FunctionCalls(run.stop.reply) == [] ==> r == ReplyText(run.stop.reply)
    ensures r.None? ==> run.stop.Finished? && ReplyText(run.stop.reply).None?
  {
    match run.stop
    case Aborted(e) => Some(ErrorPrefix + e.message)
    case Finished(reply) =>
      if run.rounds >= MaxToolTurns && FunctionCalls(reply) != [] then Some(TruncationNotice + Str(ReplyText(reply)))
      else ReplyText(reply)
  }

  /** The reply is truncated exactly when the final response still asks for calls: the loop can
      only stop on pending calls at the cap, so pending calls alone decide. */
  lemma AnswerReportsPendingCalls(p: Loop, history: seq<Content>, prompt: string)
    ensures var run := Converse(p, history, prompt);
      && (run.stop.Finished? && FunctionCalls(run.stop.reply) != [] ==>
            AgentReply(run) == Some(TruncationNotice + Str(ReplyText(run.stop.reply))))
      && (run.stop.Finished? && FunctionCalls(run.stop.reply) == [] ==> AgentReply(run) == ReplyText(run.stop.reply))
      && (run.stop.Aborted? ==> AgentReply(run) == Some(ErrorPrefix + run.stop.error.message))
  {
    FinishReason(p, history, prompt);
  }

  /** The prompt `setup_connection` sends first; a missing account ID reads "None". */
  function InitialPrompt(account: Option<string>): string {
    PromptOpening + Str(account) + PromptClosing
  }

  /** Whether both API keys are configured. */
  predicate HasApiKeys(c: Config) {
    Truthy(c.geminiApiKey) && Truthy(c.newRelicApiKey)
  }

  const PromptOpening := "Use account ID "
  const PromptClosing := " for ongoing queries. Inspect the NerdGraph API schema when no query is provided."
  const MissingKeys := Exception("ValueError", "Missing required API keys in environment variables")

  /** `NewRelicGeminiAgent`: its configuration, its tool table, the conversation history and
      whether the session was set up. The Gemini client is the `backend` parameter. */
  class NewRelicGeminiAgent {
    const config: Config
    const tools: seq<Tool>
    var contents: seq<Content>
    var sessionInitialized: bool

    constructor (env: map<string, string>)
      ensures config == ConfigFrom(env) && tools == Tools && contents == [] && !sessionInitialized
    {
      config := ConfigFrom(env);
      tools := Tools;
      contents := [];
      sessionInitialized := false;
    }

    /** `setup_connection`: nothing to do once set up; otherwise both API keys are required,
        and the initial prompt is sent before the session counts as set up. */
    method SetupConnection(backend: Backend, services: Services) returns (outcome: Outcome<Exception>)
      modifies this
      ensures old(sessionInitialized) ==> outcome == Pass && contents == old(contents) && sessionInitialized
      ensures !old(sessionInitialized) && !HasApiKeys(config) ==>
        outcome == Fail(MissingKeys) && contents == old(contents) && !sessionInitialized
      ensures !old(sessionInitialized) && HasApiKeys(config) ==>
        && outcome == Pass && sessionInitialized
        && contents == old(contents) + Converse(Wiring(config, tools, backend, services), old(contents), InitialPrompt(config.accountId)).turns
    {
      if sessionInitialized {
        return Pass;
      }
      if !HasApiKeys(config) {
        Cleanup();
        return Fail(MissingKeys);
      }
      var _, _ := AgentLoop(InitialPrompt(config.accountId), backend, services);
      sessionInitialized := true;
      outcome := Pass;
    }

    /** `cleanup`: the session is no longer set up; the history stays. */
    method Cleanup()
      modifies this
      ensures !sessionInitialized && contents == old(contents)
    {
      sessionInitialized := false;
    }

    /** `agent_loop`: append the prompt, ask the model, execute the calls it asks for and ask
        again, at most five times, and return the reply string; an exception from the model ends
        the loop with an error reply instead of propagating. */
    method AgentLoop(prompt: string, backend: Backend, services: Services)
      returns (answer: Option<string>, ghost requests: seq<Request>)
      modifies this`contents
      ensures var run := Converse(Wiring(config, tools, backend, services), old(contents), prompt);
        && contents == old(contents) + run.turns
        && requests == run.requests
        && answer == AgentReply(run)
    {
      var user := UserTurn(prompt);
      contents := contents + [user];
      var p := Wiring(config, tools, backend, services);
      ghost var run := Converse(p, old(contents), prompt);
      var request := Ask(p, contents, FirstTemperature);
      var received := Receive(backend(request));
      if received.Failure? {
        assert run == Run([user], [request], 0, Aborted(received.error));
        answer, requests := Some(ErrorPrefix + received.error.message), [request];
        return;
      }
      ghost var rest := ToolRounds(p, contents, received.value, 0);
      assert run == Run([user] + rest.turns, [request] + rest.requests, rest.rounds, rest.stop);
      ghost var requests';
      AppendTwice(old(contents), [user], rest.turns);
      var r, turnCount;
      r, turnCount, requests' := ToolLoop(p, received.value);
      requests := [request] + requests';
      match r {
        case Failure(e) =>
          answer := Some(ErrorPrefix + e.message);
        case Success(response) =>
          if turnCount >= MaxToolTurns && FunctionCalls(response) != [] {
            answer := Some(TruncationNotice + Str(ReplyText(response)));
          } else {
            answer := ReplyText(response);
          }
      }
    }

    /** The `while` loop of `agent_loop`, entered with the model's first response. Running the
        calls completes their variables in place, inside the model turn already stored. */
    method ToolLoop(p: Loop, reply: ModelReply)
      returns (r: Result<ModelReply, Exception>, turnCount: nat, ghost requests: seq<Request>)
      requires |reply.candidates| > 0
      modifies this`contents
      ensures var run := ToolRounds(p, old(contents), reply, 0);
        && contents == old(contents) + run.turns
        && requests == run.requests
        && r == AsResult(run.stop)
        && turnCount == run.rounds
    {
      var response := reply;
      ghost var before, done := contents, [];
      ProgressStarts(p, before, reply);
      contents := contents + [response.candidates[0]];
      requests := [];
      turnCount := 0;
      while FunctionCalls(response) != [] && turnCount < MaxToolTurns
        invariant Progress(p, old(contents), reply, done, requests, before, response, turnCount)
        invariant contents == before + [response.candidates[0]]
        decreases MaxToolTurns - turnCount
      {
        var turn := response.candidates[0];
        var parts := ExecuteCalls(FunctionCalls(response), p.respond);
        // the calls' variables were completed in place while they ran
        var answered := AmendTurn(turn, p.amend);
        ReplaceLast(before, turn, answered);
        contents := contents[|contents| - 1 := answered];
        ghost var head := RoundTurns(p, response);
        assert head == [answered] + [Content(User, parts)];
        AppendTwice(before, [answered], [Content(User, parts)]);
        contents := contents + [Content(User, parts)];
        assert contents == before + head;
        var request := Ask(p, contents, FollowUpTemperature);
        var received := Receive(p.backend(request));
        if received.Failure? {
          ProgressAborts(p, old(contents), reply, done, requests, before, response, turnCount, received.error);
          r, turnCount, requests := Failure(received.error), turnCount + 1, requests + [request];
          return;
        }
        ProgressGoesOn(p, old(contents), reply, done, requests, before, response, turnCount, received.value);
        requests := requests + [request];
        turnCount := turnCount + 1;
        response := received.value;
        before, done := contents, done + head;
        contents := contents + [response.candidates[0]];
      }
      ProgressStops(p, old(contents), reply, done, requests, before, response, turnCount);
      r := Success(response);
    }
  }
}
