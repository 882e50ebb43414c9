/** The MCP-backed agent of `client.py`: it lists the tools of an MCP server, declares them to
    Gemini by name and description, and runs the shared tool loop, executing every function call
    the model asks for through the MCP session and packaging the result, or the failure, as a
    function response. */
module Client {
  import opened Wrappers
  import opened Py
  import opened Gemini
  import opened Orchestration
  import opened Strings
  import opened Sequences

  /** The Gemini model the agent talks to. */
  const Model := "gemini-2.0-flash"

  /** One entry of `list_tools().tools`: the fields the agent reads. */
  datatype ToolInfo = ToolInfo(name: string, description: Option<string>)

  /** One item of a tool result's `content` list: a text item, or an item of another kind
      (an image, an embedded resource) which has no `text` attribute. */
  datatype ContentItem = TextContent(text: string) | OtherContent(kind: string)

  /** The `CallToolResult` of the MCP session. */
  datatype CallToolResult = CallToolResult(isError: bool, content: seq<ContentItem>)

  /** What `session.call_tool(name, args)` does: return a result or raise. */
  datatype CallOutcome = Completed(result: CallToolResult) | Threw(error: Exception)

  /** The MCP server's tool execution, seen through the session. */
  type Executor = (string, map<string, Json>) -> CallOutcome

  /** The function declarations built from the listed tools: one per tool, in the server's order,
      carrying its name and description and no parameter schema. */
  function Declarations(tools: seq<ToolInfo>): (decls: seq<FunctionDeclaration>)
    ensures |decls| == |tools|
    ensures forall i :: 0 <= i < |tools| ==>
      && decls[i].name == tools[i].name
      && decls[i].description == tools[i].description
      && decls[i].parameters.None?
  {
    if tools == [] then []
    else [FunctionDeclaration(tools[0].name, tools[0].description, None)] + Declarations(tools[1..])
  }

  /** The function response for one `call_tool` outcome. The text of the first content item
      becomes the result, or the error when the server flagged the call as failed; a call that
      raised, a result with no content and a first item without text are all caught and reported
      as `Tool execution failed: <exception type>: <message>`. Nothing escapes. */
  function Packaged(outcome: CallOutcome): (r: ToolResponse)
    ensures r.ToolResult? <==>
      && outcome.Completed? && !outcome.result.isError
      && |outcome.result.content| > 0 && outcome.result.content[0].TextContent?
    ensures r.ToolResult? ==> r.result == outcome.result.content[0].text
    ensures outcome.Completed? && outcome.result.isError &&
            |outcome.result.content| > 0 && outcome.result.content[0].TextContent? ==>
              r == ToolError(outcome.result.content[0].text)
    ensures outcome.Threw? ==> r == ToolError(ToolFailurePrefix + Described(outcome.error))
    ensures outcome.Completed? && outcome.result.content == [] ==>
              r == ToolError(ToolFailurePrefix + Described(IndexError))
    ensures outcome.Completed? && |outcome.result.content| > 0 && outcome.result.content[0].OtherContent? ==>
              r.ToolError? && StartsWith(r.error, ToolFailurePrefix + "AttributeError: ")
  {
    match outcome
    case Threw(e) => ToolError(ToolFailurePrefix + Described(e))
    case Completed(result) =>
      if result.content == [] then ToolError(ToolFailurePrefix + Described(IndexError))
      else
        match result.content[0]
        case OtherContent(kind) =>
          ToolError(ToolFailurePrefix + Described(Exception("AttributeError", "'" + kind + "' object has no attribute 'text'")))
        case TextContent(text) =>
          if result.isError then ToolError(text) else ToolResult(text)
  }

  /** How the agent answers one function call: run it with `args or {}` and package the outcome. */
  function Responder(executor: Executor): FunctionCall -> ToolResponse {
    (fc: FunctionCall) => Packaged(executor(fc.name, ArgsOrEmpty(fc.args)))
  }

  /** The loop the agent runs; it never rewrites a call. */
  function Wiring(decls: seq<FunctionDeclaration>, backend: Backend, executor: Executor): Loop {
    Loop(Model, decls, backend, Responder(executor), fc => fc)
  }

  /** One `agent_loop` call on `history`: the user turn is appended first, so it stays even when
      listing the tools fails; otherwise the shared loop runs with the listed tools. */
  function Exchange(listing: Result<seq<ToolInfo>, Exception>, backend: Backend, executor: Executor,
                    history: seq<Content>, prompt: string): (r: Run)
    ensures |r.turns| >= 1 && r.turns[0] == UserTurn(prompt)
    ensures listing.Failure? ==> r.turns == [UserTurn(prompt)] && r.requests == [] && r.stop == Aborted(listing.error)
    ensures listing.Success? ==> |r.requests| == r.rounds + 1
  {
    match listing
    case Failure(e) => Run([UserTurn(prompt)], [], 0, Aborted(e))
    case Success(tools) => Converse(Wiring(Declarations(tools), backend, executor), history, prompt)
  }

  /** A call is answered as it was asked: the agent's loop rewrites nothing. */
  lemma WiringAmendIsHarmless(decls: seq<FunctionDeclaration>, backend: Backend, executor: Executor)
    ensures AmendIsHarmless(Wiring(decls, backend, executor))
  {
  }

  /** Every tool-result turn of the agent answers, call for call, the model turn before it. */
  lemma ExchangeToolTurnsAnswerCalls(tools: seq<ToolInfo>, backend: Backend, executor: Executor,
                                     history: seq<Content>, prompt: string)
    ensures ToolTurnsAnswer(Wiring(Declarations(tools), backend, executor),
                            Exchange(Success(tools), backend, executor, history, prompt).turns)
  {
    var p := Wiring(Declarations(tools), backend, executor);
    WiringAmendIsHarmless(Declarations(tools), backend, executor);
    ToolTurnsAnswerCalls(p, history, prompt);
  }

  /** A failing tool never fails the loop: `agent_loop` raises only what listing the tools or the
      last model call raised. */
  lemma ExchangeFailsOnlyUpstream(listing: Result<seq<ToolInfo>, Exception>, backend: Backend, executor: Executor,
                                  history: seq<Content>, prompt: string)
    ensures var r := Exchange(listing, backend, executor, history, prompt);
      r.stop.Aborted? ==>
        || (listing.Failure? && r.stop.error == listing.error)
        || (r.requests != [] && Receive(backend(r.requests[|r.requests| - 1])) == Failure(r.stop.error))
  {
    if listing.Success? {
      StopReason(Wiring(Declarations(listing.value), backend, executor), history, prompt);
    }
  }

  /** `MCPGeminiAgent`: the conversation history and the tool declarations of the last turn. The
      MCP session and the Gemini client are the `listing`, `backend` and `executor` parameters. */
  class McpGeminiAgent {
    var contents: seq<Content>
    var tools: Option<seq<FunctionDeclaration>>

    constructor ()
      ensures contents == [] && tools == None
    {
      contents := [];
      tools := None;
    }

    /** `agent_loop`: append the prompt, declare the listed tools, ask the model, then execute the
        calls it asks for and ask again, at most five times; answer the last response or raise. */
    method AgentLoop(prompt: string, listing: Result<seq<ToolInfo>, Exception>, backend: Backend, executor: Executor)
      returns (r: Result<ModelReply, Exception>, ghost requests: seq<Request>)
      modifies this
      ensures var run := Exchange(listing, backend, executor, old(contents), prompt);
        && contents == old(contents) + run.turns
        && requests == run.requests
        && r == AsResult(run.stop)
      ensures tools == (if listing.Success? then Some(Declarations(listing.value)) else old(tools))
    {
      var user := UserTurn(prompt);
      contents := contents + [user];
      if listing.Failure? {
        r, requests := Failure(listing.error), [];
        return;
      }
      var decls := Declarations(listing.value);
      tools := Some(decls);
      var p := Wiring(decls, backend, executor);
      ghost var run := Converse(p, old(contents), prompt);
      assert run == Exchange(listing, backend, executor, old(contents), prompt);
      var request := Ask(p, contents, FirstTemperature);
      var received := Receive(backend(request));
      if received.Failure? {
        assert run == Run([user], [request], 0, Aborted(received.error));
        r, requests := Failure(received.error), [request];
        return;
      }
      ghost var rest := ToolRounds(p, contents, received.value, 0);
      assert run == Run([user] + rest.turns, [request] + rest.requests, rest.rounds, rest.stop);
      ghost var requests' := [];
      AppendTwice(old(contents), [user], rest.turns);
      r, requests' := ToolLoop(p, received.value);
      requests := [request] + requests';
    }

    /** The `while` loop of `agent_loop`, entered with the model's first response: while it asks
        for calls and fewer than five round-trips were made, execute the calls, append their
        results and ask again. */
    method ToolLoop(p: Loop, reply: ModelReply) returns (r: Result<ModelReply, Exception>, ghost requests: seq<Request>)
      requires |reply.candidates| > 0
      requires forall fc :: p.amend(fc) == fc
      modifies this`contents
      ensures var run := ToolRounds(p, old(contents), reply, 0);
        && contents == old(contents) + run.turns
        && requests == run.requests
        && r == AsResult(run.stop)
    {
      var response := reply;
      ghost var before, done := contents, [];
      ProgressStarts(p, before, reply);
      contents := contents + [response.candidates[0]];
      requests := [];
      var turnCount := 0;
      while FunctionCalls(response) != [] && turnCount < MaxToolTurns
        invariant Progress(p, old(contents), reply, done, requests, before, response, turnCount)
        invariant contents == before + [response.candidates[0]]
        decreases MaxToolTurns - turnCount
      {
        var turn := response.candidates[0];
        AmendCallsIdentity(turn.parts, p.amend);
        var parts := ExecuteCalls(FunctionCalls(response), p.respond);
        ghost var head := RoundTurns(p, response);
        assert head == [turn] + [Content(User, parts)];
        AppendTwice(before, [turn], [Content(User, parts)]);
        contents := contents + [Content(User, parts)];
        assert contents == before + head;
        var request := Ask(p, contents, FollowUpTemperature);
        var received := Receive(p.backend(request));
        if received.Failure? {
          ProgressAborts(p, old(contents), reply, done, requests, before, response, turnCount, received.error);
          r, requests := Failure(received.error), requests + [request];
          return;
        }
        ProgressGoesOn(p, old(contents), reply, done, requests, before, response, turnCount, received.value);
        requests := requests + [request];
        turnCount := turnCount + 1;
        response := received.value;
        before, done := contents, done + head;
        contents := contents + [response.candidates[0]];
      }
      ProgressStops(p, old(contents), reply, done, requests, before, response, turnCount);
      r := Success(response);
    }
  }
}
