/** The tool-augmented conversation loop that both agents run, as a specification: what one
    `agent_loop` call appends to the history, which requests it sends to the model, and how it
    stops. Each agent's imperative `AgentLoop` method is proved against `Converse`. */
module Orchestration {
  import opened Wrappers
  import opened Py
  import opened Gemini
  import opened Sequences

  /** `max_tool_turns`: the hard cap on tool round-trips per user turn. */
  const MaxToolTurns: nat := 5
  /** The temperature of the first model call of a user turn. */
  const FirstTemperature: real := 0.0
  /** The temperature of every later model call of the same user turn. */
  const FollowUpTemperature: real := 1.0

  /** The prefix of the error text a tool call that raised is answered with. */
  const ToolFailurePrefix := "Tool execution failed: "

  /** `response.candidates[0]` on an empty candidate list. */
  const IndexError := Exception("IndexError", "list index out of range")
  /** `response.candidates[0]` on a response whose `candidates` is None. */
  const NoneSubscript := Exception("TypeError", "'NoneType' object is not subscriptable")

  /** One `generate_content` call: model, the whole history at that moment, temperature, tools. */
  datatype Request = Request(model: string, contents: seq<Content>, temperature: real, tools: seq<FunctionDeclaration>)

  /** What the model backend does with a request: answer it, answer with `candidates` None (a
      blocked prompt, say), or raise. */
  datatype Answer = Answered(reply: ModelReply) | NoCandidates | Raised(error: Exception)

  type Backend = Request -> Answer

  /** The collaborators of one loop: the model, the declared tools, the backend, how a function
      call is answered, and how answering it rewrites the call in place (the identity for an
      agent that does not touch the call's arguments). */
  datatype Loop = Loop(
    model: string,
    tools: seq<FunctionDeclaration>,
    backend: Backend,
    respond: FunctionCall -> ToolResponse,
    amend: FunctionCall -> FunctionCall)

  /** How a loop ended: with the last model response, or with an exception. */
  datatype Stop = Finished(reply: ModelReply) | Aborted(error: Exception)

  /** The turns one loop appended, the requests it sent, its round-trip count and how it ended. */
  datatype Run = Run(turns: seq<Content>, requests: seq<Request>, rounds: nat, stop: Stop)

  function Ask(p: Loop, history: seq<Content>, temperature: real): Request {
    Request(p.model, history, temperature, p.tools)
  }

  /** The response of a model call, or the exception it raises; a response without candidates
      fails at `response.candidates[0]`. */
  function Receive(a: Answer): (r: Result<ModelReply, Exception>)
    ensures r.Success? <==> a.Answered? && |a.reply.candidates| > 0
    ensures r.Success? ==> r.value == a.reply
  {
    match a
    case Raised(e) => Failure(e)
    case NoCandidates => Failure(NoneSubscript)
    case Answered(reply) => if reply.candidates == [] then Failure(IndexError) else Success(reply)
  }

  /** The three ways a model call fails: the exception it raised is passed on, no candidate list
      is the `TypeError` of subscripting None, and an empty one the `IndexError`. */
  lemma ReceiveFailures(a: Answer)
    ensures a.Raised? ==> Receive(a) == Failure(a.error)
    ensures a.NoCandidates? ==> Receive(a) == Failure(NoneSubscript)
    ensures a.Answered? && a.reply.candidates == [] ==> Receive(a) == Failure(IndexError)
  {
  }

  /** The parts of a tool-result turn: one function response per call, in call order. */
  function ResponseParts(calls: seq<FunctionCall>, respond: FunctionCall -> ToolResponse): (parts: seq<Part>)
    ensures |parts| == |calls|
  {
    if calls == [] then []
    else [FunctionResponsePart(calls[0].name, respond(calls[0]))] + ResponseParts(calls[1..], respond)
  }

  /** Each part of a tool-result turn is the response to the call at the same position, under
      that call's name. */
  lemma {:induction false} ResponsePartsAnswer(calls: seq<FunctionCall>, respond: FunctionCall -> ToolResponse)
    ensures forall i :: 0 <= i < |calls| ==>
      ResponseParts(calls, respond)[i] == FunctionResponsePart(calls[i].name, respond(calls[i]))
  {
    if calls != [] {
      ResponsePartsAnswer(calls[1..], respond);
    }
  }

  /** The model turn after its calls have been answered (and possibly rewritten in place). */
  function AmendTurn(turn: Content, amend: FunctionCall -> FunctionCall): Content {
    Content(turn.role, AmendCalls(turn.parts, amend))
  }

  /** The `while` loop of `agent_loop`, entered with the response `reply` whose first candidate
      has just been appended after `before`, and `count` round-trips done. `turns` starts with
      that model turn. */
  function ToolRounds(p: Loop, before: seq<Content>, reply: ModelReply, count: nat): (r: Run)
    requires |reply.candidates| > 0 && count <= MaxToolTurns
    ensures count <= r.rounds <= MaxToolTurns
    ensures |r.requests| == r.rounds - count
    ensures |r.turns| == 2 * (r.rounds - count) + (if r.stop.Finished? then 1 else 0)
    ensures r.stop.Aborted? ==> r.rounds > count
    decreases MaxToolTurns - count
  {
    var turn := reply.candidates[0];
    var calls := FunctionCalls(reply);
    if calls == [] || count == MaxToolTurns then Run([turn], [], count, Finished(reply))
    else
      var answered := AmendTurn(turn, p.amend);
      var toolTurn := Content(User, ResponseParts(calls, p.respond));
      var history := before + [answered, toolTurn];
      var request := Ask(p, history, FollowUpTemperature);
      match Receive(p.backend(request))
      case Failure(e) => Run([answered, toolTurn], [request], count + 1, Aborted(e))
      case Success(next) =>
        var rest := ToolRounds(p, history, next, count + 1);
        Run([answered, toolTurn] + rest.turns, [request] + rest.requests, rest.rounds, rest.stop)
  }

  /** The two turns one round-trip appends: the model turn asking for calls, as the calls left
      it, and the tool-result turn answering them. */
  function RoundTurns(p: Loop, reply: ModelReply): seq<Content>
    requires |reply.candidates| > 0
  {
    [AmendTurn(reply.candidates[0], p.amend), Content(User, ResponseParts(FunctionCalls(reply), p.respond))]
  }

  /** The `while` condition fails: the loop ends on `reply`. */
  lemma ToolRoundsStops(p: Loop, before: seq<Content>, reply: ModelReply, count: nat)
    requires |reply.candidates| > 0 && count <= MaxToolTurns
    requires FunctionCalls(reply) == [] || count == MaxToolTurns
    ensures ToolRounds(p, before, reply, count) == Run([reply.candidates[0]], [], count, Finished(reply))
  {
  }

  /** A round-trip whose model call raises ends the loop with that exception. */
  lemma ToolRoundsAborts(p: Loop, before: seq<Content>, reply: ModelReply, count: nat, e: Exception)
    requires |reply.candidates| > 0 && count < MaxToolTurns && FunctionCalls(reply) != []
    requires Receive(p.backend(Ask(p, before + RoundTurns(p, reply), FollowUpTemperature))) == Failure(e)
    ensures ToolRounds(p, before, reply, count) ==
      Run(RoundTurns(p, reply), [Ask(p, before + RoundTurns(p, reply), FollowUpTemperature)], count + 1, Aborted(e))
  {
  }

  /** A round-trip whose model call answers goes on with the next round. */
  lemma ToolRoundsGoesOn(p: Loop, before: seq<Content>, reply: ModelReply, count: nat, next: ModelReply)
    requires |reply.candidates| > 0 && count < MaxToolTurns && FunctionCalls(reply) != []
    requires Receive(p.backend(Ask(p, before + RoundTurns(p, reply), FollowUpTemperature))) == Success(next)
    ensures var history := before + RoundTurns(p, reply);
      var rest := ToolRounds(p, history, next, count + 1);
      ToolRounds(p, before, reply, count) ==
        Run(RoundTurns(p, reply) + rest.turns, [Ask(p, history, FollowUpTemperature)] + rest.requests, rest.rounds, rest.stop)
  {
  }

  /** Where an imperative run of the tool loop stands: it started on `start` with `first`, has
      appended `done` and sent `sent`, and now holds `reply` after `count` round-trips, with the
      history `before` preceding that reply's turn. What the specification still has to do from
      here completes what was done into the whole run. */
  ghost predicate Progress(p: Loop, start: seq<Content>, first: ModelReply, done: seq<Content>, sent: seq<Request>,
                           before: seq<Content>, reply: ModelReply, count: nat)
  {
    && |first.candidates| > 0 && |reply.candidates| > 0 && count <= MaxToolTurns
    && before == start + done
    && var rest := ToolRounds(p, before, reply, count);
       ToolRounds(p, start, first, 0) == Run(done + rest.turns, sent + rest.requests, rest.rounds, rest.stop)
  }

  lemma ProgressStarts(p: Loop, start: seq<Content>, first: ModelReply)
    requires |first.candidates| > 0
    ensures Progress(p, start, first, [], [], start, first, 0)
  {
    var rest := ToolRounds(p, start, first, 0);
    assert [] + rest.turns == rest.turns && [] + rest.requests == rest.requests;
  }

  lemma ProgressGoesOn(p: Loop, start: seq<Content>, first: ModelReply, done: seq<Content>, sent: seq<Request>,
                       before: seq<Content>, reply: ModelReply, count: nat, next: ModelReply)
    requires Progress(p, start, first, done, sent, before, reply, count)
    requires count < MaxToolTurns && FunctionCalls(reply) != []
    requires Receive(p.backend(Ask(p, before + RoundTurns(p, reply), FollowUpTemperature))) == Success(next)
    ensures Progress(p, start, first, done + RoundTurns(p, reply), sent + [Ask(p, before + RoundTurns(p, reply), FollowUpTemperature)],
                     before + RoundTurns(p, reply), next, count + 1)
  {
    var head := RoundTurns(p, reply);
    var request := Ask(p, before + head, FollowUpTemperature);
    ToolRoundsGoesOn(p, before, reply, count, next);
    var rest := ToolRounds(p, before + head, next, count + 1);
    AppendTwice(done, head, rest.turns);
    AppendTwice(sent, [request], rest.requests);
    AppendTwice(start, done, head);
  }

  lemma ProgressAborts(p: Loop, start: seq<Content>, first: ModelReply, done: seq<Content>, sent: seq<Request>,
                       before: seq<Content>, reply: ModelReply, count: nat, e: Exception)
    requires Progress(p, start, first, done, sent, before, reply, count)
    requires count < MaxToolTurns && FunctionCalls(reply) != []
    requires Receive(p.backend(Ask(p, before + RoundTurns(p, reply), FollowUpTemperature))) == Failure(e)
    ensures var run := ToolRounds(p, start, first, 0);
      && start + run.turns == before + RoundTurns(p, reply)
      && run.requests == sent + [Ask(p, before + RoundTurns(p, reply), FollowUpTemperature)]
      && run.rounds == count + 1 && run.stop == Aborted(e)
  {
    ToolRoundsAborts(p, before, reply, count, e);
    AppendTwice(start, done, RoundTurns(p, reply));
    AppendTwice(sent, [Ask(p, before + RoundTurns(p, reply), FollowUpTemperature)], []);
  }

  lemma ProgressStops(p: Loop, start: seq<Content>, first: ModelReply, done: seq<Content>, sent: seq<Request>,
                      before: seq<Content>, reply: ModelReply, count: nat)
    requires Progress(p, start, first, done, sent, before, reply, count)
    requires FunctionCalls(reply) == [] || count == MaxToolTurns
    ensures var run := ToolRounds(p, start, first, 0);
      && start + run.turns == before + [reply.candidates[0]]
      && run.requests == sent
      && run.rounds == count && run.stop == Finished(reply)
  {
    ToolRoundsStops(p, before, reply, count);
    AppendTwice(start, done, [reply.candidates[0]]);
    assert sent + [] == sent;
  }

  /** One `agent_loop` call on the history `history`: append the user turn, ask the model at the
      first temperature, append its turn, then run the tool loop. */
  function Converse(p: Loop, history: seq<Content>, prompt: string): (r: Run)
    ensures |r.turns| >= 1 && r.turns[0] == UserTurn(prompt)
    ensures r.rounds <= MaxToolTurns && |r.requests| == r.rounds + 1
    ensures |r.turns| == 1 + 2 * r.rounds + (if r.stop.Finished? then 1 else 0)
  {
    var user := UserTurn(prompt);
    var request := Ask(p, history + [user], FirstTemperature);
    match Receive(p.backend(request))
    case Failure(e) => Run([user], [request], 0, Aborted(e))
    case Success(reply) =>
      var rest := ToolRounds(p, history + [user], reply, 0);
      Run([user] + rest.turns, [request] + rest.requests, rest.rounds, rest.stop)
  }

  // ---------------------------------------------------------------------------------------------
  // Temperatures

  ghost predicate AllFollowUps(requests: seq<Request>) {
    forall i :: 0 <= i < |requests| ==> requests[i].temperature == FollowUpTemperature
  }

  lemma {:induction false} ToolRoundsFollowUpTemperature(p: Loop, before: seq<Content>, reply: ModelReply, count: nat)
    requires |reply.candidates| > 0 && count <= MaxToolTurns
    ensures AllFollowUps(ToolRounds(p, before, reply, count).requests)
    decreases MaxToolTurns - count
  {
    var calls := FunctionCalls(reply);
    if calls != [] && count < MaxToolTurns {
      var history := before + [AmendTurn(reply.candidates[0], p.amend), Content(User, ResponseParts(calls, p.respond))];
      match Receive(p.backend(Ask(p, history, FollowUpTemperature))) {
        case Failure(_) =>
        case Success(next) =>
          ToolRoundsFollowUpTemperature(p, history, next, count + 1);
      }
    }
  }

  /** The first model call of a user turn runs at temperature 0, every later one at 1.0. */
  lemma TemperaturePolicy(p: Loop, history: seq<Content>, prompt: string)
    ensures var r := Converse(p, history, prompt);
      r.requests[0].temperature == FirstTemperature && AllFollowUps(r.requests[1..])
  {
    var user := UserTurn(prompt);
    var r := Converse(p, history, prompt);
    match Receive(p.backend(Ask(p, history + [user], FirstTemperature))) {
      case Failure(_) =>
        assert r.requests[1..] == [];
      case Success(reply) =>
        ToolRoundsFollowUpTemperature(p, history + [user], reply, 0);
        assert r.requests[1..] == ToolRounds(p, history + [user], reply, 0).requests;
    }
  }

  // ---------------------------------------------------------------------------------------------
  // Every request carries the whole history so far

  ghost predicate SeesHistory(p: Loop, before: seq<Content>, turns: seq<Content>, requests: seq<Request>)
    decreases |requests|
  {
    requests == [] ||
      (|turns| >= 2 && requests[0] == Ask(p, before + turns[..2], FollowUpTemperature) &&
       SeesHistory(p, before + turns[..2], turns[2..], requests[1..]))
  }

  lemma {:induction false} ToolRoundsSeeHistory(p: Loop, before: seq<Content>, reply: ModelReply, count: nat)
    requires |reply.candidates| > 0 && count <= MaxToolTurns
    ensures var r := ToolRounds(p, before, reply, count); SeesHistory(p, before, r.turns, r.requests)
    decreases MaxToolTurns - count
  {
    var r := ToolRounds(p, before, reply, count);
    var calls := FunctionCalls(reply);
    if calls == [] || count == MaxToolTurns {
      assert ToolRounds(p, before, reply, count) == Run([reply.candidates[0]], [], count, Finished(reply));
    } else {
      var head := [AmendTurn(reply.candidates[0], p.amend), Content(User, ResponseParts(calls, p.respond))];
      var history := before + head;
      var request := Ask(p, history, FollowUpTemperature);
      var received := Receive(p.backend(request));
      assert r.turns[..2] == head;
      if received.Success? {
        var rest := ToolRounds(p, history, received.value, count + 1);
        ToolRoundsSeeHistory(p, history, received.value, count + 1);
        assert r.turns[2..] == rest.turns;
        assert r.requests[1..] == rest.requests;
      } else {
        assert r.requests[1..] == [];
      }
    }
  }

  lemma {:induction false} SeesHistoryAt(p: Loop, before: seq<Content>, turns: seq<Content>, requests: seq<Request>)
    requires SeesHistory(p, before, turns, requests)
    ensures forall i :: 0 <= i < |requests| ==>
      2 * i + 2 <= |turns| && requests[i] == Ask(p, before + turns[..2 * i + 2], FollowUpTemperature)
    decreases |requests|
  {
    if requests != [] {
      SeesHistoryAt(p, before + turns[..2], turns[2..], requests[1..]);
      forall i | 1 <= i < |requests|
        ensures 2 * i + 2 <= |turns| && requests[i] == Ask(p, before + turns[..2 * i + 2], FollowUpTemperature)
      {
        assert requests[i] == requests[1..][i - 1];
        assert turns[..2 * i + 2] == turns[..2] + turns[2..][..2 * (i - 1) + 2];
      }
    }
  }

  /** Every request carries the conversation so far, with the loop's model and tools. */
  ghost predicate ExtendsHistory(p: Loop, history: seq<Content>, turns: seq<Content>, requests: seq<Request>)
  {
    forall i :: 0 <= i < |requests| ==>
      && 2 * i + 1 <= |turns|
      && requests[i].contents == history + turns[..2 * i + 1]
      && requests[i].model == p.model && requests[i].tools == p.tools
  }

  lemma {:induction false} PrefixExtendsHistory(p: Loop, history: seq<Content>, user: Content, first: Request,
                                                 later: seq<Content>, laterRequests: seq<Request>)
    requires first == Ask(p, history + [user], FirstTemperature)
    requires SeesHistory(p, history + [user], later, laterRequests)
    ensures ExtendsHistory(p, history, [user] + later, [first] + laterRequests)
  {
    SeesHistoryAt(p, history + [user], later, laterRequests);
    var turns, requests := [user] + later, [first] + laterRequests;
    forall i | 0 <= i < |requests|
      ensures 2 * i + 1 <= |turns| && requests[i].contents == history + turns[..2 * i + 1]
      ensures requests[i].model == p.model && requests[i].tools == p.tools
    {
      if i > 0 {
        assert requests[i] == laterRequests[i - 1];
        assert turns[..2 * i + 1] == [user] + later[..2 * (i - 1) + 2];
      }
    }
  }

  lemma RequestsSeeHistory(p: Loop, history: seq<Content>, prompt: string)
    ensures var r := Converse(p, history, prompt); ExtendsHistory(p, history, r.turns, r.requests)
  {
    var r := Converse(p, history, prompt);
    var user := UserTurn(prompt);
    var first := Ask(p, history + [user], FirstTemperature);
    match Receive(p.backend(first)) {
      case Failure(_) =>
        PrefixExtendsHistory(p, history, user, first, [], []);
        assert r.turns == [user] + [] && r.requests == [first] + [];
      case Success(reply) =>
        var rest := ToolRounds(p, history + [user], reply, 0);
        ToolRoundsSeeHistory(p, history + [user], reply, 0);
        PrefixExtendsHistory(p, history, user, first, rest.turns, rest.requests);
    }
  }

  // ---------------------------------------------------------------------------------------------
  // Tool-result turns answer the calls of the model turn before them

  /** Rewriting a call in place keeps its name and the response its execution produces. */
  ghost predicate AmendIsHarmless(p: Loop) {
    forall fc :: p.amend(fc).name == fc.name && p.respond(p.amend(fc)) == p.respond(fc)
  }

  lemma {:induction false} ResponsePartsOfAmended(calls: seq<FunctionCall>, p: Loop)
    requires AmendIsHarmless(p)
    ensures ResponseParts(MapCalls(calls, p.amend), p.respond) == ResponseParts(calls, p.respond)
  {
    var a := ResponseParts(MapCalls(calls, p.amend), p.respond);
    var b := ResponseParts(calls, p.respond);
    ResponsePartsAnswer(MapCalls(calls, p.amend), p.respond);
    ResponsePartsAnswer(calls, p.respond);
    forall i | 0 <= i < |calls| ensures a[i] == b[i] {
      assert MapCalls(calls, p.amend)[i] == p.amend(calls[i]);
    }
  }

  /** `turns` is a sequence of (model turn asking for calls, tool-result turn answering exactly
      those calls) pairs, possibly followed by one last model turn. */
  ghost predicate PairsAnswer(p: Loop, turns: seq<Content>)
    decreases |turns|
  {
    |turns| < 2 ||
      (CallsIn(turns[0].parts) != [] &&
       turns[1] == Content(User, ResponseParts(CallsIn(turns[0].parts), p.respond)) &&
       PairsAnswer(p, turns[2..]))
  }

  lemma {:induction false} ToolRoundsAnswerCalls(p: Loop, before: seq<Content>, reply: ModelReply, count: nat)
    requires |reply.candidates| > 0 && count <= MaxToolTurns
    requires AmendIsHarmless(p)
    ensures PairsAnswer(p, ToolRounds(p, before, reply, count).turns)
    decreases MaxToolTurns - count
  {
    var r := ToolRounds(p, before, reply, count);
    var turn := reply.candidates[0];
    var calls := FunctionCalls(reply);
    if calls != [] && count < MaxToolTurns {
      var answered := AmendTurn(turn, p.amend);
      var toolTurn := Content(User, ResponseParts(calls, p.respond));
      var history := before + [answered, toolTurn];
      CallsInAmended(turn.parts, p.amend);
      ResponsePartsOfAmended(calls, p);
      assert CallsIn(answered.parts) == MapCalls(calls, p.amend);
      match Receive(p.backend(Ask(p, history, FollowUpTemperature))) {
        case Failure(_) =>
          assert r.turns[2..] == [];
        case Success(next) =>
          ToolRoundsAnswerCalls(p, history, next, count + 1);
          assert r.turns[2..] == ToolRounds(p, history, next, count + 1).turns;
      }
    }
  }

  /** Every pair of turns at positions 2j+1 and 2j+2: the model turn asked for calls and the
      turn after it is a user-role tool-result turn with one function response per call, in the
      same order and under the same name. */
  ghost predicate ToolTurnsAnswer(p: Loop, turns: seq<Content>) {
    forall j :: 0 <= j && 2 * j + 2 < |turns| ==>
      && CallsIn(turns[2 * j + 1].parts) != []
      && turns[2 * j + 2] == Content(User, ResponseParts(CallsIn(turns[2 * j + 1].parts), p.respond))
  }

  lemma {:induction false} PairsAnswerAt(p: Loop, user: Content, later: seq<Content>)
    requires PairsAnswer(p, later)
    ensures ToolTurnsAnswer(p, [user] + later)
    decreases |later|
  {
    if |later| >= 2 {
      PairsAnswerAt(p, user, later[2..]);
      var turns := [user] + later;
      forall j | 0 <= j && 2 * j + 2 < |turns|
        ensures CallsIn(turns[2 * j + 1].parts) != []
        ensures turns[2 * j + 2] == Content(User, ResponseParts(CallsIn(turns[2 * j + 1].parts), p.respond))
      {
        if j > 0 {
          assert turns[2 * j + 1] == ([user] + later[2..])[2 * (j - 1) + 1];
          assert turns[2 * j + 2] == ([user] + later[2..])[2 * (j - 1) + 2];
        }
      }
    }
  }

  /** The tool-result turns of a user turn answer the calls of the model turn just before them,
      whenever answering a call does not depend on how it is rewritten. */
  lemma ToolTurnsAnswerCalls(p: Loop, history: seq<Content>, prompt: string)
    requires AmendIsHarmless(p)
    ensures ToolTurnsAnswer(p, Converse(p, history, prompt).turns)
  {
    var user := UserTurn(prompt);
    match Receive(p.backend(Ask(p, history + [user], FirstTemperature))) {
      case Failure(_) =>
        PairsAnswerAt(p, user, []);
        assert [user] + [] == [user];
      case Success(reply) =>
        ToolRoundsAnswerCalls(p, history + [user], reply, 0);
        PairsAnswerAt(p, user, ToolRounds(p, history + [user], reply, 0).turns);
    }
  }

  // ---------------------------------------------------------------------------------------------
  // Why a loop stops

  /** The backend outcome a loop ended on. */
  function AsResult(s: Stop): Result<ModelReply, Exception> {
    match s
    case Finished(reply) => Success(reply)
    case Aborted(e) => Failure(e)
  }

  /** A finished loop ended on a model turn that asked for no calls, unless the cap of
      round-trips was reached. */
  ghost predicate FinishedWhy(r: Run) {
    r.stop.Finished? ==> FunctionCalls(r.stop.reply) == [] || r.rounds == MaxToolTurns
  }

  /** A finished loop's final response is the last turn appended. */
  ghost predicate FinishedOnLastTurn(r: Run) {
    r.stop.Finished? ==>
      |r.stop.reply.candidates| > 0 && |r.turns| > 0 && r.turns[|r.turns| - 1] == r.stop.reply.candidates[0]
  }

  lemma {:induction false} ToolRoundsFinishWhy(p: Loop, before: seq<Content>, reply: ModelReply, count: nat)
    requires |reply.candidates| > 0 && count <= MaxToolTurns
    ensures FinishedWhy(ToolRounds(p, before, reply, count))
    decreases MaxToolTurns - count
  {
    var calls := FunctionCalls(reply);
    if calls != [] && count < MaxToolTurns {
      var history := before + [AmendTurn(reply.candidates[0], p.amend), Content(User, ResponseParts(calls, p.respond))];
      match Receive(p.backend(Ask(p, history, FollowUpTemperature))) {
        case Failure(_) =>
        case Success(next) =>
          ToolRoundsFinishWhy(p, history, next, count + 1);
      }
    }
  }

  lemma PrefixKeepsLastTurn(head: seq<Content>, rest: Run, requests: seq<Request>)
    requires FinishedOnLastTurn(rest)
    ensures FinishedOnLastTurn(Run(head + rest.turns, requests, rest.rounds, rest.stop))
  {
    if rest.stop.Finished? {
      assert (head + rest.turns)[|head + rest.turns| - 1] == rest.turns[|rest.turns| - 1];
    }
  }

  lemma {:induction false} ToolRoundsFinishLast(p: Loop, before: seq<Content>, reply: ModelReply, count: nat)
    requires |reply.candidates| > 0 && count <= MaxToolTurns
    ensures FinishedOnLastTurn(ToolRounds(p, before, reply, count))
    decreases MaxToolTurns - count
  {
    var calls := FunctionCalls(reply);
    if calls != [] && count < MaxToolTurns {
      var head := [AmendTurn(reply.candidates[0], p.amend), Content(User, ResponseParts(calls, p.respond))];
      var history := before + head;
      var request := Ask(p, history, FollowUpTemperature);
      match Receive(p.backend(request)) {
        case Failure(_) =>
        case Success(next) =>
          ToolRoundsFinishLast(p, history, next, count + 1);
          PrefixKeepsLastTurn(head, ToolRounds(p, history, next, count + 1), [request] + ToolRounds(p, history, next, count + 1).requests);
      }
    }
  }

  lemma {:induction false} ToolRoundsLastAnswer(p: Loop, before: seq<Content>, reply: ModelReply, count: nat)
    requires |reply.candidates| > 0 && count <= MaxToolTurns
    ensures EndsOnLastAnswer(p, ToolRounds(p, before, reply, count), reply)
    decreases MaxToolTurns - count
  {
    if FunctionCalls(reply) == [] || count == MaxToolTurns {
      LastAnswerStops(p, before, reply, count);
    } else {
      var history := before + RoundTurns(p, reply);
      match Receive(p.backend(Ask(p, history, FollowUpTemperature))) {
        case Failure(e) =>
          LastAnswerAborts(p, before, reply, count, e);
        case Success(next) =>
          ToolRoundsLastAnswer(p, history, next, count + 1);
          LastAnswerCarries(p, before, reply, count, next);
      }
    }
  }

  /** The loop's result is the backend's outcome for the last request it sent, or the reply it
      started on when it sent none. */
  ghost predicate EndsOnLastAnswer(p: Loop, r: Run, reply: ModelReply) {
    && (r.requests == [] ==> r.stop == Finished(reply))
    && (r.requests != [] ==> Receive(p.backend(r.requests[|r.requests| - 1])) == AsResult(r.stop))
  }

  /** A loop that stops at once sends nothing and ends on the reply it started on. */
  lemma LastAnswerStops(p: Loop, before: seq<Content>, reply: ModelReply, count: nat)
    requires |reply.candidates| > 0 && count <= MaxToolTurns
    requires FunctionCalls(reply) == [] || count == MaxToolTurns
    ensures EndsOnLastAnswer(p, ToolRounds(p, before, reply, count), reply)
  {
    ToolRoundsStops(p, before, reply, count);
  }

  /** A round-trip whose model call raises ends the loop on that exception, its last request. */
  lemma LastAnswerAborts(p: Loop, before: seq<Content>, reply: ModelReply, count: nat, e: Exception)
    requires |reply.candidates| > 0 && count < MaxToolTurns && FunctionCalls(reply) != []
    requires Receive(p.backend(Ask(p, before + RoundTurns(p, reply), FollowUpTemperature))) == Failure(e)
    ensures EndsOnLastAnswer(p, ToolRounds(p, before, reply, count), reply)
  {
    ToolRoundsAborts(p, before, reply, count, e);
  }

  /** One round-trip that answers keeps the loop ending on the last answer. */
  lemma LastAnswerCarries(p: Loop, before: seq<Content>, reply: ModelReply, count: nat, next: ModelReply)
    requires |reply.candidates| > 0 && count < MaxToolTurns && FunctionCalls(reply) != []
    requires Receive(p.backend(Ask(p, before + RoundTurns(p, reply), FollowUpTemperature))) == Success(next)
    requires EndsOnLastAnswer(p, ToolRounds(p, before + RoundTurns(p, reply), next, count + 1), next)
    ensures EndsOnLastAnswer(p, ToolRounds(p, before, reply, count), reply)
  {
    var history := before + RoundTurns(p, reply);
    var request := Ask(p, history, FollowUpTemperature);
    var rest := ToolRounds(p, history, next, count + 1);
    ToolRoundsGoesOn(p, before, reply, count, next);
    var r := ToolRounds(p, before, reply, count);
    assert r.requests == [request] + rest.requests && r.stop == rest.stop;
    if rest.requests != [] {
      assert r.requests[|r.requests| - 1] == rest.requests[|rest.requests| - 1];
    } else {
      assert r.requests == [request] && r.stop == Finished(next);
    }
  }

  /** A user turn finishes with a model response that is the last turn appended and that asked
      for no calls, unless the cap of round-trips was reached. */
  lemma FinishReason(p: Loop, history: seq<Content>, prompt: string)
    ensures var r := Converse(p, history, prompt); FinishedWhy(r) && FinishedOnLastTurn(r)
  {
    var user := UserTurn(prompt);
    var request := Ask(p, history + [user], FirstTemperature);
    match Receive(p.backend(request)) {
      case Failure(_) =>
      case Success(reply) =>
        var rest := ToolRounds(p, history + [user], reply, 0);
        ToolRoundsFinishWhy(p, history + [user], reply, 0);
        ToolRoundsFinishLast(p, history + [user], reply, 0);
        PrefixKeepsLastTurn([user], rest, [request] + rest.requests);
    }
  }

  /** A user turn ends on the backend's outcome for the last request it sent: the loop's result
      is that response, or that exception. A tool never ends the loop. */
  lemma StopReason(p: Loop, history: seq<Content>, prompt: string)
    ensures var r := Converse(p, history, prompt);
      Receive(p.backend(r.requests[|r.requests| - 1])) == AsResult(r.stop)
  {
    var user := UserTurn(prompt);
    match Receive(p.backend(Ask(p, history + [user], FirstTemperature))) {
      case Failure(_) =>
      case Success(reply) =>
        var rest := ToolRounds(p, history + [user], reply, 0);
        ToolRoundsLastAnswer(p, history + [user], reply, 0);
        var r := Converse(p, history, prompt);
        if rest.requests != [] {
          assert r.requests[|r.requests| - 1] == rest.requests[|rest.requests| - 1];
        }
    }
  }

  // ---------------------------------------------------------------------------------------------
  // The inner `for` loop

  /** Execute every function call in order and collect one function-response part per call. */
  method ExecuteCalls(calls: seq<FunctionCall>, respond: FunctionCall -> ToolResponse) returns (parts: seq<Part>)
    ensures parts == ResponseParts(calls, respond)
  {
    parts := [];
    for i := 0 to |calls|
      invariant |parts| == i
      invariant forall k :: 0 <= k < i ==> parts[k] == FunctionResponsePart(calls[k].name, respond(calls[k]))
    {
      parts := parts + [FunctionResponsePart(calls[i].name, respond(calls[i]))];
    }
    ResponsePartsAnswer(calls, respond);
  }
}
