/** The values the Gemini SDK exchanges with the conversation loops: turns (`types.Content`),
    their parts, function calls, function declarations and the model's reply. */
module Gemini {
  import opened Wrappers
  import opened Py

  datatype Role = User | Model

  /** A function call the model asks for; `args` is None when the model sent no arguments. */
  datatype FunctionCall = FunctionCall(name: string, args: Option<map<string, Json>>)

  /** The dictionary packaged into a function-response part: `{"result": …}` or `{"error": …}`. */
  datatype ToolResponse = ToolResult(result: string) | ToolError(error: string)

  datatype Part =
    | TextPart(text: string)
    | FunctionCallPart(call: FunctionCall)
    | FunctionResponsePart(name: string, response: ToolResponse)

  /** One turn of the conversation history. */
  datatype Content = Content(role: Role, parts: seq<Part>)

  /** A `generate_content` response: its candidate turns. */
  datatype ModelReply = ModelReply(candidates: seq<Content>)

  datatype Property = Property(name: string, kind: string, description: string)

  /** An object parameter schema: its properties and the names it marks required. */
  datatype Schema = ObjectSchema(properties: seq<Property>, required: seq<string>)

  datatype FunctionDeclaration = FunctionDeclaration(name: string, description: Option<string>, parameters: Option<Schema>)

  /** The turn `types.Content(role="user", parts=[types.Part(text=prompt)])`. */
  function UserTurn(prompt: string): Content {
    Content(User, [TextPart(prompt)])
  }

  /** The function calls among some parts, in order. */
  function CallsIn(parts: seq<Part>): seq<FunctionCall> {
    if parts == [] then []
    else if parts[0].FunctionCallPart? then [parts[0].call] + CallsIn(parts[1..])
    else CallsIn(parts[1..])
  }

  /** A turn asks for no call exactly when none of its parts is a function call. */
  lemma {:induction false} NoCallsWithoutCallParts(parts: seq<Part>)
    ensures CallsIn(parts) == [] <==> forall i :: 0 <= i < |parts| ==> !parts[i].FunctionCallPart?
  {
    if parts != [] {
      NoCallsWithoutCallParts(parts[1..]);
      assert forall i :: 1 <= i < |parts| ==> parts[i] == parts[1..][i - 1];
    }
  }

  /** `response.function_calls`: the calls of the first candidate (none when there is no candidate). */
  function FunctionCalls(reply: ModelReply): seq<FunctionCall> {
    if reply.candidates == [] then [] else CallsIn(reply.candidates[0].parts)
  }

  /** The concatenated text parts, or None when there are none. */
  function TextOf(parts: seq<Part>): (t: Option<string>)
    ensures t.Some? <==> exists i :: 0 <= i < |parts| && parts[i].TextPart?
  {
    if parts == [] then None
    else
      var rest := TextOf(parts[1..]);
      assert forall i :: 1 <= i < |parts| ==> parts[1..][i - 1] == parts[i];
      if parts[0].TextPart? then Some(parts[0].text + (if rest.Some? then rest.value else ""))
      else rest
  }

  /** `response.text`: the text of the first candidate, None when there is none. */
  function ReplyText(reply: ModelReply): Option<string> {
    if reply.candidates == [] then None else TextOf(reply.candidates[0].parts)
  }

  /** `fc_part.args or {}`. */
  function ArgsOrEmpty(args: Option<map<string, Json>>): map<string, Json> {
    if args.Some? then args.value else map[]
  }

  /** The parts after each function call has been rewritten in place by `amend`. */
  function AmendCalls(parts: seq<Part>, amend: FunctionCall -> FunctionCall): (r: seq<Part>)
    ensures |r| == |parts|
  {
    if parts == [] then []
    else
      var head := if parts[0].FunctionCallPart? then FunctionCallPart(amend(parts[0].call)) else parts[0];
      [head] + AmendCalls(parts[1..], amend)
  }

  function MapCalls(calls: seq<FunctionCall>, amend: FunctionCall -> FunctionCall): (r: seq<FunctionCall>)
    ensures |r| == |calls|
    ensures forall i :: 0 <= i < |calls| ==> r[i] == amend(calls[i])
  {
    if calls == [] then [] else [amend(calls[0])] + MapCalls(calls[1..], amend)
  }

  /** Rewriting calls in place changes each call and nothing else: the calls read back from the
      rewritten parts are the rewritten calls, in the same order. */
  lemma {:induction false} CallsInAmended(parts: seq<Part>, amend: FunctionCall -> FunctionCall)
    ensures CallsIn(AmendCalls(parts, amend)) == MapCalls(CallsIn(parts), amend)
  {
    if parts != [] {
      CallsInAmended(parts[1..], amend);
      var r := AmendCalls(parts, amend);
      assert r[1..] == AmendCalls(parts[1..], amend);
    }
  }

  /** Rewriting with the identity leaves the parts as they were. */
  lemma {:induction false} AmendCallsIdentity(parts: seq<Part>, amend: FunctionCall -> FunctionCall)
    requires forall fc :: amend(fc) == fc
    ensures AmendCalls(parts, amend) == parts
  {
    if parts != [] {
      AmendCallsIdentity(parts[1..], amend);
      assert parts == [parts[0]] + parts[1..];
    }
  }
}
