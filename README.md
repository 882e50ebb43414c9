# tytux: the tool-augmented Gemini conversation loop, in Dafny

tytux lets a user ask questions about a New Relic account in plain language. A Gemini model
answers them and may call tools along the way. This project models the part of it that decides
what is said to the model and what comes back:

- **The shared loop** (module `Orchestration`). One `agent_loop` call works in four steps:
  1. It appends the user's prompt to the conversation history.
  2. It asks the model at temperature 0 and appends the first candidate turn.
  3. While the response asks for function calls and fewer than five round-trips were made, it
     answers every call and appends one user-role tool-result turn. It then asks the model again
     at temperature 1.0 and appends the new turn.
  4. It stops on a response without calls, on the fifth round-trip, or on an exception.

  `Converse` and `ToolRounds` are the specification of one such call. They are pure functions of
  the history, the prompt and a `Loop` record, which holds:
  - the model name and the declared tools;
  - the model backend, a function from request to answer;
  - how a call is answered;
  - how answering a call rewrites it in place.
- **The MCP agent** (`client.py`, module `Client`). It lists the tools of an MCP server and
  declares them by name and description. It answers each call through the server and packages
  the result, an error flagged by the server, or an exception as a function response. Exceptions
  of the model call propagate.
- **The New Relic agent** (`simplechat.py`, module `SimpleChat`):
  - It declares three tools with one GraphQL parameter schema.
  - It answers every call, whatever its name, with `_execute_graphql`. That function POSTs the
    query to NerdGraph after inserting the configured account ID into the query's variables.
    It does so in place: the dict it changes is the one inside the stored model turn.
  - It turns the loop's outcome into a reply string: the text, a truncation notice, or an error
    message. `agent_loop` never raises for a string prompt; any other prompt fails when the user
    turn is built (simplechat.py:81), before the `try`, which is how `/chat` drops its agent.
  - `setup_connection` and `cleanup` flip the `session_initialized` flag.
- **The web front end** (`simplechat_app.py`, module `SimpleChatApp`):
  - `format_response_with_markdown` applies a chain of rewrites: greeting, code-fence labels,
    bold JSON keys, emoji flags, section dividers and a footer. Each rewrite is modelled exactly,
    including both regular expressions, written as left-to-right scanners.
  - The `/chat` and `/clear` routes keep a chat log and a single shared agent. They are the
    `ChatServer` class.

State that the source changes in place is modelled by classes with `modifies` clauses: the
agents' `contents`, the `session_initialized` flag, and the app's `messages` and `agent` globals.
Each imperative method, with its `while` and `for` loops, is proved against the pure
specification. The properties are proved about that specification.

Two behaviours of the source are modelled as written:

- **A failed setup leaves the agent in the slot.** When the Gemini key is set but the New Relic
  key is not, creating the agent succeeds and `/chat` assigns it before `setup_connection`
  raises. The next message is then answered by that agent. It was never set
  up, so its history does not start with the initial account-ID prompt
  (`SimpleChatApp.FailedSetupAnswersNext`).
- **`_execute_graphql` changes the stored call.** It completes the variables of the call inside
  the model turn already appended. The stored turn therefore differs from the one the model sent,
  but answering the stored call again gives the same response
  (`SimpleChat.WiringAmendIsHarmless`).

Outside calls are parameters of the model:

- **The model backend** (`Orchestration.Backend`) stands for the Gemini client. It sees the whole
  request, including the history, so it can be any scripted or adaptive behaviour.
- **The MCP session** is split in two. The outcome of `list_tools` is a parameter, and
  `call_tool` is an `Executor` function.
- **New Relic calls** go through `SimpleChat.Services`, which holds `requests.post`, `json.dumps`
  and `str` of a decoded value.
- **The process environment** is a `map<string, string>`.
- **pydantic's validation message** is the `validation` parameter. It is the message for a chat
  message that is not a string.

## Model

| member | source | states |
|---|---|---|
| Orchestration.Receive | client.py:83-91 | a response counts exactly when the model answered with at least one candidate, and then it is that answer |
| Orchestration.ReceiveFailures | client.py:83-91 | a raised exception is passed on as the failure; `candidates` None fails with the `TypeError` `'NoneType' object is not subscriptable`, and an empty candidate list with the `IndexError` of `candidates[0]` |
| Orchestration.ResponsePartsAnswer | client.py:97-117 | the tool-result turn holds one function response per call, in call order, under the call's name |
| Orchestration.ToolRounds | client.py:93-128 | the `while` loop makes between `count` and 5 round-trips, sends one request per round-trip, appends two turns per round-trip plus the final model turn when it finishes, and ends with an exception only after a round-trip |
| Orchestration.Converse | client.py:67-132 | one `agent_loop` call appends the user's prompt first, makes at most 5 round-trips, sends one request more than it makes round-trips, and appends 1 + 2k turns plus the final model turn when it finishes |
| Orchestration.ExecuteCalls | client.py:97-116 | the inner `for` loop builds exactly one function-response part per call, in order |
| Orchestration.TemperaturePolicy | client.py:83-127 | the first model call of a user turn runs at temperature 0 and every later one at 1.0 |
| Orchestration.ToolRoundsFollowUpTemperature | client.py:120-127 | every request the `while` loop sends runs at temperature 1.0 |
| Orchestration.RequestsSeeHistory | client.py:83-127 | the i-th request carries the loop's model and tools and the whole history so far: the old history, the user turn and the 2i turns after it |
| Orchestration.ToolRoundsSeeHistory | client.py:117-127 | each request of the `while` loop carries the history including the two turns its round-trip just appended |
| Orchestration.ToolTurnsAnswerCalls | client.py:97-117 | when rewriting a call does not change its name or its answer, every tool-result turn is a user-role turn answering, call for call and in order, the calls of the model turn just before it |
| Orchestration.ToolRoundsAnswerCalls | client.py:95-128 | the turns of the `while` loop come in pairs: a model turn asking for calls, then the turn answering exactly those calls |
| Orchestration.FinishReason | client.py:95-129 | a user turn that finishes does so on a response asking for no calls, unless the cap of 5 round-trips was reached; that response is the last turn appended |
| Orchestration.ToolRoundsFinishWhy | client.py:95-128 | the `while` loop finishes only when the response asks for no calls or the cap is reached |
| Orchestration.ToolRoundsFinishLast | client.py:95-128 | a finished `while` loop's final response is the last turn it appended |
| Orchestration.StopReason | client.py:120-132 | a user turn ends on the backend's outcome for the last request it sent, that response or that exception, so a tool never ends the loop |
| Orchestration.ToolRoundsLastAnswer | client.py:95-128 | the `while` loop ends on its starting response when it sent nothing, and otherwise on the backend's outcome for its last request |
| Gemini.TextOf | simplechat.py:159 | `response.text` is present exactly when some part of the turn is a text part |
| Gemini.NoCallsWithoutCallParts | simplechat.py:121 | a turn asks for no call (`response.function_calls` is empty) exactly when none of its parts is a function call |
| Gemini.CallsInAmended | simplechat.py:125-131 | rewriting calls in place rewrites each call and nothing else: the calls read back from the rewritten turn are the rewritten calls, in order |
| Gemini.AmendCallsIdentity | client.py:98-100 | a turn whose calls are not rewritten stays as the model sent it |
| Client.Declarations | client.py:72-80 | one declaration per listed tool, in the server's order, with its name and description and no parameter schema |
| Client.Packaged | client.py:103-111 | the result is the first content item's text, or that text as an error when the server flagged it; an exception, an empty content list and a first item without text all become `Tool execution failed: <type>: <message>`; nothing escapes |
| Client.ExchangeToolTurnsAnswerCalls | client.py:97-117 | every tool-result turn of the MCP agent answers, call for call, the model turn before it |
| Client.ExchangeFailsOnlyUpstream | client.py:72-132 | `agent_loop` raises only what listing the tools raised or what the last model call raised; a failing tool never does |
| Client.McpGeminiAgent.constructor | client.py:19-27 | the history is empty and no tools are recorded |
| Client.McpGeminiAgent.AgentLoop | client.py:67-132 | the user turn is appended even when listing the tools fails; otherwise the history grows by exactly the turns of `Converse`, the listed tools are recorded, the requests are those of `Converse`, and the last response is returned (even with calls pending at the cap) or the model's exception is raised |
| Client.McpGeminiAgent.ToolLoop | client.py:93-128 | the `while` loop appends exactly the turns of `ToolRounds`, sends its requests and ends on its outcome |
| Client.Exchange | client.py:67-80 | the user turn comes first, even when listing the tools fails; a listing failure ends the call with that exception before any request is sent; otherwise the model is asked once more than the number of tool rounds |
| SimpleChat.ConfigFrom | simplechat.py:24-27 | the account ID is `NEW_RELIC_ACCOUNT_ID` when set; the endpoint is `NEW_RELIC_API_ENDPOINT`, or the public NerdGraph endpoint by default |
| SimpleChat.DeclarationsOf | simplechat.py:85-105 | one declaration per tool, in table order, each with the tool's name and description and the shared query schema |
| SimpleChat.DeclaredTools | simplechat.py:38-51 | exactly three tools, `executeQuery`, `describeDomain` and `introspect`, each with the schema whose one required property is `query` |
| SimpleChat.WithAccountId | simplechat.py:167-172 | `None` becomes a new dict; existing entries are kept; `accountId` is added, as the configured ID, only when absent and an ID is configured; a number or boolean makes the `in` test raise, and a str or list raises when it would need the new item |
| SimpleChat.WithAccountIdIdempotent | simplechat.py:171-172 | inserting the account ID a second time changes nothing |
| SimpleChat.AccountIdAlwaysSent | simplechat.py:167-172 | with an account ID configured, the variables always carry `accountId`: the caller's own value if given, the configured one otherwise |
| SimpleChat.StatusError | simplechat.py:197-205 | the message names the status code, then the body's `errors` entry when the body is a JSON object holding one, or the raw text when the body is not JSON or inspecting it raises: a parsed null, number or boolean (where `in` raises), or a string or list holding `errors` (where indexing raises); a string or list without `errors` gives the status alone |
| Py.In | simplechat.py:201 | `'errors' in x` is a key test on a JSON object, a substring test on a string and an element test on a list, and raises `TypeError` exactly on null, numbers and booleans |
| SimpleChat.ExecuteGraphql | simplechat.py:165-218 | the call succeeds exactly when the variables step succeeds and the POST answers 200 with a JSON body that is an object, or a string or list without `errors` (one holding it raises `TypeError` when the errors are logged); the result is that body; a failure of the variables step propagates unchanged |
| SimpleChat.NonOkStatusFails | simplechat.py:197-205 | any status other than 200 fails with an `Exception` whose message starts with the status code |
| SimpleChat.GraphqlErrorsPassThrough | simplechat.py:207-213 | a 200 response whose body reports GraphQL errors is still returned, unchanged |
| SimpleChat.ErrorsInNonObjectBodyRaise | simplechat.py:209-211 | a 200 body that is a string or list holding `errors` fails with the `TypeError` of indexing it by a string: `string indices must be integers, not 'str'` or `list indices must be integers or slices, not str` |
| SimpleChat.Dispatch | simplechat.py:125-140 | a call runs its `query` (default `""`) with its `variables` (default `{}`); success gives the dumped result and failure gives `Tool execution failed: <type>: <message>` |
| SimpleChat.DispatchIgnoresToolName | simplechat.py:125-131 | the three tools behave the same: the response depends only on the arguments |
| SimpleChat.InjectAccountId | simplechat.py:167-172 | running a call whose `variables` is a dict rewrites that dict in place to the completed variables, which hold `accountId` whenever an ID is configured; the name and the other arguments are kept; a call without arguments, or whose `variables` is missing or not a dict, is unchanged |
| SimpleChat.WiringAmendIsHarmless | simplechat.py:125-140 | answering a call whose variables were already completed gives the same response as before |
| SimpleChat.ConverseToolTurnsAnswerCalls | simplechat.py:121-154 | every tool-result turn answers, call for call, the model turn before it, as that turn is stored after its variables were completed |
| SimpleChat.AnswerReportsPendingCalls | simplechat.py:157-163 | the reply carries the truncation notice exactly when the final response still asks for calls; otherwise it is the response text; an exception gives `Error processing request: <message>` |
| SimpleChat.NewRelicGeminiAgent.constructor | simplechat.py:22-51 | configuration from the environment, the three-tool table, an empty history, not set up |
| SimpleChat.NewRelicGeminiAgent.SetupConnection | simplechat.py:53-76 | nothing happens once set up; without both API keys it fails with the `ValueError` after `cleanup`, leaving the history alone; otherwise the history grows by the turns of `Converse` on the account-ID prompt and the session is set up |
| SimpleChat.NewRelicGeminiAgent.Cleanup | simplechat.py:220-224 | the session is no longer set up and the history stays |
| SimpleChat.NewRelicGeminiAgent.AgentLoop | simplechat.py:78-163 | the history grows by exactly the turns of `Converse`, with the variables completed in place, even when the loop ends on an exception; the reply is `AgentReply` of that run, so the method never raises |
| SimpleChat.AgentReply | simplechat.py:156-163 | an exception becomes `Error processing request: <message>`; a final response without calls gives its own text; there is no reply text only when the loop finished on a response without text |
| SimpleChat.NewRelicGeminiAgent.ToolLoop | simplechat.py:119-154 | the `while` loop appends exactly the turns of `ToolRounds`, replacing each model turn by its in-place completed form, and returns its outcome and round-trip count |
| SimpleChatApp.FormatResponse | simplechat_app.py:8-37 | no reply, or an empty one, gives exactly `No response received.`; any other reply ends with the footer |
| SimpleChatApp.Greeted | simplechat_app.py:13-16 | the result always opens with `Hi`, `Hello` or `#` and ends with the reply; a reply that already opens so is kept as it is, so greeting twice greets once |
| SimpleChatApp.LabelFences | simplechat_app.py:19 | the code-fence rewrite never shortens the text, and text without backticks is unchanged |
| SimpleChatApp.BoldFields | simplechat_app.py:22 | the field rewrite never shortens the text, and text without double quotes is unchanged |
| SimpleChatApp.Flagged | simplechat_app.py:25-28 | text without `E` or `S` is left unchanged by the emoji rewrite, whichever branch is taken |
| SimpleChatApp.Divided | simplechat_app.py:31-32 | text with at most one `#` gets no divider |
| SimpleChatApp.Decorated | simplechat_app.py:18-32 | text without backticks, double quotes, `E`, `S` or `#` passes every rewrite after the greeting unchanged |
| SimpleChatApp.SalutationKept | simplechat_app.py:14-16 | a reply opening with `Hi` or `Hello` gets no greeting and keeps that opening |
| SimpleChatApp.GreetingOpens | simplechat_app.py:14-32 | any other reply not opening with `#` is greeted, and since the greeting is a heading, a rule is put before it |
| SimpleChatApp.LabelsBareFence | simplechat_app.py:19 | a fence whose non-empty body holds no backtick and does not open with a language line is labelled `json`, its body unchanged |
| SimpleChatApp.LeavesLabelledFence | simplechat_app.py:19 | a fence that names its language is left as it is |
| SimpleChatApp.LabelFencesKeepsPrefix | simplechat_app.py:19 | text without backticks passes the code-fence rewrite unchanged, and the scan goes on after it |
| SimpleChatApp.BoldsKey | simplechat_app.py:22 | a quoted word key before a colon is bolded, and the scan goes on after the colon |
| SimpleChatApp.BoldFieldsKeepsPrefix | simplechat_app.py:22 | text without double quotes passes the field rewrite unchanged |
| SimpleChatApp.FlagsExclusive | simplechat_app.py:25-28 | a cross is added only to text mentioning an error in any case; a check mark only to text mentioning a success and no error |
| SimpleChatApp.FlagsError | simplechat_app.py:25-26 | a text opening with `Error:` mentions an error, so its opening becomes `Error: ❌` and the rest is rewritten the same way |
| SimpleChatApp.FlagsSuccess | simplechat_app.py:27-28 | a text opening with `Success` that mentions no error gets `Success ✅` for its opening and the rest is rewritten the same way |
| SimpleChatApp.FlaggedKeepsPrefix | simplechat_app.py:25-28 | an opening without `E` or `S` survives the emoji rewrite |
| SimpleChatApp.HeadingDivided | simplechat_app.py:31-32 | with more than one `#`, a level-three heading gets a rule before it, and every later `##` too |
| SimpleChatApp.HeadingRuled | simplechat_app.py:31-32 | a level-three heading, whatever follows it, is preceded by a rule after the divider rewrite |
| SimpleChatApp.DecoratedKeepsPrefix | simplechat_app.py:19-32 | an opening without backticks, quotes, `E`, `S` or `#` survives every rewrite |
| SimpleChatApp.Created | simplechat_app.py:72-76 | a new agent takes its configuration from the environment and is set up exactly when both API keys are configured |
| SimpleChatApp.Ready | simplechat_app.py:71-76 | the agent in the slot is kept; an empty slot gets a new agent configured from the environment with the tool table |
| SimpleChatApp.Answer | simplechat_app.py:80-102 | the agent is dropped exactly when the message is not a string, and the reply is then the error report of the validation message; otherwise the agent keeps its configuration, tools and set-up flag |
| SimpleChatApp.Handle | simplechat_app.py:71-102 | a string message always leaves an agent in the slot; an emptied slot means the message was not a string and the reply was the error report; a new agent without both keys stays in the slot, not set up, with an empty history, and the reply is the initialisation failure |
| SimpleChatApp.SetupSendsInitialPrompt | simplechat_app.py:72-76 | setting up a new agent sends the account-ID prompt first; without both keys nothing is sent |
| SimpleChatApp.FailedSetupAnswersNext | simplechat_app.py:72-90 | with the Gemini key set and the New Relic key missing, the failed setup replies `Failed to initialize agent: …` and leaves its agent in the slot, not set up; the next message is answered by that agent from an empty history |
| SimpleChatApp.NonStringDropsAgent | simplechat_app.py:92-102 | a message that is not a string drops the agent that was to answer it, and the reply reports the error |
| SimpleChatApp.StringMessageAnswered | simplechat_app.py:81-90 | a string message is appended to the ready agent's history, with what followed it; the agent is otherwise the same; the reply is `No response received.` or ends with the footer |
| SimpleChatApp.ChatServer.constructor | simplechat_app.py:39-41 | the chat log is empty and there is no agent |
| SimpleChatApp.ChatServer.Chat | simplechat_app.py:60-102 | a body that is not a JSON object raises before anything is logged; otherwise the log grows by exactly the user's message and one reply, the reply is returned, and the agent slot is as `Handle` says |
| SimpleChatApp.ChatServer.Respond | simplechat_app.py:72-102 | the reply and the new slot are those of `Handle`; an agent that disappears was not set up any more |
| SimpleChatApp.ChatServer.Attach | simplechat_app.py:72-76 | a new agent is put in the slot and set up, and the setup fails exactly when an API key is missing |
| SimpleChatApp.ChatServer.Reply | simplechat_app.py:81-102 | the agent answers a string message, or is cleaned up and dropped with an error report for any other message |
| SimpleChatApp.ChatServer.ClearChat | simplechat_app.py:152-157 | the chat log is emptied and the agent is untouched |
| Strings.ReplaceAllKeepsPrefix | simplechat_app.py:32 | `str.replace` leaves alone an opening without the pattern's first character |
| Strings.ReplaceAllAddsNothingElse | simplechat_app.py:26-28 | `str.replace` brings in no character that neither the text nor the replacement holds |
| Strings.NatToStringReadsBack | simplechat.py:198 | the decimal text of a status code reads back as that number |

## Left out

- `connect`, the `AsyncExitStack` lifecycle and the MCP stdio subprocess (client.py:29-65, 153-154): process I/O. The MCP session is the `listing` and `Executor` parameters.
- The interactive REPL `chat` and `is_npx_installed` (client.py:134-175): terminal and process I/O.
- The `/`, `/messages` and `/schema` routes, `cleanup_on_shutdown`, the signal handling and the server start-up of `simplechat_app.py`: configuration and I/O.
- `webapp.py`, `webapp_fixed.py` and `ui.py`: presentation adapters over the same agents.
- Logging, `print` and `logger` calls: they change nothing the model observes, except that
  building the warning at simplechat.py:211 indexes the body by `'errors'`; that indexing and
  the `TypeError` it raises on a string or list body are modelled (`SimpleChat.ErrorsInNonObjectBodyRaise`).
- Concurrent requests over the shared agent: one request is handled at a time.
- The Gemini client and the HTTP client are deterministic functions of the request. A backend that answers differently to the same request is not modelled. The MCP executor is likewise a function of the call's name and arguments.
- JSON numbers are integers. Floating-point values, dict key order and the exact text of `json.dumps` and `str` of a decoded value are left to the `Services` parameter.
- Model turns hold only text, function-call and function-response parts. Thought parts, a candidate with `content` None and other SDK fields are not modelled.
- `\w` and `str.lower` are ASCII: Python's Unicode word characters and case mapping are wider.
- The text of pydantic's validation error is the `validation` parameter. A JSON `null` message is treated like the other non-string messages, although `types.Part(text=None)` is accepted by the SDK.
- `genai.Client(...)` and `NewRelicGeminiAgent()` are assumed not to raise. Without a Gemini key the real client constructor may raise, and then no agent is stored; `SimpleChatApp.FailedSetupAnswersNext` therefore requires the Gemini key and shows the behaviour for a missing New Relic key.
- A 200 response whose body is not JSON fails with `Invalid JSON response from GraphQL endpoint`. With requests 2.27 and later, `response.json()` raises an exception that is also a `requests.RequestException`. That version therefore reports it through the `Network error during GraphQL request: ` branch instead.
- SimpleChat.NewRelicGeminiAgent.ToolLoop: the account ID is written into each call's variables after all the calls of a round-trip have run, not while each runs. Each call reads only its own arguments, so the responses and the stored turns are the same.
- The MCP agent's declarations carry no parameter schema, as in the source. How the SDK treats a declaration without one is not modelled.
- SimpleChatApp.ChatServer.Chat: a request body that is not a JSON object is modelled as the `AttributeError` of `data.get`. A missing or undecodable body makes Quart's `get_json` raise `BadRequest` instead; the model folds that into the same case, since both raise before anything is logged.
