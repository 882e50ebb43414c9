/** The web front end of `simplechat_app.py`: the Markdown decoration of the agent's replies and
    the chat log the `/chat` and `/clear` routes keep, beside the single agent they share. */
module SimpleChatApp {
  import opened Wrappers
  import opened Strings
  import opened Py
  import opened SimpleChat
  import opened Sequences
  import Orchestration
  import Gemini

  // ---------------------------------------------------------------------------------------------
  // `format_response_with_markdown`, one rewrite per stage

  const NoResponse := "No response received."
  const GreetingTitle := " Here's what I found:\n\n"
  /** A level-three heading. */
  const Greeting := "###" + GreetingTitle
  const Footer := "\n\n---\n*You can ask follow-up questions or try another query.*"
  const Fence := "```"
  const LabelledFence := "```json\n"
  const ErrorFlag := "Error: \U{274C}"
  const SuccessFlag := "Success \U{2705}"
  const Rule := "\n---\n"
  const Divider := Rule + "##"

  /** Replies that open with a salutation or a heading get no greeting (`##` and `###` open
      with `#` already). */
  predicate Exempt(s: string) {
    StartsWith(s, "Hi") || StartsWith(s, "Hello") || StartsWith(s, "#")
  }

  function Greeted(s: string): (r: string)
    ensures Exempt(r) && EndsWith(r, s)
    ensures Exempt(s) ==> r == s
  {
    if Exempt(s) then s
    else
      assert (Greeting + s)[..1] == "#";
      assert (Greeting + s)[|Greeting + s| - |s|..] == s;
      Greeting + s
  }

  /** Whether `s` opens with a word followed by a line break, as a fence's language line does. */
  predicate OpensWithLanguage(s: string) {
    var w := WordRun(s);
    0 < w < |s| && s[w] == '\n'
  }

  /** Whether `s` opens with three backticks. */
  predicate TicksAt(s: string) {
    |s| >= 3 && s[0] == '`' && s[1] == '`' && s[2] == '`'
  }

  /** The length of the body of an unlabelled fence at the head of `s`, if there is one: three
      backticks not followed by a language line, a non-empty run without backticks, and three
      backticks. */
  function FenceAt(s: string): (n: Option<nat>)
    ensures n.Some? ==> 0 < n.value && 3 + n.value + 3 <= |s|
  {
    if !TicksAt(s) || OpensWithLanguage(s[3..]) then None
    else
      var n := TickFreeRun(s[3..]);
      if 0 < n && TicksAt(s[3 + n..]) then Some(n) else None
  }

  /** A fence body labelled `json`. */
  function Labelled(body: string): string {
    LabelledFence + body + Fence
  }

  /** The code-fence rewrite: scanning left to right, every unlabelled fence is labelled `json`
      and the scan goes on after it. */
  function LabelFences(s: string): (r: string)
    ensures |r| >= |s|
    ensures '`' !in s ==> r == s
    decreases |s|
  {
    if s == [] then []
    else
      match FenceAt(s)
      case Some(n) => Labelled(s[3..3 + n]) + LabelFences(s[3 + n + 3..])
      case None => [s[0]] + LabelFences(s[1..])
  }

  /** The length of the key of a `"key":` at the head of `s`, if there is one. */
  function KeyAt(s: string): (n: Option<nat>)
    ensures n.Some? ==> 0 < n.value && 1 + n.value + 2 <= |s|
  {
    if s == [] || s[0] != '"' then None
    else
      var n := WordRun(s[1..]);
      if 0 < n && StartsWith(s[1 + n..], "\":") then Some(n) else None
  }

  /** The field rewrite: scanning left to right, every `"key":` becomes `"**key**":`. */
  function BoldFields(s: string): (r: string)
    ensures |r| >= |s|
    ensures '"' !in s ==> r == s
    decreases |s|
  {
    if s == [] then []
    else
      match KeyAt(s)
      case Some(n) => "\"**" + s[1..1 + n] + "**\":" + BoldFields(s[1 + n + 2..])
      case None => [s[0]] + BoldFields(s[1..])
  }

  /** The emoji rewrite: errors are flagged when the text mentions an error in any case, and
      only otherwise successes. */
  function Flagged(s: string): (r: string)
    ensures 'E' !in s && 'S' !in s ==> r == s
  {
    if Contains(Lower(s), "error") then ReplaceAll(s, "Error:", ErrorFlag)
    else if Contains(Lower(s), "success") then ReplaceAll(s, "Success", SuccessFlag)
    else s
  }

  /** The divider rewrite: with more than one `#`, a rule goes before every `##`. */
  function Divided(s: string): (r: string)
    ensures multiset(s)['#'] <= 1 ==> r == s
    ensures '#' !in s ==> r == s
  {
    if multiset(s)['#'] > 1 then ReplaceAll(s, "##", Divider) else s
  }

  /** The rewrites after the greeting, in their order. */
  function Decorated(s: string): (r: string)
    ensures '`' !in s && '"' !in s && 'E' !in s && 'S' !in s && '#' !in s ==> r == s
  {
    Divided(Flagged(BoldFields(LabelFences(s))))
  }

  /** `format_response_with_markdown`: no reply gives a fixed notice; any other reply is greeted
      unless exempt, decorated, and closed by the footer. */
  function FormatResponse(response: Option<string>): (r: string)
    ensures !Truthy(response) ==> r == NoResponse
    ensures Truthy(response) ==> EndsWith(r, Footer)
  {
    if !Truthy(response) then NoResponse
    else
      var body := Decorated(Greeted(response.value));
      assert (body + Footer)[|body|..] == Footer;
      body + Footer
  }

  // The scanners and the text they pass over

  /** A word run stops at the first character that is not a word character. */
  lemma {:induction false} WordRunAppend(a: string, b: string)
    ensures WordRun(a + b) == if WordRun(a) < |a| then WordRun(a) else |a| + WordRun(b)
    decreases |a|
  {
    if a == [] {
      assert a + b == b;
    } else if IsWordChar(a[0]) {
      assert (a + b)[1..] == a[1..] + b;
      WordRunAppend(a[1..], b);
    }
  }

  /** A run without backticks ends at the first backtick. */
  lemma {:induction false} TickFreeRunAppend(a: string, b: string)
    requires '`' !in a
    ensures TickFreeRun(a + b) == |a| + TickFreeRun(b)
    decreases |a|
  {
    if a == [] {
      assert a + b == b;
    } else {
      assert (a + b)[0] == a[0];
      assert (a + b)[1..] == a[1..] + b;
      TickFreeRunAppend(a[1..], b);
    }
  }

  /** Putting back the first character of a non-empty text in front of the rest of it. */
  lemma Rejoin(p: string, later: string)
    requires p != []
    ensures [p[0]] + (p[1..] + later) == p + later
  {
    assert p == [p[0]] + p[1..];
  }

  /** Text without backticks holds no fence: the code-fence rewrite passes it through. */
  lemma {:induction false} LabelFencesKeepsPrefix(p: string, s: string)
    requires '`' !in p
    ensures LabelFences(p + s) == p + LabelFences(s)
    decreases |p|
  {
    if p == [] {
      assert p + s == s;
    } else {
      var q := p + s;
      assert q[0] == p[0] && !TicksAt(q);
      assert LabelFences(q) == [q[0]] + LabelFences(q[1..]);
      assert q[1..] == p[1..] + s;
      LabelFencesKeepsPrefix(p[1..], s);
      Rejoin(p, LabelFences(s));
    }
  }

  /** Closing a text with a fence does not make it open with a language line. */
  lemma NoLanguageBeforeFence(body: string)
    requires !OpensWithLanguage(body)
    ensures !OpensWithLanguage(body + Fence)
  {
    var rest := body + Fence;
    assert WordRun(Fence) == 0;
    WordRunAppend(body, Fence);
    var w := WordRun(body);
    if w == |body| {
      assert rest[w] == '`';
    } else {
      assert rest[w] == body[w];
    }
  }

  lemma BareFenceFound(body: string)
    requires 0 < |body| && '`' !in body && !OpensWithLanguage(body)
    ensures FenceAt(Fence + body + Fence) == Some(|body|)
  {
    var s := Fence + body + Fence;
    assert s[3..] == body + Fence;
    assert TicksAt(s);
    NoLanguageBeforeFence(body);
    TickFreeRunAppend(body, Fence);
    assert TickFreeRun(Fence) == 0;
    assert s[3 + |body|..] == Fence;
  }

  /** A fence without a language is labelled `json`, its body unchanged. */
  lemma LabelsBareFence(body: string)
    requires 0 < |body| && '`' !in body && !OpensWithLanguage(body)
    ensures LabelFences(Fence + body + Fence) == LabelledFence + body + Fence
  {
    var s := Fence + body + Fence;
    BareFenceFound(body);
    assert s[3..3 + |body|] == body;
    assert s[3 + |body| + 3..] == [];
  }

  /** Three backticks that open no fence are passed over one by one. */
  lemma SkipsTicks(x: string)
    requires |x| > 0 && x[0] != '`' && FenceAt(Fence + x) == None
    ensures LabelFences(Fence + x) == Fence + LabelFences(x)
  {
    ThreeTicks(x);
    SkipsTick("`" + ("`" + x));
    TickBeforeText(x);
    SkipsTick("`" + x);
    SkipsTick(x);
    ThreeTicks(LabelFences(x));
  }

  /** A fence is three backticks in a row. */
  lemma ThreeTicks(x: string)
    ensures "`" + ("`" + ("`" + x)) == Fence + x
  {
  }

  /** One or two backticks before a character that is not one open no fence. */
  lemma TickBeforeText(x: string)
    requires |x| > 0 && x[0] != '`'
    ensures FenceAt("`" + x) == None && FenceAt("`" + ("`" + x)) == None
  {
    assert ("`" + x)[1] == x[0];
    assert ("`" + ("`" + x))[2] == x[0];
  }

  /** A backtick that opens no fence is passed over. */
  lemma SkipsTick(x: string)
    requires FenceAt("`" + x) == None
    ensures LabelFences("`" + x) == "`" + LabelFences(x)
  {
    assert ("`" + x)[1..] == x;
  }

  /** Three backticks at the end open no fence. */
  lemma TrailingTicksKept()
    ensures LabelFences(Fence) == Fence
  {
    assert TickFreeRun(Fence[3..]) == 0;
    assert FenceAt(Fence) == None;
    assert FenceAt(Fence[1..]) == None;
    assert FenceAt(Fence[1..][1..]) == None;
  }

  /** The opening of a fence with a language line is not a match. */
  lemma LanguageLineFound(language: string, rest: string)
    requires 0 < |language| && WordRun(language) == |language|
    requires |rest| > 0 && rest[0] == '\n'
    ensures FenceAt(Fence + (language + rest)) == None
  {
    var t := language + rest;
    assert !IsWordChar(rest[0]) && WordRun(rest) == 0;
    WordRunAppend(language, rest);
    assert t[|language|] == '\n';
    assert OpensWithLanguage(t);
    assert (Fence + t)[3..] == t;
  }

  /** A fence that names its language is left as it is. */
  lemma LeavesLabelledFence(language: string, code: string)
    requires 0 < |language| && WordRun(language) == |language|
    requires '`' !in language && '`' !in code
    ensures var s := Fence + language + "\n" + code + Fence; LabelFences(s) == s
  {
    var s := Fence + language + "\n" + code + Fence;
    var p := language + "\n" + code;
    var rest := "\n" + (code + Fence);
    var t := language + rest;
    AppendTwice(Fence + language + "\n", code, Fence);
    AppendTwice(Fence + language, "\n", code + Fence);
    AppendTwice(Fence, language, rest);
    assert s == Fence + t;
    AppendTwice(language + "\n", code, Fence);
    AppendTwice(language, "\n", code + Fence);
    assert p + Fence == t;
    LanguageLineFound(language, rest);
    assert t[0] == language[0];
    SkipsTicks(t);
    LabelFencesKeepsPrefix(p, Fence);
    TrailingTicksKept();
  }

  /** Text without double quotes holds no key: the field rewrite passes it through. */
  lemma {:induction false} BoldFieldsKeepsPrefix(p: string, s: string)
    requires '"' !in p
    ensures BoldFields(p + s) == p + BoldFields(s)
    decreases |p|
  {
    if p == [] {
      assert p + s == s;
    } else {
      var q := p + s;
      assert q[0] == p[0] && KeyAt(q) == None;
      assert BoldFields(q) == [q[0]] + BoldFields(q[1..]);
      assert q[1..] == p[1..] + s;
      BoldFieldsKeepsPrefix(p[1..], s);
      Rejoin(p, BoldFields(s));
    }
  }

  /** A quoted key before a colon is bolded, and the scan goes on after the colon. */
  lemma BoldsKey(key: string, s: string)
    requires 0 < |key| && WordRun(key) == |key|
    ensures BoldFields("\"" + key + "\":" + s) == "\"**" + key + "**\":" + BoldFields(s)
  {
    var t := "\"" + key + "\":" + s;
    assert t[1..] == key + ("\":" + s);
    WordRunAppend(key, "\":" + s);
    assert t[1 + |key|..] == "\":" + s;
    assert KeyAt(t) == Some(|key|);
    assert t[1..1 + |key|] == key;
    assert t[1 + |key| + 2..] == s;
  }

  /** The emoji rewrites exclude each other: a cross appears only in text that mentions an error,
      a check mark only in text that mentions a success and no error. */
  lemma FlagsExclusive(s: string)
    ensures '\U{274C}' !in s && '\U{274C}' in Flagged(s) ==> Contains(Lower(s), "error")
    ensures '\U{2705}' !in s && '\U{2705}' in Flagged(s) ==>
      !Contains(Lower(s), "error") && Contains(Lower(s), "success")
  {
    if Contains(Lower(s), "error") {
      if '\U{2705}' !in s {
        assert '\U{2705}' !in ErrorFlag;
        ReplaceAllAddsNothingElse(s, "Error:", ErrorFlag, '\U{2705}');
      }
    } else if Contains(Lower(s), "success") {
      if '\U{274C}' !in s {
        assert '\U{274C}' !in SuccessFlag;
        ReplaceAllAddsNothingElse(s, "Success", SuccessFlag, '\U{274C}');
      }
    }
  }

  /** A text opening with `Error:` mentions an error, so that opening is flagged and the
      rewrite goes on after it. */
  lemma FlagsError(s: string)
    requires StartsWith(s, "Error:")
    ensures Flagged(s) == ErrorFlag + ReplaceAll(s[6..], "Error:", ErrorFlag)
  {
    assert Lower(s)[..5] == "error";
    assert Contains(Lower(s), "error");
  }

  /** A text opening with `Success` that mentions no error gets the check mark on that opening,
      and the rewrite goes on after it. */
  lemma FlagsSuccess(s: string)
    requires StartsWith(s, "Success") && !Contains(Lower(s), "error")
    ensures Flagged(s) == SuccessFlag + ReplaceAll(s[7..], "Success", SuccessFlag)
  {
    forall i | 0 <= i < 7
      ensures Lower(s)[i] == "success"[i]
    {
      assert s[i] == s[..7][i];
    }
    assert Lower(s)[..7] == "success";
    assert Contains(Lower(s), "success");
  }

  /** An opening without `E` or `S` survives the emoji rewrite. */
  lemma FlaggedKeepsPrefix(p: string, s: string)
    requires 'E' !in p && 'S' !in p
    ensures StartsWith(Flagged(p + s), p)
  {
    ReplaceAllKeepsPrefix(p, s, "Error:", ErrorFlag);
    ReplaceAllKeepsPrefix(p, s, "Success", SuccessFlag);
  }

  /** An opening without backticks, quotes, `E` or `S` survives the rewrites before the dividers. */
  lemma FlaggedFieldsKeepPrefix(p: string, s: string)
    requires '`' !in p && '"' !in p && 'E' !in p && 'S' !in p
    ensures StartsWith(Flagged(BoldFields(LabelFences(p + s))), p)
  {
    LabelFencesKeepsPrefix(p, s);
    BoldFieldsKeepsPrefix(p, LabelFences(s));
    FlaggedKeepsPrefix(p, BoldFields(LabelFences(s)));
  }

  /** An opening without backticks, quotes, `E`, `S` or `#` survives every rewrite. */
  lemma DecoratedKeepsPrefix(p: string, s: string)
    requires '`' !in p && '"' !in p && 'E' !in p && 'S' !in p && '#' !in p
    ensures StartsWith(Decorated(p + s), p)
  {
    FlaggedFieldsKeepPrefix(p, s);
    var f := Flagged(BoldFields(LabelFences(p + s)));
    PrefixSplit(f, p);
    ReplaceAllKeepsPrefix(p, f[|p|..], "##", Divider);
  }

  /** A reply opening with `Hi` or `Hello` keeps that opening. */
  lemma SalutationKept(s: string, opening: string)
    requires opening == "Hi" || opening == "Hello"
    requires StartsWith(s, opening)
    ensures StartsWith(FormatResponse(Some(s)), opening)
  {
    assert s == opening + s[|opening|..];
    DecoratedKeepsPrefix(opening, s[|opening|..]);
    StartsWithExtended(Decorated(s), opening, Footer);
  }

  /** A text that opens with `##` has more than one `#`. */
  lemma TwoHashes(g: string)
    ensures multiset("##" + g)['#'] > 1
  {
    assert multiset("##" + g) == multiset("##") + multiset(g);
    assert multiset("##")['#'] == 2;
  }

  /** A text that opens with a level-three heading gets a rule before the heading. */
  lemma HeadingDivided(title: string, tail: string)
    requires |title| > 0 && '#' !in title
    ensures Divided("##" + ("#" + (title + tail))) == Divider + ("#" + (title + ReplaceAll(tail, "##", Divider)))
  {
    var g := "#" + (title + tail);
    var f := "##" + g;
    TwoHashes(g);
    assert f[2..] == g;
    assert ReplaceAll(f, "##", Divider) == Divider + ReplaceAll(g, "##", Divider);
    assert title[0] in title && g[..2][1] == title[0];
    assert !StartsWith(g, "##");
    assert g[1..] == title + tail;
    assert ReplaceAll(g, "##", Divider) == [g[0]] + ReplaceAll(g[1..], "##", Divider);
    ReplaceAllKeepsPrefix(title, tail, "##", Divider);
  }

  /** A level-three heading, whatever follows it, gets a rule before it. */
  lemma HeadingRuled(title: string, tail: string)
    requires |title| > 0 && '#' !in title
    ensures StartsWith(Divided(("###" + title) + tail), Rule + ("###" + title))
  {
    assert "###" == "##" + "#";
    AppendTwice("##", "#", title);
    AppendTwice("##", "#" + title, tail);
    AppendTwice("#", title, tail);
    HeadingDivided(title, tail);
    var replaced := ReplaceAll(tail, "##", Divider);
    AppendTwice(Rule, "##", "#" + (title + replaced));
    AppendTwice("##", "#", title + replaced);
    AppendTwice("###", title, replaced);
    AppendTwice(Rule, "###" + title, replaced);
  }

  /** A level-three heading whose title holds no backtick, quote, `E`, `S` or `#` survives the
      rewrites, with a rule before it. */
  lemma HeadingDecorated(title: string, s: string)
    requires |title| > 0 && '`' !in title && '"' !in title && 'E' !in title && 'S' !in title && '#' !in title
    ensures StartsWith(Decorated(("###" + title) + s), Rule + ("###" + title))
  {
    var heading := "###" + title;
    assert '`' !in heading && '"' !in heading && 'E' !in heading && 'S' !in heading;
    FlaggedFieldsKeepPrefix(heading, s);
    var f := Flagged(BoldFields(LabelFences(heading + s)));
    PrefixSplit(f, heading);
    HeadingRuled(title, f[|heading|..]);
  }

  /** The greeting's title holds none of the characters the rewrites look for. */
  lemma GreetingTitlePlain()
    ensures |GreetingTitle| > 0 && '`' !in GreetingTitle && '"' !in GreetingTitle
    ensures '#' !in GreetingTitle && 'E' !in GreetingTitle && 'S' !in GreetingTitle
  {
    forall i | 0 <= i < |GreetingTitle|
      ensures GreetingTitle[i] !in {'`', '"', '#', 'E', 'S'}
    {
    }
  }

  /** Any other reply is greeted, and since the greeting is a heading with more than one `#`, the
      divider rewrite puts a rule before it. */
  lemma GreetingOpens(s: string)
    requires s != "" && !Exempt(s)
    ensures StartsWith(FormatResponse(Some(s)), Rule + Greeting)
  {
    assert Greeted(s) == Greeting + s;
    GreetingTitlePlain();
    HeadingDecorated(GreetingTitle, s);
    StartsWithExtended(Decorated(Greeting + s), Rule + Greeting, Footer);
  }

  // ---------------------------------------------------------------------------------------------
  // The chat log and the shared agent

  /** An entry of the chat log: what the user sent (any JSON value) or the assistant's reply. */
  datatype Message = UserMessage(sent: Json) | AssistantMessage(reply: string)

  const InitFailurePrefix := "Failed to initialize agent: "

  /** The reply when handling a message raised. */
  function ErrorReport(message: string): string {
    "### Error \U{1F615}\n\n```\n" + message + "\n```\n\nPlease try again with a different query."
  }

  /** The message of a request body: its `message` entry, empty when it has none. */
  function Said(fields: map<string, Json>): Json {
    Get(fields, "message", JStr(""))
  }

  /** What `data.get` raises when the body is not a JSON object. */
  function NoGet(data: Json): Exception {
    Exception("AttributeError", "'" + TypeName(data) + "' object has no attribute 'get'")
  }

  /** The agent slot as a value: empty, or an agent's configuration, tool table, history and
      whether its session was set up. */
  datatype Slot =
    | NoAgent
    | Agent(config: Config, tools: seq<Tool>, contents: seq<Gemini.Content>, sessionInitialized: bool)

  /** What handling one message leaves in the slot, and the reply logged for it. */
  datatype Handled = Handled(slot: Slot, reply: string)

  /** The agent in the slot answers a message: a message that is not a string cannot become a
      prompt, so the agent is cleaned up and dropped; otherwise its history grows by one
      `agent_loop` call and the decorated reply is logged. */
  function Answer(agent: Slot, message: Json, backend: Orchestration.Backend, services: Services,
                  validation: Json -> string): (r: Handled)
    requires agent.Agent?
    ensures r.slot.NoAgent? <==> !message.JStr?
    ensures !message.JStr? ==> r.reply == ErrorReport(validation(message))
    ensures message.JStr? ==>
      r.slot.config == agent.config && r.slot.tools == agent.tools && r.slot.sessionInitialized == agent.sessionInitialized
  {
    if !message.JStr? then Handled(NoAgent, ErrorReport(validation(message)))
    else
      var run := Orchestration.Converse(Wiring(agent.config, agent.tools, backend, services), agent.contents, message.s);
      Handled(agent.(contents := agent.contents + run.turns), FormatResponse(AgentReply(run)))
  }

  /** A new agent created from the environment and set up: without both API keys the setup
      fails and leaves the agent with an empty history, not set up; otherwise the initial prompt
      has been sent. */
  function Created(env: map<string, string>, backend: Orchestration.Backend, services: Services): (slot: Slot)
    ensures slot.Agent? && slot.config == ConfigFrom(env) && slot.tools == Tools
    ensures slot.sessionInitialized == HasApiKeys(ConfigFrom(env))
  {
    var config := ConfigFrom(env);
    if !HasApiKeys(config) then Agent(config, Tools, [], false)
    else
      var setup := Orchestration.Converse(Wiring(config, Tools, backend, services), [], InitialPrompt(config.accountId));
      Agent(config, Tools, setup.turns, true)
  }

  /** The agent that handles a message: the one in the slot, or a newly created one. */
  function Ready(slot: Slot, env: map<string, string>, backend: Orchestration.Backend, services: Services): (agent: Slot)
    ensures agent.Agent?
    ensures slot.Agent? ==> agent == slot
    ensures slot.NoAgent? ==> agent.config == ConfigFrom(env) && agent.tools == Tools
  {
    if slot.NoAgent? then Created(env, backend, services) else slot
  }

  /** The agent's part of `/chat`: a new agent whose setup fails stays in the slot, and the
      failure is the reply; otherwise the ready agent answers. */
  function Handle(slot: Slot, message: Json, env: map<string, string>, backend: Orchestration.Backend,
                  services: Services, validation: Json -> string): (r: Handled)
    ensures message.JStr? ==> r.slot.Agent?
    ensures r.slot.NoAgent? ==> !message.JStr? && r.reply == ErrorReport(validation(message))
    ensures slot.NoAgent? && !HasApiKeys(ConfigFrom(env)) ==>
      r == Handled(Agent(ConfigFrom(env), Tools, [], false), InitFailurePrefix + MissingKeys.message)
  {
    var agent := Ready(slot, env, backend, services);
    if slot.NoAgent? && !agent.sessionInitialized then Handled(agent, InitFailurePrefix + MissingKeys.message)
    else Answer(agent, message, backend, services, validation)
  }

  /** Setting up a new agent sends the initial prompt first; without both API keys nothing is
      sent and the history stays empty. */
  lemma SetupSendsInitialPrompt(env: map<string, string>, backend: Orchestration.Backend, services: Services)
    ensures var agent := Created(env, backend, services);
      && (HasApiKeys(ConfigFrom(env)) ==>
            |agent.contents| > 0 && agent.contents[0] == Gemini.UserTurn(InitialPrompt(ConfigFrom(env).accountId)))
      && (!HasApiKeys(ConfigFrom(env)) ==> agent.contents == [])
  {
  }

  /** A setup that fails for want of the New Relic key (the Gemini key is there, so creating the
      client succeeds) leaves its agent in the slot, not set up and with an empty history; the
      next message is answered by that agent although the initial prompt was never sent. */
  lemma FailedSetupAnswersNext(env: map<string, string>, backend: Orchestration.Backend, services: Services,
                               first: Json, prompt: string, validation: Json -> string)
    requires Truthy(ConfigFrom(env).geminiApiKey) && !Truthy(ConfigFrom(env).newRelicApiKey)
    ensures var failed := Handle(NoAgent, first, env, backend, services, validation);
      var next := Handle(failed.slot, JStr(prompt), env, backend, services, validation);
      var run := Orchestration.Converse(Wiring(ConfigFrom(env), Tools, backend, services), [], prompt);
      && failed == Handled(Agent(ConfigFrom(env), Tools, [], false), InitFailurePrefix + MissingKeys.message)
      && next == Handled(Agent(ConfigFrom(env), Tools, run.turns, false), FormatResponse(AgentReply(run)))
      && next.slot.contents[0] == Gemini.UserTurn(prompt)
  {
    var waiting := Agent(ConfigFrom(env), Tools, [], false);
    assert Created(env, backend, services) == waiting;
    assert Handle(NoAgent, first, env, backend, services, validation).slot == waiting;
    assert Handle(waiting, JStr(prompt), env, backend, services, validation)
        == Answer(waiting, JStr(prompt), backend, services, validation);
    var run := Orchestration.Converse(Wiring(ConfigFrom(env), Tools, backend, services), [], prompt);
    assert [] + run.turns == run.turns;
  }

  /** A message that is not a string drops the agent that was to answer it, and the reply
      reports why it was rejected. */
  lemma NonStringDropsAgent(slot: Slot, message: Json, env: map<string, string>, backend: Orchestration.Backend,
                            services: Services, validation: Json -> string)
    requires !message.JStr?
    requires slot.Agent? || HasApiKeys(ConfigFrom(env))
    ensures Handle(slot, message, env, backend, services, validation) == Handled(NoAgent, ErrorReport(validation(message)))
  {
  }

  /** A string message is answered by the ready agent: its history grows by the prompt and what
      followed it, the agent is otherwise the same, and the reply is a decorated answer. */
  lemma StringMessageAnswered(slot: Slot, prompt: string, env: map<string, string>, backend: Orchestration.Backend,
                              services: Services, validation: Json -> string)
    requires slot.Agent? || HasApiKeys(ConfigFrom(env))
    ensures var agent := Ready(slot, env, backend, services);
      var h := Handle(slot, JStr(prompt), env, backend, services, validation);
      && h.slot.Agent? && h.slot.config == agent.config && h.slot.tools == agent.tools
      && h.slot.sessionInitialized == agent.sessionInitialized
      && |agent.contents| < |h.slot.contents| && h.slot.contents[..|agent.contents|] == agent.contents
      && h.slot.contents[|agent.contents|] == Gemini.UserTurn(prompt)
      && (h.reply == NoResponse || EndsWith(h.reply, Footer))
  {
    var agent := Ready(slot, env, backend, services);
    var run := Orchestration.Converse(Wiring(agent.config, agent.tools, backend, services), agent.contents, prompt);
    assert (agent.contents + run.turns)[..|agent.contents|] == agent.contents;
    assert (agent.contents + run.turns)[|agent.contents|] == run.turns[0];
  }

  /** The routes' shared state: the chat log and the agent, None until the first message. */
  class ChatServer {
    var messages: seq<Message>
    var agent: NewRelicGeminiAgent?

    constructor ()
      ensures messages == [] && agent == null
    {
      messages := [];
      agent := null;
    }

    /** The agent slot as a value. */
    function Slot(): Slot
      reads this, agent
    {
      if agent == null then NoAgent
      else Agent(agent.config, agent.tools, agent.contents, agent.sessionInitialized)
    }

    /** `/chat`: log the user's message, let the agent handle it, and log exactly one reply. A
        body that is not a JSON object raises before anything is logged. `validation` is the text
        of the exception raised when the message is not a string. */
    method Chat(data: Json, env: map<string, string>, backend: Orchestration.Backend, services: Services,
                validation: Json -> string)
      returns (r: Result<string, Exception>)
      modifies this, agent
      ensures !data.JObj? ==> r == Failure(NoGet(data)) && messages == old(messages) && Slot() == old(Slot())
      ensures data.JObj? ==>
        var handled := Handle(old(Slot()), Said(data.fields), env, backend, services, validation);
        && r == Success(handled.reply)
        && messages == old(messages) + [UserMessage(Said(data.fields)), AssistantMessage(handled.reply)]
        && Slot() == handled.slot
      ensures agent != null ==> agent == old(agent) || fresh(agent)
      ensures old(agent) != null && agent == null ==> !old(agent).sessionInitialized
    {
      if !data.JObj? {
        return Failure(NoGet(data));
      }
      var message := Said(data.fields);
      messages := messages + [UserMessage(message)];
      var reply := Respond(message, env, backend, services, validation);
      messages := messages + [AssistantMessage(reply)];
      r := Success(reply);
    }

    /** The agent's part of `/chat`, after the user's message is logged. */
    method Respond(message: Json, env: map<string, string>, backend: Orchestration.Backend, services: Services,
                   validation: Json -> string)
      returns (reply: string)
      modifies this`agent, agent
      ensures var handled := Handle(old(Slot()), message, env, backend, services, validation);
        reply == handled.reply && Slot() == handled.slot
      ensures agent != null ==> agent == old(agent) || fresh(agent)
      ensures old(agent) != null && agent == null ==> !old(agent).sessionInitialized
    {
      ghost var before := Slot();
      if agent == null {
        var failed := Attach(env, backend, services);
        if failed {
          return InitFailurePrefix + MissingKeys.message;
        }
      }
      ghost var ready := Slot();
      assert ready == Ready(before, env, backend, services);
      assert Handle(before, message, env, backend, services, validation) == Answer(ready, message, backend, services, validation);
      reply := Reply(message, backend, services, validation);
    }

    /** Create an agent from the environment, put it in the empty slot and set it up; tell
        whether the setup failed. */
    method Attach(env: map<string, string>, backend: Orchestration.Backend, services: Services)
      returns (failed: bool)
      requires agent == null
      modifies this`agent
      ensures agent != null && fresh(agent) && Slot() == Created(env, backend, services)
      ensures failed == !HasApiKeys(ConfigFrom(env))
    {
      var created := new NewRelicGeminiAgent(env);
      var setup := created.SetupConnection(backend, services);
      agent := created;
      failed := setup.Fail?;
    }

    /** The agent in the slot answers the message, or is cleaned up and dropped when the message
        is not a string. */
    method Reply(message: Json, backend: Orchestration.Backend, services: Services, validation: Json -> string)
      returns (reply: string)
      requires agent != null
      modifies this`agent, agent
      ensures var handled := Answer(old(Slot()), message, backend, services, validation);
        reply == handled.reply && Slot() == handled.slot
      ensures agent != null ==> agent == old(agent)
      ensures agent == null ==> !old(agent).sessionInitialized
    {
      if !message.JStr? {
        reply := ErrorReport(validation(message));
        agent.Cleanup();
        agent := null;
        return;
      }
      var answer, _ := agent.AgentLoop(message.s, backend, services);
      reply := FormatResponse(answer);
    }

    /** `/clear`: empty the chat log; the agent stays. */
    method ClearChat()
      modifies this`messages
      ensures messages == [] && agent == old(agent)
    {
      messages := [];
    }
  }
}
