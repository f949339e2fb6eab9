/**
 The tool-calling loop that every role shares: the model asks for tools, the tools run, and
 their results go back to the model, for a bounded number of rounds.

 The model and the tool server are arbitrary. The model is a function of the conversation
 and of the tools on offer: a conversation never occurs twice in a run, so every sequence of
 replies is covered. The server and the clock may answer differently on every call. A tool
 call may fail with the client's own error; other exceptions end the loop and are left out.
 */
module ToolLoop {
  import opened Sequences
  import opened Wrappers

  datatype Call = Call(id: string, name: string, arguments: string)

  /** `Prompt` is a system or user message. A message without tool calls has an empty list. */
  datatype Message =
    | Prompt(role: string, content: string)
    | Assistant(content: string, toolCalls: seq<Call>)
    | ToolResult(content: string, toolCallId: string)

  datatype Response = Response(content: string, toolCalls: seq<Call>)

  datatype ToolInfo = ToolInfo(name: string, description: string, inputSchema: Option<string>)

  datatype ToolDefinition = ToolDefinition(name: string, description: string, parameters: string)

  datatype ToolOutcome = Text(text: string) | ToolError(code: string, message: string)

  datatype Record = Record(toolName: string, arguments: string, startedAt: string,
                           resultSummary: Option<string>, error: Option<string>)

  datatype Environment = Environment(
    llm: (seq<Message>, seq<ToolDefinition>) -> Response,
    server: (nat, Call) -> ToolOutcome,
    clock: nat -> string,
    errorJson: (string, string) -> string)

  const MAX_TOOL_RESULT_SUMMARY_CHARS := 2000
  const UNAUTHORIZED := "unauthorized"
  const ANY_OBJECT := "{\"type\": \"object\", \"properties\": {}}"

  // ---- The tools on offer ----

  function ToToolDefinition(tool: ToolInfo): ToolDefinition {
    ToolDefinition(tool.name, tool.description, if tool.inputSchema.Some? then tool.inputSchema.value else ANY_OBJECT)
  }

  function FilterByAllowlist(tools: seq<ToolInfo>, allowlist: seq<string>): seq<ToolInfo> {
    if tools == [] then []
    else (if tools[0].name in allowlist then [tools[0]] else []) + FilterByAllowlist(tools[1..], allowlist)
  }

  function Definitions(tools: seq<ToolInfo>): (ds: seq<ToolDefinition>)
    ensures |ds| == |tools| && forall i :: 0 <= i < |ds| ==> ds[i].name == tools[i].name
  {
    seq(|tools|, i requires 0 <= i < |tools| => ToToolDefinition(tools[i]))
  }

  /** `discovered` is `None` when the discovery failed: the role then works without tools. */
  function ResolveRoleTools(discovered: Option<seq<ToolInfo>>, allowlist: seq<string>): seq<ToolDefinition> {
    if allowlist == [] || discovered.None? then []
    else Definitions(FilterByAllowlist(discovered.value, allowlist))
  }

  function Names(tools: seq<ToolDefinition>): set<string> {
    set tool <- tools :: tool.name
  }

  // ---- The loop as a function ----

  datatype Trace = Trace(conversation: seq<Message>, records: seq<Record>, invocations: seq<Call>, chats: nat)

  function Summary(text: string): string {
    if |text| <= MAX_TOOL_RESULT_SUMMARY_CHARS then text else text[..MAX_TOOL_RESULT_SUMMARY_CHARS]
  }

  function NotAllowed(name: string): string {
    "tool '" + name + "' is not in the role allowlist"
  }

  /** What becomes of the `n`-th call of a run: a call that is not on offer never reaches the
      server. */
  function OutcomeOf(env: Environment, offered: set<string>, n: nat, call: Call): ToolOutcome {
    if call.name in offered then env.server(n, call) else ToolError(UNAUTHORIZED, NotAllowed(call.name))
  }

  function TextOf(env: Environment, outcome: ToolOutcome): string {
    match outcome
    case Text(text) => text
    case ToolError(code, message) => env.errorJson(code, message)
  }

  function RecordOf(env: Environment, n: nat, call: Call, outcome: ToolOutcome): Record {
    match outcome
    case Text(text) => Record(call.name, call.arguments, env.clock(n), Some(Summary(text)), None)
    case ToolError(code, message) =>
      Record(call.name, call.arguments, env.clock(n), None, Some(code + ": " + message))
  }

  function OnCall(env: Environment, offered: set<string>, t: Trace, call: Call): Trace {
    var outcome := OutcomeOf(env, offered, |t.records|, call);
    Trace(t.conversation + [ToolResult(TextOf(env, outcome), call.id)],
          t.records + [RecordOf(env, |t.records|, call, outcome)],
          if call.name in offered then t.invocations + [call] else t.invocations, t.chats)
  }

  function OnCalls(env: Environment, offered: set<string>, t: Trace, calls: seq<Call>): Trace
    decreases |calls|
  {
    if calls == [] then t else OnCalls(env, offered, OnCall(env, offered, t, calls[0]), calls[1..])
  }

  function Replied(t: Trace, response: Response): Trace {
    t.(conversation := t.conversation + [Assistant(response.content, response.toolCalls)], chats := t.chats + 1)
  }

  function Answered(t: Trace, response: Response): Trace {
    Replied(t, response.(toolCalls := []))
  }

  function RunRounds(env: Environment, tools: seq<ToolDefinition>, t: Trace, left: nat): Trace
    decreases left
  {
    if left == 0 then Answered(t, env.llm(t.conversation, []))
    else
      var response := env.llm(t.conversation, tools);
      if response.toolCalls == [] then Answered(t, response)
      else RunRounds(env, tools, OnCalls(env, Names(tools), Replied(t, response), response.toolCalls), left - 1)
  }

  /** Without tools the model is asked once. A negative bound allows no round. */
  function RoundLimit(tools: seq<ToolDefinition>, maxRounds: int): nat {
    if tools == [] || maxRounds < 0 then 0 else maxRounds
  }

  function RunOf(env: Environment, messages: seq<Message>, tools: seq<ToolDefinition>, maxRounds: int): Trace {
    RunRounds(env, tools, Trace(messages, [], [], 0), RoundLimit(tools, maxRounds))
  }

  // ---- The loop as it runs ----

  /** The result's messages and records, the text of the last reply, the calls that reached
      the tool server, and the number of replies. */
  method RunToolLoop(env: Environment, messages: seq<Message>, tools: seq<ToolDefinition>, maxRounds: int)
    returns (conversation: seq<Message>, records: seq<Record>, finalContent: string, invocations: seq<Call>, chats: nat)
    ensures Trace(conversation, records, invocations, chats) == RunOf(env, messages, tools, maxRounds)
    ensures conversation != [] && conversation[|conversation| - 1] == Assistant(finalContent, [])
  {
    conversation, records, invocations, chats := messages, [], [], 0;
    if tools == [] {
      var response := env.llm(messages, []);
      return messages + [Assistant(response.content, [])], [], response.content, [], 1;
    }
    var offered := Names(tools);
    var limit := RoundLimit(tools, maxRounds);
    for round := 0 to limit
      invariant RunOf(env, messages, tools, maxRounds)
             == RunRounds(env, tools, Trace(conversation, records, invocations, chats), limit - round)
    {
      var response := env.llm(conversation, tools);
      chats := chats + 1;
      if response.toolCalls == [] {
        conversation := conversation + [Assistant(response.content, [])];
        return conversation, records, response.content, invocations, chats;
      }
      conversation := conversation + [Assistant(response.content, response.toolCalls)];
      ghost var asked := Trace(conversation, records, invocations, chats);
      for k := 0 to |response.toolCalls|
        invariant OnCalls(env, offered, asked, response.toolCalls)
               == OnCalls(env, offered, Trace(conversation, records, invocations, chats), response.toolCalls[k..])
      {
        var call := response.toolCalls[k];
        assert response.toolCalls[k..][0] == call && response.toolCalls[k..][1..] == response.toolCalls[k + 1..];
        var record := Record(call.name, call.arguments, env.clock(|records|), None, None);
        var resultText;
        if call.name !in offered {
          resultText := env.errorJson(UNAUTHORIZED, NotAllowed(call.name));
          record := record.(error := Some(UNAUTHORIZED + ": " + NotAllowed(call.name)));
        } else {
          invocations := invocations + [call];
          match env.server(|records|, call)
          case Text(text) =>
            resultText := text;
            record := record.(resultSummary := Some(Summary(text)));
          case ToolError(code, message) =>
            resultText := env.errorJson(code, message);
            record := record.(error := Some(code + ": " + message));
        }
        records := records + [record];
        conversation := conversation + [ToolResult(resultText, call.id)];
      }
    }
    var response := env.llm(conversation, []);
    chats := chats + 1;
    conversation := conversation + [Assistant(response.content, [])];
    finalContent := response.content;
  }

  // ---- The shape of a run ----

  /** A round: the model's request, and one result text for each of its calls. */
  datatype Round = Round(content: string, calls: seq<Call>, results: seq<string>)

  predicate IsRound(r: Round) {
    r.calls != [] && |r.results| == |r.calls|
  }

  function Results(calls: seq<Call>, results: seq<string>): seq<Message>
    requires |results| == |calls|
  {
    seq(|calls|, i requires 0 <= i < |calls| => ToolResult(results[i], calls[i].id))
  }

  ghost predicate AreRounds(rounds: seq<Round>) {
    forall i :: 0 <= i < |rounds| ==> IsRound(rounds[i])
  }

  /** The messages of a list of rounds. */
  function Render(rounds: seq<Round>): seq<Message>
    requires AreRounds(rounds)
  {
    if rounds == [] then []
    else
      var last := rounds[|rounds| - 1];
      Render(rounds[..|rounds| - 1]) + [Assistant(last.content, last.calls)] + Results(last.calls, last.results)
  }

  function Requested(rounds: seq<Round>): seq<Call> {
    if rounds == [] then [] else Requested(rounds[..|rounds| - 1]) + rounds[|rounds| - 1].calls
  }

  function ResultTexts(rounds: seq<Round>): seq<string> {
    if rounds == [] then [] else ResultTexts(rounds[..|rounds| - 1]) + rounds[|rounds| - 1].results
  }

  function OnOffer(calls: seq<Call>, offered: set<string>): seq<Call> {
    if calls == [] then []
    else (if calls[0].name in offered then [calls[0]] else []) + OnOffer(calls[1..], offered)
  }

  /** Record and result text tell what the server answered: its text, of which the record keeps
      the first 2000 characters, or its error. */
  predicate TellsAnswer(env: Environment, record: Record, text: string, answer: ToolOutcome) {
    match answer
    case Text(content) =>
      && text == content && record.error.None? && record.resultSummary.Some?
      && (if |content| <= 2000 then record.resultSummary.value == content
          else record.resultSummary.value == content[..2000])
    case ToolError(code, message) =>
      && text == env.errorJson(code, message) && record.resultSummary.None?
      && record.error == Some(code + ": " + message)
  }

  /** Record and result text tell that the tool is not allowed. */
  predicate TellsRefusal(env: Environment, record: Record, text: string, name: string) {
    var message := "tool '" + name + "' is not in the role allowlist";
    && text == env.errorJson("unauthorized", message) && record.resultSummary.None?
    && record.error == Some("unauthorized" + ": " + message)
  }

  /** The `i`-th round is the model's reply to the conversation so far. */
  ghost predicate IsReply(env: Environment, messages: seq<Message>, tools: seq<ToolDefinition>, rounds: seq<Round>,
                          i: nat)
    requires i < |rounds| && AreRounds(rounds)
  {
    Response(rounds[i].content, rounds[i].calls) == env.llm(messages + Render(rounds[..i]), tools)
  }

  /** The rounds are what the model asked for, each time on the conversation so far. */
  ghost predicate AskedFor(env: Environment, messages: seq<Message>, tools: seq<ToolDefinition>, rounds: seq<Round>) {
    AreRounds(rounds) && forall i :: 0 <= i < |rounds| ==> IsReply(env, messages, tools, rounds, i)
  }

  ghost predicate AllTell(env: Environment, offered: set<string>, records: seq<Record>, rounds: seq<Round>) {
    && |Requested(rounds)| == |ResultTexts(rounds)| == |records|
    && forall k :: 0 <= k < |records| ==>
         TellsAt(env, offered, records[k], ResultTexts(rounds)[k], Requested(rounds)[k], k)
  }

  /** The `k`-th call of a run is recorded and answered as what became of it. */
  predicate TellsAt(env: Environment, offered: set<string>, record: Record, text: string, call: Call, k: nat) {
    && record.toolName == call.name && record.arguments == call.arguments && record.startedAt == env.clock(k)
    && if call.name in offered then TellsAnswer(env, record, text, env.server(k, call))
       else TellsRefusal(env, record, text, call.name)
  }

  /** A trace in which `rounds` are over and no answer was given yet. */
  ghost predicate Covers(env: Environment, messages: seq<Message>, tools: seq<ToolDefinition>, t: Trace,
                         rounds: seq<Round>)
  {
    && AskedFor(env, messages, tools, rounds)
    && t.conversation == messages + Render(rounds)
    && t.chats == |rounds|
    && AllTell(env, Names(tools), t.records, rounds)
    && t.invocations == OnOffer(Requested(rounds), Names(tools))
  }

  lemma {:induction false} OnOfferConcat(a: seq<Call>, b: seq<Call>, offered: set<string>)
    ensures OnOffer(a + b, offered) == OnOffer(a, offered) + OnOffer(b, offered)
    decreases |a|
  {
    if a == [] {
      assert a + b == b;
    } else {
      assert (a + b)[0] == a[0] && (a + b)[1..] == a[1..] + b;
      OnOfferConcat(a[1..], b, offered);
      Associates(if a[0].name in offered then [a[0]] else [], OnOffer(a[1..], offered), OnOffer(b, offered));
    }
  }

  /** The result texts of a list of calls, the first of which is the `n`-th of the run. */
  function TextsFrom(env: Environment, offered: set<string>, n: nat, calls: seq<Call>): (texts: seq<string>)
    ensures |texts| == |calls|
  {
    seq(|calls|, k requires 0 <= k < |calls| => TextOf(env, OutcomeOf(env, offered, n + k, calls[k])))
  }

  function RecordsFrom(env: Environment, offered: set<string>, n: nat, calls: seq<Call>): (records: seq<Record>)
    ensures |records| == |calls|
  {
    seq(|calls|, k requires 0 <= k < |calls| =>
      RecordOf(env, n + k, calls[k], OutcomeOf(env, offered, n + k, calls[k])))
  }

  lemma FirstFrom(env: Environment, offered: set<string>, n: nat, calls: seq<Call>)
    requires calls != []
    ensures var outcome := OutcomeOf(env, offered, n, calls[0]);
            && TextsFrom(env, offered, n, calls) == [TextOf(env, outcome)] + TextsFrom(env, offered, n + 1, calls[1..])
            && RecordsFrom(env, offered, n, calls)
               == [RecordOf(env, n, calls[0], outcome)] + RecordsFrom(env, offered, n + 1, calls[1..])
  {
    var texts, records := TextsFrom(env, offered, n, calls), RecordsFrom(env, offered, n, calls);
    var moreTexts := TextsFrom(env, offered, n + 1, calls[1..]);
    var moreRecords := RecordsFrom(env, offered, n + 1, calls[1..]);
    forall k | 0 < k < |calls|
      ensures texts[k] == moreTexts[k - 1] && records[k] == moreRecords[k - 1]
    {
      assert calls[1..][k - 1] == calls[k] && n + 1 + (k - 1) == n + k;
    }
  }

  lemma FirstResult(calls: seq<Call>, text: string, more: seq<string>)
    requires |calls| == |more| + 1
    ensures Results(calls, [text] + more) == [ToolResult(text, calls[0].id)] + Results(calls[1..], more)
  {
    assert ([text] + more)[1..] == more;
  }

  /** What the calls of one round add to a trace. */
  function Appended(env: Environment, offered: set<string>, t: Trace, calls: seq<Call>): Trace {
    Trace(t.conversation + Results(calls, TextsFrom(env, offered, |t.records|, calls)),
          t.records + RecordsFrom(env, offered, |t.records|, calls),
          t.invocations + OnOffer(calls, offered), t.chats)
  }

  lemma AppendedOneByOne(env: Environment, offered: set<string>, t: Trace, calls: seq<Call>)
    requires calls != []
    ensures Appended(env, offered, t, calls) == Appended(env, offered, OnCall(env, offered, t, calls[0]), calls[1..])
  {
    var n, call := |t.records|, calls[0];
    var outcome := OutcomeOf(env, offered, n, call);
    FirstFrom(env, offered, n, calls);
    FirstResult(calls, TextOf(env, outcome), TextsFrom(env, offered, n + 1, calls[1..]));
    Associates(t.conversation, [ToolResult(TextOf(env, outcome), call.id)],
               Results(calls[1..], TextsFrom(env, offered, n + 1, calls[1..])));
    Associates(t.records, [RecordOf(env, n, call, outcome)], RecordsFrom(env, offered, n + 1, calls[1..]));
    Associates(t.invocations, if call.name in offered then [call] else [], OnOffer(calls[1..], offered));
  }

  /** The calls of one round, one after another. */
  lemma {:induction false} OnCallsAppends(env: Environment, offered: set<string>, t: Trace, calls: seq<Call>)
    ensures OnCalls(env, offered, t, calls) == Appended(env, offered, t, calls)
    decreases |calls|
  {
    if calls != [] {
      OnCallsAppends(env, offered, OnCall(env, offered, t, calls[0]), calls[1..]);
      AppendedOneByOne(env, offered, t, calls);
    }
  }

  lemma TellsMore(env: Environment, offered: set<string>, records: seq<Record>, rounds: seq<Round>,
                  r: Round, more: seq<Record>)
    requires AllTell(env, offered, records, rounds) && IsRound(r) && |more| == |r.calls|
    requires forall k :: 0 <= k < |more| ==> TellsAt(env, offered, more[k], r.results[k], r.calls[k], |records| + k)
    ensures AllTell(env, offered, records + more, rounds + [r])
  {
    assert (rounds + [r])[..|rounds|] == rounds;
    assert Requested(rounds + [r]) == Requested(rounds) + r.calls;
    assert ResultTexts(rounds + [r]) == ResultTexts(rounds) + r.results;
    forall k | 0 <= k < |records + more|
      ensures TellsAt(env, offered, (records + more)[k], ResultTexts(rounds + [r])[k], Requested(rounds + [r])[k], k)
    {
      if k >= |records| {
        var n := k - |records|;
        assert TellsAt(env, offered, more[n], r.results[n], r.calls[n], |records| + n);
      } else {
        assert TellsAt(env, offered, records[k], ResultTexts(rounds)[k], Requested(rounds)[k], k);
      }
    }
  }

  lemma AskedForMore(env: Environment, messages: seq<Message>, tools: seq<ToolDefinition>, rounds: seq<Round>, r: Round)
    requires AskedFor(env, messages, tools, rounds) && IsRound(r)
    requires Response(r.content, r.calls) == env.llm(messages + Render(rounds), tools)
    ensures AskedFor(env, messages, tools, rounds + [r])
  {
    forall i | 0 <= i < |rounds + [r]|
      ensures IsReply(env, messages, tools, rounds + [r], i)
    {
      assert (rounds + [r])[..i] == rounds[..i] && rounds[..|rounds|] == rounds;
      assert i < |rounds| ==> IsReply(env, messages, tools, rounds, i);
    }
  }

  /** The round that the model asks for next. */
  function NextRound(env: Environment, tools: seq<ToolDefinition>, t: Trace): Round {
    var response := env.llm(t.conversation, tools);
    Round(response.content, response.toolCalls, TextsFrom(env, Names(tools), |t.records|, response.toolCalls))
  }

  function AfterRound(env: Environment, tools: seq<ToolDefinition>, t: Trace): Trace {
    var response := env.llm(t.conversation, tools);
    OnCalls(env, Names(tools), Replied(t, response), response.toolCalls)
  }

  lemma RecordTells(env: Environment, offered: set<string>, n: nat, calls: seq<Call>, k: nat)
    requires k < |calls|
    ensures TellsAt(env, offered, RecordsFrom(env, offered, n, calls)[k], TextsFrom(env, offered, n, calls)[k],
                    calls[k], n + k)
  {
  }

  lemma AfterRoundRecords(env: Environment, tools: seq<ToolDefinition>, t: Trace)
    ensures AfterRound(env, tools, t).records
         == t.records + RecordsFrom(env, Names(tools), |t.records|, env.llm(t.conversation, tools).toolCalls)
  {
    var response := env.llm(t.conversation, tools);
    OnCallsAppends(env, Names(tools), Replied(t, response), response.toolCalls);
  }

  lemma NextRoundTells(env: Environment, tools: seq<ToolDefinition>, t: Trace, rounds: seq<Round>)
    requires AllTell(env, Names(tools), t.records, rounds) && IsRound(NextRound(env, tools, t))
    ensures AllTell(env, Names(tools), AfterRound(env, tools, t).records, rounds + [NextRound(env, tools, t)])
  {
    var response, n := env.llm(t.conversation, tools), |t.records|;
    var r, more := NextRound(env, tools, t), RecordsFrom(env, Names(tools), n, response.toolCalls);
    AfterRoundRecords(env, tools, t);
    forall k | 0 <= k < |more|
      ensures TellsAt(env, Names(tools), more[k], r.results[k], r.calls[k], n + k)
    {
      RecordTells(env, Names(tools), n, response.toolCalls, k);
    }
    TellsMore(env, Names(tools), t.records, rounds, r, more);
  }

  lemma NextRoundRenders(env: Environment, messages: seq<Message>, tools: seq<ToolDefinition>, t: Trace,
                         rounds: seq<Round>)
    requires AreRounds(rounds) && IsRound(NextRound(env, tools, t)) && t.conversation == messages + Render(rounds)
    ensures AfterRound(env, tools, t).conversation == messages + Render(rounds + [NextRound(env, tools, t)])
    ensures AfterRound(env, tools, t).chats == t.chats + 1
  {
    var response := env.llm(t.conversation, tools);
    var r := NextRound(env, tools, t);
    OnCallsAppends(env, Names(tools), Replied(t, response), response.toolCalls);
    assert (rounds + [r])[..|rounds|] == rounds;
    var asked := [Assistant(r.content, r.calls)];
    Associates(messages, Render(rounds), asked);
    Associates(messages, Render(rounds) + asked, Results(r.calls, r.results));
  }

  lemma NextRoundInvokes(env: Environment, tools: seq<ToolDefinition>, t: Trace, rounds: seq<Round>)
    requires t.invocations == OnOffer(Requested(rounds), Names(tools))
    ensures AfterRound(env, tools, t).invocations
         == OnOffer(Requested(rounds + [NextRound(env, tools, t)]), Names(tools))
  {
    var response := env.llm(t.conversation, tools);
    var r := NextRound(env, tools, t);
    OnCallsAppends(env, Names(tools), Replied(t, response), response.toolCalls);
    assert (rounds + [r])[..|rounds|] == rounds;
    OnOfferConcat(Requested(rounds), r.calls, Names(tools));
  }

  lemma CoversMore(env: Environment, messages: seq<Message>, tools: seq<ToolDefinition>, t: Trace, rounds: seq<Round>)
    requires Covers(env, messages, tools, t, rounds) && env.llm(t.conversation, tools).toolCalls != []
    ensures Covers(env, messages, tools, AfterRound(env, tools, t), rounds + [NextRound(env, tools, t)])
  {
    AskedForMore(env, messages, tools, rounds, NextRound(env, tools, t));
    NextRoundTells(env, tools, t, rounds);
    NextRoundRenders(env, messages, tools, t, rounds);
    NextRoundInvokes(env, tools, t, rounds);
  }

  /** How the model's last reply comes about: it wants no more tools, or the rounds are used
      up and it is asked without tools. */
  ghost predicate EndsWith(env: Environment, messages: seq<Message>, tools: seq<ToolDefinition>, limit: nat,
                           rounds: seq<Round>, answer: string)
    requires AreRounds(rounds)
  {
    && |rounds| <= limit
    && var last := env.llm(messages + Render(rounds), if |rounds| < limit then tools else []);
       answer == last.content && (|rounds| < limit ==> last.toolCalls == [])
  }

  /** A trace that ends with the model's last reply. */
  ghost predicate Finishes(env: Environment, messages: seq<Message>, tools: seq<ToolDefinition>, limit: nat,
                           u: Trace, rounds: seq<Round>, answer: string) {
    && AskedFor(env, messages, tools, rounds)
    && EndsWith(env, messages, tools, limit, rounds, answer)
    && u.conversation == messages + Render(rounds) + [Assistant(answer, [])]
    && u.chats == |rounds| + 1
    && AllTell(env, Names(tools), u.records, rounds)
    && u.invocations == OnOffer(Requested(rounds), Names(tools))
  }

  /** The half of a run in which the model replies for the last time. */
  lemma LastReply(env: Environment, messages: seq<Message>, tools: seq<ToolDefinition>, t: Trace, rounds: seq<Round>,
                  left: nat, limit: nat, u: Trace)
    returns (answer: string)
    requires Covers(env, messages, tools, t, rounds) && limit == |rounds| + left
    requires left == 0 || env.llm(t.conversation, tools).toolCalls == []
    requires u == RunRounds(env, tools, t, left)
    ensures Finishes(env, messages, tools, limit, u, rounds, answer)
  {
    var response := env.llm(t.conversation, if left > 0 then tools else []);
    LastTrace(env, tools, t, left);
    answer := response.content;
  }

  lemma LastTrace(env: Environment, tools: seq<ToolDefinition>, t: Trace, left: nat)
    requires left == 0 || env.llm(t.conversation, tools).toolCalls == []
    ensures RunRounds(env, tools, t, left) == Answered(t, env.llm(t.conversation, if left > 0 then tools else []))
  {
  }

  /** The half in which it asks for another round. */
  lemma OneRound(env: Environment, messages: seq<Message>, tools: seq<ToolDefinition>, t: Trace, rounds: seq<Round>,
                 left: nat, u: Trace)
    returns (next: Trace, more: seq<Round>)
    requires Covers(env, messages, tools, t, rounds) && u == RunRounds(env, tools, t, left)
    requires left > 0 && env.llm(t.conversation, tools).toolCalls != []
    ensures Covers(env, messages, tools, next, more) && |more| == |rounds| + 1
    ensures u == RunRounds(env, tools, next, left - 1)
  {
    CoversMore(env, messages, tools, t, rounds);
    NextTrace(env, tools, t, left);
    next, more := AfterRound(env, tools, t), rounds + [NextRound(env, tools, t)];
  }

  lemma NextTrace(env: Environment, tools: seq<ToolDefinition>, t: Trace, left: nat)
    requires left > 0 && env.llm(t.conversation, tools).toolCalls != []
    ensures RunRounds(env, tools, t, left) == RunRounds(env, tools, AfterRound(env, tools, t), left - 1)
  {
  }

  lemma {:induction false} RoundsCovered(env: Environment, messages: seq<Message>, tools: seq<ToolDefinition>, t: Trace,
                                         done: seq<Round>, left: nat, limit: nat, u: Trace)
    returns (rounds: seq<Round>, answer: string)
    requires Covers(env, messages, tools, t, done) && limit == |done| + left && u == RunRounds(env, tools, t, left)
    ensures Finishes(env, messages, tools, limit, u, rounds, answer)
    decreases left
  {
    if left == 0 || env.llm(t.conversation, tools).toolCalls == [] {
      rounds := done;
      answer := LastReply(env, messages, tools, t, done, left, limit, u);
    } else {
      var next, more := OneRound(env, messages, tools, t, done, left, u);
      rounds, answer := RoundsCovered(env, messages, tools, next, more, left - 1, limit, u);
    }
  }

  /** Every run is its input, at most `maxRounds` rounds of requests and results, and one last
      reply without tool calls: the model wanted no more tools, or the rounds were used up, or
      there were no tools, and it was asked without any. Each request is the model's reply to the
      conversation so far, each call has one result message with its id, in order, and one record; the calls
      that reach the server are those of the requested ones that are on offer, in order. */
  lemma RunsAreBoundedRounds(env: Environment, messages: seq<Message>, tools: seq<ToolDefinition>, maxRounds: int)
    returns (rounds: seq<Round>, answer: string)
    ensures var t := RunOf(env, messages, tools, maxRounds);
            && Finishes(env, messages, tools, RoundLimit(tools, maxRounds), t, rounds, answer)
            && t.chats == |rounds| + 1
    ensures |rounds| <= if maxRounds < 0 then 0 else maxRounds
    ensures tools == [] ==> rounds == []
    ensures tools != [] && |rounds| < maxRounds ==>
              env.llm(messages + Render(rounds), tools) == Response(answer, [])
    ensures tools == [] || |rounds| >= maxRounds ==> env.llm(messages + Render(rounds), []).content == answer
  {
    var t := Trace(messages, [], [], 0);
    assert messages + Render([]) == messages;
    var limit := RoundLimit(tools, maxRounds);
    rounds, answer := RoundsCovered(env, messages, tools, t, [], limit, limit, RunOf(env, messages, tools, maxRounds));
  }

  /** In every run, a requested call that is not on offer is recorded with the authorization
      error, without a result, and the model is told that error; a call on offer is recorded,
      and answered to the model, as what the server said to just this call. */
  lemma EveryCallIsTold(env: Environment, messages: seq<Message>, tools: seq<ToolDefinition>, maxRounds: int)
    returns (rounds: seq<Round>, answer: string)
    ensures var t := RunOf(env, messages, tools, maxRounds);
            var calls, texts := Requested(rounds), ResultTexts(rounds);
            && Finishes(env, messages, tools, RoundLimit(tools, maxRounds), t, rounds, answer)
            && |calls| == |texts| == |t.records|
            && forall k :: 0 <= k < |calls| ==>
                 var call, record := calls[k], t.records[k];
                 && record.toolName == call.name && record.arguments == call.arguments
                 && (call.name !in Names(tools) ==>
                       && record.resultSummary == None
                       && record.error
                          == Some("unauthorized" + ": " + ("tool '" + call.name + "' is not in the role allowlist"))
                       && texts[k]
                          == env.errorJson("unauthorized", "tool '" + call.name + "' is not in the role allowlist"))
                 && (call.name in Names(tools) ==> TellsAnswer(env, record, texts[k], env.server(k, call)))
  {
    rounds, answer := RunsAreBoundedRounds(env, messages, tools, maxRounds);
    var t := RunOf(env, messages, tools, maxRounds);
    forall k | 0 <= k < |t.records|
      ensures TellsAt(env, Names(tools), t.records[k], ResultTexts(rounds)[k], Requested(rounds)[k], k)
    {
    }
  }

  // ---- Only allowed tools are invoked ----

  lemma {:induction false} FilterKeeps(tools: seq<ToolInfo>, allowlist: seq<string>, tool: ToolInfo)
    ensures tool in FilterByAllowlist(tools, allowlist) <==> tool in tools && tool.name in allowlist
  {
    if tools != [] {
      FilterKeeps(tools[1..], allowlist, tool);
    }
  }

  predicate IsDiscovered(discovered: Option<seq<ToolInfo>>, name: string) {
    discovered.Some? && exists tool :: tool in discovered.value && tool.name == name
  }

  /** The tools on offer are the discovered ones in the role's allowlist. */
  lemma OfferIsAllowed(discovered: Option<seq<ToolInfo>>, allowlist: seq<string>, name: string)
    ensures name in Names(ResolveRoleTools(discovered, allowlist)) <==>
              name in allowlist && IsDiscovered(discovered, name)
  {
    if allowlist != [] && discovered.Some? {
      var kept := FilterByAllowlist(discovered.value, allowlist);
      var ds := Definitions(kept);
      if name in Names(ds) {
        var i :| 0 <= i < |ds| && ds[i].name == name;
        FilterKeeps(discovered.value, allowlist, kept[i]);
      }
      if name in allowlist && IsDiscovered(discovered, name) {
        var tool :| tool in discovered.value && tool.name == name;
        FilterKeeps(discovered.value, allowlist, tool);
        var i :| 0 <= i < |kept| && kept[i] == tool;
        assert ds[i] in ds && ds[i].name == name;
      }
    }
  }

  lemma {:induction false} OnOfferIsOffered(calls: seq<Call>, offered: set<string>, k: nat)
    requires k < |OnOffer(calls, offered)|
    ensures OnOffer(calls, offered)[k].name in offered && OnOffer(calls, offered)[k] in calls
  {
    var rest := OnOffer(calls[1..], offered);
    if calls[0].name !in offered {
      assert OnOffer(calls, offered) == rest;
      OnOfferIsOffered(calls[1..], offered, k);
    } else if k > 0 {
      assert OnOffer(calls, offered)[k] == rest[k - 1];
      OnOfferIsOffered(calls[1..], offered, k - 1);
    }
  }

  /** The definition that the model is shown for a discovered tool. */
  predicate Describes(d: ToolDefinition, tool: ToolInfo) {
    && d.name == tool.name && d.description == tool.description
    && (tool.inputSchema.Some? ==> d.parameters == tool.inputSchema.value)
    && (tool.inputSchema.None? ==> d.parameters == "{\"type\": \"object\", \"properties\": {}}")
  }

  /** What is on offer are the descriptions of the discovered tools in the allowlist, all of
      them and nothing else. */
  lemma DefinitionsAreDiscovered(discovered: seq<ToolInfo>, allowlist: seq<string>, d: ToolDefinition)
    ensures d in ResolveRoleTools(Some(discovered), allowlist) <==>
              exists tool :: tool in discovered && tool.name in allowlist && Describes(d, tool)
  {
    var kept := FilterByAllowlist(discovered, allowlist);
    var ds := Definitions(kept);
    if d in ds {
      var i :| 0 <= i < |ds| && ds[i] == d;
      FilterKeeps(discovered, allowlist, kept[i]);
      assert Describes(d, kept[i]);
    }
    if tool :| tool in discovered && tool.name in allowlist && Describes(d, tool) {
      FilterKeeps(discovered, allowlist, tool);
      var i :| 0 <= i < |kept| && kept[i] == tool;
      assert ds[i] == d;
    }
  }

  lemma {:induction false} OnOfferExactly(calls: seq<Call>, offered: set<string>, call: Call)
    ensures multiset(OnOffer(calls, offered))[call] == if call.name in offered then multiset(calls)[call] else 0
  {
    if calls != [] {
      assert calls == [calls[0]] + calls[1..];
      OnOfferExactly(calls[1..], offered, call);
    }
  }

  /** Each requested call reaches the server as often as it was requested if it is on offer,
      and never otherwise. */
  lemma InvocationsAreTheOfferedCalls(env: Environment, messages: seq<Message>, tools: seq<ToolDefinition>,
                                      maxRounds: int)
    returns (rounds: seq<Round>, answer: string)
    ensures var t := RunOf(env, messages, tools, maxRounds);
            && Finishes(env, messages, tools, RoundLimit(tools, maxRounds), t, rounds, answer)
            && forall call :: multiset(t.invocations)[call]
                 == if call.name in Names(tools) then multiset(Requested(rounds))[call] else 0
  {
    rounds, answer := RunsAreBoundedRounds(env, messages, tools, maxRounds);
    forall call {
      OnOfferExactly(Requested(rounds), Names(tools), call);
    }
  }

  /** Whatever the model asks for, a role invokes only tools of its allowlist; a role with an
      empty allowlist, or whose discovery failed, invokes none. */
  lemma InvokedToolsAreAllowed(env: Environment, messages: seq<Message>, discovered: Option<seq<ToolInfo>>,
                               allowlist: seq<string>, maxRounds: int, k: nat)
    requires k < |RunOf(env, messages, ResolveRoleTools(discovered, allowlist), maxRounds).invocations|
    ensures var call := RunOf(env, messages, ResolveRoleTools(discovered, allowlist), maxRounds).invocations[k];
            call.name in allowlist && IsDiscovered(discovered, call.name)
  {
    var tools := ResolveRoleTools(discovered, allowlist);
    var rounds, answer := RunsAreBoundedRounds(env, messages, tools, maxRounds);
    OnOfferIsOffered(Requested(rounds), Names(tools), k);
    OfferIsAllowed(discovered, allowlist, RunOf(env, messages, tools, maxRounds).invocations[k].name);
  }
}
