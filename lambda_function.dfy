/** The Slack entry points: the HTTP gate that acknowledges retries, and the
    message handler that drops bot messages and then runs rounds of
    completion calls, executing every tool the model asks for and folding
    the results back into the conversation, until a response asks for no
    tool. The thread loader, the Converse call, the tool handlers and `say`
    are external: the first three enter as `Services`, and what is said is
    collected in an outbox. */
module LambdaFunction {
  import opened Blocks
  import Tools
  import opened LlmUtils

  // ---------------------------------------------------------------------
  // Events, replies, services
  // ---------------------------------------------------------------------

  /** The fields of a Slack message event the handler reads. */
  datatype Event = Event(channel: string, ts: string, threadTs: Option<string>, botId: Option<string>)

  /** Why a run ended in the error reply. */
  datatype RunError =
    | UpstreamError(message: string)  // the Converse call raised
    | UnknownTool(name: string)       // TOOL_MAPPING[tool_name] raised KeyError
    | EmptyCompletion                 // 'No completion response content'
    | NoText                          // the first block of the answer has no 'text'

  datatype ReplyBody =
    | ToolNotice(tool: string, input: map<string, JsonValue>)
    | Answer(text: string)
    | ErrorReport(error: RunError)

  /** One call of `say`. */
  datatype Reply = Reply(channel: string, threadTs: string, body: ReplyBody)

  datatype Outcome =
    | Ignored              // a bot's message: nothing loaded, nothing said
    | LoadFailed           // loading the thread raised, outside the handler's try
    | Answered(text: string)
    | Failed(error: RunError)
    | Unfinished           // still looping after `fuel` tool rounds

  /** What calling a tool handler did: returned a result block or raised. */
  datatype HandlerOutcome = Returned(block: ContentBlock) | Raised(message: string)

  /** The external collaborators. A handler is told the argument it was
      called with and the round and position of the call, so that calls
      with equal arguments may still return different results. */
  datatype Services = Services(
    load: (string, string) -> Option<seq<Turn>>,
    converse: Converse,
    runTool: (Tools.Handler, JsonValue, nat, nat) -> HandlerOutcome)

  /** `thread_ts or ts`: an empty thread timestamp counts as absent. */
  function ReplyTs(event: Event): string {
    if event.threadTs.Some? && event.threadTs.value != "" then event.threadTs.value else event.ts
  }

  /** Slack marks a reply in a thread with the timestamp of the thread's
      first message, which itself carries no thread timestamp or its own.
      The bot answers the first message and every reply in the same thread,
      and that thread is never empty. */
  lemma ThreadRepliesShareTarget(first: Event, reply: Event)
    requires first.ts != ""
    requires first.threadTs.None? || first.threadTs == Some(first.ts)
    requires reply.threadTs == Some(first.ts)
    ensures ReplyTs(first) == ReplyTs(reply) == first.ts
    ensures forall e: Event :: e.ts != "" ==> ReplyTs(e) != ""
  {
  }

  // ---------------------------------------------------------------------
  // One tool round
  // ---------------------------------------------------------------------

  /** The `toolUse` entry of a content block: its id, tool name and input. */
  datatype ToolCall = ToolCall(toolUseId: string, name: string, input: map<string, JsonValue>)

  function CallOf(block: ContentBlock): ToolCall
    requires block.ToolUse?
  {
    ToolCall(block.toolUseId, block.name, block.input)
  }

  /** The `toolUse` entries of a response, in order. */
  function ToolUses(blocks: seq<ContentBlock>): (uses: seq<ToolCall>)
    ensures |uses| <= |blocks|
  {
    if blocks == [] then []
    else
      var last := blocks[|blocks| - 1];
      ToolUses(blocks[..|blocks| - 1]) + (if last.ToolUse? then [CallOf(last)] else [])
  }

  lemma {:induction false} ToolUsesAppend(a: seq<ContentBlock>, b: seq<ContentBlock>)
    ensures ToolUses(a + b) == ToolUses(a) + ToolUses(b)
  {
    if b != [] {
      ToolUsesAppend(a, b[..|b| - 1]);
      assert (a + b)[..|a + b| - 1] == a + b[..|b| - 1];
    } else {
      assert a + b == a;
    }
  }

  /** The filter keeps exactly the tool-use blocks: the response is a tool
      round iff some block is a tool use. */
  lemma {:induction false} ToolUsesExactly(blocks: seq<ContentBlock>)
    ensures forall call :: call in ToolUses(blocks) <==> ToolUse(call.toolUseId, call.name, call.input) in blocks
    ensures |ToolUses(blocks)| > 0 <==> exists i :: 0 <= i < |blocks| && blocks[i].ToolUse?
  {
    if blocks != [] {
      var init := blocks[..|blocks| - 1];
      ToolUsesExactly(init);
      assert blocks == init + [blocks[|blocks| - 1]];
      if exists i :: 0 <= i < |blocks| && blocks[i].ToolUse? {
        var i :| 0 <= i < |blocks| && blocks[i].ToolUse?;
        assert CallOf(blocks[i]) in ToolUses(blocks);
      }
    }
  }

  /** How many tool uses, from the first on, name a registered tool. */
  function KnownPrefix(uses: seq<ToolCall>): (k: nat)
    ensures k <= |uses|
    ensures forall i :: 0 <= i < k ==> uses[i].name in Tools.ToolMapping
    ensures k < |uses| ==> uses[k].name !in Tools.ToolMapping
  {
    if uses == [] || uses[0].name !in Tools.ToolMapping then 0 else 1 + KnownPrefix(uses[1..])
  }

  predicate AllKnown(uses: seq<ToolCall>) {
    KnownPrefix(uses) == |uses|
  }

  /** `tool_func(**tool_input)` for a registered tool. */
  function InvokeTool(svc: Services, call: ToolCall, round: nat, position: nat): HandlerOutcome
    requires call.name in Tools.ToolMapping
  {
    var handler := Tools.ToolMapping[call.name];
    match Tools.BindArgument(handler, call.input)
    case Failure(e) => Raised(e)
    case Success(argument) => svc.runTool(handler, argument, round, position)
  }

  /** The `toolResult` block for one handler call. */
  function ToolResultBlock(toolUseId: string, outcome: HandlerOutcome): ContentBlock {
    match outcome
    case Returned(block) => ToolResult(toolUseId, [block], StatusSuccess)
    case Raised(e) => ToolResult(toolUseId, [Text("Error: " + e)], StatusError)
  }

  /** The content of the user message that answers a tool round, built
      one handler call per tool use, in order. */
  function RoundResults(svc: Services, uses: seq<ToolCall>, round: nat): (results: seq<ContentBlock>)
    requires forall i :: 0 <= i < |uses| ==> uses[i].name in Tools.ToolMapping
    ensures |results| == |uses|
  {
    if uses == [] then []
    else
      var n := |uses| - 1;
      RoundResults(svc, uses[..n], round) + [ToolResultBlock(uses[n].toolUseId, InvokeTool(svc, uses[n], round, n))]
  }

  /** One `toolResult` per tool use, in the same order and with the same
      id, holding one block: the handler's result with status success, or
      the text 'Error: <e>' with status error. */
  lemma {:induction false} RoundResultsPairing(svc: Services, uses: seq<ToolCall>, round: nat, i: nat)
    requires forall i :: 0 <= i < |uses| ==> uses[i].name in Tools.ToolMapping
    requires i < |uses|
    ensures var results := RoundResults(svc, uses, round);
      var outcome := InvokeTool(svc, uses[i], round, i);
      && results[i].ToolResult?
      && results[i].toolUseId == uses[i].toolUseId
      && |results[i].content| == 1
      && (results[i].status == StatusSuccess <==> outcome.Returned?)
      && (outcome.Returned? ==> results[i].content[0] == outcome.block)
      && (outcome.Raised? ==> results[i].content[0] == Text("Error: " + outcome.message))
  {
    var n := |uses| - 1;
    if i < n {
      RoundResultsPairing(svc, uses[..n], round, i);
    }
  }

  /** The notices said for the given tool uses, one each, in order. */
  function Notices(uses: seq<ToolCall>, channel: string, threadTs: string): (notices: seq<Reply>)
    ensures |notices| == |uses|
    ensures forall i :: 0 <= i < |uses| ==>
      notices[i] == Reply(channel, threadTs, ToolNotice(uses[i].name, uses[i].input))
  {
    if uses == [] then []
    else
      var last := uses[|uses| - 1];
      Notices(uses[..|uses| - 1], channel, threadTs) + [Reply(channel, threadTs, ToolNotice(last.name, last.input))]
  }

  /** The inner `for` loop over a response's blocks: each tool use is
      looked up (an unknown name raises at once, before anything is said
      for it), announced, and run; its result is appended. */
  method ProcessToolUses(content: seq<ContentBlock>, svc: Services, round: nat, channel: string, threadTs: string)
    returns (results: seq<ContentBlock>, notices: seq<Reply>, unknown: Option<string>)
    ensures var uses := ToolUses(content);
      var k := KnownPrefix(uses);
      && (unknown.None? <==> k == |uses|)
      && (unknown.Some? ==> unknown.value == uses[k].name)
      && notices == Notices(uses[..k], channel, threadTs)
      && (unknown.None? ==> results == RoundResults(svc, uses, round))
  {
    results, notices := [], [];
    ghost var seen: seq<ToolCall> := [];
    for j := 0 to |content|
      invariant seen == ToolUses(content[..j])
      invariant AllKnown(seen)
      invariant results == RoundResults(svc, seen, round)
      invariant notices == Notices(seen, channel, threadTs)
    {
      ToolUsesStep(content, j);
      if content[j].ToolUse? {
        var use := ToolCall(content[j].toolUseId, content[j].name, content[j].input);
        if use.name !in Tools.ToolMapping {
          UnknownStops(content, j);
          return results, notices, Some(use.name);
        }
        KnownStep(svc, seen, use, round, channel, threadTs);
        notices := notices + [Reply(channel, threadTs, ToolNotice(use.name, use.input))];
        var outcome := InvokeTool(svc, use, round, |results|);
        results := results + [ToolResultBlock(use.toolUseId, outcome)];
        seen := seen + [use];
      }
    }
    assert content[..|content|] == content;
    assert seen[..|seen|] == seen;
    unknown := None;
  }

  lemma ToolUsesStep(content: seq<ContentBlock>, j: nat)
    requires j < |content|
    ensures ToolUses(content[..j + 1]) == ToolUses(content[..j]) + (if content[j].ToolUse? then [CallOf(content[j])] else [])
  {
    assert content[..j + 1][..j] == content[..j];
  }

  /** Appending a registered tool use extends the results and the notices
      by one each. */
  lemma KnownStep(svc: Services, uses: seq<ToolCall>, use: ToolCall, round: nat, channel: string, threadTs: string)
    requires AllKnown(uses) && use.name in Tools.ToolMapping
    ensures AllKnown(uses + [use])
    ensures RoundResults(svc, uses + [use], round)
      == RoundResults(svc, uses, round) + [ToolResultBlock(use.toolUseId, InvokeTool(svc, use, round, |uses|))]
    ensures Notices(uses + [use], channel, threadTs)
      == Notices(uses, channel, threadTs) + [Reply(channel, threadTs, ToolNotice(use.name, use.input))]
  {
    KnownPrefixGrows(uses, use);
    assert (uses + [use])[..|uses|] == uses;
  }

  /** An unregistered tool use ends the known prefix of the whole response. */
  lemma UnknownStops(content: seq<ContentBlock>, j: nat)
    requires j < |content| && content[j].ToolUse? && content[j].name !in Tools.ToolMapping
    requires AllKnown(ToolUses(content[..j]))
    ensures var before := ToolUses(content[..j]);
      var uses := ToolUses(content);
      && KnownPrefix(uses) == |before| && |before| < |uses|
      && uses[..|before|] == before && uses[|before|] == CallOf(content[j])
  {
    var before := ToolUses(content[..j]);
    var rest := ToolUses(content[j + 1..]);
    ToolUsesAround(content, j);
    KnownPrefixStops(before, CallOf(content[j]), rest);
    assert (before + [CallOf(content[j])] + rest)[..|before|] == before;
  }

  lemma ToolUsesAround(content: seq<ContentBlock>, j: nat)
    requires j < |content| && content[j].ToolUse?
    ensures ToolUses(content) == ToolUses(content[..j]) + [CallOf(content[j])] + ToolUses(content[j + 1..])
  {
    ToolUsesStep(content, j);
    ToolUsesAppend(content[..j + 1], content[j + 1..]);
    assert content == content[..j + 1] + content[j + 1..];
  }

  lemma {:induction false} KnownPrefixGrows(uses: seq<ToolCall>, use: ToolCall)
    requires AllKnown(uses) && use.name in Tools.ToolMapping
    ensures AllKnown(uses + [use])
  {
    if uses != [] {
      KnownPrefixGrows(uses[1..], use);
      assert (uses + [use])[1..] == uses[1..] + [use];
    }
  }

  lemma {:induction false} KnownPrefixStops(uses: seq<ToolCall>, use: ToolCall, rest: seq<ToolCall>)
    requires AllKnown(uses) && use.name !in Tools.ToolMapping
    ensures KnownPrefix(uses + [use] + rest) == |uses|
  {
    if uses != [] {
      KnownPrefixStops(uses[1..], use, rest);
      assert (uses + [use] + rest)[1..] == uses[1..] + [use] + rest;
    } else {
      assert (uses + [use] + rest)[0] == use;
    }
  }

  // ---------------------------------------------------------------------
  // The round loop
  // ---------------------------------------------------------------------

  /** What a run of the handler produced: how it ended, what was said, the
      conversation as it stood at the end, and every request sent. */
  datatype Run = Run(outcome: Outcome, outbox: seq<Reply>, messages: seq<Message>, requests: seq<Request>)

  /** The outcome for a response that asks for no tool: its first block
      must exist and carry text. */
  function AnswerOf(content: seq<ContentBlock>): (outcome: Outcome)
    ensures outcome.Answered? || outcome.Failed?
    ensures outcome.Answered? <==> |content| > 0 && content[0].Text?
    ensures outcome.Answered? ==> outcome.text == content[0].text
    ensures outcome == Failed(EmptyCompletion) <==> content == []
  {
    if |content| == 0 then Failed(EmptyCompletion)
    else if !content[0].Text? then Failed(NoText)
    else Answered(content[0].text)
  }

  /** The last thing said: the answer, or the error report of the bare
      `except`. */
  function FinalReply(channel: string, threadTs: string, outcome: Outcome): Reply
    requires outcome.Answered? || outcome.Failed?
  {
    Reply(channel, threadTs, if outcome.Answered? then Answer(outcome.text) else ErrorReport(outcome.error))
  }

  /** What one round adds: how the run ends, if it does, what is said, and
      the messages appended to the conversation. */
  datatype Step = Step(stop: Option<Outcome>, said: seq<Reply>, appended: seq<Message>)

  /** What a completion that arrived leads to: the answer when it asks for
      no tool, the error for an unregistered tool, or else the next round
      with the tool results. */
  function ResponseStep(svc: Services, channel: string, threadTs: string, response: Message, calls: nat): (s: Step)
    ensures s.stop.None? ==> |s.appended| == 2
    ensures s.stop.Some? ==> (s.stop.value.Answered? || s.stop.value.Failed?) && |s.appended| <= 1
    ensures forall i :: 0 <= i < |s.said| ==> s.said[i].channel == channel && s.said[i].threadTs == threadTs
  {
    var uses := ToolUses(response.content);
    if |uses| == 0 then
      var outcome := AnswerOf(response.content);
      Step(Some(outcome), [FinalReply(channel, threadTs, outcome)], [])
    else
      var k := KnownPrefix(uses);
      var notices := Notices(uses[..k], channel, threadTs);
      if k < |uses| then
        var outcome := Failed(UnknownTool(uses[k].name));
        Step(Some(outcome), notices + [FinalReply(channel, threadTs, outcome)], [response])
      else
        Step(None, notices, [response, Message(User, RoundResults(svc, uses, calls))])
  }

  /** One pass of the `while True` body, from the request to the appended
      messages. */
  function RoundStep(svc: Services, channel: string, threadTs: string, messages: seq<Message>, calls: nat): (s: Step)
    ensures s.stop.None? ==> |s.appended| == 2
    ensures s.stop.Some? ==> (s.stop.value.Answered? || s.stop.value.Failed?) && |s.appended| <= 1
    ensures forall i :: 0 <= i < |s.said| ==> s.said[i].channel == channel && s.said[i].threadTs == threadTs
  {
    match CompletionOf(svc.converse(BuildRequest(messages, calls == 0)))
    case Failure(e) =>
      var outcome := Failed(UpstreamError(e));
      Step(Some(outcome), [FinalReply(channel, threadTs, outcome)], [])
    case Success(response) => ResponseStep(svc, channel, threadTs, response, calls)
  }

  /** The `while True` loop from round `calls` on, given the conversation,
      the requests sent and what was said so far, stopping after round
      `fuel`. */
  function Rounds(svc: Services, channel: string, threadTs: string, messages: seq<Message>,
                  requests: seq<Request>, outbox: seq<Reply>, calls: nat, fuel: nat): (r: Run)
    ensures messages <= r.messages && requests <= r.requests && outbox <= r.outbox
    ensures forall i :: |outbox| <= i < |r.outbox| ==> r.outbox[i].channel == channel && r.outbox[i].threadTs == threadTs
    ensures r.outcome.Unfinished? || r.outcome.Answered? || r.outcome.Failed?
    ensures calls <= fuel && r.outcome.Unfinished? ==> |r.requests| == |requests| + (fuel - calls)
    decreases fuel - calls
  {
    if fuel <= calls then Run(Unfinished, outbox, messages, requests)
    else
      var step := RoundStep(svc, channel, threadTs, messages, calls);
      var sent := requests + [BuildRequest(messages, calls == 0)];
      if step.stop.Some? then Run(step.stop.value, outbox + step.said, messages + step.appended, sent)
      else Rounds(svc, channel, threadTs, messages + step.appended, sent, outbox + step.said, calls + 1, fuel)
  }

  /** `handle_keywords` as a function of the event and the services. */
  function HandleKeywordsRun(event: Event, svc: Services, fuel: nat): (r: Run)
    ensures r.outcome == Ignored <==> event.botId.Some?
    ensures r.outcome == LoadFailed <==> event.botId.None? && svc.load(event.channel, ReplyTs(event)).None?
    ensures r.outcome.Ignored? || r.outcome.LoadFailed? ==> r.outbox == [] && r.messages == [] && r.requests == []
    ensures forall reply :: reply in r.outbox ==> reply.channel == event.channel && reply.threadTs == ReplyTs(event)
    ensures !r.outcome.Ignored? && !r.outcome.LoadFailed? ==>
      |r.messages| > 0 && r.messages[0] == ConverseMessage(svc.load(event.channel, ReplyTs(event)).value)
  {
    if event.botId.Some? then Run(Ignored, [], [], [])
    else
      match svc.load(event.channel, ReplyTs(event))
      case None => Run(LoadFailed, [], [], [])
      case Some(turns) => Rounds(svc, event.channel, ReplyTs(event), [ConverseMessage(turns)], [], [], 0, fuel)
  }

  /** One pass of the `while True` body: ask for a completion and either
      stop with the upstream error or react to the response. */
  method TakeRound(svc: Services, channel: string, replyTs: string, messages: seq<Message>, calls: nat)
    returns (stop: Option<Outcome>, said: seq<Reply>, appended: seq<Message>)
    ensures Step(stop, said, appended) == RoundStep(svc, channel, replyTs, messages, calls)
  {
    var completion := GetCompletionResponse(messages, calls == 0, svc.converse);
    if completion.Failure? {
      var outcome := Failed(UpstreamError(completion.error));
      return Some(outcome), [Reply(channel, replyTs, ErrorReport(outcome.error))], [];
    }
    stop, said, appended := TakeResponse(svc, channel, replyTs, completion.value, calls);
  }

  /** The rest of the `while True` body once a completion arrived: break
      with the answer, or run the requested tools and hand back the
      response and the tool results to append. */
  method TakeResponse(svc: Services, channel: string, replyTs: string, response: Message, calls: nat)
    returns (stop: Option<Outcome>, said: seq<Reply>, appended: seq<Message>)
    ensures Step(stop, said, appended) == ResponseStep(svc, channel, replyTs, response, calls)
  {
    var uses := ToolUses(response.content);
    if |uses| == 0 {
      // break: the response is the answer
      var outcome;
      if |response.content| == 0 {
        outcome := Failed(EmptyCompletion);
      } else if !response.content[0].Text? {
        outcome := Failed(NoText);
      } else {
        outcome := Answered(response.content[0].text);
      }
      var body := if outcome.Answered? then Answer(outcome.text) else ErrorReport(outcome.error);
      return Some(outcome), [Reply(channel, replyTs, body)], [];
    }
    var results, notices, unknown := ProcessToolUses(response.content, svc, calls, channel, replyTs);
    if unknown.Some? {
      var outcome := Failed(UnknownTool(unknown.value));
      return Some(outcome), notices + [Reply(channel, replyTs, ErrorReport(outcome.error))], [response];
    }
    if |results| == 0 {
      // 'No tool use processed': every tool use yields a result or raises
      assert false;
    }
    assert uses[..|uses|] == uses;
    return None, notices, [response, Message(User, results)];
  }

  /** `handle_keywords`. The source loops until a response asks for no
      tool; here at most `fuel` tool rounds are run. */
  method HandleKeywords(event: Event, svc: Services, fuel: nat)
    returns (outcome: Outcome, outbox: seq<Reply>, messages: seq<Message>, requests: seq<Request>)
    ensures Run(outcome, outbox, messages, requests) == HandleKeywordsRun(event, svc, fuel)
  {
    outbox, messages, requests := [], [], [];
    if event.botId.Some? {
      return Ignored, outbox, messages, requests;
    }
    var channel, replyTs := event.channel, ReplyTs(event);
    var conversations := svc.load(channel, replyTs);
    if conversations.None? {
      return LoadFailed, outbox, messages, requests;
    }
    // try:
    var first := ConstructConverseMessages(conversations.value);
    messages := [first];
    var calls := 0;
    while calls < fuel
      invariant calls <= fuel
      invariant Rounds(svc, channel, replyTs, messages, requests, outbox, calls, fuel)
        == Rounds(svc, channel, replyTs, [first], [], [], 0, fuel)
      decreases fuel - calls
    {
      requests := requests + [BuildRequest(messages, calls == 0)];
      var stop, said, appended := TakeRound(svc, channel, replyTs, messages, calls);
      outbox, messages := outbox + said, messages + appended;
      if stop.Some? {
        return stop.value, outbox, messages, requests;
      }
      calls := calls + 1;
    }
    outcome := Unfinished;
  }

  // ---------------------------------------------------------------------
  // What a run promises
  // ---------------------------------------------------------------------

  /** Round k was a tool round: it was asked with the conversation so far,
      forcing tool use exactly on the first round; the response holds at
      least one tool use, all registered; and the user message after it
      answers them. */
  ghost predicate IsToolRound(svc: Services, asked: seq<Message>, request: Request, response: Message,
                              answer: Message, k: nat)
  {
    && request == BuildRequest(asked, k == 0)
    && CompletionOf(svc.converse(request)) == Success(response)
    && var uses := ToolUses(response.content);
    && |uses| > 0
    && AllKnown(uses)
    && answer == Message(User, RoundResults(svc, uses, k))
  }

  /** Round k of a conversation: the response and the answer are the
      messages after the first 2k+1 ones. */
  ghost predicate ToolRound(svc: Services, messages: seq<Message>, requests: seq<Request>, k: nat) {
    && 2 * k + 2 < |messages| && k < |requests|
    && IsToolRound(svc, messages[..2 * k + 1], requests[k], messages[2 * k + 1], messages[2 * k + 2], k)
  }

  /** Every notice said during the first `rounds` tool rounds, in order. */
  ghost function RunNotices(messages: seq<Message>, rounds: nat, channel: string, threadTs: string): seq<Reply>
    requires 2 * rounds < |messages|
  {
    if rounds == 0 then []
    else
      var uses := ToolUses(messages[2 * rounds - 1].content);
      RunNotices(messages, rounds - 1, channel, threadTs) + Notices(uses, channel, threadTs)
  }

  /** The state at the top of the loop after `calls` tool rounds. */
  ghost predicate LoopState(svc: Services, channel: string, threadTs: string, messages: seq<Message>,
                            requests: seq<Request>, outbox: seq<Reply>, calls: nat)
  {
    && |messages| == 2 * calls + 1 && |requests| == calls
    && (forall k :: 0 <= k < calls ==> ToolRound(svc, messages, requests, k))
    && outbox == RunNotices(messages, calls, channel, threadTs)
  }

  /** How the last request of a run that stopped ended, and what was said:
      the notices of every tool round, those of the tools before an
      unregistered one, then the answer or the error report. */
  ghost predicate Stopped(svc: Services, channel: string, threadTs: string, run: Run)
    requires run.outcome.Answered? || run.outcome.Failed?
  {
    var last := |run.requests| - 1;
    && last >= 0 && 2 * last < |run.messages|
    && run.requests[last] == BuildRequest(run.messages[..2 * last + 1], last == 0)
    && var response := CompletionOf(svc.converse(run.requests[last]));
    && var notices := RunNotices(run.messages, last, channel, threadTs);
    && if run.outcome.Failed? && run.outcome.error.UpstreamError? then
         && |run.messages| == 2 * last + 1 && response == Failure(run.outcome.error.message)
         && run.outbox == notices + [FinalReply(channel, threadTs, run.outcome)]
       else if run.outcome.Failed? && run.outcome.error.UnknownTool? then
         && |run.messages| == 2 * last + 2
         && response == Success(run.messages[2 * last + 1])
         && var uses := ToolUses(run.messages[2 * last + 1].content);
         && KnownPrefix(uses) < |uses| && uses[KnownPrefix(uses)].name == run.outcome.error.name
         && run.outbox == notices + Notices(uses[..KnownPrefix(uses)], channel, threadTs)
              + [FinalReply(channel, threadTs, run.outcome)]
       else
         && |run.messages| == 2 * last + 1
         && response.Success? && |ToolUses(response.value.content)| == 0
         && run.outcome == AnswerOf(response.value.content)
         && run.outbox == notices + [FinalReply(channel, threadTs, run.outcome)]
  }

  /** What holds of a run from a loop state on: every round but the last
      was a tool round, a run that stops ends as `Stopped` says, and one
      that runs out of rounds is in the loop state after `fuel` rounds. */
  ghost predicate RunShape(svc: Services, channel: string, threadTs: string, r: Run, fuel: nat) {
    && (forall k :: 0 <= k < |r.requests| - 1 ==> ToolRound(svc, r.messages, r.requests, k))
    && (r.outcome.Unfinished? ==> LoopState(svc, channel, threadTs, r.messages, r.requests, r.outbox, fuel))
    && (r.outcome.Answered? || r.outcome.Failed? ==> Stopped(svc, channel, threadTs, r))
  }

  /** The run a round that stops ends with. */
  function StopRun(step: Step, messages: seq<Message>, requests: seq<Request>, outbox: seq<Reply>,
                   request: Request): Run
    requires step.stop.Some?
  {
    Run(step.stop.value, outbox + step.said, messages + step.appended, requests + [request])
  }

  /** A request that fails ends the run with the upstream error. */
  lemma StopsUpstream(svc: Services, channel: string, threadTs: string, messages: seq<Message>,
                      requests: seq<Request>, outbox: seq<Reply>, calls: nat, fuel: nat)
    requires LoopState(svc, channel, threadTs, messages, requests, outbox, calls)
    requires CompletionOf(svc.converse(BuildRequest(messages, calls == 0))).Failure?
    ensures var step := RoundStep(svc, channel, threadTs, messages, calls);
      step.stop.Some? &&
      RunShape(svc, channel, threadTs, StopRun(step, messages, requests, outbox, BuildRequest(messages, calls == 0)), fuel)
  {
    var step := RoundStep(svc, channel, threadTs, messages, calls);
    assert messages + step.appended == messages;
    RoundsExtend(svc, messages, requests, calls, messages, requests + [BuildRequest(messages, calls == 0)]);
    assert messages[..2 * calls + 1] == messages;
  }

  /** A response without tool uses ends the run with its answer. */
  lemma StopsAnswered(svc: Services, channel: string, threadTs: string, messages: seq<Message>,
                      requests: seq<Request>, outbox: seq<Reply>, calls: nat, fuel: nat, response: Message)
    requires LoopState(svc, channel, threadTs, messages, requests, outbox, calls)
    requires CompletionOf(svc.converse(BuildRequest(messages, calls == 0))) == Success(response)
    requires |ToolUses(response.content)| == 0
    ensures var step := RoundStep(svc, channel, threadTs, messages, calls);
      step.stop.Some? &&
      RunShape(svc, channel, threadTs, StopRun(step, messages, requests, outbox, BuildRequest(messages, calls == 0)), fuel)
  {
    var step := RoundStep(svc, channel, threadTs, messages, calls);
    assert messages + step.appended == messages;
    RoundsExtend(svc, messages, requests, calls, messages, requests + [BuildRequest(messages, calls == 0)]);
    assert messages[..2 * calls + 1] == messages;
  }

  /** A response asking for an unregistered tool ends the run with that
      tool's name, after the notices of the tools before it. */
  lemma UnknownStopped(svc: Services, channel: string, threadTs: string, messages: seq<Message>,
                       requests: seq<Request>, outbox: seq<Reply>, calls: nat, response: Message)
    requires |messages| == 2 * calls + 1 && |requests| == calls
    requires outbox == RunNotices(messages, calls, channel, threadTs)
    requires CompletionOf(svc.converse(BuildRequest(messages, calls == 0))) == Success(response)
    requires KnownPrefix(ToolUses(response.content)) < |ToolUses(response.content)|
    ensures var uses := ToolUses(response.content);
      var k := KnownPrefix(uses);
      var outcome := Failed(UnknownTool(uses[k].name));
      Stopped(svc, channel, threadTs,
              Run(outcome, outbox + Notices(uses[..k], channel, threadTs) + [FinalReply(channel, threadTs, outcome)],
                  messages + [response], requests + [BuildRequest(messages, calls == 0)]))
  {
    RunNoticesPrefix(messages, [response], calls, channel, threadTs);
    assert (messages + [response])[..2 * calls + 1] == messages;
  }

  lemma StopsUnknown(svc: Services, channel: string, threadTs: string, messages: seq<Message>,
                     requests: seq<Request>, outbox: seq<Reply>, calls: nat, fuel: nat, response: Message)
    requires LoopState(svc, channel, threadTs, messages, requests, outbox, calls)
    requires CompletionOf(svc.converse(BuildRequest(messages, calls == 0))) == Success(response)
    requires KnownPrefix(ToolUses(response.content)) < |ToolUses(response.content)|
    ensures var step := RoundStep(svc, channel, threadTs, messages, calls);
      step.stop.Some? &&
      RunShape(svc, channel, threadTs, StopRun(step, messages, requests, outbox, BuildRequest(messages, calls == 0)), fuel)
  {
    var step := RoundStep(svc, channel, threadTs, messages, calls);
    var request := BuildRequest(messages, calls == 0);
    var uses := ToolUses(response.content);
    var k := KnownPrefix(uses);
    var outcome := Failed(UnknownTool(uses[k].name));
    var notices := Notices(uses[..k], channel, threadTs);
    assert step == Step(Some(outcome), notices + [FinalReply(channel, threadTs, outcome)], [response]);
    var r := StopRun(step, messages, requests, outbox, request);
    assert r == Run(outcome, outbox + notices + [FinalReply(channel, threadTs, outcome)],
                    messages + [response], requests + [request]);
    RoundsExtend(svc, messages, requests, calls, r.messages, r.requests);
    UnknownStopped(svc, channel, threadTs, messages, requests, outbox, calls, response);
  }

  /** A round that stops leaves the earlier tool rounds as they were and
      ends as `Stopped` says. */
  lemma StepStops(svc: Services, channel: string, threadTs: string, messages: seq<Message>,
                  requests: seq<Request>, outbox: seq<Reply>, calls: nat, fuel: nat)
    requires LoopState(svc, channel, threadTs, messages, requests, outbox, calls)
    requires RoundStep(svc, channel, threadTs, messages, calls).stop.Some?
    ensures var step := RoundStep(svc, channel, threadTs, messages, calls);
      step.stop.Some? &&
      RunShape(svc, channel, threadTs, StopRun(step, messages, requests, outbox, BuildRequest(messages, calls == 0)), fuel)
  {
    match CompletionOf(svc.converse(BuildRequest(messages, calls == 0)))
    case Failure(_) =>
      StopsUpstream(svc, channel, threadTs, messages, requests, outbox, calls, fuel);
    case Success(response) =>
      if |ToolUses(response.content)| == 0 {
        StopsAnswered(svc, channel, threadTs, messages, requests, outbox, calls, fuel, response);
      } else {
        StopsUnknown(svc, channel, threadTs, messages, requests, outbox, calls, fuel, response);
      }
  }

  /** A round that goes on is a tool round and leads to the next loop
      state. */
  lemma StepContinues(svc: Services, channel: string, threadTs: string, messages: seq<Message>,
                      requests: seq<Request>, outbox: seq<Reply>, calls: nat)
    requires LoopState(svc, channel, threadTs, messages, requests, outbox, calls)
    requires RoundStep(svc, channel, threadTs, messages, calls).stop.None?
    ensures var step := RoundStep(svc, channel, threadTs, messages, calls);
      LoopState(svc, channel, threadTs, messages + step.appended,
                requests + [BuildRequest(messages, calls == 0)], outbox + step.said, calls + 1)
  {
    var step := RoundStep(svc, channel, threadTs, messages, calls);
    var sent := requests + [BuildRequest(messages, calls == 0)];
    var response := CompletionOf(svc.converse(BuildRequest(messages, calls == 0))).value;
    var uses := ToolUses(response.content);
    assert uses[..KnownPrefix(uses)] == uses;
    RoundsExtend(svc, messages, requests, calls, messages, sent);
    NextRound(svc, messages, sent, calls, response, step.appended[1].content);
    RunNoticesStep(messages, response, step.appended[1], calls, channel, threadTs);
  }

  /** Every run of the loop from a loop state has the shape `RunShape`
      describes. */
  lemma {:induction false} RoundsFacts(svc: Services, channel: string, threadTs: string, messages: seq<Message>,
                                       requests: seq<Request>, outbox: seq<Reply>, calls: nat, fuel: nat)
    requires calls <= fuel
    requires LoopState(svc, channel, threadTs, messages, requests, outbox, calls)
    ensures RunShape(svc, channel, threadTs, Rounds(svc, channel, threadTs, messages, requests, outbox, calls, fuel), fuel)
    decreases fuel - calls
  {
    var r := Rounds(svc, channel, threadTs, messages, requests, outbox, calls, fuel);
    if calls == fuel {
      assert r == Run(Unfinished, outbox, messages, requests);
    } else {
      var step := RoundStep(svc, channel, threadTs, messages, calls);
      var sent := requests + [BuildRequest(messages, calls == 0)];
      if step.stop.Some? {
        assert r == StopRun(step, messages, requests, outbox, BuildRequest(messages, calls == 0));
        StepStops(svc, channel, threadTs, messages, requests, outbox, calls, fuel);
      } else {
        assert r == Rounds(svc, channel, threadTs, messages + step.appended, sent, outbox + step.said, calls + 1, fuel);
        StepContinues(svc, channel, threadTs, messages, requests, outbox, calls);
        RoundsFacts(svc, channel, threadTs, messages + step.appended, sent, outbox + step.said, calls + 1, fuel);
      }
    }
  }

  /** Extending the conversation and the request log keeps the earlier
      rounds' facts. */
  lemma RoundsExtend(svc: Services, messages: seq<Message>, requests: seq<Request>, n: nat,
                     messages': seq<Message>, requests': seq<Request>)
    requires messages <= messages' && requests <= requests'
    requires forall k :: 0 <= k < n ==> ToolRound(svc, messages, requests, k)
    ensures forall k :: 0 <= k < n ==> ToolRound(svc, messages', requests', k)
  {
    forall k | 0 <= k < n ensures ToolRound(svc, messages', requests', k) {
      assert ToolRound(svc, messages, requests, k);
      assert messages'[..2 * k + 1] == messages[..2 * k + 1];
      assert messages'[2 * k + 1] == messages[2 * k + 1] && messages'[2 * k + 2] == messages[2 * k + 2];
      assert requests'[k] == requests[k];
    }
  }

  /** A response with registered tool uses, followed by their results,
      makes a tool round, and the earlier rounds stay as they were. */
  lemma NextRound(svc: Services, messages: seq<Message>, requests: seq<Request>, calls: nat,
                  response: Message, results: seq<ContentBlock>)
    requires |messages| == 2 * calls + 1 && |requests| == calls + 1
    requires forall k :: 0 <= k < calls ==> ToolRound(svc, messages, requests, k)
    requires requests[calls] == BuildRequest(messages, calls == 0)
    requires CompletionOf(svc.converse(requests[calls])) == Success(response)
    requires |ToolUses(response.content)| > 0 && AllKnown(ToolUses(response.content))
    requires results == RoundResults(svc, ToolUses(response.content), calls)
    ensures forall k :: 0 <= k < calls + 1 ==>
      ToolRound(svc, messages + [response, Message(User, results)], requests, k)
  {
    var messages' := messages + [response, Message(User, results)];
    RoundsExtend(svc, messages, requests, calls, messages', requests);
    assert ToolRound(svc, messages', requests, calls) by {
      assert messages'[..2 * calls + 1] == messages;
      assert messages'[2 * calls + 1] == response && messages'[2 * calls + 2] == Message(User, results);
      assert IsToolRound(svc, messages, requests[calls], response, Message(User, results), calls);
    }
  }

  lemma {:induction false} RunNoticesPrefix(messages: seq<Message>, extra: seq<Message>, rounds: nat, channel: string, threadTs: string)
    requires 2 * rounds < |messages|
    ensures RunNotices(messages + extra, rounds, channel, threadTs) == RunNotices(messages, rounds, channel, threadTs)
  {
    if rounds > 0 {
      RunNoticesPrefix(messages, extra, rounds - 1, channel, threadTs);
    }
  }

  lemma RunNoticesStep(messages: seq<Message>, response: Message, answer: Message, calls: nat,
                       channel: string, threadTs: string)
    requires |messages| == 2 * calls + 1
    ensures RunNotices(messages + [response, answer], calls + 1, channel, threadTs)
      == RunNotices(messages, calls, channel, threadTs) + Notices(ToolUses(response.content), channel, threadTs)
  {
    RunNoticesPrefix(messages, [response, answer], calls, channel, threadTs);
  }

  /** In a run of that shape, tool use is forced on the first request
      and on no other. */
  lemma ForcedOnFirstOnly(svc: Services, channel: string, threadTs: string, r: Run, fuel: nat)
    requires r.outcome.Unfinished? || r.outcome.Answered? || r.outcome.Failed?
    requires RunShape(svc, channel, threadTs, r, fuel)
    ensures forall k :: 0 <= k < |r.requests| ==> (r.requests[k].toolChoice == ChooseAny <==> k == 0)
  {
    forall k | 0 <= k < |r.requests| ensures r.requests[k].toolChoice == ChooseAny <==> k == 0 {
      if k < |r.requests| - 1 || r.outcome.Unfinished? {
        assert ToolRound(svc, r.messages, r.requests, k);
      } else {
        assert Stopped(svc, channel, threadTs, r);
      }
    }
  }

  /** The facts of a whole run that reached the loop: it has the shape
      `RunShape` describes, and tool use is forced on the first request
      only. */
  lemma HandleKeywordsFacts(event: Event, svc: Services, fuel: nat)
    ensures var r := HandleKeywordsRun(event, svc, fuel);
      !r.outcome.Ignored? && !r.outcome.LoadFailed? ==>
        && RunShape(svc, event.channel, ReplyTs(event), r, fuel)
        && (forall k :: 0 <= k < |r.requests| ==> (r.requests[k].toolChoice == ChooseAny <==> k == 0))
  {
    var r := HandleKeywordsRun(event, svc, fuel);
    if event.botId.None? && svc.load(event.channel, ReplyTs(event)).Some? {
      var turns := svc.load(event.channel, ReplyTs(event)).value;
      assert r == Rounds(svc, event.channel, ReplyTs(event), [ConverseMessage(turns)], [], [], 0, fuel);
      RoundsFacts(svc, event.channel, ReplyTs(event), [ConverseMessage(turns)], [], [], 0, fuel);
      ForcedOnFirstOnly(svc, event.channel, ReplyTs(event), r, fuel);
    }
  }

  /** A round whose Converse output holds no message answers with the
      canned text, says it in the thread, and appends nothing. */
  lemma FallbackAnswers(svc: Services, channel: string, threadTs: string, messages: seq<Message>, calls: nat)
    requires svc.converse(BuildRequest(messages, calls == 0)) == ConverseOutput(None)
    ensures RoundStep(svc, channel, threadTs, messages, calls)
         == Step(Some(Answered(FallbackText)), [Reply(channel, threadTs, Answer(FallbackText))], [])
  {
    assert ToolUses(FallbackMessage.content) == [];
  }

  // ---------------------------------------------------------------------
  // lambda_handler
  // ---------------------------------------------------------------------

  /** The `headers` entry of the Lambda event: missing, null, or a
      dictionary. */
  datatype Headers = NoHeaders | NullHeaders | HeaderMap(values: map<string, string>)

  datatype LambdaResponse =
    | NotOk                                         // {'ok': False}
    | Acknowledged(statusCode: int, body: string)   // a retry, not processed again
    | Crashed                                       // `.get` on a null headers value raises
    | Dispatched                                    // handed to the Slack request handler

  /** The header is present with a non-empty value. */
  predicate Truthy(headers: map<string, string>, key: string) {
    key in headers && headers[key] != ""
  }

  predicate IsRetry(headers: map<string, string>) {
    Truthy(headers, "x-slack-retry-num") || Truthy(headers, "X-Slack-Retry-Num")
  }

  /** `lambda_handler`: only an event with headers and no retry number
      reaches the Slack handler; a retry is acknowledged with 200 'ok'. */
  function LambdaHandler(headers: Headers): (r: LambdaResponse)
    ensures r == NotOk <==> headers.NoHeaders?
    ensures r.Acknowledged? <==> headers.HeaderMap? && IsRetry(headers.values)
    ensures r.Acknowledged? ==> r.statusCode == 200 && r.body == "ok"
    ensures r == Dispatched <==> headers.HeaderMap? && !IsRetry(headers.values)
  {
    match headers
    case NoHeaders => NotOk
    case NullHeaders => Crashed
    case HeaderMap(values) => if IsRetry(values) then Acknowledged(200, "ok") else Dispatched
  }

  /** Only the two spellings are looked up: no other header (another
      capitalisation of the retry header included) changes whether an event
      is a retry, and either spelling with an empty value is as good as
      absent. */
  lemma RetryHeaderSpellings(headers: map<string, string>, key: string, value: string)
    ensures key != "x-slack-retry-num" && key != "X-Slack-Retry-Num" ==>
      IsRetry(headers[key := value]) == IsRetry(headers)
    ensures key == "x-slack-retry-num" || key == "X-Slack-Retry-Num" ==>
      IsRetry(headers[key := ""]) == IsRetry(headers - {key})
    ensures LambdaHandler(HeaderMap(map["X-SLACK-RETRY-NUM" := "1"])) == Dispatched
  {
  }
}
