/** `GenericLayer`: a processing layer asks its own model about the user's
    input and, when the layer references MCP servers, runs the tools that
    model asks for round after round in a private chat session. The model's
    answers, the tools' results and cancellation are inputs, one `LayerRound`
    per pass of the loop; the clock is left out. */
module GenericLayer {
  import opened Wrappers
  import opened Json
  import opened Messages
  import opened McpCore
  import opened ChatSessions
  import ToolResultProcessor

  const CANCELLED := "Operation cancelled"

  /** `create_messages`: the layer's system prompt, cached exactly when the
      layer's model supports caching, then the prepared input. */
  function CreateMessages(systemPrompt: string, processedInput: string, cachingSupported: bool): (r: seq<Message>)
    ensures |r| == 2
    ensures r[0].role == "system" && r[0].content == systemPrompt && (r[0].cached <==> cachingSupported)
    ensures r[1] == Plain("user", processedInput) && !r[1].cached
  {
    [Plain("system", systemPrompt).(cached := cachingSupported), Plain("user", processedInput)]
  }

  /** `resolve_layer_tool_calls`: the calls handed over by the API are used
      once (the parameter is taken); when there are none, or they are empty,
      the calls are parsed from the text. */
  function ResolveLayerToolCalls(param: Option<seq<McpToolCall>>, content: string)
    : (r: (seq<McpToolCall>, Option<seq<McpToolCall>>))
  {
    if param.Some? && param.value != [] then (param.value, None) else (ParseToolCalls(content), None)
  }

  /** The parameter is always consumed, and non-empty API calls win over
      whatever the text holds. */
  lemma ResolveLayerToolCallsMeaning(param: Option<seq<McpToolCall>>, content: string)
    ensures ResolveLayerToolCalls(param, content).1.None?
    ensures param.Some? && param.value != [] ==> ResolveLayerToolCalls(param, content).0 == param.value
    ensures (param.None? || param.value == []) ==> ResolveLayerToolCalls(param, content).0 == ParseToolCalls(content)
  {
  }

  /** The text of a layer's tool message: a string `output` as it is,
      another `output` serialised, and without `output` the whole result
      serialised. */
  function LayerToolContent(r: McpToolResult): string {
    var output := Get(r.result, "output");
    if output.Some? then
      if output.value.JString? then output.value.s else Serialize(output.value)
    else Serialize(r.result)
  }

  /** A layer writes the same tool message text as the main session
      whenever the result has an `output`; without one, a plain string
      result is quoted by the layer but used as it is by the main session,
      and an `error` is not marked as such. */
  lemma LayerToolContentAgrees(r: McpToolResult, s: string)
    ensures Get(r.result, "output").Some? ==> LayerToolContent(r) == ToolResultProcessor.ExtractToolContent(r)
    ensures r.result == JString(s) ==>
      LayerToolContent(r) == Serialize(JString(s)) && ToolResultProcessor.ExtractToolContent(r) == s
    ensures Get(r.result, "output").None? ==> LayerToolContent(r) == Serialize(r.result)
  {
  }

  /** The layer's tool messages for a list of results. */
  function LayerToolMessages(results: seq<McpToolResult>): seq<Message> {
    if results == [] then []
    else LayerToolMessages(results[..|results| - 1])
         + [ToolMessage(LayerToolContent(results[|results| - 1]), results[|results| - 1].toolId,
                        results[|results| - 1].toolName)]
  }

  /** One tool message per result, in order, answering that result's call. */
  lemma {:induction false} LayerToolMessagesMeaning(results: seq<McpToolResult>, i: nat)
    ensures |LayerToolMessages(results)| == |results|
    ensures i < |results| ==>
      LayerToolMessages(results)[i] == ToolMessage(LayerToolContent(results[i]), results[i].toolId, results[i].toolName)
  {
    if results != [] {
      var init := results[..|results| - 1];
      var last := results[|results| - 1];
      var message := ToolMessage(LayerToolContent(last), last.toolId, last.toolName);
      assert LayerToolMessages(results) == LayerToolMessages(init) + [message];
      LayerToolMessagesMeaning(init, i);
      if i < |init| {
        assert results[i] == init[i];
      }
    }
  }

  /** How a layer's follow-up ends: cancellation yields nothing, a failed
      request its error, and an answer its text and usage, with its tool
      calls only when it asks for more tools. */
  function LayerRoundOutcome(cancelled: bool, followUp: Result<ProviderResponse>)
    : Result<Option<ToolResultProcessor.FollowUp>>
  {
    if cancelled then Ok(None)
    else if followUp.Err? then Err(followUp.msg)
    else
      var resp := followUp.value;
      var more := ToolResultProcessor.HasMoreTools(resp);
      Ok(Some(ToolResultProcessor.FollowUp(resp.content, resp.usage, if more then resp.toolCalls else None)))
  }

  /** A layer ignores the finish reason: its follow-up is what the main
      session's would be without one (and without a spending limit), and
      the calls it hands on are never an empty list. */
  lemma LayerRoundOutcomeMeaning(cancelled: bool, followUp: Result<ProviderResponse>)
    ensures followUp.Ok? && followUp.value.finishReason.None? ==>
      LayerRoundOutcome(cancelled, followUp) == ToolResultProcessor.RoundOutcome(Ok(true), cancelled, followUp)
    ensures var r := LayerRoundOutcome(cancelled, followUp);
      r.Ok? && r.value.Some? && r.value.value.toolCalls.Some? ==>
        r.value.value.toolCalls == followUp.value.toolCalls && r.value.value.toolCalls.value != []
    ensures LayerRoundOutcome(cancelled, followUp) == Ok(None) <==> cancelled
  {
  }

  /** `process_layer_tool_results`: one tool message per result is pushed
      onto the layer's transcript, then the follow-up ends the round as
      `LayerRoundOutcome` says. */
  method ProcessLayerToolResults(layerSession: ChatSession, results: seq<McpToolResult>, cancelled: bool,
                                 followUp: Result<ProviderResponse>)
    returns (r: Result<Option<ToolResultProcessor.FollowUp>>)
    modifies layerSession`messages
    ensures layerSession.messages == old(layerSession.messages) + LayerToolMessages(results)
    ensures r == LayerRoundOutcome(cancelled, followUp)
  {
    var i := 0;
    while i < |results|
      invariant 0 <= i <= |results|
      invariant layerSession.messages == old(layerSession.messages) + LayerToolMessages(results[..i])
    {
      assert results[..i + 1][..i] == results[..i];
      var result := results[i];
      layerSession.messages := layerSession.messages
        + [ToolMessage(LayerToolContent(result), result.toolId, result.toolName)];
      i := i + 1;
    }
    assert results[..i] == results;
    if cancelled {
      return Ok(None);
    }
    match followUp
    case Ok(response) => {
      if ToolResultProcessor.HasMoreTools(response) {
        r := Ok(Some(ToolResultProcessor.FollowUp(response.content, response.usage, response.toolCalls)));
      } else {
        r := Ok(Some(ToolResultProcessor.FollowUp(response.content, response.usage, None)));
      }
    }
    case Err(e) => r := Err(e);
  }

  /** What one pass of the loop meets: cancellation at its head, the tool
      calls recorded from the answer being acted on, what the tools return
      and how long they take, cancellation after the tools and before the
      follow-up, and the follow-up itself. */
  datatype LayerRound = LayerRound(cancelledAtHead: bool, originalToolCalls: Option<Json>,
                                   toolResults: seq<McpToolResult>, toolTimeMs: nat,
                                   cancelledAfterTools: bool, cancelledBeforeFollowUp: bool,
                                   followUp: Result<ProviderResponse>)

  /** What a layer hands back. */
  datatype LayerResult = LayerResult(output: string, usage: Option<TokenUsage>, toolCalls: Option<seq<McpToolCall>>,
                                     apiTimeMs: nat, toolTimeMs: nat)

  /** A finished layer, a failure, or a loop that wanted more passes than
      the rounds supplied. */
  datatype LayerOutcome = Finished(result: LayerResult) | Failed(msg: string) | OutOfRounds

  /** The request time a usage report adds, if any. */
  function ApiTime(usage: Option<TokenUsage>): nat {
    if usage.Some? && usage.value.requestTimeMs.Some? then usage.value.requestTimeMs.value else 0
  }

  /** The assistant message that records the calls being acted on. */
  function LayerAssistantMessage(content: string, originalToolCalls: Option<Json>): Message {
    Plain("assistant", content).(toolCalls := originalToolCalls)
  }

  /** Where the loop stands after a pass. */
  datatype LoopStatus = Running | Stopped | Aborted(msg: string)

  /** The loop's variables: the text and usage of the answer being acted
      on, the tool calls handed over with it, the API and tool times so
      far, and the layer's transcript. */
  datatype LayerState = LayerState(content: string, usage: Option<TokenUsage>, param: Option<seq<McpToolCall>>,
                                   apiTimeMs: nat, toolTimeMs: nat, messages: seq<Message>)

  /** How a pass's tool results are written into the transcript; the
      layer's own way is `LayerToolMessages`. */
  type ToolWriter = seq<McpToolResult> -> seq<Message>

  /** One pass of the loop body, writing tool results with `write`. */
  function Pass(write: ToolWriter, serverRefs: seq<string>, round: LayerRound, s: LayerState): (LoopStatus, LayerState) {
    if round.cancelledAtHead then (Aborted(CANCELLED), s)
    else if serverRefs == [] then (Stopped, s)
    else
      var resolved := ResolveLayerToolCalls(s.param, s.content);
      var s1 := s.(param := resolved.1);
      if resolved.0 == [] then (Stopped, s1) else ToolsPass(write, round, s1)
  }

  /** The rest of a pass once there are tool calls to act on: the
      assistant message and the tools' time are recorded, then the tool
      messages, then the follow-up ends the pass. */
  function ToolsPass(write: ToolWriter, round: LayerRound, s: LayerState): (LoopStatus, LayerState) {
    var s2 := s.(messages := s.messages + [LayerAssistantMessage(s.content, round.originalToolCalls)],
                 toolTimeMs := s.toolTimeMs + round.toolTimeMs);
    if round.cancelledAfterTools then (Aborted(CANCELLED), s2)
    else if round.toolResults == [] then (if ParseToolCalls(s.content) == [] then Stopped else Running, s2)
    else
      AfterFollowUp(LayerRoundOutcome(round.cancelledBeforeFollowUp, round.followUp),
                    s2.(messages := s2.messages + write(round.toolResults)))
  }

  /** A pass cancelled after its tools, or whose round ran none, ends
      without a follow-up. */
  lemma ToolsPassWithoutFollowUp(write: ToolWriter, round: LayerRound, s: LayerState)
    requires round.cancelledAfterTools || round.toolResults == []
    ensures ToolsPass(write, round, s)
         == (if round.cancelledAfterTools then Aborted(CANCELLED)
             else if ParseToolCalls(s.content) == [] then Stopped else Running,
             s.(messages := s.messages + [LayerAssistantMessage(s.content, round.originalToolCalls)],
                toolTimeMs := s.toolTimeMs + round.toolTimeMs))
  {
  }

  /** Otherwise the results are written and the follow-up ends the pass. */
  lemma ToolsPassWithFollowUp(write: ToolWriter, round: LayerRound, s: LayerState)
    requires !round.cancelledAfterTools && round.toolResults != []
    ensures ToolsPass(write, round, s)
         == AfterFollowUp(LayerRoundOutcome(round.cancelledBeforeFollowUp, round.followUp),
                          s.(messages := s.messages + [LayerAssistantMessage(s.content, round.originalToolCalls)]
                                         + write(round.toolResults),
                             toolTimeMs := s.toolTimeMs + round.toolTimeMs))
  {
  }

  /** How the follow-up ends a pass: an error aborts it, cancellation
      stops it, and an answer's text, usage, tool calls and request time
      are taken on, going on while it has tool calls. */
  function AfterFollowUp(outcome: Result<Option<ToolResultProcessor.FollowUp>>, s: LayerState)
    : (LoopStatus, LayerState)
  {
    match outcome
    case Err(e) => (Aborted(e), s)
    case Ok(None) => (Stopped, s)
    case Ok(Some(f)) =>
      (if !(f.toolCalls.Some? && f.toolCalls.value != []) && ParseToolCalls(f.content) == [] then Stopped
       else Running,
       s.(apiTimeMs := s.apiTimeMs + ApiTime(f.usage), content := f.content, usage := f.usage, param := f.toolCalls))
  }

  /** What a stopped loop hands back. */
  function Finish(status: LoopStatus, s: LayerState): LayerOutcome {
    match status
    case Running => OutOfRounds
    case Stopped => Finished(LayerResult(s.content, s.usage, s.param, s.apiTimeMs, s.toolTimeMs))
    case Aborted(msg) => Failed(msg)
  }

  /** A loop that runs `pass` once per round until a pass stops or aborts
      it: the status it ends with (Running when the rounds ran out) and its
      last state. */
  function RunLoop<R, S>(pass: (R, S) -> (LoopStatus, S), rounds: seq<R>, s: S): (LoopStatus, S)
    decreases |rounds|
  {
    if rounds == [] then (Running, s)
    else
      var p := pass(rounds[0], s);
      if p.0 == Running then RunLoop(pass, rounds[1..], p.1) else p
  }

  /** The layer's pass, for the servers the layer references. */
  function PassOf(write: ToolWriter, serverRefs: seq<string>): (LayerRound, LayerState) -> (LoopStatus, LayerState) {
    (round: LayerRound, s: LayerState) => Pass(write, serverRefs, round, s)
  }

  /** The layer's loop over the rounds from state `s`: its outcome and the
      transcript it leaves. */
  function LayerLoop(write: ToolWriter, serverRefs: seq<string>, rounds: seq<LayerRound>, s: LayerState)
    : (LayerOutcome, seq<Message>)
  {
    var last := RunLoop(PassOf(write, serverRefs), rounds, s);
    (Finish(last.0, last.1), last.1.messages)
  }

  /** A loop whose passes go on through the states `states` and stop at
      pass `k` ends there, in the state that pass leaves. */
  lemma {:induction false} RunLoopStopsAt<R, S>(pass: (R, S) -> (LoopStatus, S), rounds: seq<R>, states: seq<S>,
                                                k: nat)
    requires k < |rounds| && k + 1 < |states|
    requires forall j :: 0 <= j < k ==> pass(rounds[j], states[j]) == (Running, states[j + 1])
    requires pass(rounds[k], states[k]) == (Stopped, states[k + 1])
    ensures RunLoop(pass, rounds, states[0]) == (Stopped, states[k + 1])
  {
    if k > 0 {
      assert pass(rounds[0], states[0]) == (Running, states[1]);
      forall j | 0 <= j < k - 1
        ensures pass(rounds[1..][j], states[1..][j]) == (Running, states[1..][j + 1])
      {
        assert rounds[1..][j] == rounds[j + 1] && states[1..][j] == states[j + 1] && states[1..][j + 1] == states[j + 2];
      }
      RunLoopStopsAt(pass, rounds[1..], states[1..], k - 1);
    }
  }

  /** The state the loop starts from. */
  function StartState(initial: ProviderResponse, apiTimeMs: nat, messages: seq<Message>): LayerState {
    LayerState(initial.content, initial.usage, initial.toolCalls, apiTimeMs, 0, messages)
  }

  /** A pass that runs tools and gets a follow-up without being cancelled. */
  predicate Uninterrupted(round: LayerRound) {
    !round.cancelledAtHead && !round.cancelledAfterTools && !round.cancelledBeforeFollowUp
    && round.toolResults != [] && round.followUp.Ok?
  }

  /** A pass whose follow-up asks for more tools. */
  predicate AsksMore(round: LayerRound) {
    round.followUp.Ok? && ToolResultProcessor.HasMoreTools(round.followUp.value)
  }

  /** The state after an uninterrupted pass: the follow-up's text and
      usage, its tool calls when it asks for more, the times added up and
      the assistant and tool messages recorded. */
  function AfterQuietPass(write: ToolWriter, round: LayerRound, s: LayerState): LayerState {
    var more := AsksMore(round);
    LayerState(if round.followUp.Ok? then round.followUp.value.content else s.content,
               if round.followUp.Ok? then round.followUp.value.usage else s.usage,
               if more then round.followUp.value.toolCalls else None,
               s.apiTimeMs + FollowUpTime(round), s.toolTimeMs + round.toolTimeMs,
               s.messages + ([LayerAssistantMessage(s.content, round.originalToolCalls)]
                             + write(round.toolResults)))
  }

  /** The request time of a pass's follow-up. */
  function FollowUpTime(round: LayerRound): nat {
    if round.followUp.Ok? then ApiTime(round.followUp.value.usage) else 0
  }

  /** The states uninterrupted passes go through from `s`. */
  function QuietStates(write: ToolWriter, s: LayerState, rounds: seq<LayerRound>): seq<LayerState>
    decreases |rounds|
  {
    [s] + (if rounds == [] then [] else QuietStates(write, AfterQuietPass(write, rounds[0], s), rounds[1..]))
  }

  /** What uninterrupted passes add to the transcript, starting from an
      answer with text `content`: per pass, the assistant message and the
      tool messages. */
  function RoundMessages(write: ToolWriter, content: string, rounds: seq<LayerRound>): seq<Message>
    decreases |rounds|
  {
    if rounds == [] then []
    else [LayerAssistantMessage(content, rounds[0].originalToolCalls)] + write(rounds[0].toolResults)
         + RoundMessages(write, AfterQuietPass(write, rounds[0], LayerState(content, None, None, 0, 0, [])).content,
                         rounds[1..])
  }

  /** The follow-ups' request times. */
  function FollowUpTimes(rounds: seq<LayerRound>): nat {
    if rounds == [] then 0 else FollowUpTime(rounds[0]) + FollowUpTimes(rounds[1..])
  }

  /** The tools' times. */
  function ToolTimes(rounds: seq<LayerRound>): nat {
    if rounds == [] then 0 else rounds[0].toolTimeMs + ToolTimes(rounds[1..])
  }

  /** One state per pass and one more; each follows from the one before,
      and the last has added up every pass's times and messages. */
  lemma {:induction false} QuietStatesMeaning(write: ToolWriter, s: LayerState, rounds: seq<LayerRound>)
    ensures var states := QuietStates(write, s, rounds);
      |states| == |rounds| + 1 && states[0] == s
      && (forall j :: 0 <= j < |rounds| ==> states[j + 1] == AfterQuietPass(write, rounds[j], states[j]))
      && states[|rounds|].apiTimeMs == s.apiTimeMs + FollowUpTimes(rounds)
      && states[|rounds|].toolTimeMs == s.toolTimeMs + ToolTimes(rounds)
      && states[|rounds|].messages == s.messages + RoundMessages(write, s.content, rounds)
    decreases |rounds|
  {
    if rounds != [] {
      var next := AfterQuietPass(write, rounds[0], s);
      QuietStatesMeaning(write, next, rounds[1..]);
      var rest := QuietStates(write, next, rounds[1..]);
      var states := QuietStates(write, s, rounds);
      assert states == [s] + rest;
      forall j | 0 <= j < |rounds|
        ensures states[j + 1] == AfterQuietPass(write, rounds[j], states[j])
      {
        if j > 0 {
          assert rounds[1..][j - 1] == rounds[j];
        }
      }
      assert next.content == AfterQuietPass(write, rounds[0], LayerState(s.content, None, None, 0, 0, [])).content;
      var head := [LayerAssistantMessage(s.content, rounds[0].originalToolCalls)] + write(rounds[0].toolResults);
      AppendAssoc(s.messages, head, RoundMessages(write, next.content, rounds[1..]));
    }
  }

  /** Concatenation is associative. */
  lemma AppendAssoc<T>(a: seq<T>, b: seq<T>, c: seq<T>)
    ensures (a + b) + c == a + (b + c)
  {
  }

  /** An uninterrupted pass acting on tool calls goes on exactly when its
      follow-up asks for more tools, and hands those on. */
  lemma UninterruptedPass(write: ToolWriter, serverRefs: seq<string>, round: LayerRound, s: LayerState)
    requires serverRefs != [] && s.param.Some? && s.param.value != []
    requires Uninterrupted(round)
    ensures PassOf(write, serverRefs)(round, s) == (if AsksMore(round) then Running else Stopped, AfterQuietPass(write, round, s))
    ensures AsksMore(round) ==> AfterQuietPass(write, round, s).param.Some? && AfterQuietPass(write, round, s).param.value != []
  {
    AppendAssoc(s.messages, [LayerAssistantMessage(s.content, round.originalToolCalls)],
                write(round.toolResults));
  }

  /** A layer with servers, acting on an answer with tool calls, goes on
      exactly as long as the follow-ups ask for more tools: when the passes
      up to `k` are uninterrupted and `k` is the first whose follow-up asks
      for none, the loop finishes there with that follow-up's text and
      usage and no tool calls, having added up every follow-up's request
      time and every pass's tool time, and having recorded each pass's
      assistant and tool messages. */
  lemma FirstQuietRound(write: ToolWriter, serverRefs: seq<string>, rounds: seq<LayerRound>, s: LayerState, k: nat)
    requires serverRefs != [] && s.param.Some? && s.param.value != []
    requires k < |rounds|
    requires forall j :: 0 <= j < k ==> Uninterrupted(rounds[j]) && AsksMore(rounds[j])
    requires Uninterrupted(rounds[k]) && !AsksMore(rounds[k])
    ensures LayerLoop(write, serverRefs, rounds, s) ==
      (Finished(LayerResult(rounds[k].followUp.value.content, rounds[k].followUp.value.usage, None,
                            s.apiTimeMs + FollowUpTimes(rounds[..k + 1]), s.toolTimeMs + ToolTimes(rounds[..k + 1]))),
       s.messages + RoundMessages(write, s.content, rounds[..k + 1]))
  {
    var states := QuietStates(write, s, rounds[..k + 1]);
    QuietStatesMeaning(write, s, rounds[..k + 1]);
    assert rounds[..k + 1][k] == rounds[k];
    var last := states[k + 1];
    assert last == AfterQuietPass(write, rounds[k], states[k]);
    assert last.content == rounds[k].followUp.value.content && last.usage == rounds[k].followUp.value.usage
        && last.param == None;
    QuietLoopEnds(write, serverRefs, rounds, s, k);
  }

  /** The loop ends in the last quiet state. */
  lemma QuietLoopEnds(write: ToolWriter, serverRefs: seq<string>, rounds: seq<LayerRound>, s: LayerState, k: nat)
    requires serverRefs != [] && s.param.Some? && s.param.value != []
    requires k < |rounds|
    requires forall j :: 0 <= j < k ==> Uninterrupted(rounds[j]) && AsksMore(rounds[j])
    requires Uninterrupted(rounds[k]) && !AsksMore(rounds[k])
    ensures |QuietStates(write, s, rounds[..k + 1])| == k + 2
    ensures var last := QuietStates(write, s, rounds[..k + 1])[k + 1];
      LayerLoop(write, serverRefs, rounds, s) == (Finish(Stopped, last), last.messages)
  {
    var states := QuietStates(write, s, rounds[..k + 1]);
    QuietPasses(write, serverRefs, rounds, s, k);
    RunLoopStopsAt(PassOf(write, serverRefs), rounds, states, k);
    QuietStatesMeaning(write, s, rounds[..k + 1]);
  }

  /** The passes up to `k` go through the quiet states: each goes on until
      the one at `k`, which stops. */
  lemma QuietPasses(write: ToolWriter, serverRefs: seq<string>, rounds: seq<LayerRound>, s: LayerState, k: nat)
    requires serverRefs != [] && s.param.Some? && s.param.value != []
    requires k < |rounds|
    requires forall j :: 0 <= j < k ==> Uninterrupted(rounds[j]) && AsksMore(rounds[j])
    requires Uninterrupted(rounds[k]) && !AsksMore(rounds[k])
    ensures var states := QuietStates(write, s, rounds[..k + 1]);
      |states| == k + 2
      && (forall j :: 0 <= j < k ==> PassOf(write, serverRefs)(rounds[j], states[j]) == (Running, states[j + 1]))
      && PassOf(write, serverRefs)(rounds[k], states[k]) == (Stopped, states[k + 1])
  {
    var states := QuietStates(write, s, rounds[..k + 1]);
    QuietStatesMeaning(write, s, rounds[..k + 1]);
    forall j | 0 <= j <= k
      ensures states[j].param.Some? && states[j].param.value != []
    {
      if j > 0 {
        assert rounds[..k + 1][j - 1] == rounds[j - 1];
        assert Uninterrupted(rounds[j - 1]) && AsksMore(rounds[j - 1]);
        assert states[j] == AfterQuietPass(write, rounds[j - 1], states[j - 1]);
      }
    }
    forall j | 0 <= j <= k
      ensures PassOf(write, serverRefs)(rounds[j], states[j]) == (if j < k then Running else Stopped, states[j + 1])
    {
      assert rounds[..k + 1][j] == rounds[j];
      UninterruptedPass(write, serverRefs, rounds[j], states[j]);
    }
  }

  /** The loop's status and state from `s`, whatever the rounds: the
      transcript only grows; cancellation at the head of the first pass
      aborts; without servers the first pass stops with the state
      unchanged; the API time only adds up; a layer with servers stops with
      no tool calls left over; and an abort is cancellation or a
      follow-up's error. */
  lemma {:induction false} RunLoopShape(write: ToolWriter, serverRefs: seq<string>, rounds: seq<LayerRound>, s: LayerState)
    requires serverRefs != [] ==> s.param.None? || s.param.value != []
    ensures var (status, last) := RunLoop(PassOf(write, serverRefs), rounds, s);
      |s.messages| <= |last.messages| && last.messages[..|s.messages|] == s.messages
      && last.apiTimeMs >= s.apiTimeMs
      && (rounds != [] && rounds[0].cancelledAtHead ==> status == Aborted(CANCELLED))
      && (rounds != [] && !rounds[0].cancelledAtHead && serverRefs == [] ==> status == Stopped && last == s)
      && (status == Stopped && serverRefs != [] ==> last.param.None?)
      && (status.Aborted? ==>
            status.msg == CANCELLED || exists k :: 0 <= k < |rounds| && rounds[k].followUp == Err(status.msg))
    decreases |rounds|
  {
    if rounds != [] {
      var p := Pass(write, serverRefs, rounds[0], s);
      assert PassOf(write, serverRefs)(rounds[0], s) == p;
      assert |s.messages| <= |p.1.messages| && p.1.messages[..|s.messages|] == s.messages;
      if p.0 == Running {
        RunLoopShape(write, serverRefs, rounds[1..], p.1);
        var r := RunLoop(PassOf(write, serverRefs), rounds[1..], p.1);
        assert r == RunLoop(PassOf(write, serverRefs), rounds, s);
        assert r.1.messages[..|s.messages|] == r.1.messages[..|p.1.messages|][..|s.messages|];
        if r.0.Aborted? && r.0.msg != CANCELLED {
          var k :| 0 <= k < |rounds[1..]| && rounds[1..][k].followUp == Err(r.0.msg);
          assert rounds[k + 1].followUp == Err(r.0.msg);
        }
      }
    }
  }

  /** The same for the layer's outcome: the transcript only grows;
      cancellation at the head of the first pass fails; a layer without
      servers finishes at once with the answer it was given; the API time
      only adds up; a layer with servers finishes with no tool calls left
      over; and a failure is cancellation or a follow-up's error. */
  lemma LayerLoopShape(write: ToolWriter, serverRefs: seq<string>, rounds: seq<LayerRound>, s: LayerState)
    requires serverRefs != [] ==> s.param.None? || s.param.value != []
    ensures var (outcome, messages) := LayerLoop(write, serverRefs, rounds, s);
      |s.messages| <= |messages| && messages[..|s.messages|] == s.messages
      && (rounds != [] && rounds[0].cancelledAtHead ==> outcome == Failed(CANCELLED))
      && (rounds != [] && !rounds[0].cancelledAtHead && serverRefs == [] ==>
            outcome == Finish(Stopped, s) && messages == s.messages)
      && (outcome.Finished? ==> outcome.result.apiTimeMs >= s.apiTimeMs)
      && (outcome.Finished? && serverRefs != [] ==> outcome.result.toolCalls.None?)
      && (outcome.Failed? ==>
            outcome.msg == CANCELLED || exists k :: 0 <= k < |rounds| && rounds[k].followUp == Err(outcome.msg))
  {
    RunLoopShape(write, serverRefs, rounds, s);
  }

  /** `process_recursive_tool_calls`, over the passes the rounds describe:
      the outcome and the transcript are the loop's. */
  method ProcessRecursiveToolCalls(layerSession: ChatSession, serverRefs: seq<string>, initial: ProviderResponse,
                                   apiTimeMs: nat, rounds: seq<LayerRound>)
    returns (outcome: LayerOutcome)
    modifies layerSession`messages
    ensures (outcome, layerSession.messages)
         == LayerLoop(LayerToolMessages, serverRefs, rounds, StartState(initial, apiTimeMs, old(layerSession.messages)))
  {
    ghost var start := StartState(initial, apiTimeMs, layerSession.messages);
    var content := initial.content;
    var usage := initial.usage;
    var param := initial.toolCalls;
    var api := apiTimeMs;
    var toolTime: nat := 0;
    var status := Running;
    var i := 0;
    while status == Running && i < |rounds|
      invariant 0 <= i <= |rounds|
      invariant status == Running ==>
        RunLoop(PassOf(LayerToolMessages, serverRefs), rounds, start)
        == RunLoop(PassOf(LayerToolMessages, serverRefs), rounds[i..], LayerState(content, usage, param, api, toolTime, layerSession.messages))
      invariant status != Running ==>
        RunLoop(PassOf(LayerToolMessages, serverRefs), rounds, start)
        == (status, LayerState(content, usage, param, api, toolTime, layerSession.messages))
      decreases |rounds| - i, status != Running
    {
      assert rounds[i..][0] == rounds[i] && rounds[i..][1..] == rounds[i + 1..];
      status, content, usage, param, api, toolTime := RunPass(layerSession, serverRefs, rounds[i], content, usage,
                                                               param, api, toolTime);
      i := i + 1;
    }
    if status == Running {
      assert rounds[i..] == [];
    }
    outcome := Finish(status, LayerState(content, usage, param, api, toolTime, layerSession.messages));
  }

  /** One pass of the loop body on the layer's session, as `Pass` says. */
  method RunPass(layerSession: ChatSession, serverRefs: seq<string>, round: LayerRound, content: string,
                 usage: Option<TokenUsage>, param: Option<seq<McpToolCall>>, api: nat, toolTime: nat)
    returns (status: LoopStatus, content': string, usage': Option<TokenUsage>, param': Option<seq<McpToolCall>>,
             api': nat, toolTime': nat)
    modifies layerSession`messages
    ensures (status, LayerState(content', usage', param', api', toolTime', layerSession.messages))
         == Pass(LayerToolMessages, serverRefs, round,
                 LayerState(content, usage, param, api, toolTime, old(layerSession.messages)))
  {
    status, content', usage', param', api', toolTime' := Running, content, usage, param, api, toolTime;
    if round.cancelledAtHead {
      status := Aborted(CANCELLED);
      return;
    }
    if serverRefs == [] {
      status := Stopped;
      return;
    }
    var resolved := ResolveLayerToolCalls(param, content);
    param' := resolved.1;
    if resolved.0 == [] {
      status := Stopped;
      return;
    }
    status, content', usage', param', api', toolTime' := RunTools(layerSession, round, content, usage, param', api,
                                                                  toolTime);
  }

  /** The rest of a pass on the layer's session, as `ToolsPass` says. */
  method RunTools(layerSession: ChatSession, round: LayerRound, content: string, usage: Option<TokenUsage>,
                  param: Option<seq<McpToolCall>>, api: nat, toolTime: nat)
    returns (status: LoopStatus, content': string, usage': Option<TokenUsage>, param': Option<seq<McpToolCall>>,
             api': nat, toolTime': nat)
    modifies layerSession`messages
    ensures (status, LayerState(content', usage', param', api', toolTime', layerSession.messages))
         == ToolsPass(LayerToolMessages, round, LayerState(content, usage, param, api, toolTime,
                                                           old(layerSession.messages)))
  {
    ghost var s := LayerState(content, usage, param, api, toolTime, layerSession.messages);
    layerSession.messages := layerSession.messages + [LayerAssistantMessage(content, round.originalToolCalls)];
    toolTime' := toolTime + round.toolTimeMs;
    if round.cancelledAfterTools || round.toolResults == [] {
      status, content', usage', param', api' := if round.cancelledAfterTools then Aborted(CANCELLED)
                                                else if ParseToolCalls(content) == [] then Stopped
                                                else Running, content, usage, param, api;
      ToolsPassWithoutFollowUp(LayerToolMessages, round, s);
    } else {
      ToolsPassWithFollowUp(LayerToolMessages, round, s);
      status, content', usage', param', api' := FollowUpPass(layerSession, round, content, usage, param, api, toolTime');
    }
  }

  /** The tool results go into the layer's session, then the follow-up
      ends the pass as `AfterFollowUp` says. */
  method FollowUpPass(layerSession: ChatSession, round: LayerRound, content: string, usage: Option<TokenUsage>,
                      param: Option<seq<McpToolCall>>, api: nat, toolTime: nat)
    returns (status: LoopStatus, content': string, usage': Option<TokenUsage>, param': Option<seq<McpToolCall>>,
             api': nat)
    modifies layerSession`messages
    ensures (status, LayerState(content', usage', param', api', toolTime, layerSession.messages))
         == AfterFollowUp(LayerRoundOutcome(round.cancelledBeforeFollowUp, round.followUp),
                          LayerState(content, usage, param, api, toolTime,
                                     old(layerSession.messages) + LayerToolMessages(round.toolResults)))
  {
    var r := ProcessLayerToolResults(layerSession, round.toolResults, round.cancelledBeforeFollowUp,
                                     round.followUp);
    status, content', usage', param', api' := EndPass(r, content, usage, param, api);
  }

  /** The end of a pass, once the follow-up is in, as `AfterFollowUp`
      says. */
  method EndPass(r: Result<Option<ToolResultProcessor.FollowUp>>, content: string, usage: Option<TokenUsage>,
                 param: Option<seq<McpToolCall>>, api: nat)
    returns (status: LoopStatus, content': string, usage': Option<TokenUsage>, param': Option<seq<McpToolCall>>,
             api': nat)
    ensures forall toolTime: nat, messages: seq<Message> ::
      (status, LayerState(content', usage', param', api', toolTime, messages))
      == AfterFollowUp(r, LayerState(content, usage, param, api, toolTime, messages))
  {
    status, content', usage', param', api' := Running, content, usage, param, api;
    match r
    case Err(e) => {
      status := Aborted(e);
    }
    case Ok(None) => {
      status := Stopped;
    }
    case Ok(Some(f)) => {
      api' := api + ApiTime(f.usage);
      content' := f.content;
      usage' := f.usage;
      param' := f.toolCalls;
      if !(param'.Some? && param'.value != []) && ParseToolCalls(content') == [] {
        status := Stopped;
      }
    }
  }

  /** `process`: cancellation at entry fails at once and a failed first
      request fails the layer. A layer with servers whose answer carries
      tool calls (the API's own, or else those in its text) goes through
      the tool loop on a private session over `CreateMessages`; any other
      answer is the result, with its own tool calls and no tool time. */
  method Process(systemPrompt: string, processedInput: string, cachingSupported: bool, model: string,
                 serverRefs: seq<string>, cancelled: bool, response: Result<ProviderResponse>,
                 rounds: seq<LayerRound>)
    returns (outcome: LayerOutcome)
    ensures cancelled ==> outcome == Failed(CANCELLED)
    ensures !cancelled && response.Err? ==> outcome == Failed(response.msg)
    ensures !cancelled && response.Ok? && serverRefs == [] ==>
      outcome == Finished(LayerResult(response.value.content, response.value.usage, response.value.toolCalls,
                                      ApiTime(response.value.usage), 0))
    ensures !cancelled && response.Ok? && response.value.toolCalls == Some([]) ==>
      outcome == Finished(LayerResult(response.value.content, response.value.usage, Some([]),
                                      ApiTime(response.value.usage), 0))
    ensures outcome.Finished? && serverRefs != [] && outcome.result.toolCalls.Some? ==>
      outcome.result.toolCalls == Some([])
    ensures outcome.Finished? ==> outcome.result.apiTimeMs >= ApiTime(response.value.usage)
    ensures !cancelled && response.Ok? && serverRefs != [] ==>
      var answer := response.value;
      var calls := if answer.toolCalls.Some? then answer.toolCalls.value else ParseToolCalls(answer.content);
      outcome == (if calls == [] then Finished(LayerResult(answer.content, answer.usage, answer.toolCalls,
                                                           ApiTime(answer.usage), 0))
                  else LayerLoop(LayerToolMessages, serverRefs, rounds,
                                 StartState(answer, ApiTime(answer.usage),
                                            CreateMessages(systemPrompt, processedInput, cachingSupported))).0)
  {
    if cancelled {
      return Failed(CANCELLED);
    }
    if response.Err? {
      return Failed(response.msg);
    }
    var answer := response.value;
    var api := ApiTime(answer.usage);
    if serverRefs != [] {
      var toolCalls := if answer.toolCalls.Some? then answer.toolCalls.value else ParseToolCalls(answer.content);
      if toolCalls != [] {
        var layerSession := new ChatSession(model, CreateMessages(systemPrompt, processedInput, cachingSupported));
        outcome := ProcessRecursiveToolCalls(layerSession, serverRefs, answer, api, rounds);
        LayerLoopShape(LayerToolMessages, serverRefs, rounds, StartState(answer, api, CreateMessages(systemPrompt, processedInput,
                                                                                   cachingSupported)));
        return;
      }
    }
    outcome := Finished(LayerResult(answer.content, answer.usage, answer.toolCalls, api, 0));
  }
}
