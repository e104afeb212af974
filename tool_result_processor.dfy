/** `process_tool_results`: the results of one round of tool calls are
    appended to the transcript as tool messages, with truncation checks
    triggered by large outputs, and the follow-up request's answer decides
    whether the conversation goes on. The follow-up answer, the spending
    check, cancellation and the measured processing time are inputs; the
    truncation itself (`check_and_truncate_context`) is not part of this
    model, only the points where it is asked for. */
module ToolResultProcessor {
  import opened Wrappers
  import opened Strings
  import opened Json
  import opened Messages
  import opened McpCore
  import opened ChatSessions
  import opened CostTracker
  import ToolExecution

  /** An output above this many bytes is checked for truncation at once. */
  const LARGE_OUTPUT_BYTES := 10000
  /** Outputs accumulated above this many bytes ask for a batch check. */
  const LARGE_BATCH_BYTES := 50000

  /** `extract_tool_content`: the text that goes into the tool message. */
  function ExtractToolContent(r: McpToolResult): string {
    var output := Get(r.result, "output");
    if output.Some? then
      if output.value.JString? then output.value.s else Serialize(output.value)
    else if r.result.JString? then r.result.s
    else
      var error := Get(r.result, "error");
      if error.Some? then "Error: " + Serialize(error.value) else Serialize(r.result)
  }

  /** A string `output` is the content itself and a plain string result is
      used as it is; a result with an `error` and no `output` reads as an
      error; anything else is the serialised result. */
  lemma ExtractToolContentMeaning(r: McpToolResult, s: string)
    ensures Get(r.result, "output") == Some(JString(s)) ==> ExtractToolContent(r) == s
    ensures r.result == JString(s) ==> ExtractToolContent(r) == s
    ensures Get(r.result, "output").None? && Get(r.result, "error").Some? ==>
      StartsWith(ExtractToolContent(r), "Error: ")
    ensures Get(r.result, "output").None? && Get(r.result, "error").None? && !r.result.JString? ==>
      ExtractToolContent(r) == Serialize(r.result)
  {
  }

  /** The error result of a failed call has no `output`, so its tool message
      reads as an error. */
  lemma FailureContentIsError(ctx: ToolExecution.ExecutionContext, call: McpToolCall, error: string, task: bool,
                              verdict: ToolExecution.TrackerVerdict)
    ensures StartsWith(ExtractToolContent(ToolExecution.FailureResult(ctx, call, error, task, verdict)), "Error: ")
  {
    var r := ToolExecution.FailureResult(ctx, call, error, task, verdict);
    var fields := r.result.fields;
    assert forall i :: 0 <= i < |fields| ==> fields[i].0[0] != "output"[0];
    assert Lookup(fields, "output").None?;
    ToolExecution.FailureResultAnswersCall(ctx, call, error, task, verdict);
  }

  /** The tool messages for a list of results. */
  function ToolMessages(results: seq<McpToolResult>): seq<Message> {
    if results == [] then []
    else ToolMessages(results[..|results| - 1])
         + [ToolMessage(ExtractToolContent(results[|results| - 1]), results[|results| - 1].toolId,
                        results[|results| - 1].toolName)]
  }

  /** One tool message per result, in order, answering that result's call. */
  lemma {:induction false} ToolMessagesMeaning(results: seq<McpToolResult>, i: nat)
    ensures |ToolMessages(results)| == |results|
    ensures i < |results| ==>
      (ToolMessages(results)[i]
       == Message("tool", ExtractToolContent(results[i]), false, Some(results[i].toolId), Some(results[i].toolName), None))
  {
    if results != [] {
      ToolMessagesMeaning(results[..|results| - 1], i);
    }
  }

  /** The byte sizes of the results' contents. */
  function ContentSizes(results: seq<McpToolResult>): (sizes: seq<nat>)
    ensures |sizes| == |results|
  {
    seq(|results|, i requires 0 <= i < |results| => Utf8Len(ExtractToolContent(results[i])))
  }

  /** The bytes accumulated over the first `n` outputs since the last large
      one. */
  function SinceLarge(sizes: seq<nat>, n: nat): nat
    requires n <= |sizes|
  {
    if n == 0 then 0
    else if sizes[n - 1] > LARGE_OUTPUT_BYTES then 0
    else SinceLarge(sizes, n - 1) + sizes[n - 1]
  }

  /** The positions, among the first `n`, of the large outputs. */
  function LargeAt(sizes: seq<nat>, n: nat): seq<nat>
    requires n <= |sizes|
  {
    if n == 0 then []
    else LargeAt(sizes, n - 1) + (if sizes[n - 1] > LARGE_OUTPUT_BYTES then [n - 1] else [])
  }

  /** The positions are exactly those of the large outputs, increasing. */
  lemma {:induction false} LargeAtMeaning(sizes: seq<nat>, n: nat, k: nat)
    requires n <= |sizes|
    ensures k in LargeAt(sizes, n) <==> k < n && sizes[k] > LARGE_OUTPUT_BYTES
    ensures forall a, b :: 0 <= a < b < |LargeAt(sizes, n)| ==> LargeAt(sizes, n)[a] < LargeAt(sizes, n)[b]
    ensures forall a :: 0 <= a < |LargeAt(sizes, n)| ==> LargeAt(sizes, n)[a] < n
  {
    if n > 0 {
      LargeAtMeaning(sizes, n - 1, k);
    }
  }

  /** While no output is large, the accumulated size is the sum of all the
      sizes so far, so small outputs ask for a batch check exactly when they
      add up to more than the batch threshold. */
  lemma {:induction false} SinceLargeSum(sizes: seq<nat>, n: nat)
    requires n <= |sizes|
    requires forall k :: 0 <= k < n ==> sizes[k] <= LARGE_OUTPUT_BYTES
    ensures SinceLarge(sizes, n) == Sum(sizes[..n])
  {
    if n > 0 {
      SinceLargeSum(sizes, n - 1);
      assert sizes[..n] == sizes[..n - 1] + [sizes[n - 1]];
      SumSnoc(sizes[..n - 1], sizes[n - 1]);
    }
  }

  function Sum(xs: seq<nat>): nat {
    if xs == [] then 0 else Sum(xs[..|xs| - 1]) + xs[|xs| - 1]
  }

  lemma SumSnoc(xs: seq<nat>, x: nat)
    ensures Sum(xs + [x]) == Sum(xs) + x
  {
    assert (xs + [x])[..|xs|] == xs;
  }

  /** Where `check_and_truncate_context` is asked for: after each large
      output (by position), once after the loop when a batch is pending,
      and once more before the follow-up request. */
  datatype TruncationChecks = TruncationChecks(immediate: seq<nat>, batch: bool, final: bool)

  const NO_CHECKS := TruncationChecks([], false, false)

  /** Appending the message for result `i` extends the messages of the
      results before it. */
  lemma ToolMessagesStep(results: seq<McpToolResult>, i: nat)
    requires i < |results|
    ensures ToolMessages(results[..i + 1])
            == ToolMessages(results[..i]) + [ToolMessage(ExtractToolContent(results[i]), results[i].toolId, results[i].toolName)]
  {
    assert results[..i + 1][..i] == results[..i];
  }

  /** The loop of `process_tool_results`: one tool message per result, a
      check at each large output, which also clears the accumulated size
      and the pending batch flag, and a batch check when the outputs since
      the last large one exceed the batch threshold. */
  method AppendToolResults(session: ChatSession, results: seq<McpToolResult>)
    returns (immediate: seq<nat>, batch: bool)
    modifies session`messages
    ensures session.messages == old(session.messages) + ToolMessages(results)
    ensures immediate == LargeAt(ContentSizes(results), |results|)
    ensures batch <==> SinceLarge(ContentSizes(results), |results|) > LARGE_BATCH_BYTES
  {
    ghost var sizes := ContentSizes(results);
    var accumulated := 0;
    batch := false;
    immediate := [];
    var i := 0;
    while i < |results|
      invariant 0 <= i <= |results|
      invariant session.messages == old(session.messages) + ToolMessages(results[..i])
      invariant immediate == LargeAt(sizes, i)
      invariant accumulated == SinceLarge(sizes, i)
      invariant batch <==> accumulated > LARGE_BATCH_BYTES
    {
      var content := ExtractToolContent(results[i]);
      var size := Utf8Len(content);
      assert sizes[i] == size;
      accumulated := accumulated + size;
      var large := size > LARGE_OUTPUT_BYTES;
      batch := batch || large || accumulated > LARGE_BATCH_BYTES;
      ToolMessagesStep(results, i);
      session.AddToolMessage(content, results[i].toolId, results[i].toolName);
      // A large output is checked at once, which clears the pending batch.
      immediate := if large then immediate + [i] else immediate;
      batch := if large then false else batch;
      accumulated := if large then 0 else accumulated;
      i := i + 1;
    }
    assert results[..i] == results;
  }

  /** What the round hands back: the follow-up's text, its usage, and its
      tool calls when the conversation goes on. */
  datatype FollowUp = FollowUp(content: string, usage: Option<TokenUsage>, toolCalls: Option<seq<McpToolCall>>)

  /** `check_should_continue` */
  function CheckShouldContinue(finishReason: Option<string>, hasMoreTools: bool): bool {
    match finishReason
    case Some(reason) =>
      if reason == "tool_calls" || reason == "tool_use" then true
      else if reason == "stop" || reason == "length" || reason == "end_turn" then false
      else true
    case None => hasMoreTools
  }

  /** The conversation ends exactly on a finishing reason, or when no reason
      is given and no tools are requested. */
  lemma CheckShouldContinueMeaning(finishReason: Option<string>, hasMoreTools: bool)
    ensures !CheckShouldContinue(finishReason, hasMoreTools) <==>
      (finishReason.Some? && finishReason.value in {"stop", "length", "end_turn"})
      || (finishReason.None? && !hasMoreTools)
  {
  }

  /** Whether the follow-up asks for more tools: its tool calls when it has
      them, otherwise calls found in its text. */
  function HasMoreTools(response: ProviderResponse): bool {
    if response.toolCalls.Some? then response.toolCalls.value != []
    else ParseToolCalls(response.content) != []
  }

  /** How the round ends: a declined spending check or cancellation before
      the request yields nothing, a failed request its error, and an answer
      its text and usage, with its tool calls only when the conversation
      goes on. An error from the spending check does not stop the round. */
  function RoundOutcome(spending: Result<bool>, cancelled: bool, followUp: Result<ProviderResponse>)
    : Result<Option<FollowUp>>
  {
    if spending == Ok(false) || cancelled then Ok(None)
    else if followUp.Err? then Err(followUp.msg)
    else
      var resp := followUp.value;
      var goOn := CheckShouldContinue(resp.finishReason, HasMoreTools(resp));
      Ok(Some(FollowUp(resp.content, resp.usage, if goOn then resp.toolCalls else None)))
  }

  /** The round's tool calls are the follow-up's own, handed on only when
      its finish reason does not end the conversation; with no finish
      reason, they are handed on exactly when there are some. */
  lemma RoundOutcomeMeaning(spending: Result<bool>, cancelled: bool, followUp: Result<ProviderResponse>)
    ensures var r := RoundOutcome(spending, cancelled, followUp);
      (r == Ok(None) <==> spending == Ok(false) || cancelled)
      && (r.Err? <==> spending != Ok(false) && !cancelled && followUp.Err?)
    ensures var r := RoundOutcome(spending, cancelled, followUp);
      r.Ok? && r.value.Some? ==>
        followUp.Ok? && r.value.value.content == followUp.value.content
        && (r.value.value.toolCalls.Some? ==>
              (r.value.value.toolCalls == followUp.value.toolCalls
               && !(followUp.value.finishReason.Some?
                    && followUp.value.finishReason.value in {"stop", "length", "end_turn"})))
    ensures var r := RoundOutcome(spending, cancelled, followUp);
      r.Ok? && r.value.Some? && followUp.value.finishReason.None? ==>
        (r.value.value.toolCalls.Some? <==> followUp.value.toolCalls.Some? && followUp.value.toolCalls.value != [])
  {
    if followUp.Ok? {
      CheckShouldContinueMeaning(followUp.value.finishReason, HasMoreTools(followUp.value));
    }
  }

  /** `handle_follow_up_cost_tracking`: the same bookkeeping as
      `track_exchange_cost`. */
  method HandleFollowUpCostTracking(session: ChatSession, usage: Option<TokenUsage>) returns (update: Option<TokenUpdate>)
    modifies session`totalApiTimeMs
    ensures update == (if usage.Some? then Some(TokenUpdateOf(usage.value)) else None)
    ensures session.totalApiTimeMs == old(session.totalApiTimeMs)
      + (if usage.Some? && usage.value.requestTimeMs.Some? then usage.value.requestTimeMs.value else 0)
  {
    update := TrackExchangeCost(session, usage);
  }

  /** `process_tool_results`. The tool time is always added; cancellation
      at entry stops everything else. Otherwise the tool messages are
      appended with their truncation checks, the processing time is added,
      and the round ends as `RoundOutcome` says; the follow-up's usage is
      accounted whenever an answer arrives. */
  method ProcessToolResults(session: ChatSession, results: seq<McpToolResult>, totalToolTimeMs: nat,
                            cancelledAtEntry: bool, processingTimeMs: nat, spending: Result<bool>,
                            cancelledBeforeFollowUp: bool, followUp: Result<ProviderResponse>)
    returns (r: Result<Option<FollowUp>>, checks: TruncationChecks, update: Option<TokenUpdate>)
    modifies session`totalToolTimeMs, session`messages, session`totalLayerTimeMs, session`totalApiTimeMs
    ensures session.totalToolTimeMs == old(session.totalToolTimeMs) + totalToolTimeMs
    ensures cancelledAtEntry ==>
      r == Ok(None) && checks == NO_CHECKS && update.None? && session.messages == old(session.messages)
      && session.totalLayerTimeMs == old(session.totalLayerTimeMs) && session.totalApiTimeMs == old(session.totalApiTimeMs)
    ensures !cancelledAtEntry ==>
      session.messages == old(session.messages) + ToolMessages(results)
      && checks == TruncationChecks(LargeAt(ContentSizes(results), |results|),
                                    SinceLarge(ContentSizes(results), |results|) > LARGE_BATCH_BYTES, true)
      && session.totalLayerTimeMs == old(session.totalLayerTimeMs) + processingTimeMs
      && r == RoundOutcome(spending, cancelledBeforeFollowUp, followUp)
    ensures !cancelledAtEntry && r.Ok? && r.value.Some? ==>
      update == (if followUp.value.usage.Some? then Some(TokenUpdateOf(followUp.value.usage.value)) else None)
    ensures !(r.Ok? && r.value.Some?) ==> update.None? && session.totalApiTimeMs == old(session.totalApiTimeMs)
  {
    session.totalToolTimeMs := session.totalToolTimeMs + totalToolTimeMs;
    if cancelledAtEntry {
      r, checks, update := Ok(None), NO_CHECKS, None;
    } else {
      var immediate, batch := AppendToolResults(session, results);
      checks := TruncationChecks(immediate, batch, true);
      session.totalLayerTimeMs := session.totalLayerTimeMs + processingTimeMs;
      update := None;
      if spending == Ok(false) || cancelledBeforeFollowUp {
        r := Ok(None);
      } else if followUp.Err? {
        r := Err(followUp.msg);
      } else {
        var response := followUp.value;
        var goOn := CheckShouldContinue(response.finishReason, HasMoreTools(response));
        update := HandleFollowUpCostTracking(session, response.usage);
        if goOn {
          r := Ok(Some(FollowUp(response.content, response.usage, response.toolCalls)));
        } else {
          r := Ok(Some(FollowUp(response.content, response.usage, None)));
        }
      }
    }
  }
}
