/** The integer bookkeeping of `CostTracker`: the prompt tokens billed at
    the regular rate, the API time, the totals of the usage summary and the
    choice of cost-breakdown line. Costs are floating point and stay out;
    where the breakdown depends on the cost, only its sign is an input. */
module CostTracker {
  import opened Wrappers
  import opened ChatSessions

  /** `u64::saturating_sub` on counts. */
  function SaturatingSub(a: nat, b: nat): (r: nat)
    ensures r <= a
    ensures b <= a ==> r + b == a
    ensures a <= b ==> r == 0
  {
    if b <= a then a - b else 0
  }

  /** The counts handed to `update_token_tracking`: prompt tokens billed at
      the regular rate, output tokens and cached tokens. */
  datatype TokenUpdate = TokenUpdate(regularPromptTokens: nat, outputTokens: nat, cachedTokens: nat)

  /** The update for one usage report: the cached tokens are taken out of
      the prompt tokens, never going below zero. */
  function TokenUpdateOf(usage: TokenUsage): (u: TokenUpdate)
    ensures u.cachedTokens == usage.cachedTokens && u.outputTokens == usage.outputTokens
    ensures u.regularPromptTokens <= usage.promptTokens
    ensures usage.cachedTokens <= usage.promptTokens ==>
      u.regularPromptTokens + u.cachedTokens == usage.promptTokens
    ensures usage.promptTokens <= usage.cachedTokens ==> u.regularPromptTokens == 0
  {
    TokenUpdate(SaturatingSub(usage.promptTokens, usage.cachedTokens), usage.outputTokens, usage.cachedTokens)
  }

  /** `track_exchange_cost`: without usage nothing changes; otherwise the
      request time, when reported, is added to the API time, and the token
      update is returned for `update_token_tracking`. */
  method TrackExchangeCost(session: ChatSession, usage: Option<TokenUsage>) returns (update: Option<TokenUpdate>)
    modifies session`totalApiTimeMs
    ensures usage.None? ==> update.None? && session.totalApiTimeMs == old(session.totalApiTimeMs)
    ensures usage.Some? ==> update == Some(TokenUpdateOf(usage.value))
    ensures usage.Some? && usage.value.requestTimeMs.Some? ==>
      session.totalApiTimeMs == old(session.totalApiTimeMs) + usage.value.requestTimeMs.value
    ensures usage.Some? && usage.value.requestTimeMs.None? ==> session.totalApiTimeMs == old(session.totalApiTimeMs)
  {
    update := None;
    if usage.Some? {
      var u := usage.value;
      if u.requestTimeMs.Some? {
        session.totalApiTimeMs := session.totalApiTimeMs + u.requestTimeMs.value;
      }
      update := Some(TokenUpdateOf(u));
    }
  }

  /** The token figures of the usage summary. */
  datatype UsageTotals = UsageTotals(totalPrompt: nat, cached: nat, completion: nat, total: nat)

  /** `display_session_usage`: the prompt figure counts cached and
      non-cached prompt tokens together, and the total adds completion. */
  function SessionUsage(nonCachedPrompt: nat, cached: nat, completion: nat): UsageTotals {
    var totalPrompt := nonCachedPrompt + cached;
    UsageTotals(totalPrompt, cached, completion, totalPrompt + completion)
  }

  /** The summary's figures account for every counted token: the total is
      the sum of the three counters and the cached share is part of the
      prompt figure. */
  lemma SessionUsageMeaning(nonCachedPrompt: nat, cached: nat, completion: nat)
    ensures var t := SessionUsage(nonCachedPrompt, cached, completion);
      t.total == nonCachedPrompt + cached + completion
      && t.cached <= t.totalPrompt <= t.total
      && t.totalPrompt - t.cached == nonCachedPrompt
      && t.total - t.totalPrompt == completion
  {
  }

  /** Whether the usage summary shows its time line. */
  predicate ShowsTime(apiMs: nat, toolMs: nat, layerMs: nat) {
    apiMs + toolMs + layerMs > 0
  }

  /** The time line appears exactly when some time was recorded. */
  lemma ShowsTimeMeaning(apiMs: nat, toolMs: nat, layerMs: nat)
    ensures ShowsTime(apiMs, toolMs, layerMs) <==> apiMs > 0 || toolMs > 0 || layerMs > 0
  {
  }

  /** The form of the cost breakdown line. */
  datatype Breakdown = NoBreakdown | InputAndOutput | InputOnly | OutputOnly | CostOnly

  /** `display_cost_breakdown`: nothing without a positive cost or without
      tokens; otherwise the split that the counted tokens allow. */
  function CostBreakdown(costPositive: bool, nonCachedPrompt: nat, cached: nat, completion: nat): Breakdown {
    if !costPositive then NoBreakdown
    else if nonCachedPrompt + cached + completion == 0 then NoBreakdown
    else if nonCachedPrompt > 0 && completion > 0 then InputAndOutput
    else if nonCachedPrompt > 0 then InputOnly
    else if completion > 0 then OutputOnly
    else CostOnly
  }

  /** The breakdown is skipped exactly when there is no cost or no token;
      the cost alone is shown exactly when only cached tokens were counted;
      an input figure appears exactly when non-cached prompt tokens were
      counted. */
  lemma CostBreakdownMeaning(costPositive: bool, nonCachedPrompt: nat, cached: nat, completion: nat)
    ensures var b := CostBreakdown(costPositive, nonCachedPrompt, cached, completion);
      (b == NoBreakdown <==> !costPositive || (nonCachedPrompt == 0 && cached == 0 && completion == 0))
      && (b == CostOnly <==> costPositive && nonCachedPrompt == 0 && completion == 0 && cached > 0)
      && ((b == InputAndOutput || b == InputOnly) <==> costPositive && nonCachedPrompt > 0)
      && ((b == InputAndOutput || b == OutputOnly) <==> costPositive && completion > 0)
  {
  }
}
