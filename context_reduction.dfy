/** `perform_context_reduction`: the conversation is summarised by the
    session's own model and the transcript is replaced by the first system
    message and the summary. The model's answer and the outcome of saving
    the session are inputs. */
module ContextReduction {
  import opened Wrappers
  import opened Strings
  import opened Messages
  import opened ChatSessions

  /** How the summarisation request begins; a failed request's prompt is
      recognised by it. */
  const SUMMARY_MARKER := "Please create a concise summary"
  const SUMMARY_PROMPT_HEAD := SUMMARY_MARKER
    + " of our conversation that preserves all important technical details, decisions made, files modified,"
    + " and context needed for future development. Focus on actionable information and key outcomes."
    + "\n\nConversation to summarize:\n"
  const FAILED_PREFIX := "Context summarization failed: "

  /** One message in the history sent for summarising. */
  function HistoryEntry(m: Message): string {
    ToUpper(m.role) + ": " + m.content
  }

  /** The entries of the non-system messages, in order. */
  function HistoryEntries(messages: seq<Message>): seq<string> {
    if messages == [] then []
    else (if messages[0].role == "system" then [] else [HistoryEntry(messages[0])]) + HistoryEntries(messages[1..])
  }

  /** The conversation history: the entries separated by blank lines. */
  function History(messages: seq<Message>): string {
    Join(HistoryEntries(messages), "\n\n")
  }

  lemma {:induction false} HistoryEntriesEmpty(messages: seq<Message>)
    ensures HistoryEntries(messages) == [] <==> forall i :: 0 <= i < |messages| ==> messages[i].role == "system"
    ensures HistoryEntries(messages) != [] ==> |HistoryEntries(messages)[0]| >= 2
  {
    if messages != [] {
      HistoryEntriesEmpty(messages[1..]);
      assert forall i :: 1 <= i < |messages| ==> messages[i] == messages[1..][i - 1];
    }
  }

  /** There is nothing to summarise exactly when every message is a system
      message. */
  lemma HistoryEmptyIff(messages: seq<Message>)
    ensures History(messages) == [] <==> forall i :: 0 <= i < |messages| ==> messages[i].role == "system"
  {
    HistoryEntriesEmpty(messages);
    var entries := HistoryEntries(messages);
    if entries != [] && |entries| > 1 {
      assert History(messages) == entries[0] + "\n\n" + Join(entries[1..], "\n\n");
    }
  }

  /** The request that asks for the summary. */
  function SummarizationPrompt(history: string): (p: string)
    ensures StartsWith(p, SUMMARY_MARKER)
  {
    var p := SUMMARY_PROMPT_HEAD + history;
    assert p[..|SUMMARY_MARKER|] == SUMMARY_MARKER;
    p
  }

  /** The first system message, if any (`iter().find`). */
  function FirstSystem(messages: seq<Message>): (r: Option<Message>)
    ensures r.None? <==> forall i :: 0 <= i < |messages| ==> messages[i].role != "system"
    ensures r.Some? ==> exists i :: 0 <= i < |messages| && messages[i] == r.value && r.value.role == "system"
                          && forall j :: 0 <= j < i ==> messages[j].role != "system"
  {
    if messages == [] then None
    else if messages[0].role == "system" then Some(messages[0])
    else
      var r := FirstSystem(messages[1..]);
      assert forall i :: 1 <= i < |messages| ==> messages[i] == messages[1..][i - 1];
      if r.Some? then
        var k :| 0 <= k < |messages[1..]| && messages[1..][k] == r.value && r.value.role == "system"
                 && forall j :: 0 <= j < k ==> messages[1..][j].role != "system";
        assert messages[k + 1] == r.value;
        r
      else r
  }

  /** A message appended after the system messages leaves the first one as
      it was. */
  lemma {:induction false} FirstSystemSnoc(messages: seq<Message>, m: Message)
    requires m.role != "system"
    ensures FirstSystem(messages + [m]) == FirstSystem(messages)
  {
    if messages != [] {
      assert (messages + [m])[1..] == messages[1..] + [m];
      FirstSystemSnoc(messages[1..], m);
    }
  }

  /** The summary as the new context: an assistant message marked for
      caching. */
  function SummaryMessage(summary: string): Message {
    Plain("assistant", summary).(cached := true)
  }

  /** The transcript after a successful reduction. */
  function Reduced(messages: seq<Message>, summary: string): seq<Message> {
    var system := FirstSystem(messages);
    (if system.Some? then [system.value] else []) + [SummaryMessage(summary)]
  }

  /** A reduced transcript holds at most the first system message and the
      cached summary; reducing it again keeps the same system message, so
      the length stays at most 2. */
  lemma ReducedShape(messages: seq<Message>, summary: string, next: string)
    ensures var r := Reduced(messages, summary);
      |r| <= 2 && r[|r| - 1] == SummaryMessage(summary) && r[|r| - 1].cached
      && (|r| == 2 <==> exists i :: 0 <= i < |messages| && messages[i].role == "system")
      && (|r| == 2 ==> r[0].role == "system")
    ensures var r := Reduced(messages, summary);
      FirstSystem(r) == FirstSystem(messages) && |Reduced(r, next)| <= 2
  {
    var r := Reduced(messages, summary);
    if FirstSystem(messages).Some? {
      assert r == [FirstSystem(messages).value, SummaryMessage(summary)];
    } else {
      assert r == [SummaryMessage(summary)];
    }
  }

  /** The next reduction of a reduced transcript summarises only the
      previous summary. */
  lemma ReducedHistory(messages: seq<Message>, summary: string)
    ensures History(Reduced(messages, summary)) == "ASSISTANT: " + summary
  {
    var r := Reduced(messages, summary);
    var s := SummaryMessage(summary);
    assert [s][1..] == [];
    assert HistoryEntries([s]) == [HistoryEntry(s)];
    if FirstSystem(messages).Some? {
      assert r[1..] == [s];
    }
    assert HistoryEntries(r) == [HistoryEntry(s)];
    UpperAssistant();
  }

  lemma UpperAssistant()
    ensures ToUpper("assistant") == "ASSISTANT"
  {
    var u := ToUpper("assistant");
    assert forall i :: 0 <= i < 9 ==> u[i] == "ASSISTANT"[i];
  }

  /** The rebuilt transcript: the first system message, if any, then the
      summary as an assistant message marked as a cache point. */
  method ReplaceWithSummary(session: ChatSession, summary: string)
    modifies session`messages
    ensures session.messages == Reduced(old(session.messages), summary)
  {
    var system := FirstSystem(session.messages);
    session.messages := [];
    if system.Some? {
      session.messages := session.messages + [system.value];
    }
    session.messages := session.messages + [Plain("assistant", summary)];
    var last := |session.messages| - 1;
    session.messages := session.messages[last := session.messages[last].(cached := true)];
  }

  /** `perform_context_reduction`. With nothing but system messages it does
      nothing. Otherwise the request is appended; a summary replaces the
      transcript by `Reduced`, resets the current token counters and the
      outcome is that of saving the session; a failed request removes the
      request again and reports the error. */
  method PerformContextReduction(session: ChatSession, summary: Result<string>, saved: Result<Unit>)
    returns (r: Result<Unit>)
    modifies session`messages, session`currentNonCachedTokens, session`currentTotalTokens
    ensures History(old(session.messages)) == [] ==>
      r == Ok(Unit) && session.messages == old(session.messages)
      && session.currentNonCachedTokens == old(session.currentNonCachedTokens)
      && session.currentTotalTokens == old(session.currentTotalTokens)
    ensures History(old(session.messages)) != [] && summary.Ok? ==>
      r == saved && session.messages == Reduced(old(session.messages), summary.value)
      && session.currentNonCachedTokens == 0 && session.currentTotalTokens == 0
    ensures History(old(session.messages)) != [] && summary.Err? ==>
      r == Err(FAILED_PREFIX + summary.msg) && session.messages == old(session.messages)
      && session.currentNonCachedTokens == old(session.currentNonCachedTokens)
      && session.currentTotalTokens == old(session.currentTotalTokens)
  {
    var history := History(session.messages);
    if history == [] {
      r := Ok(Unit);
    } else {
      var prompt := SummarizationPrompt(history);
      session.AddUserMessage(prompt);
      if summary.Ok? {
        FirstSystemSnoc(old(session.messages), Plain("user", prompt));
        ReplaceWithSummary(session, summary.value);
        session.currentNonCachedTokens := 0;
        session.currentTotalTokens := 0;
        r := saved;
      } else {
        var last := session.messages[|session.messages| - 1];
        StartsWithContains(last.content, SUMMARY_MARKER);
        if last.role == "user" && Contains(last.content, SUMMARY_MARKER) {
          session.messages := session.messages[..|session.messages| - 1];
        }
        r := Err(FAILED_PREFIX + summary.msg);
      }
    }
  }
}
