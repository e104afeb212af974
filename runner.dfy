/** The interactive session loop of `run_interactive_session`: reading the
    session options back from their debug rendering, the cancellation step
    at the head of the loop, the handling of one line of input, the first
    message's pass through the layers, and one exchange with the model with
    its rollback when the request fails. The layers' outcome, the model's
    answer, the transcript left by response processing and Ctrl+C are
    inputs. */
module SessionRunner {
  import opened Wrappers
  import opened Strings
  import opened Messages
  import opened ChatSessions
  import ContextReduction

  // ---------------------------------------------------------------------
  // Session options
  // ---------------------------------------------------------------------

  const MODEL_MARKER := "model: Some(\""
  const NAME_MARKER := "name: Some(\""
  const RESUME_MARKER := "resume: Some(\""
  const ROLE_MARKER := "role: \""
  const DEFAULT_ROLE := "developer"
  /** The source unwraps the search for the closing quote and would panic. */
  const NO_CLOSING_QUOTE := "no closing quote"

  /** The quoted text after the first occurrence of `marker`: None when the
      marker does not occur. */
  function ExtractQuoted(s: string, marker: string): Result<Option<string>> {
    match Find(s, marker)
    case None => Ok(None)
    case Some(i) =>
      var start := i + |marker|;
      match IndexOf(s[start..], '"')
      case None => Err(NO_CLOSING_QUOTE)
      case Some(j) => Ok(Some(s[start..start + j]))
  }

  /** No marker, no value; with the marker there is a value or an error. */
  lemma ExtractQuotedAbsent(s: string, marker: string)
    ensures !Contains(s, marker) <==> ExtractQuoted(s, marker) == Ok(None)
  {
  }

  /** A value found is quote-free and stands between the marker and a
      quote. */
  lemma ExtractQuotedFound(s: string, marker: string, v: string)
    requires ExtractQuoted(s, marker) == Ok(Some(v))
    ensures '"' !in v && Contains(s, marker + v + "\"")
  {
    var i := Find(s, marker).value;
    var start := i + |marker|;
    var j := IndexOf(s[start..], '"').value;
    assert s[start..][..j] == v;
    assert s[start..][j] == '"';
    QuotedAfterMarker(s, marker, i, s[start..]);
  }

  /** A marker at `i` followed by a value and a quote spells out
      marker, value and quote at `i`. */
  lemma QuotedAfterMarker(s: string, marker: string, i: nat, rest: string)
    requires OccursAt(s, marker, i) && rest == s[i + |marker|..]
    ensures forall j :: 0 <= j < |rest| && rest[j] == '"' ==> OccursAt(s, marker + rest[..j] + "\"", i)
  {
    forall j | 0 <= j < |rest| && rest[j] == '"'
      ensures OccursAt(s, marker + rest[..j] + "\"", i)
    {
      var w := marker + rest[..j] + "\"";
      assert |w| == |marker| + j + 1;
      forall k | 0 <= k < |w|
        ensures s[i + k] == w[k]
      {
        if k < |marker| {
          assert s[i..i + |marker|][k] == marker[k];
        } else if k < |marker| + j {
          assert rest[k - |marker|] == s[i + k];
        } else {
          assert rest[j] == s[i + k];
        }
      }
      assert s[i..i + |w|] == w;
    }
  }

  /** A quote-free value written after the marker is read back. */
  lemma ExtractQuotedRoundTrip(marker: string, v: string, rest: string)
    requires '"' !in v
    ensures ExtractQuoted(marker + v + "\"" + rest, marker) == Ok(Some(v))
  {
    var tail := v + "\"" + rest;
    assert marker + v + "\"" + rest == marker + tail;
    FirstQuote(v, rest);
    assert tail[..|v|] == v;
    ExtractAfterMarker(marker, tail, |v|);
  }

  /** After a leading marker, the value runs up to the first quote. */
  lemma ExtractAfterMarker(marker: string, tail: string, j: nat)
    requires IndexOf(tail, '"') == Some(j)
    ensures ExtractQuoted(marker + tail, marker) == Ok(Some(tail[..j]))
  {
    var t := marker + tail;
    FindPrefix(marker, tail);
    assert t[|marker|..] == tail;
    ExtractAt(t, marker, 0, j);
    assert t[|marker|..|marker| + j] == tail[..j];
  }

  /** With the marker first at `i` and the first quote after it at `j`,
      the value is what lies between. */
  lemma ExtractAt(s: string, marker: string, i: nat, j: nat)
    requires Find(s, marker) == Some(i) && IndexOf(s[i + |marker|..], '"') == Some(j)
    ensures ExtractQuoted(s, marker) == Ok(Some(s[i + |marker|..i + |marker| + j]))
  {
  }

  /** A string that starts with the marker finds it at 0. */
  lemma FindPrefix(marker: string, tail: string)
    ensures Find(marker + tail, marker) == Some(0)
  {
    assert (marker + tail)[0..|marker|] == marker;
  }

  /** The first quote after a quote-free value is the one that closes it. */
  lemma FirstQuote(v: string, rest: string)
    requires '"' !in v
    ensures IndexOf(v + "\"" + rest, '"') == Some(|v|)
  {
    var t := v + "\"" + rest;
    assert t[|v|] == '"';
    assert t[..|v|] == v;
  }

  /** The options the loop needs from the session arguments. */
  datatype SessionArgs = SessionArgs(name: Option<string>, resume: Option<string>, model: Option<string>, role: string)

  /** The options read back from the arguments' debug rendering: absent
      options are None and an absent role is the developer role. */
  function ParseSessionArgs(debug: string): Result<SessionArgs> {
    var model := ExtractQuoted(debug, MODEL_MARKER);
    var name := ExtractQuoted(debug, NAME_MARKER);
    var resume := ExtractQuoted(debug, RESUME_MARKER);
    var role := ExtractQuoted(debug, ROLE_MARKER);
    if model.Err? then Err(model.msg)
    else if name.Err? then Err(name.msg)
    else if resume.Err? then Err(resume.msg)
    else if role.Err? then Err(role.msg)
    else Ok(SessionArgs(name.value, resume.value, model.value, role.value.GetOr(DEFAULT_ROLE)))
  }

  /** The arguments read back are the quoted values found after their
      markers, and the role falls back to the developer role exactly when
      no role is written. */
  lemma ParseSessionArgsMeaning(debug: string)
    ensures var r := ParseSessionArgs(debug);
      r.Ok? ==> (r.value.model.None? <==> !Contains(debug, MODEL_MARKER))
                && (r.value.name.None? <==> !Contains(debug, NAME_MARKER))
                && (r.value.resume.None? <==> !Contains(debug, RESUME_MARKER))
                && (!Contains(debug, ROLE_MARKER) ==> r.value.role == DEFAULT_ROLE)
                && (Contains(debug, ROLE_MARKER) ==> ExtractQuoted(debug, ROLE_MARKER) == Ok(Some(r.value.role)))
  {
    ExtractQuotedAbsent(debug, MODEL_MARKER);
    ExtractQuotedAbsent(debug, NAME_MARKER);
    ExtractQuotedAbsent(debug, RESUME_MARKER);
    ExtractQuotedAbsent(debug, ROLE_MARKER);
  }

  // ---------------------------------------------------------------------
  // Loop state
  // ---------------------------------------------------------------------

  /** `ProcessingState` */
  datatype ProcessingState =
    | Idle | ReadingInput | ProcessingLayers | CallingAPI | ExecutingTools | ProcessingResponse | CompletedWithResults

  /** `OperationContext`: where the operation's user and assistant messages
      were placed, and the tool results it has seen. */
  datatype OperationContext = OperationContext(
    userMessageIndex: Option<nat>,
    assistantMessageIndex: Option<nat>,
    operationId: string,
    hasToolCalls: bool,
    completedToolIds: seq<string>)

  /** The transcript after the clean-up the cancellation step performs for
      a given state: an interrupted layer pass drops the operation's user
      message and what follows, an interrupted request drops its assistant
      message and what follows, every other state keeps everything. */
  function CleanupAfter(messages: seq<Message>, state: ProcessingState, op: Option<OperationContext>): seq<Message> {
    match state
    case ProcessingLayers =>
      if op.Some? && op.value.userMessageIndex.Some? && op.value.userMessageIndex.value < |messages|
      then messages[..op.value.userMessageIndex.value] else messages
    case CallingAPI =>
      if op.Some? && op.value.assistantMessageIndex.Some? && op.value.assistantMessageIndex.value < |messages|
      then messages[..op.value.assistantMessageIndex.value] else messages
    case _ => messages
  }

  /** The clean-up only ever shortens the transcript, and only for the two
      interrupted states. */
  lemma CleanupAfterMeaning(messages: seq<Message>, state: ProcessingState, op: Option<OperationContext>)
    ensures var r := CleanupAfter(messages, state, op);
      |r| <= |messages| && r == messages[..|r|]
      && (r != messages ==> state == ProcessingLayers || state == CallingAPI)
  {
  }

  /** What the loop does with one line of input. */
  datatype InputAction = ExitSession | SkipBlank | Done | Command | UserMessage

  /** `/exit` and `/quit` end the loop, blank input is skipped, `/done`
      (trimmed) reduces the context, other input starting with `/` is a
      command, and anything else is a message. */
  function ClassifyInput(input: string): InputAction {
    if input == "/exit" || input == "/quit" then ExitSession
    else if Trim(input) == [] then SkipBlank
    else if StartsWith(input, "/") then (if Trim(input) == "/done" then Done else Command)
    else UserMessage
  }

  /** Only input beginning with `/` is ever a command, and a message is
      never blank. */
  lemma ClassifyInputMeaning(input: string)
    ensures ClassifyInput(input) == ExitSession <==> input == "/exit" || input == "/quit"
    ensures ClassifyInput(input) in {Done, Command} ==> input != [] && input[0] == '/'
    ensures ClassifyInput(input) == UserMessage ==> !AllWhitespace(input) && (input == [] || input[0] != '/')
  {
    TrimEmptyIff(input);
    if StartsWith(input, "/") {
      assert input[0] == input[..1][0];
    }
  }

  /** The tool-call ids of the first `n` messages' tool messages that are
      not in `known`, in transcript order. */
  function NewToolIdsUpTo(messages: seq<Message>, known: seq<string>, n: nat): seq<string>
    requires n <= |messages|
  {
    if n == 0 then []
    else
      var m := messages[n - 1];
      NewToolIdsUpTo(messages, known, n - 1)
      + (if m.role == "tool" && m.toolCallId.Some? && m.toolCallId.value !in known then [m.toolCallId.value] else [])
  }

  /** An id is added exactly when it answers a tool message of the
      transcript and was not recorded before. */
  lemma {:induction false} NewToolIdsMeaning(messages: seq<Message>, known: seq<string>, n: nat, id: string)
    requires n <= |messages|
    ensures id in NewToolIdsUpTo(messages, known, n) <==>
      id !in known && exists i :: 0 <= i < n && messages[i].role == "tool" && messages[i].toolCallId == Some(id)
  {
    if n > 0 {
      NewToolIdsMeaning(messages, known, n - 1, id);
    }
  }

  /** The transcript after a failed request: cut back to the operation's
      user message when its index is inside the transcript. */
  function RolledBack(messages: seq<Message>, op: Option<OperationContext>): seq<Message> {
    if op.Some? && op.value.userMessageIndex.Some? && op.value.userMessageIndex.value < |messages|
    then messages[..op.value.userMessageIndex.value] else messages
  }

  /** Rolling back right after the user message was appended restores the
      transcript as it was before. */
  lemma RolledBackRestores(messages: seq<Message>, user: Message, op: OperationContext)
    requires op.userMessageIndex == Some(|messages|)
    ensures RolledBack(messages + [user], Some(op)) == messages
  {
    assert (messages + [user])[..|messages|] == messages;
  }

  /** Some system message of the transcript is already marked for caching. */
  predicate SystemCached(messages: seq<Message>) {
    exists i :: 0 <= i < |messages| && messages[i].role == "system" && messages[i].cached
  }

  /** The transcript a request is sent with: the truncated one when a system
      message is cached already, otherwise what the checkpoint leaves. */
  function Prepared(truncated: seq<Message>, checkpointed: seq<Message>): seq<Message> {
    if SystemCached(truncated) then truncated else checkpointed
  }

  /** The scan for a cached system message, stopping at the first. */
  method HasCachedSystem(messages: seq<Message>) returns (found: bool)
    ensures found <==> SystemCached(messages)
  {
    found := false;
    var i := 0;
    while i < |messages|
      invariant 0 <= i <= |messages|
      invariant !found
      invariant forall k :: 0 <= k < i ==> !(messages[k].role == "system" && messages[k].cached)
    {
      if messages[i].role == "system" && messages[i].cached {
        found := true;
        return;
      }
      i := i + 1;
    }
  }

  /** The mutable state of the loop. */
  class Runner {
    var state: ProcessingState
    var operation: Option<OperationContext>
    var firstMessageProcessed: bool
    var ctrlCPressed: bool

    /** A loop over an existing or a new transcript: a resumed conversation
        has had its first message processed. */
    constructor (session: ChatSession)
      ensures firstMessageProcessed == (|session.messages| > 0)
      ensures state == Idle && operation.None? && !ctrlCPressed
    {
      state := Idle;
      operation := None;
      firstMessageProcessed := |session.messages| > 0;
      ctrlCPressed := false;
    }

    /** The head of the loop. The state is set to Idle before the
        cancellation branch reads it, so the clean-up keeps the transcript
        whatever was interrupted; the flag and the operation are reset and
        the iteration starts over (`restart`). */
    method LoopHead(session: ChatSession) returns (restart: bool)
      modifies this`state, this`ctrlCPressed, this`operation, session`messages
      ensures session.messages == old(session.messages)
      ensures restart == old(ctrlCPressed) && !ctrlCPressed
      ensures restart ==> operation.None? && state == Idle
      ensures !restart ==> operation == old(operation) && state == ReadingInput
    {
      state := Idle;
      restart := ctrlCPressed;
      if ctrlCPressed {
        var current := state;
        session.messages := CleanupAfter(session.messages, current, operation);
        ctrlCPressed := false;
        operation := None;
      } else {
        state := ReadingInput;
      }
    }

    /** `/done`: the next message goes through the layers again, and the
        context is reduced; a failed reduction is only reported. */
    method HandleDone(session: ChatSession, summary: Result<string>, saved: Result<Unit>)
      modifies this`firstMessageProcessed, session`messages, session`currentNonCachedTokens, session`currentTotalTokens
      ensures !firstMessageProcessed
      ensures ContextReduction.History(old(session.messages)) == [] || summary.Err? ==>
        session.messages == old(session.messages)
      ensures ContextReduction.History(old(session.messages)) != [] && summary.Ok? ==>
        session.messages == ContextReduction.Reduced(old(session.messages), summary.value)
    {
      firstMessageProcessed := false;
      var _ := ContextReduction.PerformContextReduction(session, summary, saved);
    }

    /** The step before an input is sent: a pending Ctrl+C ends the
        iteration, with or without layers; otherwise the first message's
        pass through the layers, when layers are enabled and it has not
        happened yet. `cancelledBefore` is the flag read before that step
        and `cancelledAtLayers` its reading once the layer pass has begun;
        `transcriptAfter` is the transcript the layers leave. The result is
        the input to send on, or None when the iteration ends here: on
        Ctrl+C, or when the layers added messages themselves. A layer error
        still counts as the pass. */
    method ProcessFirstMessage(session: ChatSession, input: string, layersEnabled: bool, cancelledBefore: bool,
                               cancelledAtLayers: bool, layered: Result<string>, transcriptAfter: seq<Message>,
                               cancelledAfter: bool)
      returns (next: Option<string>)
      modifies this`state, this`firstMessageProcessed, session`messages
      ensures cancelledBefore ==>
        next.None? && session.messages == old(session.messages) && state == old(state)
        && firstMessageProcessed == old(firstMessageProcessed)
      ensures !cancelledBefore && (!layersEnabled || old(firstMessageProcessed)) ==>
        next == Some(input) && session.messages == old(session.messages)
        && firstMessageProcessed == old(firstMessageProcessed)
      ensures !cancelledBefore && layersEnabled && !old(firstMessageProcessed) && cancelledAtLayers ==>
        next.None? && session.messages == old(session.messages) && !firstMessageProcessed
      ensures !cancelledBefore && layersEnabled && !old(firstMessageProcessed) && !cancelledAtLayers ==>
        session.messages == transcriptAfter
        && (cancelledAfter ==> next.None? && !firstMessageProcessed)
        && (!cancelledAfter ==> firstMessageProcessed)
        && (!cancelledAfter && layered.Err? ==> next == Some(input))
        && (!cancelledAfter && layered.Ok? ==>
              next == if |transcriptAfter| > |old(session.messages)| then None else Some(layered.value))
    {
      if cancelledBefore {
        return None;
      }
      next := Some(input);
      if layersEnabled && !firstMessageProcessed {
        state := ProcessingLayers;
        if cancelledAtLayers {
          next := None;
        } else {
          var before := |session.messages|;
          session.messages := transcriptAfter;
          if cancelledAfter {
            next := None;
          } else if layered.Ok? {
            firstMessageProcessed := true;
            if |session.messages| > before {
              next := None;
            } else {
              next := Some(layered.value);
            }
          } else {
            firstMessageProcessed := true;
          }
        }
      }
    }

    /** The start of an operation: the user message is appended and the
        operation remembers where it went. */
    method StartOperation(session: ChatSession, input: string, operationId: string)
      modifies this`operation, session`messages
      ensures session.messages == old(session.messages) + [Plain("user", input)]
      ensures operation == Some(OperationContext(Some(|old(session.messages)|), None, operationId, false, []))
    {
      var userMessageIndex := |session.messages|;
      session.AddUserMessage(input);
      operation := Some(OperationContext(Some(userMessageIndex), None, operationId, false, []));
    }

    /** A failed request removes the operation's user message and what
        follows it. */
    method HandleApiFailure(session: ChatSession)
      modifies session`messages
      ensures session.messages == RolledBack(old(session.messages), operation)
    {
      if operation.Some? && operation.value.userMessageIndex.Some? {
        var userIdx := operation.value.userMessageIndex.value;
        if userIdx < |session.messages| {
          session.messages := session.messages[..userIdx];
        }
      }
    }

    /** After a response is processed, the operation records the ids of the
        transcript's tool messages it had not recorded yet. */
    method RecordCompletedTools(session: ChatSession)
      modifies this`operation
      ensures old(operation).None? ==> operation.None?
      ensures old(operation).Some? ==>
        operation == Some(old(operation).value.(completedToolIds := old(operation).value.completedToolIds
          + NewToolIdsUpTo(session.messages, old(operation).value.completedToolIds, |session.messages|)))
    {
      if operation.Some? {
        var op := operation.value;
        var completed: seq<string> := [];
        var i := 0;
        while i < |session.messages|
          invariant 0 <= i <= |session.messages|
          invariant completed == NewToolIdsUpTo(session.messages, op.completedToolIds, i)
        {
          var msg := session.messages[i];
          if msg.role == "tool" && msg.toolCallId.Some? && msg.toolCallId.value !in op.completedToolIds {
            completed := completed + [msg.toolCallId.value];
          }
          i := i + 1;
        }
        operation := Some(op.(completedToolIds := op.completedToolIds + completed));
      }
    }

    /** One exchange with the model for `input`. The user message is
        appended and the operation records where; `truncated` is what the
        context check leaves (or its error, which ends the session loop),
        and `checkpointed` what the cache checkpoint leaves when no system
        message is cached yet. Ctrl+C before the request or a declined
        spending check ends the iteration with the prepared transcript;
        Ctrl+C during the request skips everything after it, rollback
        included. A failed request cuts the transcript back to the user
        message's index; an answer is processed (`transcriptAfter` is the
        transcript response processing leaves) and its tool results
        recorded. */
    method Exchange(session: ChatSession, input: string, operationId: string,
                    truncated: Result<seq<Message>>, checkpointed: seq<Message>, cancelledBefore: bool,
                    spending: Result<bool>, api: Result<ProviderResponse>, cancelledAfter: bool,
                    transcriptAfter: seq<Message>)
      returns (r: Result<Unit>)
      modifies this`operation, this`state, session`messages
      ensures r.Err? <==> truncated.Err?
      ensures operation.Some? && operation.value.userMessageIndex == Some(|old(session.messages)|)
      ensures truncated.Err? ==>
        r == Err(truncated.msg) && session.messages == old(session.messages) + [Plain("user", input)]
        && state == old(state)
      ensures truncated.Ok? && (cancelledBefore || spending == Ok(false) || (api.Err? && cancelledAfter)) ==>
        session.messages == Prepared(truncated.value, checkpointed) && state == CallingAPI
      ensures truncated.Ok? && !cancelledBefore && spending != Ok(false) && cancelledAfter ==>
        operation.value.assistantMessageIndex.None? && state == CallingAPI
      ensures truncated.Ok? && !cancelledBefore && spending != Ok(false) && !cancelledAfter && api.Err? ==>
        session.messages == RolledBack(Prepared(truncated.value, checkpointed), operation) && state == CallingAPI
        && (Prepared(truncated.value, checkpointed) == old(session.messages) + [Plain("user", input)] ==>
              session.messages == old(session.messages))
      ensures truncated.Ok? && !cancelledBefore && spending != Ok(false) && api.Ok? ==>
        (cancelledAfter ==> session.messages == Prepared(truncated.value, checkpointed))
        && (!cancelledAfter ==>
              session.messages == transcriptAfter && state == CompletedWithResults
              && operation.value.assistantMessageIndex == Some(|Prepared(truncated.value, checkpointed)|)
              && operation.value.completedToolIds == NewToolIdsUpTo(transcriptAfter, [], |transcriptAfter|))
    {
      ghost var before := session.messages;
      StartOperation(session, input, operationId);
      if truncated.Err? {
        return Err(truncated.msg);
      }
      session.messages := truncated.value;
      var systemCached := HasCachedSystem(session.messages);
      if !systemCached {
        session.messages := checkpointed;
      }
      state := CallingAPI;
      r := Ok(Unit);
      if cancelledBefore || spending == Ok(false) || cancelledAfter {
        return;
      }
      if api.Err? {
        HandleApiFailure(session);
        if session.messages == before + [Plain("user", input)] {
          RolledBackRestores(before, Plain("user", input), operation.value);
        }
      } else {
        var response := api.value;
        var calls := response.toolCalls.Some? && response.toolCalls.value != [];
        operation := Some(operation.value.(assistantMessageIndex := Some(|session.messages|), hasToolCalls := calls));
        state := if calls then ExecutingTools else ProcessingResponse;
        session.messages := transcriptAfter;
        RecordCompletedTools(session);
        state := CompletedWithResults;
      }
    }
  }
}
