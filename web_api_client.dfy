/** What the Brave search tools share: reading the `query` parameter of a
    call, and turning a failure into an MCP error result. The HTTP request
    helpers are not part of this model; their outcome is an input of the
    tools that use them. */
module WebApiClient {
  import opened Wrappers
  import opened Strings
  import opened Json
  import opened McpCore

  const MISSING_QUERY := "Missing required parameter: query"
  const EMPTY_QUERY := "Query cannot be empty"

  /** `extract_and_validate_query`: the `query` parameter must be a string
      with something other than whitespace in it; it is returned as given,
      untrimmed. */
  function ExtractAndValidateQuery(call: McpToolCall): (r: Result<string>)
    ensures r.Ok? <==> exists q :: Get(call.parameters, "query") == Some(JString(q)) && !AllWhitespace(q)
    ensures r.Ok? ==> Get(call.parameters, "query") == Some(JString(r.value))
  {
    match Get(call.parameters, "query")
    case None => Err(MISSING_QUERY)
    case Some(JString(q)) =>
      TrimEmptyIff(q);
      if Trim(q) == [] then Err(EMPTY_QUERY) else Ok(q)
    case Some(other) => Err("Query parameter must be a string, got: " + Serialize(other))
  }

  /** The three ways a query is refused, each with its own message. */
  lemma QueryErrors(call: McpToolCall)
    ensures Get(call.parameters, "query").None? ==> ExtractAndValidateQuery(call) == Err(MISSING_QUERY)
    ensures forall q :: Get(call.parameters, "query") == Some(JString(q)) && AllWhitespace(q) ==>
      ExtractAndValidateQuery(call) == Err(EMPTY_QUERY)
    ensures var v := Get(call.parameters, "query");
      v.Some? && !v.value.JString? ==>
        ExtractAndValidateQuery(call) == Err("Query parameter must be a string, got: " + Serialize(v.value))
  {
    var v := Get(call.parameters, "query");
    if v.Some? && v.value.JString? {
      TrimEmptyIff(v.value.s);
    }
  }

  /** `create_api_error_result`: an MCP error result for the tool and call,
      saying which kind of search failed and why. */
  function ApiErrorResult(error: string, searchType: string, toolName: string, toolId: string): (r: McpToolResult)
    ensures r.toolName == toolName && r.toolId == toolId
  {
    Error(toolName, toolId, "Failed to execute " + searchType + " search: " + error)
  }

  /** The error result is flagged as an error and its text reads back as the
      failure message. */
  lemma ApiErrorResultMeaning(error: string, searchType: string, toolName: string, toolId: string)
    ensures IsErrorFlag(ApiErrorResult(error, searchType, toolName, toolId)) == Some(true)
    ensures ExtractMcpContent(ApiErrorResult(error, searchType, toolName, toolId).result)
         == "Failed to execute " + searchType + " search: " + error
  {
    var text := "Failed to execute " + searchType + " search: " + error;
    WrapperFlags(toolName, toolId, text, JNull);
    ExtractWrapperRoundTrip(toolName, toolId, text, JNull);
  }
}
