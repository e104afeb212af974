/** The standalone Brave web search tool: the API key is checked before
    anything else, the query is bounded by the API's limits, `count` and
    `offset` are clamped, only parameters that differ from the API's
    defaults are sent, and every failure of the request is an error of the
    call rather than an error result. The HTTP exchange is an input: a
    function from the request sent to the reply received, and the JSON
    parser applied to the reply's text. */
module BraveSearch {
  import opened Wrappers
  import opened Strings
  import opened Json
  import opened HttpStatus
  import opened McpCore
  import opened WebFormatters

  const ENDPOINT := "https://api.search.brave.com/res/v1/web/search"
  const TOOL := "web_search"

  const NO_KEY := "BRAVE_API_KEY environment variable is not set. Please set your Brave Search API key."
  const BAD_QUERY := "Missing or invalid 'query' parameter"
  const EMPTY_QUERY := "Query cannot be empty"
  const LONG_QUERY := "Query too long: maximum 400 characters allowed"
  const WORDY_QUERY := "Query has too many words: maximum 50 words allowed"

  /** The statuses with a message of their own. */
  const UNAUTHORIZED := "Invalid or missing API key. Please check your BRAVE_API_KEY environment variable."
  const FORBIDDEN := "Access forbidden. Please check your subscription plan and API key permissions."
  const RATE_LIMITED := "Rate limit exceeded. Please wait before making more requests."

  /** The query limits, in bytes of UTF-8 and in whitespace-separated words. */
  const MAX_QUERY_BYTES := 400
  const MAX_QUERY_WORDS := 50

  /** A query the API accepts. Only the empty string counts as empty here:
      a query of spaces passes. */
  predicate Acceptable(q: string) {
    q != [] && Utf8Len(q) <= MAX_QUERY_BYTES && |Words(q)| <= MAX_QUERY_WORDS
  }

  /** The `query` parameter: a string, checked for emptiness, then length,
      then word count, each with its own message. */
  function ValidateQuery(params: Json): (r: Result<string>)
    ensures r.Ok? <==> exists q :: Get(params, "query") == Some(JString(q)) && Acceptable(q)
    ensures r.Ok? ==> Get(params, "query") == Some(JString(r.value))
  {
    match Get(params, "query")
    case Some(JString(q)) =>
      if q == [] then Err(EMPTY_QUERY)
      else if Utf8Len(q) > MAX_QUERY_BYTES then Err(LONG_QUERY)
      else if |Words(q)| > MAX_QUERY_WORDS then Err(WORDY_QUERY)
      else Ok(q)
    case _ => Err(BAD_QUERY)
  }

  /** An accepted query has between 1 and 400 characters; an ASCII query of
      that length with at most 50 words is accepted; the checks are made in
      order, so an empty query and an overlong one are refused for that
      reason whatever else is wrong with them. */
  lemma QueryLimits(params: Json, q: string)
    requires Get(params, "query") == Some(JString(q))
    ensures ValidateQuery(params).Ok? ==> 1 <= |q| <= MAX_QUERY_BYTES && |Words(q)| <= MAX_QUERY_WORDS
    ensures ((forall i :: 0 <= i < |q| ==> q[i] as int < 0x80) && 1 <= |q| <= MAX_QUERY_BYTES
             && |Words(q)| <= MAX_QUERY_WORDS) ==> ValidateQuery(params) == Ok(q)
    ensures q == [] ==> ValidateQuery(params) == Err(EMPTY_QUERY)
    ensures |q| > MAX_QUERY_BYTES ==> ValidateQuery(params) == Err(LONG_QUERY)
  {
    if forall i :: 0 <= i < |q| ==> q[i] as int < 0x80 {
      Utf8LenAscii(q);
    }
  }

  /** `Ord::clamp`. */
  function Clamp(x: int, lo: int, hi: int): (r: int)
    requires lo <= hi
    ensures lo <= r <= hi
    ensures lo <= x <= hi ==> r == x
    ensures x < lo ==> r == lo
    ensures x > hi ==> r == hi
  {
    if x < lo then lo else if x > hi then hi else x
  }

  /** `params.get(key).and_then(as_i64)` */
  function I64Param(params: Json, key: string): Option<int> {
    match Get(params, key)
    case Some(v) => AsI64(v)
    case None => None
  }

  /** The search options of a call, after defaults and clamping. */
  datatype Settings = Settings(count: nat, offset: nat, country: string, searchLang: string,
                               uiLang: string, safesearch: string, freshness: Option<string>)

  function ReadSettings(params: Json): (s: Settings)
    ensures 1 <= s.count <= 20 && s.offset <= 9
    ensures I64Param(params, "count").None? ==> s.count == 20
    ensures forall n :: I64Param(params, "count") == Some(n) && 1 <= n <= 20 ==> s.count == n
    ensures I64Param(params, "offset").None? ==> s.offset == 0
    ensures forall n :: I64Param(params, "offset") == Some(n) && 0 <= n <= 9 ==> s.offset == n
    ensures s.country == StrOf(Get(params, "country")).GetOr("US")
    ensures s.freshness == StrOf(Get(params, "freshness"))
  {
    var count := Clamp(I64Param(params, "count").GetOr(20), 1, 20);
    var offset := Clamp(I64Param(params, "offset").GetOr(0), 0, 9);
    Settings(count, offset,
             StrOf(Get(params, "country")).GetOr("US"),
             StrOf(Get(params, "search_lang")).GetOr("en"),
             StrOf(Get(params, "ui_lang")).GetOr("en-US"),
             StrOf(Get(params, "safesearch")).GetOr("moderate"),
             StrOf(Get(params, "freshness")))
  }

  /** A parameter the API has a default for: its name, the value the call
      would send, and whether that is the API's default. */
  datatype Optional = Optional(name: string, value: string, isDefault: bool)

  function Optionals(s: Settings): seq<Optional> {
    [Optional("count", NatToString(s.count), s.count == 20),
     Optional("offset", NatToString(s.offset), s.offset == 0),
     Optional("country", s.country, s.country == "US"),
     Optional("search_lang", s.searchLang, s.searchLang == "en"),
     Optional("ui_lang", s.uiLang, s.uiLang == "en-US"),
     Optional("safesearch", s.safesearch, s.safesearch == "moderate")]
  }

  /** The parameter as sent, or nothing when it has its default value. */
  function Keep(o: Optional): seq<(string, string)> {
    if !o.isDefault then [(o.name, o.value)] else []
  }

  /** `query_params`: `q` first, then each parameter that differs from the
      API's default, in a fixed order. */
  function QueryParams(query: string, s: Settings): seq<(string, string)> {
    var os := Optionals(s);
    [("q", query)] + Keep(os[0]) + Keep(os[1]) + Keep(os[2]) + Keep(os[3]) + Keep(os[4]) + Keep(os[5])
  }

  /** One of the conditional pushes onto `query_params`: the parameter is
      added unless it has its default value. */
  method PushUnlessDefault(ps: seq<(string, string)>, o: Optional) returns (out: seq<(string, string)>)
    ensures out == ps + Keep(o)
  {
    out := ps;
    if !o.isDefault {
      out := out + [(o.name, o.value)];
    }
  }

  /** `query_params`, built as the source builds it: `q`, then the six
      conditional pushes in order. */
  method BuildQueryParams(query: string, s: Settings) returns (ps: seq<(string, string)>)
    ensures ps == QueryParams(query, s)
  {
    var os := Optionals(s);
    ps := [("q", query)];
    ps := PushUnlessDefault(ps, os[0]);
    ps := PushUnlessDefault(ps, os[1]);
    ps := PushUnlessDefault(ps, os[2]);
    ps := PushUnlessDefault(ps, os[3]);
    ps := PushUnlessDefault(ps, os[4]);
    ps := PushUnlessDefault(ps, os[5]);
  }

  /** The names of the optional parameters are distinct, and none is `q`. */
  lemma OptionalNames(s: Settings)
    ensures forall i, j :: 0 <= i < j < |Optionals(s)| ==> Optionals(s)[i].name != Optionals(s)[j].name
    ensures forall i :: 0 <= i < |Optionals(s)| ==> Optionals(s)[i].name != "q"
  {
  }

  /** The query always leads, and each option is sent exactly when it
      differs from the API's default. */
  lemma SentUnlessDefault(query: string, s: Settings)
    ensures QueryParams(query, s)[0] == ("q", query)
    ensures 1 <= |QueryParams(query, s)| <= 7
    ensures ("count", NatToString(s.count)) in QueryParams(query, s) <==> s.count != 20
    ensures ("offset", NatToString(s.offset)) in QueryParams(query, s) <==> s.offset != 0
    ensures ("country", s.country) in QueryParams(query, s) <==> s.country != "US"
    ensures ("search_lang", s.searchLang) in QueryParams(query, s) <==> s.searchLang != "en"
    ensures ("ui_lang", s.uiLang) in QueryParams(query, s) <==> s.uiLang != "en-US"
    ensures ("safesearch", s.safesearch) in QueryParams(query, s) <==> s.safesearch != "moderate"
  {
    var os := Optionals(s);
    OptionalNames(s);
    forall i | 0 <= i < |os|
      ensures (os[i].name, os[i].value) in QueryParams(query, s) <==> !os[i].isDefault
    {
      SentIff(query, os, i);
    }
  }

  /** In `q` followed by the six filtered parameters, a parameter whose name
      is neither `q` nor another's appears exactly when it is not at its
      default. */
  lemma SentIff(query: string, os: seq<Optional>, i: nat)
    requires |os| == 6 && i < 6
    requires forall j :: 0 <= j < 6 && j != i ==> os[j].name != os[i].name
    requires os[i].name != "q"
    ensures (os[i].name, os[i].value) in
      [("q", query)] + Keep(os[0]) + Keep(os[1]) + Keep(os[2]) + Keep(os[3]) + Keep(os[4]) + Keep(os[5])
      <==> !os[i].isDefault
  {
    var p := (os[i].name, os[i].value);
    assert forall j :: 0 <= j < 6 && j != i ==> p !in Keep(os[j]);
    assert p in Keep(os[i]) <==> !os[i].isDefault;
  }

  /** The request sent: the endpoint, the query parameters with `freshness`
      added after them when given, and the subscription token. */
  datatype Request = Request(url: string, query: seq<(string, string)>, token: string)

  function SearchRequest(query: string, s: Settings, key: string): Request {
    var freshness := if s.freshness.Some? then [("freshness", s.freshness.value)] else [];
    Request(ENDPOINT, QueryParams(query, s) + freshness, key)
  }

  /** What came back: a failure to send, or a status (with the text it is
      displayed as) and the body, or a failure to read it. */
  datatype Reply =
    | SendFailed(error: string)
    | Replied(status: nat, shown: string, body: Result<string>)

  /** `text().await.unwrap_or_default()` */
  function ErrorText(body: Result<string>): string {
    if body.Ok? then body.value else ""
  }

  /** The message for a status that is not a success. */
  function StatusMessage(status: nat, shown: string, text: string): string {
    if status == 401 then UNAUTHORIZED
    else if status == 422 then "Invalid request parameters. API response: " + text
    else if status == 429 then RATE_LIMITED
    else if status == 403 then FORBIDDEN
    else "Brave Search API request failed with status " + shown + ": " + text
  }

  /** `web.totalCount` as a signed 64-bit number, 0 when there is none. */
  function TotalCount(response: Json): int {
    match Path(response, ["web", "totalCount"])
    case Some(v) => AsI64(v).GetOr(0)
    case None => 0
  }

  function SearchHeader(query: string, total: int): string {
    "Search results for '" + query + "' (" + IntToString(total) + " total results):"
  }

  /** This file's own `format_search_results`: unlike the shared formatter
      it never fails, and its header quotes the query with `'` and gives
      the total count. */
  function FormatSearchResults(response: Json, query: string): (r: Result<string>)
    ensures r.Ok?
  {
    if Get(response, "web").None? then Ok("No web results found for query: '" + query + "'")
    else match Results(Web, response)
      case None => Ok("No search results found for query: '" + query + "'")
      case Some(items) =>
        if items == [] then Ok("No search results found for query: '" + query + "'")
        else Ok(SearchHeader(query, TotalCount(response)) + "\n\n" + Terminated(Ranked(Web, items, 1)))
  }

  /** The formatter with its loop. */
  method FormatSearch(response: Json, query: string) returns (r: Result<string>)
    ensures r == FormatSearchResults(response, query)
  {
    if Get(response, "web").None? {
      return Ok("No web results found for query: '" + query + "'");
    }
    var items := Results(Web, response);
    if items.None? || items.value == [] {
      return Ok("No search results found for query: '" + query + "'");
    }
    var header := SearchHeader(query, TotalCount(response));
    var text := PushResultLines(Web, header + "\n\n", items.value);
    assert FormatSearchResults(response, query) == Ok(header + "\n\n" + Terminated(Ranked(Web, items.value, 1)));
    return Ok(text);
  }

  /** Where the shared web formatter has results to list, this one lists the
      same lines under its own header; where the response has a `web`
      section without a results array, the shared formatter fails and this
      one answers with a message. */
  lemma SameLinesAsFormatter(response: Json, query: string)
    ensures var items := Results(Web, response);
      items.Some? && items.value != [] ==>
        var body := Terminated(Ranked(Web, items.value, 1));
        FormatSearchResults(response, query).value == SearchHeader(query, TotalCount(response)) + "\n\n" + body
        && FormatResults(Web, response, query).value == Header(Web, query) + "\n\n" + body
    ensures Get(response, "web").Some? && Results(Web, response).None? ==>
      FormatResults(Web, response, query).Err?
      && FormatSearchResults(response, query) == Ok("No search results found for query: '" + query + "'")
  {
    var items := Results(Web, response);
    if items.Some? && items.value != [] {
      assert Path(response, ["web", "results"]).Some?;
      assert Get(response, "web").Some?;
    }
  }

  /** The header holds no newline when the query holds none. */
  lemma SearchHeaderOneLine(query: string, total: int)
    requires '\n' !in query
    ensures '\n' !in SearchHeader(query, total)
  {
    var digits := NatToString(if total < 0 then -total else total);
    assert forall i :: 0 <= i < |digits| ==> '0' <= digits[i] <= '9';
    assert '\n' !in IntToString(total);
  }

  /** Cut at newlines, a listing is its header line, a blank line, and one
      line per result, in order, ranked from 1. */
  lemma SearchListingLines(response: Json, query: string)
    requires '\n' !in query
    requires Results(Web, response).Some? && Results(Web, response).value != []
    requires forall i :: 0 <= i < |Results(Web, response).value| ==> OneLine(Web, Results(Web, response).value[i])
    ensures Split(FormatSearchResults(response, query).value, '\n')
         == [SearchHeader(query, TotalCount(response)), ""] + Ranked(Web, Results(Web, response).value, 1) + [""]
  {
    var items := Results(Web, response).value;
    var header := SearchHeader(query, TotalCount(response));
    assert Get(response, "web").Some?;
    assert FormatSearchResults(response, query).value == header + "\n\n" + Terminated(Ranked(Web, items, 1));
    SearchHeaderOneLine(query, TotalCount(response));
    RankedOneLine(Web, items, 1);
    HeaderThenLines(header, Ranked(Web, items, 1));
  }

  /** What the call answers once the request is sent: the reply's failures
      as errors, and otherwise a success with the formatted listing. */
  function Respond(reply: Reply, parse: string -> Result<Json>, query: string, toolId: string): (r: Result<McpToolResult>)
    ensures r.Ok? ==> r.value.toolName == TOOL && r.value.toolId == toolId
  {
    match reply
    case SendFailed(e) => Err("Failed to make request to Brave Search API: " + e)
    case Replied(status, shown, body) =>
      if !IsSuccess(status) then Err(StatusMessage(status, shown, ErrorText(body)))
      else match body
        case Err(e) => Err("Failed to read Brave Search API response: " + e)
        case Ok(text) =>
          match parse(text)
          case Err(e) => Err("Failed to parse Brave Search API response as JSON: " + e + ". Response was: " + text)
          case Ok(json) =>
            var formatted := match FormatSearchResults(json, query)
              case Ok(t) => t
              case Err(e) => "Search failed: " + e + "\n\nRaw response available in debug logs.";
            Ok(Success(TOOL, toolId, formatted))
  }

  /** The reply is answered with a success exactly when it has a success
      status and a text that parses; the success is not flagged as an
      error and carries the listing. */
  lemma RespondSuccess(reply: Reply, parse: string -> Result<Json>, query: string, toolId: string)
    ensures Respond(reply, parse, query, toolId).Ok? <==>
      reply.Replied? && IsSuccess(reply.status) && reply.body.Ok? && parse(reply.body.value).Ok?
    ensures Respond(reply, parse, query, toolId).Ok? ==>
      Respond(reply, parse, query, toolId).value
        == Success(TOOL, toolId, FormatSearchResults(parse(reply.body.value).value, query).value)
      && IsErrorFlag(Respond(reply, parse, query, toolId).value) == Some(false)
  {
    if reply.Replied? && IsSuccess(reply.status) && reply.body.Ok? && parse(reply.body.value).Ok? {
      WrapperFlags(TOOL, toolId, FormatSearchResults(parse(reply.body.value).value, query).value, JNull);
    }
  }

  /** A status that is not a success is an error with its own message for
      401, 403, 422 and 429, and otherwise one showing the status and the
      body that could be read, or nothing. */
  lemma StatusErrors(status: nat, shown: string, body: Result<string>, parse: string -> Result<Json>,
                     query: string, toolId: string)
    requires !IsSuccess(status)
    ensures var r := Respond(Replied(status, shown, body), parse, query, toolId);
      && (status == 401 ==> r == Err(UNAUTHORIZED))
      && (status == 403 ==> r == Err(FORBIDDEN))
      && (status == 422 ==> r == Err("Invalid request parameters. API response: " + ErrorText(body)))
      && (status == 429 ==> r == Err(RATE_LIMITED))
      && (status !in {401, 403, 422, 429} ==>
            r == Err("Brave Search API request failed with status " + shown + ": " + ErrorText(body)))
  {
  }

  /** `execute_web_search`. */
  function ExecuteWebSearch(call: McpToolCall, apiKey: Option<string>, send: Request -> Reply,
                            parse: string -> Result<Json>): (r: Result<McpToolResult>)
    ensures r.Ok? ==> r.value.toolName == TOOL && r.value.toolId == call.toolId
  {
    if apiKey.None? then Err(NO_KEY)
    else match ValidateQuery(call.parameters)
      case Err(e) => Err(e)
      case Ok(query) =>
        Respond(send(SearchRequest(query, ReadSettings(call.parameters), apiKey.value)), parse, query, call.toolId)
  }

  /** Without a key nothing else is looked at; with one, a refused query is
      an error of the call, and an accepted one is sent with the call's
      settings and the reply answered. */
  lemma ExecuteOutcome(call: McpToolCall, apiKey: Option<string>, send: Request -> Reply,
                       parse: string -> Result<Json>)
    ensures apiKey.None? ==> ExecuteWebSearch(call, apiKey, send, parse) == Err(NO_KEY)
    ensures apiKey.Some? && ValidateQuery(call.parameters).Err? ==>
      ExecuteWebSearch(call, apiKey, send, parse) == Err(ValidateQuery(call.parameters).msg)
    ensures apiKey.Some? && ValidateQuery(call.parameters).Ok? ==>
      var query := ValidateQuery(call.parameters).value;
      ExecuteWebSearch(call, apiKey, send, parse)
      == Respond(send(SearchRequest(query, ReadSettings(call.parameters), apiKey.value)), parse, query, call.toolId)
  {
  }
}
