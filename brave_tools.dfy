/** The four Brave search tools (web, news, video and image): the query is
    read and validated first, and a refused query is answered with an
    error result; only then is a missing API key an error of the call. The
    options are read with defaults and no clamping, the request URL is
    assembled with the query encoded and every other value as given, and
    a failed request or an unformattable response is again an error
    result. The request itself is an input: a function from the URL and
    the key to the parsed response or the message of its failure. */
module BraveTools {
  import opened Wrappers
  import opened Strings
  import opened Json
  import opened McpCore
  import opened WebApiClient
  import opened WebFormatters

  const NO_KEY := "BRAVE_API_KEY environment variable is not set"
  const BASE := "https://api.search.brave.com/res/v1/"

  /** `as u32` on a 64-bit number keeps its low 32 bits. */
  const U32_LIMIT: nat := 0x1_0000_0000

  /** The tool's name, which results carry. */
  function ToolName(kind: Kind): string {
    match kind
    case Web => "web_search"
    case Image => "image_search"
    case Video => "video_search"
    case News => "news_search"
  }

  /** The API path of each kind of search. */
  function Endpoint(kind: Kind): string {
    match kind
    case Web => "web/search"
    case Image => "images/search"
    case Video => "videos/search"
    case News => "news/search"
  }

  /** `get(key).and_then(as_u64).unwrap_or(default) as u32` */
  function U32Param(params: Json, key: string, default: nat): (n: nat)
    requires default < U32_LIMIT
    ensures n < U32_LIMIT
    ensures Get(params, key).None? ==> n == default
    ensures forall v :: Get(params, key) == Some(JNum(v)) && 0 <= v < U32_LIMIT ==> n == v
  {
    var wide := match Get(params, key)
      case Some(j) => AsU64(j).GetOr(default)
      case None => default;
    wide % U32_LIMIT
  }

  /** `get(key).and_then(as_str).unwrap_or(default)` */
  function StrParam(params: Json, key: string, default: string): string {
    StrOf(Get(params, key)).GetOr(default)
  }

  /** The options of a web, news or video search. */
  datatype Listing = Listing(count: nat, offset: nat, country: string, searchLang: string,
                             uiLang: string, safesearch: string, freshness: Option<string>)

  function ReadListing(params: Json): (s: Listing)
    ensures s.count < U32_LIMIT && s.offset < U32_LIMIT
    ensures Get(params, "count").None? ==> s.count == 20
    ensures Get(params, "offset").None? ==> s.offset == 0
    ensures s.freshness == StrOf(Get(params, "freshness"))
  {
    Listing(U32Param(params, "count", 20), U32Param(params, "offset", 0),
            StrParam(params, "country", "US"), StrParam(params, "search_lang", "en"),
            StrParam(params, "ui_lang", "en-US"), StrParam(params, "safesearch", "moderate"),
            StrOf(Get(params, "freshness")))
  }

  /** One `name=value` parameter of a URL, the value as given. */
  function Pair(name: string, value: string): string {
    name + "=" + value
  }

  /** The endpoint and the encoded query, before the first `&`. */
  function Head(kind: Kind, query: string): string {
    BASE + Endpoint(kind) + "?q=" + UrlEncode(query)
  }

  /** The URL of a web, news or video search as `format!` writes it: all
      seven parameters, in a fixed order. */
  function FormattedUrl(kind: Kind, query: string, s: Listing): string {
    Head(kind, query)
      + "&" + Pair("count", NatToString(s.count)) + "&" + Pair("offset", NatToString(s.offset))
      + "&" + Pair("country", s.country) + "&" + Pair("search_lang", s.searchLang)
      + "&" + Pair("ui_lang", s.uiLang) + "&" + Pair("safesearch", s.safesearch)
  }

  /** The URL requested: `freshness` is pushed onto it when it was given as
      a string. */
  function ListingUrl(kind: Kind, query: string, s: Listing): string {
    var url := FormattedUrl(kind, query, s);
    if s.freshness.Some? then url + "&" + Pair("freshness", s.freshness.value) else url
  }

  /** The options of an image search: fewer of them, and other defaults. */
  datatype ImageOptions = ImageOptions(count: nat, country: string, searchLang: string,
                                       safesearch: string, spellcheck: bool)

  function ReadImage(params: Json): (s: ImageOptions)
    ensures s.count < U32_LIMIT
    ensures Get(params, "count").None? ==> s.count == 50
    ensures Get(params, "safesearch").None? ==> s.safesearch == "strict"
    ensures Get(params, "spellcheck").None? ==> s.spellcheck
  {
    ImageOptions(U32Param(params, "count", 50), StrParam(params, "country", "US"),
                 StrParam(params, "search_lang", "en"), StrParam(params, "safesearch", "strict"),
                 match Get(params, "spellcheck")
                 case Some(j) => AsBool(j).GetOr(true)
                 case None => true)
  }

  /** The URL of an image search: exactly six parameters. */
  function ImageUrl(query: string, s: ImageOptions): string {
    Head(Image, query)
      + "&" + Pair("count", NatToString(s.count)) + "&" + Pair("country", s.country)
      + "&" + Pair("search_lang", s.searchLang) + "&" + Pair("safesearch", s.safesearch)
      + "&" + Pair("spellcheck", BoolText(s.spellcheck))
  }

  /** The URL each tool requests for a query and the call's parameters. */
  function SearchUrl(kind: Kind, query: string, params: Json): string {
    if kind == Image then ImageUrl(query, ReadImage(params))
    else ListingUrl(kind, query, ReadListing(params))
  }

  /** `execute_web_search`, `execute_news_search`, `execute_video_search`
      and `execute_image_search`. */
  function Execute(kind: Kind, call: McpToolCall, apiKey: Option<string>,
                   fetch: (string, string) -> Result<Json>): (r: Result<McpToolResult>)
    ensures r.Ok? ==> r.value.toolName == ToolName(kind) && r.value.toolId == call.toolId
  {
    match ExtractAndValidateQuery(call)
    case Err(e) => Ok(ApiErrorResult(e, Label(kind), ToolName(kind), call.toolId))
    case Ok(query) =>
      if apiKey.None? then Err(NO_KEY)
      else match fetch(SearchUrl(kind, query, call.parameters), apiKey.value)
        case Err(e) => Ok(ApiErrorResult(e, Label(kind), ToolName(kind), call.toolId))
        case Ok(response) =>
          match FormatResults(kind, response, query)
          case Err(e) => Ok(ApiErrorResult(e, Label(kind), ToolName(kind), call.toolId))
          case Ok(text) => Ok(Success(ToolName(kind), call.toolId, text))
  }

  /** The call fails only for an acceptable query without a key; a refused
      query is answered with an error result even when there is no key; a
      failed request or a response without results is an error result; and
      otherwise the result is a success holding the formatted listing. */
  lemma ExecuteOutcome(kind: Kind, call: McpToolCall, apiKey: Option<string>,
                       fetch: (string, string) -> Result<Json>)
    ensures Execute(kind, call, apiKey, fetch).Err? <==> ExtractAndValidateQuery(call).Ok? && apiKey.None?
    ensures Execute(kind, call, apiKey, fetch).Err? ==> Execute(kind, call, apiKey, fetch).msg == NO_KEY
    ensures ExtractAndValidateQuery(call).Err? ==>
      Execute(kind, call, apiKey, fetch)
      == Ok(ApiErrorResult(ExtractAndValidateQuery(call).msg, Label(kind), ToolName(kind), call.toolId))
    ensures ExtractAndValidateQuery(call).Ok? && apiKey.Some? ==>
      var query := ExtractAndValidateQuery(call).value;
      var response := fetch(SearchUrl(kind, query, call.parameters), apiKey.value);
      (IsErrorFlag(Execute(kind, call, apiKey, fetch).value) == Some(false) <==>
         response.Ok? && FormatResults(kind, response.value, query).Ok?)
  {
    var r := Execute(kind, call, apiKey, fetch);
    if r.Ok? {
      var q := ExtractAndValidateQuery(call);
      if q.Err? {
        ApiErrorResultMeaning(q.msg, Label(kind), ToolName(kind), call.toolId);
      } else {
        var response := fetch(SearchUrl(kind, q.value, call.parameters), apiKey.value);
        if response.Err? {
          ApiErrorResultMeaning(response.msg, Label(kind), ToolName(kind), call.toolId);
        } else if FormatResults(kind, response.value, q.value).Err? {
          ApiErrorResultMeaning(FormatResults(kind, response.value, q.value).msg, Label(kind), ToolName(kind), call.toolId);
        } else {
          WrapperFlags(ToolName(kind), call.toolId, FormatResults(kind, response.value, q.value).value, JNull);
        }
      }
    }
  }

  /** A number that fits in 64 bits is read with its low 32 bits only (a
      count of 2^32 + 5 is sent as 5); any other value gives the default. */
  lemma U32ParamWraps(params: Json, key: string, default: nat)
    requires default < U32_LIMIT
    ensures forall v :: Get(params, key) == Some(JNum(v)) && 0 <= v < U64_LIMIT ==>
      U32Param(params, key, default) == v % U32_LIMIT
    ensures Get(params, key).Some? && AsU64(Get(params, key).value).None? ==>
      U32Param(params, key, default) == default
  {
  }

  lemma BaseFree()
    ensures '&' !in BASE
  {
  }

  lemma EndpointFree(kind: Kind)
    ensures '&' !in Endpoint(kind) + "?q="
  {
  }

  /** Neither the endpoint nor the encoded query holds a `&`. */
  lemma HeadFree(kind: Kind, query: string)
    ensures '&' !in Head(kind, query)
  {
    UrlEncodeSafe(query);
    var e := UrlEncode(query);
    assert '&' !in e;
    BaseFree();
    EndpointFree(kind);
    assert Head(kind, query) == BASE + (Endpoint(kind) + "?q=") + e;
  }

  /** A parameter holds no `&` when its value holds none. */
  lemma PairFree(name: string, value: string)
    requires '&' !in name && '&' !in value
    ensures '&' !in Pair(name, value)
  {
  }

  /** Decimal digits hold no `&`. */
  lemma DigitsFree(n: nat)
    ensures '&' !in NatToString(n)
  {
    var d := NatToString(n);
    assert forall k :: 0 <= k < |d| ==> '0' <= d[k] <= '9';
  }

  lemma Singletons(a: string, b: string, c: string, d: string, e: string, f: string, g: string)
    ensures [a] + [b] + [c] + [d] + [e] + [f] + [g] == [a, b, c, d, e, f, g]
  {
  }

  /** A head and six parameters, none holding a `&`, joined by `&`, cut
      back at `&`. */
  lemma SixPieces(u0: string, p1: string, p2: string, p3: string, p4: string, p5: string, p6: string)
    requires '&' !in u0 && '&' !in p1 && '&' !in p2 && '&' !in p3 && '&' !in p4 && '&' !in p5 && '&' !in p6
    ensures Split(u0 + "&" + p1 + "&" + p2 + "&" + p3 + "&" + p4 + "&" + p5 + "&" + p6, '&')
         == [u0, p1, p2, p3, p4, p5, p6]
  {
    SplitFirst(u0, '&', "");
    var u1 := u0 + "&" + p1;
    SplitSnoc(u0, '&', p1);
    var u2 := u1 + "&" + p2;
    SplitSnoc(u1, '&', p2);
    var u3 := u2 + "&" + p3;
    SplitSnoc(u2, '&', p3);
    var u4 := u3 + "&" + p4;
    SplitSnoc(u3, '&', p4);
    var u5 := u4 + "&" + p5;
    SplitSnoc(u4, '&', p5);
    SplitSnoc(u5, '&', p6);
    Singletons(u0, p1, p2, p3, p4, p5, p6);
  }

  /** The pieces of the formatted URL between `&`s: the endpoint with the
      encoded query, then the six parameters in order. */
  function Pieces(kind: Kind, query: string, s: Listing): seq<string> {
    [Head(kind, query), Pair("count", NatToString(s.count)), Pair("offset", NatToString(s.offset)),
     Pair("country", s.country), Pair("search_lang", s.searchLang), Pair("ui_lang", s.uiLang),
     Pair("safesearch", s.safesearch)]
  }

  /** No value given as a string holds a `&`. */
  predicate Plain(s: Listing) {
    '&' !in s.country && '&' !in s.searchLang && '&' !in s.uiLang && '&' !in s.safesearch
    && (s.freshness.Some? ==> '&' !in s.freshness.value)
  }

  lemma FormattedUrlPieces(kind: Kind, query: string, s: Listing)
    requires Plain(s)
    ensures Split(FormattedUrl(kind, query, s), '&') == Pieces(kind, query, s)
  {
    HeadFree(kind, query);
    DigitsFree(s.count);
    DigitsFree(s.offset);
    PairFree("count", NatToString(s.count));
    PairFree("offset", NatToString(s.offset));
    PairFree("country", s.country);
    PairFree("search_lang", s.searchLang);
    PairFree("ui_lang", s.uiLang);
    PairFree("safesearch", s.safesearch);
    SixPieces(Head(kind, query), Pair("count", NatToString(s.count)), Pair("offset", NatToString(s.offset)),
              Pair("country", s.country), Pair("search_lang", s.searchLang), Pair("ui_lang", s.uiLang),
              Pair("safesearch", s.safesearch));
  }

  /** Cut at `&`, a listing URL is the endpoint with the encoded query, then
      the six parameters in order, then `freshness` when given: the
      query, encoded, can never add or split a parameter. The other values
      are sent as given, so this holds when they hold no `&`. */
  lemma ListingUrlPieces(kind: Kind, query: string, s: Listing)
    requires Plain(s)
    ensures Split(ListingUrl(kind, query, s), '&')
         == Pieces(kind, query, s) + (if s.freshness.Some? then [Pair("freshness", s.freshness.value)] else [])
  {
    var url, pieces := FormattedUrl(kind, query, s), Pieces(kind, query, s);
    FormattedUrlPieces(kind, query, s);
    if s.freshness.Some? {
      FreshnessPiece(url, pieces, s.freshness.value);
    } else {
      assert pieces + [] == pieces;
    }
  }

  /** Pushing `&freshness=` and a value without `&` adds that parameter to
      the cut. */
  lemma FreshnessPiece(url: string, pieces: seq<string>, f: string)
    requires Split(url, '&') == pieces && '&' !in f
    ensures Split(url + "&" + Pair("freshness", f), '&') == pieces + [Pair("freshness", f)]
  {
    PairFree("freshness", f);
    SplitSnoc(url, '&', Pair("freshness", f));
  }

  lemma FivePieces(u0: string, p1: string, p2: string, p3: string, p4: string, p5: string)
    requires '&' !in u0 && '&' !in p1 && '&' !in p2 && '&' !in p3 && '&' !in p4 && '&' !in p5
    ensures Split(u0 + "&" + p1 + "&" + p2 + "&" + p3 + "&" + p4 + "&" + p5, '&')
         == [u0, p1, p2, p3, p4, p5]
  {
    SplitFirst(u0, '&', "");
    var u1 := u0 + "&" + p1;
    SplitSnoc(u0, '&', p1);
    var u2 := u1 + "&" + p2;
    SplitSnoc(u1, '&', p2);
    var u3 := u2 + "&" + p3;
    SplitSnoc(u2, '&', p3);
    var u4 := u3 + "&" + p4;
    SplitSnoc(u3, '&', p4);
    SplitSnoc(u4, '&', p5);
    FewerSingletons(u0, p1, p2, p3, p4, p5);
  }

  lemma FewerSingletons(a: string, b: string, c: string, d: string, e: string, f: string)
    ensures [a] + [b] + [c] + [d] + [e] + [f] == [a, b, c, d, e, f]
  {
  }

  /** Cut at `&`, an image search URL is the endpoint with the encoded query,
      then its five parameters in order, when the values given as strings
      hold no `&`. */
  lemma ImageUrlPieces(query: string, s: ImageOptions)
    requires '&' !in s.country && '&' !in s.searchLang && '&' !in s.safesearch
    ensures Split(ImageUrl(query, s), '&')
         == [Head(Image, query), Pair("count", NatToString(s.count)), Pair("country", s.country),
             Pair("search_lang", s.searchLang), Pair("safesearch", s.safesearch),
             Pair("spellcheck", BoolText(s.spellcheck))]
  {
    HeadFree(Image, query);
    DigitsFree(s.count);
    PairFree("count", NatToString(s.count));
    PairFree("country", s.country);
    PairFree("search_lang", s.searchLang);
    PairFree("safesearch", s.safesearch);
    assert '&' !in BoolText(s.spellcheck);
    PairFree("spellcheck", BoolText(s.spellcheck));
    FivePieces(Head(Image, query), Pair("count", NatToString(s.count)), Pair("country", s.country),
               Pair("search_lang", s.searchLang), Pair("safesearch", s.safesearch),
               Pair("spellcheck", BoolText(s.spellcheck)));
  }
}
