/** The text the Brave search tools return: a header naming the query,
    then one line per result, ranked from 1 in the order of the response,
    each line the result's fields separated by ` | `, with a fixed text in
    place of a field the result lacks. */
module WebFormatters {
  import opened Wrappers
  import opened Strings
  import opened Json

  /** The four kinds of search, each with its own response section and
      line layout. */
  datatype Kind = Web | Image | Video | News

  /** The response section that holds a kind's results. */
  function SectionKey(kind: Kind): string {
    match kind
    case Web => "web"
    case Image => "images"
    case Video => "videos"
    case News => "news"
  }

  /** The kind's name in messages, and capitalised in the header. */
  function Label(kind: Kind): string {
    match kind
    case Web => "web"
    case Image => "image"
    case Video => "video"
    case News => "news"
  }

  function Heading(kind: Kind): string {
    match kind
    case Web => "Web"
    case Image => "Image"
    case Video => "Video"
    case News => "News"
  }

  /** One field of a result line: where the text is found in the result (a
      path of object keys), what is written before it, and what stands in
      for it when it is not a string there. */
  datatype FieldSpec = FieldSpec(path: seq<string>, prefix: string, fallback: string)

  const TITLE := FieldSpec(["title"], "", "No title")
  const URL := FieldSpec(["url"], "", "No URL")
  const DESCRIPTION := FieldSpec(["description"], "", "No description")

  /** The fields of each kind's line, in order. */
  function Fields(kind: Kind): seq<FieldSpec> {
    match kind
    case Web => [TITLE, URL, DESCRIPTION]
    case Image => [TITLE, FieldSpec(["source", "url"], "", "No source URL"), FieldSpec(["url"], "", "No image URL"),
                   FieldSpec(["thumbnail", "url"], "", "No thumbnail")]
    case Video => [TITLE, URL, DESCRIPTION, FieldSpec(["duration"], "Duration: ", "Unknown duration"),
                   FieldSpec(["views"], "Views: ", "Unknown views")]
    case News => [TITLE, URL, DESCRIPTION, FieldSpec(["age"], "", "Unknown age"),
                  FieldSpec(["source"], "Source: ", "Unknown source")]
  }

  /** `get(a).and_then(|x| x.get(b))…`: the value at a path of keys. */
  function Path(j: Json, path: seq<string>): Option<Json>
    decreases |path|
  {
    if path == [] then Some(j)
    else
      match Get(j, path[0])
      case None => None
      case Some(v) => Path(v, path[1..])
  }

  /** A field's text in a result's line. */
  function FieldText(result: Json, field: FieldSpec): string {
    field.prefix + StrOf(Path(result, field.path)).GetOr(field.fallback)
  }

  /** The texts of the fields, one per field, in order. */
  function FieldTexts(result: Json, fields: seq<FieldSpec>): (ts: seq<string>)
    ensures |ts| == |fields|
    ensures forall k :: 0 <= k < |fields| ==> ts[k] == FieldText(result, fields[k])
  {
    if fields == [] then [] else [FieldText(result, fields[0])] + FieldTexts(result, fields[1..])
  }

  /** The line of the result ranked `rank`, without its newline. */
  function ResultLine(kind: Kind, rank: nat, result: Json): string {
    "[" + NatToString(rank) + "] " + Join(FieldTexts(result, Fields(kind)), " | ")
  }

  /** The lines of `results`, the first ranked `first`, in order. */
  function Ranked(kind: Kind, results: seq<Json>, first: nat): (lines: seq<string>)
    ensures |lines| == |results|
  {
    seq(|results|, i requires 0 <= i < |results| => ResultLine(kind, first + i, results[i]))
  }

  /** `{section}.results` as an array, when the response has it. */
  function Results(kind: Kind, response: Json): Option<seq<Json>> {
    match Path(response, [SectionKey(kind), "results"])
    case Some(JArray(items)) => Some(items)
    case _ => None
  }

  function Header(kind: Kind, query: string): string {
    Heading(kind) + " search results for \"" + query + "\":"
  }

  /** `format_search_results`, `format_image_results`,
      `format_video_results` and `format_news_results`. */
  function FormatResults(kind: Kind, response: Json, query: string): Result<string> {
    match Results(kind, response)
    case None => Err("No " + Label(kind) + " results found in search response")
    case Some(items) =>
      if items == [] then Ok("No " + Label(kind) + " search results found for query: \"" + query + "\"")
      else Ok(Header(kind, query) + "\n\n" + Terminated(Ranked(kind, items, 1)))
  }

  /** The enumerate loop shared by the formatters: each result's line is
      pushed onto the text in turn. */
  method PushResultLines(kind: Kind, text: string, results: seq<Json>) returns (out: string)
    ensures out == text + Terminated(Ranked(kind, results, 1))
  {
    out := text;
    ghost var lines := Ranked(kind, results, 1);
    for i := 0 to |results|
      invariant out == text + Terminated(lines[..i])
    {
      var line := ResultLine(kind, i + 1, results[i]);
      assert line == lines[i];
      PushLine(text, out, lines, i);
      out := out + line + "\n";
    }
    assert lines[..|results|] == lines;
  }

  /** Pushing the next line and its newline extends the text by one line. */
  lemma PushLine(text: string, out: string, lines: seq<string>, i: nat)
    requires i < |lines| && out == text + Terminated(lines[..i])
    ensures out + lines[i] + "\n" == text + Terminated(lines[..i + 1])
  {
    assert lines[..i + 1] == lines[..i] + [lines[i]];
    TerminatedSnoc(lines[..i], lines[i]);
  }

  /** The formatters as the source writes them, with the loop. */
  method Format(kind: Kind, response: Json, query: string) returns (r: Result<string>)
    ensures r == FormatResults(kind, response, query)
  {
    var items := Results(kind, response);
    if items.None? {
      return Err("No " + Label(kind) + " results found in search response");
    }
    if items.value == [] {
      return Ok("No " + Label(kind) + " search results found for query: \"" + query + "\"");
    }
    var header := Header(kind, query);
    var text := PushResultLines(kind, header + "\n\n", items.value);
    assert FormatResults(kind, response, query) == Ok(header + "\n\n" + Terminated(Ranked(kind, items.value, 1)));
    return Ok(text);
  }

  /** No field text of the result holds a newline. */
  predicate OneLine(kind: Kind, result: Json) {
    forall k :: 0 <= k < |FieldTexts(result, Fields(kind))| ==> '\n' !in FieldTexts(result, Fields(kind))[k]
  }

  /** A result whose fields hold no newline takes exactly one line. */
  lemma ResultLineOneLine(kind: Kind, rank: nat, result: Json)
    requires OneLine(kind, result)
    ensures '\n' !in ResultLine(kind, rank, result)
  {
    JoinFree(FieldTexts(result, Fields(kind)), " | ", '\n');
    var digits := NatToString(rank);
    assert '\n' !in digits;
  }

  /** Each result whose fields hold no newline gives a line without one. */
  lemma RankedOneLine(kind: Kind, results: seq<Json>, first: nat)
    requires forall i :: 0 <= i < |results| ==> OneLine(kind, results[i])
    ensures forall k :: 0 <= k < |results| ==> '\n' !in Ranked(kind, results, first)[k]
  {
    forall k | 0 <= k < |results|
      ensures '\n' !in Ranked(kind, results, first)[k]
    {
      ResultLineOneLine(kind, first + k, results[k]);
    }
  }

  /** Cut at newlines, a header, a blank line and newline-terminated lines
      give the header, the empty line, the lines in order, and the empty
      piece after the last newline. */
  lemma HeaderThenLines(header: string, lines: seq<string>)
    requires '\n' !in header
    requires forall k :: 0 <= k < |lines| ==> '\n' !in lines[k]
    ensures Split(header + "\n\n" + Terminated(lines), '\n') == [header, ""] + lines + [""]
  {
    var body := Terminated(lines);
    assert header + "\n\n" + body == header + ['\n'] + ("" + ['\n'] + body);
    SplitFirst(header, '\n', "" + ['\n'] + body);
    SplitFirst("", '\n', body);
    TerminatedSplit(lines);
    HeadersThenLines(header, lines);
  }

  /** What a formatter gives: an error exactly when the section has no
      `results` array, a fixed message for an empty array, and otherwise
      the header line, a blank line, and one line per result, in order,
      ranked from 1. */
  lemma FormatResultsMeaning(kind: Kind, response: Json, query: string)
    ensures FormatResults(kind, response, query).Err? <==> Results(kind, response).None?
    ensures FormatResults(kind, response, query).Err? ==>
      FormatResults(kind, response, query).msg == "No " + Label(kind) + " results found in search response"
    ensures Results(kind, response) == Some([]) ==>
      FormatResults(kind, response, query) == Ok("No " + Label(kind) + " search results found for query: \"" + query + "\"")
    ensures var items := Results(kind, response);
      items.Some? && items.value != [] && '\n' !in query
      && (forall i :: 0 <= i < |items.value| ==> OneLine(kind, items.value[i])) ==>
        Split(FormatResults(kind, response, query).value, '\n')
        == [Header(kind, query), ""] + Ranked(kind, items.value, 1) + [""]
  {
    var items := Results(kind, response);
    if items.Some? && items.value != [] && '\n' !in query
       && (forall i :: 0 <= i < |items.value| ==> OneLine(kind, items.value[i])) {
      HeaderOneLine(kind, query);
      RankedOneLine(kind, items.value, 1);
      HeaderThenLines(Header(kind, query), Ranked(kind, items.value, 1));
    }
  }

  lemma HeaderOneLine(kind: Kind, query: string)
    requires '\n' !in query
    ensures '\n' !in Header(kind, query)
  {
    var h := Heading(kind);
    assert forall i :: 0 <= i < |h| ==> 'A' <= h[i] <= 'z';
  }

  lemma HeadersThenLines(header: string, lines: seq<string>)
    ensures [header] + ([""] + (lines + [""])) == [header, ""] + lines + [""]
  {
  }

  /** A field is its prefix and the string found at its path, or its
      prefix and its fallback when there is no string there. */
  lemma FieldTextMeaning(result: Json, field: FieldSpec)
    ensures forall t :: Path(result, field.path) == Some(JString(t)) ==> FieldText(result, field) == field.prefix + t
    ensures !(Path(result, field.path).Some? && Path(result, field.path).value.JString?) ==>
      FieldText(result, field) == field.prefix + field.fallback
  {
  }

  /** A result with none of its fields gives every field's fallback. */
  lemma EmptyResultFallbacks(kind: Kind)
    ensures forall k :: 0 <= k < |Fields(kind)| ==>
      FieldTexts(JObject([]), Fields(kind))[k] == Fields(kind)[k].prefix + Fields(kind)[k].fallback
  {
    forall k | 0 <= k < |Fields(kind)|
      ensures FieldTexts(JObject([]), Fields(kind))[k] == Fields(kind)[k].prefix + Fields(kind)[k].fallback
    {
      var f := Fields(kind)[k];
      assert f.path != [] && Get(JObject([]), f.path[0]) == None;
    }
  }
}
