/** The parts of an OpenAI-style chat-completion reply that the OpenRouter
    and DeepSeek providers read the same way: the first choice's message
    and finish reason, the text content, usage counts that default to 0,
    and the error details assembled for a failed request. */
module ProviderWire {
  import opened Wrappers
  import opened Strings
  import opened Json
  import opened HttpStatus

  /** `Value::get` with a numeric index: None on anything but an array. */
  function ArrayAt(j: Json, i: nat): (r: Option<Json>)
    ensures r.Some? <==> j.JArray? && i < |j.items|
  {
    if j.JArray? && i < |j.items| then Some(j.items[i]) else None
  }

  /** `choices[0]`, when the reply has it. */
  function FirstChoice(reply: Json): Option<Json> {
    var choices := Get(reply, "choices");
    if choices.Some? then ArrayAt(choices.value, 0) else None
  }

  /** `choices[0].message`; a reply without it is malformed. */
  function ChoiceMessage(reply: Json): Option<Json> {
    var choice := FirstChoice(reply);
    if choice.Some? then Get(choice.value, "message") else None
  }

  /** `choices[0].finish_reason`, when it is a string. */
  function FinishReason(reply: Json): Option<string> {
    var choice := FirstChoice(reply);
    if choice.Some? then GetStr(choice.value, "finish_reason") else None
  }

  /** The message's text; anything but a string `content` reads as empty. */
  function MessageContent(message: Json): string {
    GetStr(message, "content").GetOr("")
  }

  /** A usage count: absent or not an unsigned integer reads as 0. */
  function UsageCount(usage: Json, key: string): nat {
    var v := Get(usage, key);
    if v.Some? && AsU64(v.value).Some? then AsU64(v.value).value else 0
  }

  /** A field of the reply's `error` object that is reported when it is a
      string, with the heading it is reported under. */
  datatype DetailField = DetailField(key: string, heading: string)

  /** The reported fields that are present, in the order of `fields`. */
  function FoundDetails(error: Option<Json>, fields: seq<DetailField>): seq<string> {
    if error.None? || fields == [] then []
    else
      var last := fields[|fields| - 1];
      var v := GetStr(error.value, last.key);
      FoundDetails(error, fields[..|fields| - 1]) + (if v.Some? then [last.heading + v.value] else [])
  }

  /** The error details: the status first, then the reported fields, and the
      raw reply only when no field was found. */
  function ErrorDetails(statusLine: string, error: Option<Json>, fields: seq<DetailField>, raw: string): seq<string> {
    var found := FoundDetails(error, fields);
    ["HTTP " + statusLine] + found + (if found == [] then ["Raw response: " + raw] else [])
  }

  /** A field is reported exactly when the `error` object has it as a
      string, under its heading, and nothing else is reported. */
  lemma {:induction false} FoundDetailsMeaning(error: Option<Json>, fields: seq<DetailField>, k: nat)
    ensures |FoundDetails(error, fields)| <= |fields|
    ensures k < |fields| && error.Some? && GetStr(error.value, fields[k].key).Some? ==>
      fields[k].heading + GetStr(error.value, fields[k].key).value in FoundDetails(error, fields)
    ensures forall d :: d in FoundDetails(error, fields) ==>
      exists j :: 0 <= j < |fields| && error.Some? && GetStr(error.value, fields[j].key).Some?
                  && d == fields[j].heading + GetStr(error.value, fields[j].key).value
    ensures FoundDetails(error, fields) == [] <==>
      error.None? || forall j :: 0 <= j < |fields| ==> GetStr(error.value, fields[j].key).None?
  {
    if error.Some? && fields != [] {
      var init := fields[..|fields| - 1];
      FoundDetailsMeaning(error, init, k);
      assert forall j :: 0 <= j < |init| ==> init[j] == fields[j];
    }
  }

  /** The details always open with the status and hold at least one more
      part: the raw reply when no field was found, and otherwise exactly
      the fields found. */
  lemma ErrorDetailsMeaning(statusLine: string, error: Option<Json>, fields: seq<DetailField>, raw: string)
    ensures var d := ErrorDetails(statusLine, error, fields, raw);
      |d| >= 2 && d[0] == "HTTP " + statusLine
      && ((error.None? || forall j :: 0 <= j < |fields| ==> GetStr(error.value, fields[j].key).None?) ==>
            d == ["HTTP " + statusLine, "Raw response: " + raw])
      && (!(error.None? || forall j :: 0 <= j < |fields| ==> GetStr(error.value, fields[j].key).None?) ==>
            d[1..] == FoundDetails(error, fields))
  {
    FoundDetailsMeaning(error, fields, 0);
    var found := FoundDetails(error, fields);
    var d := ErrorDetails(statusLine, error, fields, raw);
    if found == [] {
      assert d == ["HTTP " + statusLine, "Raw response: " + raw];
    } else {
      assert d == ["HTTP " + statusLine] + found;
      assert d[1..] == found;
    }
  }

  /** The loop that pushes the details one by one. */
  method BuildErrorDetails(statusLine: string, error: Option<Json>, fields: seq<DetailField>, raw: string)
    returns (details: seq<string>)
    ensures details == ErrorDetails(statusLine, error, fields, raw)
  {
    details := ["HTTP " + statusLine];
    if error.Some? {
      var i := 0;
      while i < |fields|
        invariant 0 <= i <= |fields|
        invariant details == ["HTTP " + statusLine] + FoundDetails(error, fields[..i])
      {
        assert fields[..i + 1][..i] == fields[..i];
        var v := GetStr(error.value, fields[i].key);
        if v.Some? {
          details := details + [fields[i].heading + v.value];
        }
        i := i + 1;
      }
      assert fields[..i] == fields;
    }
    if |details| == 1 {
      details := details + ["Raw response: " + raw];
    }
  }
}
