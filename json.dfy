/** `serde_json::Value` and the parts of serde_json that the modelled code uses:
    typed accessors, object field lookup and insertion, and the compact
    (`to_string`) and pretty (`to_string_pretty`) serialisers. */
module Json {
  import opened Wrappers
  import opened Strings

  /** Numbers are integers; object fields keep their insertion order. */
  datatype Json =
    | JNull
    | JBool(b: bool)
    | JNum(n: int)
    | JString(s: string)
    | JArray(items: seq<Json>)
    | JObject(fields: seq<(string, Json)>)

  const I64_MIN: int := -0x8000_0000_0000_0000
  const I64_LIMIT: int := 0x8000_0000_0000_0000

  /** The value stored under the first field named `key`. */
  function Lookup(fields: seq<(string, Json)>, key: string): (r: Option<Json>)
    ensures r.Some? <==> exists i :: 0 <= i < |fields| && fields[i].0 == key
    ensures r.Some? ==> exists i :: 0 <= i < |fields| && fields[i] == (key, r.value)
  {
    if fields == [] then None
    else if fields[0].0 == key then Some(fields[0].1)
    else
      var r := Lookup(fields[1..], key);
      assert forall i :: 1 <= i < |fields| ==> fields[i] == fields[1..][i - 1];
      r
  }

  /** The value under the first field with the key, located by position. */
  lemma {:induction false} LookupAt(fields: seq<(string, Json)>, key: string, i: nat)
    requires i < |fields| && fields[i].0 == key
    requires forall j :: 0 <= j < i ==> fields[j].0 != key
    ensures Lookup(fields, key) == Some(fields[i].1)
  {
    if i > 0 {
      LookupAt(fields[1..], key, i - 1);
    }
  }

  /** `Value::get` with a string index: None on anything but an object. */
  function Get(j: Json, key: string): Option<Json> {
    if j.JObject? then Lookup(j.fields, key) else None
  }

  /** `value[key] = v` on an object: replaces an existing field in place or
      appends a new one. */
  function SetField(fields: seq<(string, Json)>, key: string, v: Json): (r: seq<(string, Json)>)
    ensures |r| == |fields| || |r| == |fields| + 1
  {
    if fields == [] then [(key, v)]
    else if fields[0].0 == key then [(key, v)] + fields[1..]
    else [fields[0]] + SetField(fields[1..], key, v)
  }

  /** After setting a field, reading it back gives the new value and every
      other field reads as before. */
  lemma {:induction false} SetFieldLookup(fields: seq<(string, Json)>, key: string, v: Json, other: string)
    ensures Lookup(SetField(fields, key, v), key) == Some(v)
    ensures other != key ==> Lookup(SetField(fields, key, v), other) == Lookup(fields, other)
  {
    if fields != [] && fields[0].0 != key {
      SetFieldLookup(fields[1..], key, v, other);
    }
  }

  function AsStr(j: Json): Option<string> {
    if j.JString? then Some(j.s) else None
  }

  function AsArray(j: Json): Option<seq<Json>> {
    if j.JArray? then Some(j.items) else None
  }

  function AsBool(j: Json): Option<bool> {
    if j.JBool? then Some(j.b) else None
  }

  /** `Value::as_i64`: a number that fits in a signed 64-bit integer. */
  function AsI64(j: Json): Option<int> {
    if j.JNum? && I64_MIN <= j.n < I64_LIMIT then Some(j.n) else None
  }

  /** `Value::as_u64`: a number that fits in an unsigned 64-bit integer. */
  function AsU64(j: Json): Option<nat> {
    if j.JNum? && 0 <= j.n < U64_LIMIT then Some(j.n) else None
  }

  /** `Option<&Value>` chained through `and_then(as_str)`. */
  function StrOf(o: Option<Json>): Option<string> {
    if o.Some? then AsStr(o.value) else None
  }

  /** The string field `key` of `j`, if `j` is an object that has one. */
  function GetStr(j: Json, key: string): Option<string> {
    StrOf(Get(j, key))
  }

  const HEX_LOWER := "0123456789abcdef"

  /** serde_json's escaping of one character inside a string literal. */
  function EscapeChar(c: char): string {
    if c == '"' then "\\\""
    else if c == '\\' then "\\\\"
    else if c == '\n' then "\\n"
    else if c == '\r' then "\\r"
    else if c == '\t' then "\\t"
    else if c == '\U{0008}' then "\\b"
    else if c == '\U{000C}' then "\\f"
    else if (c as int) < 0x20 then "\\u00" + [HEX_LOWER[c as int / 16], HEX_LOWER[c as int % 16]]
    else [c]
  }

  function Escape(s: string): string {
    if s == [] then "" else EscapeChar(s[0]) + Escape(s[1..])
  }

  /** A string literal: the escaped text between double quotes. */
  function Quote(s: string): string {
    "\"" + Escape(s) + "\""
  }

  function HexValue(c: char): Option<nat> {
    if '0' <= c <= '9' then Some(c as int - '0' as int)
    else if 'a' <= c <= 'f' then Some(c as int - 'a' as int + 10)
    else if 'A' <= c <= 'F' then Some(c as int - 'A' as int + 10)
    else None
  }

  function Prepend(c: char, r: Option<string>): Option<string> {
    if r.Some? then Some([c] + r.value) else None
  }

  /** Reads the body of a JSON string literal back (section 7 of RFC 8259):
      the inverse of `Escape`. */
  function Unescape(t: string): Option<string>
    decreases |t|
  {
    if t == [] then Some("")
    else if t[0] != '\\' then
      if t[0] == '"' || (t[0] as int) < 0x20 then None else Prepend(t[0], Unescape(t[1..]))
    else if |t| < 2 then None
    else if t[1] == '"' then Prepend('"', Unescape(t[2..]))
    else if t[1] == '\\' then Prepend('\\', Unescape(t[2..]))
    else if t[1] == '/' then Prepend('/', Unescape(t[2..]))
    else if t[1] == 'n' then Prepend('\n', Unescape(t[2..]))
    else if t[1] == 'r' then Prepend('\r', Unescape(t[2..]))
    else if t[1] == 't' then Prepend('\t', Unescape(t[2..]))
    else if t[1] == 'b' then Prepend('\U{0008}', Unescape(t[2..]))
    else if t[1] == 'f' then Prepend('\U{000C}', Unescape(t[2..]))
    else if t[1] == 'u' && |t| >= 6
      && HexValue(t[2]).Some? && HexValue(t[3]).Some? && HexValue(t[4]).Some? && HexValue(t[5]).Some? then
      var v := ((HexValue(t[2]).value * 16 + HexValue(t[3]).value) * 16 + HexValue(t[4]).value) * 16
               + HexValue(t[5]).value;
      if 0xD800 <= v < 0xE000 then None else Prepend(v as char, Unescape(t[6..]))
    else None
  }

  lemma HexDigit(d: nat)
    requires d < 16
    ensures HexValue(HEX_LOWER[d]) == Some(d)
  {
  }

  /** A control character written as `\u00XX` reads back as itself. */
  lemma UnescapeControl(c: char, rest: string)
    requires (c as int) < 0x20 && c != '\n' && c != '\r' && c != '\t' && c != '\U{0008}' && c != '\U{000C}'
    ensures Unescape(EscapeChar(c) + rest) == Prepend(c, Unescape(rest))
  {
    var hi := c as int / 16;
    var lo := c as int % 16;
    HexDigit(hi);
    HexDigit(lo);
    var t := EscapeChar(c) + rest;
    assert t[..6] == "\\u00" + [HEX_LOWER[hi], HEX_LOWER[lo]];
    assert t[6..] == rest;
  }

  lemma UnescapeChar(c: char, rest: string)
    ensures Unescape(EscapeChar(c) + rest) == Prepend(c, Unescape(rest))
  {
    var t := EscapeChar(c) + rest;
    if c == '"' || c == '\\' || c == '\n' || c == '\r' || c == '\t' || c == '\U{0008}' || c == '\U{000C}' {
      assert t[2..] == rest;
    } else if (c as int) < 0x20 {
      UnescapeControl(c, rest);
    } else {
      assert t[1..] == rest;
    }
  }

  /** Escaping is undone by reading the literal back. */
  lemma {:induction false} EscapeRoundTrip(s: string)
    ensures Unescape(Escape(s)) == Some(s)
  {
    if s != [] {
      EscapeRoundTrip(s[1..]);
      UnescapeChar(s[0], Escape(s[1..]));
      assert [s[0]] + s[1..] == s;
    }
  }

  /** `serde_json::to_string`: the compact serialisation. */
  function Serialize(j: Json): string
    decreases j, 1
  {
    match j
    case JNull => "null"
    case JBool(b) => if b then "true" else "false"
    case JNum(n) => IntToString(n)
    case JString(s) => Quote(s)
    case JArray(items) => "[" + SerializeItems(items) + "]"
    case JObject(fields) => "{" + SerializeFields(j, 0) + "}"
  }

  /** The elements of an array, separated by commas. */
  function SerializeItems(items: seq<Json>): string
    decreases items, 0
  {
    if items == [] then ""
    else Serialize(items[0]) + (if |items| == 1 then "" else "," + SerializeItems(items[1..]))
  }

  /** The members of object `obj` from index `from` on, as `"key":value`,
      separated by commas. */
  function SerializeFields(obj: Json, from: nat): string
    requires obj.JObject?
    decreases obj, 0, |obj.fields| - from
  {
    if from >= |obj.fields| then ""
    else Quote(obj.fields[from].0) + ":" + Serialize(obj.fields[from].1)
         + (if from + 1 == |obj.fields| then "" else "," + SerializeFields(obj, from + 1))
  }

  function Spaces(n: nat): string {
    if n == 0 then "" else " " + Spaces(n - 1)
  }

  /** `serde_json::to_string_pretty` at nesting depth `level`: two spaces per
      level, one element or field per line, `": "` after a key. */
  function PrettyAt(j: Json, level: nat): string
    decreases j, 1
  {
    match j
    case JArray(items) =>
      if items == [] then "[]"
      else "[\n" + PrettyItems(items, level + 1) + "\n" + Spaces(2 * level) + "]"
    case JObject(fields) =>
      if fields == [] then "{}"
      else "{\n" + PrettyFields(j, 0, level + 1) + "\n" + Spaces(2 * level) + "}"
    case _ => Serialize(j)
  }

  /** The elements of a non-empty array, one per line at depth `level`. */
  function PrettyItems(items: seq<Json>, level: nat): string
    decreases items, 0
  {
    if items == [] then ""
    else Spaces(2 * level) + PrettyAt(items[0], level)
         + (if |items| == 1 then "" else ",\n" + PrettyItems(items[1..], level))
  }

  /** The members of object `obj` from index `from` on, one per line at
      depth `level`. */
  function PrettyFields(obj: Json, from: nat, level: nat): string
    requires obj.JObject?
    decreases obj, 0, |obj.fields| - from
  {
    if from >= |obj.fields| then ""
    else Spaces(2 * level) + Quote(obj.fields[from].0) + ": " + PrettyAt(obj.fields[from].1, level)
         + (if from + 1 == |obj.fields| then "" else ",\n" + PrettyFields(obj, from + 1, level))
  }

  function Pretty(j: Json): string {
    PrettyAt(j, 0)
  }

  /** Scalars and empty containers print the same in both layouts. */
  lemma PrettyFlat(j: Json)
    requires !j.JArray? || j.items == []
    requires !j.JObject? || j.fields == []
    ensures Pretty(j) == Serialize(j)
  {
  }

  lemma SerializeString(s: string)
    ensures Serialize(JString(s)) == "\"" + Escape(s) + "\""
    ensures Unescape(Serialize(JString(s))[1..|Serialize(JString(s))| - 1]) == Some(s)
  {
    var t := Serialize(JString(s));
    assert t[1..|t| - 1] == Escape(s);
    EscapeRoundTrip(s);
  }
}
