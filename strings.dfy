/** String operations of Rust's standard library that the modelled code relies on,
    written out over `seq<char>` (a `char` is a Unicode scalar value). */
module Strings {
  import opened Wrappers

  /** Rust's `char::is_whitespace`: the Unicode White_Space property. */
  predicate IsWhitespace(c: char) {
    ('\t' <= c <= '\r') || c == ' ' || c == '\U{0085}' || c == '\U{00A0}' || c == '\U{1680}'
    || ('\U{2000}' <= c <= '\U{200A}') || c == '\U{2028}' || c == '\U{2029}'
    || c == '\U{202F}' || c == '\U{205F}' || c == '\U{3000}'
  }

  predicate AllWhitespace(s: string) {
    forall i :: 0 <= i < |s| ==> IsWhitespace(s[i])
  }

  /** `str::trim_start` */
  function TrimStart(s: string): (r: string)
    ensures |r| <= |s| && r == s[|s| - |r|..]
    ensures r == [] || !IsWhitespace(r[0])
    ensures AllWhitespace(s[..|s| - |r|])
  {
    if s != [] && IsWhitespace(s[0]) then TrimStart(s[1..]) else s
  }

  /** `str::trim_end` */
  function TrimEnd(s: string): (r: string)
    ensures |r| <= |s| && r == s[..|r|]
    ensures r == [] || !IsWhitespace(r[|r| - 1])
    ensures AllWhitespace(s[|r|..])
  {
    if s != [] && IsWhitespace(s[|s| - 1]) then
      var r := TrimEnd(s[..|s| - 1]);
      assert s[|r|..] == s[..|s| - 1][|r|..] + [s[|s| - 1]];
      r
    else s
  }

  /** `str::trim_end_matches` with a one-character pattern: every trailing
      copy of `c` is removed. */
  function TrimEndMatches(s: string, c: char): (r: string)
    ensures |r| <= |s| && r == s[..|r|]
    ensures r == [] || r[|r| - 1] != c
    ensures forall i :: |r| <= i < |s| ==> s[i] == c
  {
    if s != [] && s[|s| - 1] == c then
      var r := TrimEndMatches(s[..|s| - 1], c);
      assert s[..|s| - 1][..|r|] == s[..|r|];
      r
    else s
  }

  /** `str::trim_start_matches` with a string pattern: every leading copy
      of `pat` is removed. */
  function TrimStartPattern(s: string, pat: string): (r: string)
    ensures |r| <= |s| && r == s[|s| - |r|..]
    ensures pat != [] ==> !StartsWith(r, pat)
    decreases |s|
  {
    if pat != [] && StartsWith(s, pat) then TrimStartPattern(s[|pat|..], pat) else s
  }

  /** `str::trim_end_matches` with a string pattern: every trailing copy of
      `pat` is removed. */
  function TrimEndPattern(s: string, pat: string): (r: string)
    ensures |r| <= |s| && r == s[..|r|]
    ensures pat != [] ==> !EndsWith(r, pat)
    decreases |s|
  {
    if pat != [] && EndsWith(s, pat) then
      var r := TrimEndPattern(s[..|s| - |pat|], pat);
      assert s[..|s| - |pat|][..|r|] == s[..|r|];
      r
    else s
  }

  /** `str::trim` */
  function Trim(s: string): string {
    TrimEnd(TrimStart(s))
  }

  /** Trimming leaves a contiguous slice of the input and removes only
      whitespace. */
  lemma TrimSlice(s: string)
    ensures exists i, j :: (0 <= i <= j <= |s| && Trim(s) == s[i..j]
                            && AllWhitespace(s[..i]) && AllWhitespace(s[j..]))
  {
    var t := TrimStart(s);
    var u := TrimEnd(t);
    var i := |s| - |t|;
    var j := i + |u|;
    assert t == s[i..] && u == t[..|u|];
    assert s[i..j] == u;
    assert s[j..] == t[|u|..];
    assert 0 <= i <= j <= |s| && Trim(s) == s[i..j] && AllWhitespace(s[..i]) && AllWhitespace(s[j..]);
  }

  /** Neither end of a trimmed string is whitespace. */
  lemma TrimEnds(s: string)
    ensures Trim(s) == [] || (!IsWhitespace(Trim(s)[0]) && !IsWhitespace(Trim(s)[|Trim(s)| - 1]))
  {
    var t := TrimStart(s);
    var u := TrimEnd(t);
    if u != [] {
      assert u[0] == t[0];
    }
  }

  /** Trimming a string free of `c` leaves it free of `c`, and what is
      left, unless empty, neither starts nor ends with whitespace. */
  lemma TrimmedShape(p: string, c: char)
    requires c !in p && Trim(p) != []
    ensures c !in Trim(p) && !IsWhitespace(Trim(p)[0]) && !IsWhitespace(Trim(p)[|Trim(p)| - 1])
  {
    var t := TrimStart(p);
    var u := TrimEnd(t);
    var x := |p| - |t|;
    assert forall k :: 0 <= k < |u| ==> u[k] == t[k] == p[x + k];
    TrimEnds(p);
  }

  /** A string trims to nothing exactly when it is all whitespace. */
  lemma {:induction false} TrimEmptyIff(s: string)
    ensures Trim(s) == [] <==> AllWhitespace(s)
  {
    if !AllWhitespace(s) {
      assert s[..|s|] == s;
    }
  }

  /** Skipping a whitespace prefix up to a character that is not whitespace
      leaves the rest of the string from that character on. */
  lemma {:induction false} TrimStartAt(s: string, k: nat)
    requires k < |s| && AllWhitespace(s[..k]) && !IsWhitespace(s[k])
    ensures TrimStart(s) == s[k..]
  {
    if k > 0 {
      assert s[..k][0] == s[0];
      assert s[1..][..k - 1] == s[..k][1..];
      TrimStartAt(s[1..], k - 1);
      assert s[1..][k - 1..] == s[k..];
    }
  }

  /** Leading whitespace is skipped: the trimmed text starts at the first
      character that is not whitespace. */
  lemma TrimSkipsLeading(ws: string, c: char, rest: string)
    requires AllWhitespace(ws) && !IsWhitespace(c)
    ensures Trim(ws + [c] + rest) != [] && Trim(ws + [c] + rest)[0] == c
  {
    var s := ws + [c] + rest;
    assert s[..|ws|] == ws && s[|ws|] == c;
    TrimStartAt(s, |ws|);
    var t := TrimStart(s);
    assert t[0] == c;
    var u := TrimEnd(t);
    assert u == t[..|u|];
    assert |u| > 0 by {
      assert !AllWhitespace(t[0..]);
    }
  }

  /** `str::starts_with` */
  predicate StartsWith(s: string, prefix: string) {
    |prefix| <= |s| && s[..|prefix|] == prefix
  }

  /** `str::ends_with` */
  predicate EndsWith(s: string, suffix: string) {
    |suffix| <= |s| && s[|s| - |suffix|..] == suffix
  }

  /** `str::contains` with a string pattern. */
  predicate Contains(s: string, sub: string) {
    exists i :: 0 <= i <= |s| - |sub| && OccursAt(s, sub, i)
  }

  predicate OccursAt(s: string, sub: string, i: int) {
    0 <= i <= |s| - |sub| && s[i..i + |sub|] == sub
  }

  /** `str::find` with a string pattern, from position `from` on. */
  function FindFrom(s: string, sub: string, from: nat): (r: Option<nat>)
    ensures r.Some? ==> from <= r.value && OccursAt(s, sub, r.value)
                        && forall j :: from <= j < r.value ==> !OccursAt(s, sub, j)
    ensures r.None? ==> forall j :: from <= j ==> !OccursAt(s, sub, j)
    decreases |s| + 1 - from
  {
    if from + |sub| > |s| then None
    else if s[from..from + |sub|] == sub then Some(from)
    else FindFrom(s, sub, from + 1)
  }

  /** `str::find`: the first position where `sub` occurs. */
  function Find(s: string, sub: string): (r: Option<nat>)
    ensures r.None? <==> !Contains(s, sub)
    ensures r.Some? ==> OccursAt(s, sub, r.value) && forall j :: 0 <= j < r.value ==> !OccursAt(s, sub, j)
  {
    FindFrom(s, sub, 0)
  }

  /** A string contains each of its prefixes. */
  lemma StartsWithContains(s: string, prefix: string)
    requires StartsWith(s, prefix)
    ensures Contains(s, prefix)
  {
    assert OccursAt(s, prefix, 0);
  }

  /** `str::contains` with a `char` pattern. */
  predicate ContainsChar(s: string, c: char) {
    c in s
  }

  /** Position of the first occurrence of `c`. */
  function IndexOf(s: string, c: char): (r: Option<nat>)
    ensures r.None? <==> c !in s
    ensures r.Some? ==> r.value < |s| && s[r.value] == c && c !in s[..r.value]
  {
    if s == [] then None
    else if s[0] == c then Some(0)
    else match IndexOf(s[1..], c)
      case None => None
      case Some(i) => assert s[1..][..i] == s[1..i + 1]; Some(i + 1)
  }

  /** `str::split` on a `char`: the pieces between the separators, always at least one. */
  function Split(s: string, c: char): (parts: seq<string>)
    ensures |parts| >= 1
    decreases |s|
  {
    match IndexOf(s, c)
    case None => [s]
    case Some(i) => [s[..i]] + Split(s[i + 1..], c)
  }

  /** `str::lines`: the pieces between newlines; a final newline does not
      start another line, and a `\r` just before a newline is dropped. */
  function Lines(s: string): (ls: seq<string>)
    ensures s == [] ==> ls == []
  {
    if s == [] then []
    else
      var parts := Split(s, '\n');
      var body := if parts[|parts| - 1] == [] then parts[..|parts| - 1] else parts;
      seq(|body|, i requires 0 <= i < |body| => StripLineEnd(body[i], i < |parts| - 1))
  }

  function StripLineEnd(piece: string, endedByNewline: bool): string {
    if endedByNewline && piece != [] && piece[|piece| - 1] == '\r' then piece[..|piece| - 1] else piece
  }

  /** `[String]::join` */
  function Join(parts: seq<string>, sep: string): string {
    if parts == [] then ""
    else if |parts| == 1 then parts[0]
    else parts[0] + sep + Join(parts[1..], sep)
  }

  /** Joining the pieces of a split with the separator gives back the string. */
  lemma {:induction false} SplitJoin(s: string, c: char)
    ensures Join(Split(s, c), [c]) == s
    decreases |s|
  {
    match IndexOf(s, c)
    case None =>
    case Some(i) =>
      var rest := Split(s[i + 1..], c);
      assert Split(s, c) == [s[..i]] + rest;
      SplitJoin(s[i + 1..], c);
      assert Join([s[..i]] + rest, [c]) == s[..i] + [c] + Join(rest, [c]);
      assert s == s[..i] + [c] + s[i + 1..];
  }

  /** No piece of a split contains the separator. */
  lemma {:induction false} SplitPiecesFree(s: string, c: char)
    ensures forall k :: 0 <= k < |Split(s, c)| ==> c !in Split(s, c)[k]
    decreases |s|
  {
    match IndexOf(s, c)
    case None =>
    case Some(i) =>
      SplitPiecesFree(s[i + 1..], c);
  }

  /** A string without the separator is one piece, and a separator right
      after such a string ends the first piece. */
  lemma SplitFirst(a: string, c: char, b: string)
    requires c !in a
    ensures Split(a, c) == [a]
    ensures Split(a + [c] + b, c) == [a] + Split(b, c)
  {
    var s := a + [c] + b;
    var i := IndexOf(s, c);
    assert s[|a|] == c;
    assert i.Some?;
    assert s[..|a|] == a && s[|a| + 1..] == b;
  }

  /** A separator followed by a last piece free of it adds that piece to
      the split. */
  lemma {:induction false} SplitSnoc(a: string, c: char, b: string)
    requires c !in b
    ensures Split(a + [c] + b, c) == Split(a, c) + [b]
    decreases |a|
  {
    var s := a + [c] + b;
    match IndexOf(a, c)
    case None =>
      SplitFirst(a, c, b);
      SplitFirst(b, c, "");
    case Some(i) =>
      var head, rest := a[..i], a[i + 1..];
      var tail := rest + [c] + b;
      assert a == head + [c] + rest;
      assert s == head + [c] + tail;
      SplitFirst(head, c, rest);
      SplitFirst(head, c, tail);
      SplitSnoc(rest, c, b);
  }

  /** A join of pieces free of `c` with a separator free of `c` is free of `c`. */
  lemma {:induction false} JoinFree(parts: seq<string>, sep: string, c: char)
    requires forall k :: 0 <= k < |parts| ==> c !in parts[k]
    requires c !in sep
    ensures c !in Join(parts, sep)
  {
    if |parts| > 1 {
      JoinFree(parts[1..], sep, c);
    }
  }

  /** Lines each ended by a newline, one after the other. */
  function Terminated(lines: seq<string>): string {
    if lines == [] then "" else lines[0] + "\n" + Terminated(lines[1..])
  }

  /** One more line is one more terminated piece at the end. */
  lemma {:induction false} TerminatedSnoc(lines: seq<string>, line: string)
    ensures Terminated(lines + [line]) == Terminated(lines) + line + "\n"
  {
    if lines != [] {
      assert (lines + [line])[1..] == lines[1..] + [line];
      TerminatedSnoc(lines[1..], line);
    }
  }

  /** Cutting newline-terminated lines at newlines gives back the lines and
      the empty piece after the last newline. */
  lemma {:induction false} TerminatedSplit(lines: seq<string>)
    requires forall k :: 0 <= k < |lines| ==> '\n' !in lines[k]
    ensures Split(Terminated(lines), '\n') == lines + [""]
  {
    if lines == [] {
      SplitFirst("", '\n', "");
    } else {
      var rest := Terminated(lines[1..]);
      var s := Terminated(lines);
      assert s == lines[0] + ['\n'] + rest;
      SplitFirst(lines[0], '\n', rest);
      TerminatedSplit(lines[1..]);
      HeadThenRest(lines, "");
    }
  }

  lemma HeadThenRest(lines: seq<string>, last: string)
    requires lines != []
    ensures lines + [last] == [lines[0]] + (lines[1..] + [last])
  {
  }

  /** `str::split_once` on a `char`. */
  function SplitOnce(s: string, c: char): (r: Option<(string, string)>)
    ensures r.None? <==> c !in s
    ensures r.Some? ==> s == r.value.0 + [c] + r.value.1 && c !in r.value.0
  {
    match IndexOf(s, c)
    case None => None
    case Some(i) => assert s == s[..i] + [c] + s[i + 1..]; Some((s[..i], s[i + 1..]))
  }

  /** ASCII lower-casing; every comparison in the model is against an ASCII word. */
  function ToLower(s: string): (r: string)
    ensures |r| == |s|
    ensures forall i :: 0 <= i < |s| ==> r[i] == LowerChar(s[i])
  {
    if s == [] then [] else [LowerChar(s[0])] + ToLower(s[1..])
  }

  function LowerChar(c: char): char {
    if 'A' <= c <= 'Z' then (c as int + 32) as char else c
  }

  /** ASCII upper-casing; it is applied only to role names. */
  function ToUpper(s: string): (r: string)
    ensures |r| == |s|
  {
    seq(|s|, i requires 0 <= i < |s| => UpperChar(s[i]))
  }

  function UpperChar(c: char): char {
    if 'a' <= c <= 'z' then (c as int - 32) as char else c
  }

  /** Length of the run of non-whitespace characters that starts `s`. */
  function WordLen(s: string): (n: nat)
    ensures n <= |s|
    ensures forall i :: 0 <= i < n ==> !IsWhitespace(s[i])
    ensures n == |s| || IsWhitespace(s[n])
  {
    if s == [] || IsWhitespace(s[0]) then 0 else 1 + WordLen(s[1..])
  }

  /** `str::split_whitespace`: the maximal runs of non-whitespace characters. */
  function Words(s: string): (ws: seq<string>)
    decreases |s|
  {
    var t := TrimStart(s);
    if t == [] then [] else
      var n := WordLen(t);
      [t[..n]] + Words(t[n..])
  }

  /** Every word is non-empty and free of whitespace, so there are never more
      words than characters. */
  lemma {:induction false} WordsShape(s: string)
    ensures |Words(s)| <= |s|
    ensures forall k :: 0 <= k < |Words(s)| ==>
      Words(s)[k] != [] && forall i :: 0 <= i < |Words(s)[k]| ==> !IsWhitespace(Words(s)[k][i])
    decreases |s|
  {
    var t := TrimStart(s);
    if t != [] {
      var n := WordLen(t);
      var rest := Words(t[n..]);
      assert Words(s) == [t[..n]] + rest;
      WordsShape(t[n..]);
      assert n > 0;
      forall k | 0 <= k < |Words(s)|
        ensures Words(s)[k] != [] && forall i :: 0 <= i < |Words(s)[k]| ==> !IsWhitespace(Words(s)[k][i])
      {
        if k > 0 {
          assert Words(s)[k] == rest[k - 1];
        }
      }
    }
  }

  function DigitChar(d: nat): char
    requires d < 10
  {
    "0123456789"[d]
  }

  /** Decimal rendering of a natural number (`u64::to_string` and friends). */
  function NatToString(n: nat): (r: string)
    ensures r != []
    ensures forall i :: 0 <= i < |r| ==> '0' <= r[i] <= '9'
  {
    if n < 10 then [DigitChar(n)] else NatToString(n / 10) + [DigitChar(n % 10)]
  }

  /** `bool`'s `Display`. */
  function BoolText(b: bool): string {
    if b then "true" else "false"
  }

  /** Decimal rendering of a signed number (`i64::to_string`). */
  function IntToString(n: int): string {
    if n < 0 then "-" + NatToString(-n) else NatToString(n)
  }

  predicate IsDigit(c: char) {
    '0' <= c <= '9'
  }

  /** Value of a string of decimal digits. */
  function DigitsValue(s: string): nat
    requires forall i :: 0 <= i < |s| ==> IsDigit(s[i])
  {
    if s == [] then 0 else
      assert IsDigit(s[|s| - 1]);
      10 * DigitsValue(s[..|s| - 1]) + (s[|s| - 1] as int - '0' as int)
  }

  const U64_LIMIT: nat := 0x1_0000_0000_0000_0000

  /** `str::parse::<u64>`: an optional `+`, then one or more ASCII digits whose
      value fits in 64 bits. */
  function ParseU64(s: string): (r: Option<nat>)
    ensures r.Some? ==> r.value < U64_LIMIT
  {
    var digits := if s != [] && s[0] == '+' then s[1..] else s;
    if digits == [] || !(forall i :: 0 <= i < |digits| ==> IsDigit(digits[i])) then None
    else if DigitsValue(digits) < U64_LIMIT then Some(DigitsValue(digits))
    else None
  }

  lemma {:induction false} DigitsOfNat(n: nat)
    ensures DigitsValue(NatToString(n)) == n
  {
    if n >= 10 {
      DigitsOfNat(n / 10);
      var s := NatToString(n);
      assert s[..|s| - 1] == NatToString(n / 10);
    }
  }

  /** Every 64-bit number printed in decimal parses back to itself. */
  lemma ParseU64RoundTrip(n: nat)
    requires n < U64_LIMIT
    ensures ParseU64(NatToString(n)) == Some(n)
  {
    DigitsOfNat(n);
    var s := NatToString(n);
    assert s[0] != '+';
    assert forall i :: 0 <= i < |s| ==> IsDigit(s[i]);
  }

  /** The bytes of the UTF-8 encoding of one character. */
  function Utf8Bytes(c: char): (bs: seq<nat>)
    ensures 1 <= |bs| <= 4
    ensures forall i :: 0 <= i < |bs| ==> bs[i] < 256
  {
    var cp := c as int;
    if cp < 0x80 then [cp]
    else if cp < 0x800 then [0xC0 + cp / 64, 0x80 + cp % 64]
    else if cp < 0x1_0000 then [0xE0 + cp / 4096, 0x80 + (cp / 64) % 64, 0x80 + cp % 64]
    else [0xF0 + cp / 262144, 0x80 + (cp / 4096) % 64, 0x80 + (cp / 64) % 64, 0x80 + cp % 64]
  }

  /** `str::len`: the length in bytes of the UTF-8 encoding. */
  function Utf8Len(s: string): (n: nat)
    ensures |s| <= n <= 4 * |s|
  {
    if s == [] then 0 else |Utf8Bytes(s[0])| + Utf8Len(s[1..])
  }

  lemma {:induction false} Utf8LenAppend(a: string, b: string)
    ensures Utf8Len(a + b) == Utf8Len(a) + Utf8Len(b)
  {
    if a != [] {
      assert (a + b)[0] == a[0];
      assert (a + b)[1..] == a[1..] + b;
      Utf8LenAppend(a[1..], b);
      assert Utf8Len(a + b) == |Utf8Bytes(a[0])| + Utf8Len(a[1..] + b);
    } else {
      assert a + b == b;
    }
  }

  /** An ASCII string has as many bytes as characters. */
  lemma {:induction false} Utf8LenAscii(s: string)
    requires forall i :: 0 <= i < |s| ==> s[i] as int < 0x80
    ensures Utf8Len(s) == |s|
  {
    if s != [] {
      Utf8LenAscii(s[1..]);
    }
  }

  function HexUpper(d: nat): char
    requires d < 16
  {
    "0123456789ABCDEF"[d]
  }

  /** The characters that `urlencoding::encode` leaves alone: the unreserved
      set of section 2.3 of RFC 3986. */
  predicate IsUnreserved(c: char) {
    ('A' <= c <= 'Z') || ('a' <= c <= 'z') || ('0' <= c <= '9') || c == '-' || c == '.' || c == '_' || c == '~'
  }

  function PercentBytes(bs: seq<nat>): (r: string)
    requires forall i :: 0 <= i < |bs| ==> bs[i] < 256
  {
    if bs == [] then "" else ['%', HexUpper(bs[0] / 16), HexUpper(bs[0] % 16)] + PercentBytes(bs[1..])
  }

  /** `urlencoding::encode`: unreserved characters stay, every other byte of
      the UTF-8 encoding becomes `%XX` with upper-case hex digits. */
  function UrlEncode(s: string): string {
    if s == [] then ""
    else (if IsUnreserved(s[0]) then [s[0]] else PercentBytes(Utf8Bytes(s[0]))) + UrlEncode(s[1..])
  }

  predicate UrlSafe(c: char) {
    IsUnreserved(c) || c == '%'
  }

  lemma {:induction false} PercentBytesSafe(bs: seq<nat>)
    requires forall i :: 0 <= i < |bs| ==> bs[i] < 256
    ensures forall k :: 0 <= k < |PercentBytes(bs)| ==> UrlSafe(PercentBytes(bs)[k])
  {
    if bs != [] {
      PercentBytesSafe(bs[1..]);
    }
  }

  /** An encoded value holds only unreserved characters and `%`, so it can
      never introduce a `&`, `=`, `#` or `?` into the URL it is placed in. */
  lemma {:induction false} UrlEncodeSafe(s: string)
    ensures forall k :: 0 <= k < |UrlEncode(s)| ==> UrlSafe(UrlEncode(s)[k])
  {
    if s != [] {
      UrlEncodeSafe(s[1..]);
      if !IsUnreserved(s[0]) {
        PercentBytesSafe(Utf8Bytes(s[0]));
      }
    }
  }

  /** Unreserved text is carried over unchanged. */
  lemma {:induction false} UrlEncodeUnreserved(s: string)
    requires forall i :: 0 <= i < |s| ==> IsUnreserved(s[i])
    ensures UrlEncode(s) == s
  {
    if s != [] {
      UrlEncodeUnreserved(s[1..]);
    }
  }
}
