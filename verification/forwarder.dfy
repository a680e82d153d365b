/** Forwarding a tool call to the imported HTTP API (the request builder of
    Core/McpToolsKeeper.cs): `{name}` placeholders of the request path are
    filled from the `path` section of the call's `parameters`, the `query`
    section becomes percent-encoded `name=value` items, `header` entries are
    copied, and a `json` or `form` section becomes the body. */
module Forwarder {
  import opened Base
  import opened JsonModel
  import opened Entities

  // ---------------------------------------------------------------------------
  // Percent-encoding (`Uri.EscapeDataString`, section 2.1 of RFC 3986).

  /** The unreserved characters of section 2.3 of RFC 3986. */
  predicate Unreserved(c: char) {
    || ('A' <= c <= 'Z') || ('a' <= c <= 'z') || ('0' <= c <= '9')
    || c == '-' || c == '.' || c == '_' || c == '~'
  }

  predicate IsHexDigit(c: char) {
    ('0' <= c <= '9') || ('A' <= c <= 'F') || ('a' <= c <= 'f')
  }

  function HexValue(c: char): (v: nat)
    requires IsHexDigit(c)
    ensures v < 16
  {
    if '0' <= c <= '9' then c as int - '0' as int
    else if 'A' <= c <= 'F' then c as int - 'A' as int + 10
    else c as int - 'a' as int + 10
  }

  /** An upper-case hexadecimal digit. */
  function HexDigit(d: nat): (c: char)
    requires d < 16
    ensures Unreserved(c) && IsHexDigit(c) && HexValue(c) == d
  {
    "0123456789ABCDEF"[d]
  }

  type Byte = b: int | 0 <= b < 256

  /** The UTF-8 encoding of one Unicode scalar value (section 3 of RFC 3629). */
  function Utf8(c: char): (bs: seq<Byte>)
    ensures 1 <= |bs| <= 4
    ensures |bs| == 1 <==> c as int < 0x80
    ensures |bs| == 1 ==> bs[0] == c as int
  {
    var cp := c as int;
    if cp < 0x80 then [cp]
    else if cp < 0x800 then [0xC0 + cp / 0x40, 0x80 + cp % 0x40]
    else if cp < 0x1_0000 then [0xE0 + cp / 0x1000, 0x80 + cp / 0x40 % 0x40, 0x80 + cp % 0x40]
    else [0xF0 + cp / 0x4_0000, 0x80 + cp / 0x1000 % 0x40, 0x80 + cp / 0x40 % 0x40, 0x80 + cp % 0x40]
  }

  /** The UTF-8 encoding of a text. */
  function Utf8Of(s: string): seq<Byte> {
    if s == [] then [] else Utf8(s[0]) + Utf8Of(s[1..])
  }

  /** `%HH` for every byte, upper-case hexadecimal. */
  function PercentEncode(bs: seq<Byte>): (r: string)
    ensures |r| == 3 * |bs|
    ensures forall i :: 0 <= i < |r| ==> Unreserved(r[i]) || r[i] == '%'
  {
    if bs == [] then "" else ['%', HexDigit(bs[0] / 16), HexDigit(bs[0] % 16)] + PercentEncode(bs[1..])
  }

  function EscapeChar(c: char): string {
    if Unreserved(c) then [c] else PercentEncode(Utf8(c))
  }

  /** `Uri.EscapeDataString`: unreserved characters stay, every other
      character becomes the percent-encoding of its UTF-8 bytes. The result
      only holds unreserved characters and `%`, so no `&`, `=`, `#` or `/`
      of a value survives into a query string; it is never shorter than the
      text, and has the same length exactly when nothing needed escaping. */
  function EscapeDataString(s: string): (r: string)
    ensures forall i :: 0 <= i < |r| ==> Unreserved(r[i]) || r[i] == '%'
    ensures |r| >= |s|
    ensures |r| == |s| <==> forall i :: 0 <= i < |s| ==> Unreserved(s[i])
  {
    if s == [] then "" else EscapeChar(s[0]) + EscapeDataString(s[1..])
  }

  /** Percent-decoding to bytes: `%` and two hexadecimal digits is one byte,
      any other character stands for its own code. */
  function PercentDecode(s: string): seq<int> {
    if s == [] then []
    else if |s| >= 3 && s[0] == '%' && IsHexDigit(s[1]) && IsHexDigit(s[2]) then
      [16 * HexValue(s[1]) + HexValue(s[2])] + PercentDecode(s[3..])
    else [s[0] as int] + PercentDecode(s[1..])
  }

  /** The three characters written for a byte decode back to that byte. */
  lemma DecodeTriple(b: Byte, tail: string)
    ensures PercentDecode(['%', HexDigit(b / 16), HexDigit(b % 16)] + tail) == [b] + PercentDecode(tail)
  {
    var s := ['%', HexDigit(b / 16), HexDigit(b % 16)] + tail;
    assert s[0] == '%' && IsHexDigit(s[1]) && IsHexDigit(s[2]) && s[3..] == tail;
    assert 16 * HexValue(s[1]) + HexValue(s[2]) == b;
  }

  lemma {:induction false} DecodeEncodedBytes(bs: seq<Byte>, rest: string)
    ensures PercentDecode(PercentEncode(bs) + rest) == bs + PercentDecode(rest)
  {
    if bs != [] {
      var tail := PercentEncode(bs[1..]) + rest;
      assert PercentEncode(bs) + rest == ['%', HexDigit(bs[0] / 16), HexDigit(bs[0] % 16)] + tail;
      DecodeTriple(bs[0], tail);
      DecodeEncodedBytes(bs[1..], rest);
      assert bs == [bs[0]] + bs[1..];
    } else {
      assert PercentEncode(bs) + rest == rest;
    }
  }

  lemma DecodeEscapedChar(c: char, rest: string)
    ensures PercentDecode(EscapeChar(c) + rest) == Utf8(c) + PercentDecode(rest)
  {
    if !Unreserved(c) {
      DecodeEncodedBytes(Utf8(c), rest);
    } else {
      assert ([c] + rest)[1..] == rest;
    }
  }

  /** Round trip: percent-decoding an escaped text gives back the UTF-8
      bytes of the text, so the receiving server reads the original value. */
  lemma {:induction false} EscapeRoundTrip(s: string)
    ensures PercentDecode(EscapeDataString(s)) == Utf8Of(s)
  {
    if s != [] {
      assert EscapeDataString(s) == EscapeChar(s[0]) + EscapeDataString(s[1..]);
      DecodeEscapedChar(s[0], EscapeDataString(s[1..]));
      EscapeRoundTrip(s[1..]);
    }
  }

  // ---------------------------------------------------------------------------
  // Path templates.

  /** The character `c` does not occur in `s`. */
  predicate Lacks(s: string, c: char) {
    forall i :: 0 <= i < |s| ==> s[i] != c
  }

  /** Ordinal `string.Replace`: every occurrence of `pattern`, left to right,
      without overlaps. */
  function ReplaceAll(s: string, pattern: string, replacement: string): string
    requires |pattern| > 0
    decreases |s|
  {
    if |s| < |pattern| then s
    else if s[..|pattern|] == pattern then replacement + ReplaceAll(s[|pattern|..], pattern, replacement)
    else [s[0]] + ReplaceAll(s[1..], pattern, replacement)
  }

  /** A text without the pattern's first character is left alone. */
  lemma {:induction false} ReplaceAbsent(s: string, pattern: string, replacement: string)
    requires |pattern| > 0 && Lacks(s, pattern[0])
    ensures ReplaceAll(s, pattern, replacement) == s
  {
    if |s| >= |pattern| {
      assert s[..|pattern|][0] == s[0];
      ReplaceAbsent(s[1..], pattern, replacement);
    }
  }

  /** A single occurrence surrounded by text without the pattern's first
      character is replaced, and nothing else changes. */
  lemma {:induction false} ReplaceSole(a: string, b: string, pattern: string, replacement: string)
    requires |pattern| > 0 && Lacks(a, pattern[0]) && Lacks(b, pattern[0])
    ensures ReplaceAll(a + pattern + b, pattern, replacement) == a + replacement + b
  {
    var s := a + pattern + b;
    if a == [] {
      assert s == pattern + b;
      assert s[..|pattern|] == pattern && s[|pattern|..] == b;
      ReplaceAbsent(b, pattern, replacement);
    } else {
      var rest := a[1..] + pattern + b;
      assert s == [a[0]] + rest;
      assert s[..|pattern|][0] == a[0] && a[0] != pattern[0];
      assert ReplaceAll(s, pattern, replacement) == [a[0]] + ReplaceAll(rest, pattern, replacement);
      assert Lacks(a[1..], pattern[0]) by {
        forall i | 0 <= i < |a[1..]|
          ensures a[1..][i] != pattern[0]
        {
          assert a[1..][i] == a[i + 1];
        }
      }
      ReplaceSole(a[1..], b, pattern, replacement);
    }
  }

  function Placeholder(name: string): (r: string)
    ensures |r| > 0 && r[0] == '{'
  {
    "{" + name + "}"
  }

  /** The template after the substitutions of `members`, in order. */
  function FillPath(template: string, members: seq<(string, Json)>, codec: Codec): string {
    if members == [] then template
    else
      var last := members[|members| - 1];
      ReplaceAll(FillPath(template, members[..|members| - 1], codec), Placeholder(last.0), ElementText(last.1, codec))
  }

  /** A template without placeholders is never changed. */
  lemma {:induction false} FillPathWithoutPlaceholders(template: string, members: seq<(string, Json)>, codec: Codec)
    requires Lacks(template, '{')
    ensures FillPath(template, members, codec) == template
  {
    if members != [] {
      var last := members[|members| - 1];
      FillPathWithoutPlaceholders(template, members[..|members| - 1], codec);
      ReplaceAbsent(template, Placeholder(last.0), ElementText(last.1, codec));
    }
  }

  /** A template with one placeholder gets the member's text in its place. */
  lemma FillSinglePlaceholder(a: string, b: string, name: string, value: Json, codec: Codec)
    requires Lacks(a, '{') && Lacks(b, '{')
    ensures FillPath(a + Placeholder(name) + b, [(name, value)], codec) == a + ElementText(value, codec) + b
  {
    assert [(name, value)][..0] == [];
    ReplaceSole(a, b, Placeholder(name), ElementText(value, codec));
  }

  // ---------------------------------------------------------------------------
  // Sections of the `parameters` argument.

  /** `TryGetProperty` can be asked of the parameters: there are none, or they are an object. */
  predicate Searchable(parameters: Option<Json>) {
    parameters.None? || parameters.value.Obj?
  }

  /** `parameters.Value.TryGetProperty(key, ...)`: absent when there are no
      parameters; the parameters must be an object. */
  function Section(parameters: Option<Json>, key: string): (r: Result<Option<Json>>)
    ensures parameters.None? ==> r == Success(None)
    ensures r.Success? <==> Searchable(parameters)
  {
    match parameters
    case None => Success(None)
    case Some(p) => if p.Obj? then Success(Property(p.members, key)) else Failure(NotAnObject)
  }

  /** `EnumerateObject()`: the members in document order; fails on anything but an object. */
  function EnumerateObject(v: Json): Result<seq<(string, Json)>> {
    if v.Obj? then Success(v.members) else Failure(NotAnObject)
  }

  /** `ProcessPath`. */
  function PathOf(template: string, parameters: Option<Json>, codec: Codec): Result<string> {
    var section :- Section(parameters, "path");
    match section
    case None => Success(template)
    case Some(v) =>
      var members :- EnumerateObject(v);
      Success(FillPath(template, members, codec))
  }

  method ProcessPath(template: string, parameters: Option<Json>, codec: Codec) returns (r: Result<string>)
    ensures r == PathOf(template, parameters, codec)
  {
    var section :- Section(parameters, "path");
    if section.None? {
      return Success(template);
    }
    var members :- EnumerateObject(section.value);
    var path := template;
    for i := 0 to |members|
      invariant path == FillPath(template, members[..i], codec)
    {
      assert members[..i + 1][..i] == members[..i];
      path := ReplaceAll(path, Placeholder(members[i].0), ElementText(members[i].1, codec));
    }
    assert members[..|members|] == members;
    r := Success(path);
  }

  /** Each member with its value as text. */
  function TextPairs(members: seq<(string, Json)>, codec: Codec): (r: seq<(string, string)>)
    ensures |r| == |members|
    ensures forall k :: 0 <= k < |members| ==> r[k] == (members[k].0, ElementText(members[k].1, codec))
  {
    seq(|members|, k requires 0 <= k < |members| => (members[k].0, ElementText(members[k].1, codec)))
  }

  function QueryItem(name: string, value: Json, codec: Codec): string {
    name + "=" + EscapeDataString(ElementText(value, codec))
  }

  function QueryItems(members: seq<(string, Json)>, codec: Codec): (r: seq<string>)
    ensures |r| == |members|
    ensures forall k :: 0 <= k < |members| ==> r[k] == QueryItem(members[k].0, members[k].1, codec)
  {
    if members == [] then []
    else
      var last := members[|members| - 1];
      QueryItems(members[..|members| - 1], codec) + [QueryItem(last.0, last.1, codec)]
  }

  /** `ProcessQuery`: one `name=value` item per member; the name is not escaped. */
  function QueryOf(parameters: Option<Json>, codec: Codec): Result<Option<seq<string>>> {
    var section :- Section(parameters, "query");
    match section
    case None => Success(None)
    case Some(v) =>
      var members :- EnumerateObject(v);
      Success(Some(QueryItems(members, codec)))
  }

  method ProcessQuery(parameters: Option<Json>, codec: Codec) returns (r: Result<Option<seq<string>>>)
    ensures r == QueryOf(parameters, codec)
  {
    var section :- Section(parameters, "query");
    if section.None? {
      return Success(None);
    }
    var members :- EnumerateObject(section.value);
    var items := [];
    for i := 0 to |members|
      invariant items == QueryItems(members[..i], codec)
    {
      assert members[..i + 1][..i] == members[..i];
      items := items + [QueryItem(members[i].0, members[i].1, codec)];
    }
    assert members[..|members|] == members;
    r := Success(Some(items));
  }

  /** Splitting a text on every `sep`. */
  function SplitOn(s: string, sep: char): (parts: seq<string>)
    ensures |parts| >= 1
    decreases |s|
  {
    var i := LastIndexOf(s, sep);
    if i < 0 then [s] else SplitOn(s[..i], sep) + [s[i + 1..]]
  }

  /** Joining items that do not contain the separator can be undone by splitting. */
  lemma {:induction false} SplitJoin(items: seq<string>, sep: char)
    requires items != []
    requires forall k, i :: 0 <= k < |items| && 0 <= i < |items[k]| ==> items[k][i] != sep
    ensures SplitOn(Join([sep], items), sep) == items
  {
    var n := |items|;
    if n == 1 {
      assert LastIndexOf(items[0], sep) < 0;
    } else {
      var prefix := Join([sep], items[..n - 1]);
      var s := prefix + [sep] + items[n - 1];
      assert Join([sep], items) == s;
      assert s[|prefix|] == sep;
      assert LastIndexOf(s, sep) == |prefix|;
      assert s[..|prefix|] == prefix && s[|prefix| + 1..] == items[n - 1];
      SplitJoin(items[..n - 1], sep);
      assert items[..n - 1] + [items[n - 1]] == items;
    }
  }

  /** A query item contains `&` only where its name does. */
  lemma QueryItemSeparable(name: string, value: Json, codec: Codec)
    requires forall i :: 0 <= i < |name| ==> name[i] != '&'
    ensures forall i :: 0 <= i < |QueryItem(name, value, codec)| ==> QueryItem(name, value, codec)[i] != '&'
  {
    var e := EscapeDataString(ElementText(value, codec));
    assert QueryItem(name, value, codec) == name + "=" + e;
    forall i | 0 <= i < |e|
      ensures e[i] != '&'
    {
      assert Unreserved(e[i]) || e[i] == '%';
    }
  }

  /** The query string a server receives splits back into exactly the items
      that were built, in member order, as long as no parameter name holds `&`. */
  lemma QueryStringRoundTrip(parameters: Option<Json>, codec: Codec, members: seq<(string, Json)>)
    requires Section(parameters, "query") == Success(Some(Obj(members))) && members != []
    requires forall k, i :: 0 <= k < |members| && 0 <= i < |members[k].0| ==> members[k].0[i] != '&'
    ensures QueryOf(parameters, codec) == Success(Some(QueryItems(members, codec)))
    ensures SplitOn(Join("&", QueryItems(members, codec)), '&') == QueryItems(members, codec)
  {
    var items := QueryItems(members, codec);
    forall k, i | 0 <= k < |items| && 0 <= i < |items[k]|
      ensures items[k][i] != '&'
    {
      QueryItemSeparable(members[k].0, members[k].1, codec);
    }
    SplitJoin(items, '&');
  }

  // ---------------------------------------------------------------------------
  // The URL.

  /** `TrimEnd(c)`: every trailing `c` removed. */
  function TrimEnd(s: string, c: char): (r: string)
    ensures |r| <= |s| && r == s[..|r|]
    ensures forall i :: |r| <= i < |s| ==> s[i] == c
    ensures r == [] || r[|r| - 1] != c
  {
    if s == [] || s[|s| - 1] != c then s else TrimEnd(s[..|s| - 1], c)
  }

  /** `TrimStart(c)`: every leading `c` removed. */
  function TrimStart(s: string, c: char): (r: string)
    ensures |r| <= |s| && r == s[|s| - |r|..]
    ensures forall i :: 0 <= i < |s| - |r| ==> s[i] == c
    ensures r == [] || r[0] != c
  {
    if s == [] || s[0] != c then s else TrimStart(s[1..], c)
  }

  /** `BuildUrl`. */
  function BuildUrl(baseUrl: string, path: string, query: Option<seq<string>>): string {
    var url := TrimEnd(baseUrl, '/') + "/" + TrimStart(path, '/');
    if query.Some? && |query.value| > 0 then url + "?" + Join("&", query.value) else url
  }

  function Slashes(n: nat): (r: string)
    ensures |r| == n && forall i :: 0 <= i < n ==> r[i] == '/'
  {
    seq(n, _ => '/')
  }

  lemma {:induction false} TrimEndSlashes(s: string, m: nat)
    requires s == [] || s[|s| - 1] != '/'
    ensures TrimEnd(s + Slashes(m), '/') == s
  {
    if m > 0 {
      var x := s + Slashes(m);
      assert x[|x| - 1] == '/';
      assert x[..|x| - 1] == s + Slashes(m - 1);
      TrimEndSlashes(s, m - 1);
    } else {
      assert s + Slashes(0) == s;
    }
  }

  lemma {:induction false} TrimStartSlashes(s: string, n: nat)
    requires s == [] || s[0] != '/'
    ensures TrimStart(Slashes(n) + s, '/') == s
  {
    if n > 0 {
      var x := Slashes(n) + s;
      assert x[0] == '/';
      assert x[1..] == Slashes(n - 1) + s;
      TrimStartSlashes(s, n - 1);
    } else {
      assert Slashes(0) + s == s;
    }
  }

  /** However many slashes the base URL ends with and the path starts with,
      exactly one separates them. */
  lemma BuildUrlJoinsOnce(baseUrl: string, path: string, m: nat, n: nat, query: Option<seq<string>>)
    requires baseUrl == [] || baseUrl[|baseUrl| - 1] != '/'
    requires path == [] || path[0] != '/'
    ensures var url := baseUrl + "/" + path;
      BuildUrl(baseUrl + Slashes(m), Slashes(n) + path, query) ==
        if query.Some? && |query.value| > 0 then url + "?" + Join("&", query.value) else url
  {
    var b := TrimEnd(baseUrl + Slashes(m), '/');
    var p := TrimStart(Slashes(n) + path, '/');
    TrimEndSlashes(baseUrl, m);
    TrimStartSlashes(path, n);
  }

  // ---------------------------------------------------------------------------
  // Headers and body.

  /** `ProcessHeader`: every member, in order, its value as text. */
  function HeadersOf(parameters: Option<Json>, codec: Codec): (r: Result<seq<(string, string)>>)
    ensures r.Success? ==> Section(parameters, "header").Success?
    ensures r.Success? && Section(parameters, "header").value.None? ==> r.value == []
    ensures r.Success? && Section(parameters, "header").value.Some? ==>
      && Section(parameters, "header").value.value.Obj?
      && var members := Section(parameters, "header").value.value.members;
      && |r.value| == |members|
      && forall k :: 0 <= k < |members| ==> r.value[k] == (members[k].0, ElementText(members[k].1, codec))
  {
    var section :- Section(parameters, "header");
    match section
    case None => Success([])
    case Some(v) =>
      var members :- EnumerateObject(v);
      Success(TextPairs(members, codec))
  }

  datatype Content =
    | JsonBody(text: string)                    // `application/json`
    | FormBody(pairs: seq<(string, string)>)    // `application/x-www-form-urlencoded`

  /** `ProcessJson` on a message whose body is `content`; it runs only after
      the path section was looked up, so the parameters are searchable. */
  function AfterJson(parameters: Option<Json>, codec: Codec, content: Option<Content>): Option<Content>
    requires Searchable(parameters)
  {
    var json := Section(parameters, "json").value;
    if json.Some? then Some(JsonBody(ElementText(json.value, codec))) else content
  }

  /** `ProcessForm` on a message whose body is `content`. */
  function AfterForm(parameters: Option<Json>, codec: Codec, content: Option<Content>): Result<Option<Content>> {
    var form :- Section(parameters, "form");
    match form
    case None => Success(content)
    case Some(f) =>
      var members :- EnumerateObject(f);
      Success(Some(FormBody(TextPairs(members, codec))))
  }

  /** The body: `ProcessJson`, then `ProcessForm`. */
  function ContentOf(parameters: Option<Json>, codec: Codec): Result<Option<Content>> {
    if !Searchable(parameters) then Failure(NotAnObject)
    else AfterForm(parameters, codec, AfterJson(parameters, codec, None))
  }

  /** With both sections present the form body wins, since it is set last. */
  lemma FormWinsOverJson(parameters: Option<Json>, codec: Codec, f: Json)
    requires Section(parameters, "form") == Success(Some(f)) && f.Obj?
    ensures ContentOf(parameters, codec) == Success(Some(FormBody(TextPairs(f.members, codec))))
  {
  }

  /** Without a form section a json section gives a json body. */
  lemma JsonBodyWithoutForm(parameters: Option<Json>, codec: Codec, j: Json)
    requires Section(parameters, "json") == Success(Some(j)) && Section(parameters, "form") == Success(None)
    ensures ContentOf(parameters, codec) == Success(Some(JsonBody(ElementText(j, codec))))
  {
  }

  /** The request as a value. */
  datatype HttpRequest = HttpRequest(verb: string, url: string, headers: seq<(string, string)>, content: Option<Content>)

  /** `Build`: the whole request of a call, from the tool row, its import and
      the `parameters` argument. */
  function BuildRequest(tool: McpTool, owner: Import, parameters: Option<Json>, codec: Codec): Result<HttpRequest> {
    var path :- PathOf(tool.requestPath, parameters, codec);
    var query :- QueryOf(parameters, codec);
    Completed(HttpRequest(tool.httpMethod, BuildUrl(owner.sourceBaseUrl, path, query), [], None), parameters, codec)
  }

  /** The last three stages of `Build` on a message `start`: the header
      members are added, then the json body is set, then the form body. */
  function Completed(start: HttpRequest, parameters: Option<Json>, codec: Codec): Result<HttpRequest>
    requires Searchable(parameters)
  {
    var headers :- HeadersOf(parameters, codec);
    var content :- AfterForm(parameters, codec, AfterJson(parameters, codec, start.content));
    Success(start.(headers := start.headers + headers, content := content))
  }

  /** The message object the builder fills in. */
  class HttpRequestMessage {
    var verb: string
    var url: string
    var headers: seq<(string, string)>
    var content: Option<Content>

    function Snapshot(): HttpRequest
      reads this
    {
      HttpRequest(verb, url, headers, content)
    }

    /** A new message: GET, no headers, no body. */
    constructor ()
      ensures Snapshot() == HttpRequest("GET", "", [], None)
    {
      verb, url, headers, content := "GET", "", [], None;
    }

    /** `ProcessHeader`: the header members are added in order. */
    method AddHeaders(parameters: Option<Json>, codec: Codec) returns (r: Result<()>)
      modifies this
      ensures r.Success? <==> HeadersOf(parameters, codec).Success?
      ensures r.Success? ==> Snapshot() == old(Snapshot()).(headers := old(headers) + HeadersOf(parameters, codec).value)
      ensures r.Failure? ==> r.error == HeadersOf(parameters, codec).error
    {
      var section :- Section(parameters, "header");
      if section.None? {
        assert headers + [] == headers;
        return Success(());
      }
      var members :- EnumerateObject(section.value);
      ghost var start := headers;
      for i := 0 to |members|
        invariant verb == old(verb) && url == old(url) && content == old(content)
        invariant |headers| == |start| + i && headers[..|start|] == start
        invariant forall k :: 0 <= k < i ==> headers[|start| + k] == (members[k].0, ElementText(members[k].1, codec))
      {
        headers := headers + [(members[i].0, ElementText(members[i].1, codec))];
      }
      ghost var added := HeadersOf(parameters, codec).value;
      assert headers == start + added by {
        assert |added| == |members|;
        forall k | 0 <= k < |headers|
          ensures headers[k] == (start + added)[k]
        {
        }
      }
      r := Success(());
    }

    /** `ProcessJson`. */
    method SetJson(parameters: Option<Json>, codec: Codec)
      requires Searchable(parameters)
      modifies this
      ensures Snapshot() == old(Snapshot()).(content := AfterJson(parameters, codec, old(content)))
    {
      var json := Section(parameters, "json").value;
      if json.Some? {
        content := Some(JsonBody(ElementText(json.value, codec)));
      }
    }

    /** `ProcessForm`. */
    method SetForm(parameters: Option<Json>, codec: Codec) returns (r: Result<()>)
      modifies this
      ensures r.Success? <==> AfterForm(parameters, codec, old(content)).Success?
      ensures r.Success? ==> Snapshot() == old(Snapshot()).(content := AfterForm(parameters, codec, old(content)).value)
      ensures r.Failure? ==> r.error == AfterForm(parameters, codec, old(content)).error
    {
      var form :- Section(parameters, "form");
      if form.Some? {
        var members :- EnumerateObject(form.value);
        content := Some(FormBody(TextPairs(members, codec)));
      }
      r := Success(());
    }
  }

  /** `HttpRequestBuilder.Build`. */
  method Build(tool: McpTool, owner: Import, parameters: Option<Json>, codec: Codec) returns (r: Result<HttpRequestMessage>)
    ensures r.Success? <==> BuildRequest(tool, owner, parameters, codec).Success?
    ensures r.Success? ==> fresh(r.value) && r.value.Snapshot() == BuildRequest(tool, owner, parameters, codec).value
    ensures r.Failure? ==> r.error == BuildRequest(tool, owner, parameters, codec).error
  {
    var request := new HttpRequestMessage();
    request.verb := tool.httpMethod;
    var path :- ProcessPath(tool.requestPath, parameters, codec);
    var query :- ProcessQuery(parameters, codec);
    request.url := BuildUrl(owner.sourceBaseUrl, path, query);
    var _ :- Complete(request, parameters, codec);
    r := Success(request);
  }

  /** `ProcessHeader`, `ProcessJson` and `ProcessForm` in turn. */
  method Complete(request: HttpRequestMessage, parameters: Option<Json>, codec: Codec) returns (r: Result<()>)
    requires Searchable(parameters)
    modifies request
    ensures r.Success? <==> Completed(old(request.Snapshot()), parameters, codec).Success?
    ensures r.Success? ==> request.Snapshot() == Completed(old(request.Snapshot()), parameters, codec).value
    ensures r.Failure? ==> r.error == Completed(old(request.Snapshot()), parameters, codec).error
  {
    var _ :- request.AddHeaders(parameters, codec);
    request.SetJson(parameters, codec);
    var _ :- request.SetForm(parameters, codec);
    r := Success(());
  }

  /** `ForwardCallAsync`: only the argument named `parameters` is read, and
      the response body is returned whatever the status code. Sending is a
      parameter (`send` maps a request to its response body). */
  function Forward(tool: McpTool, owner: Import, arguments: seq<(string, Json)>, codec: Codec, send: HttpRequest -> string): Result<string> {
    var request :- BuildRequest(tool, owner, Get(arguments, "parameters"), codec);
    Success(send(request))
  }

  method ForwardCall(tool: McpTool, owner: Import, arguments: seq<(string, Json)>, codec: Codec, send: HttpRequest -> string)
    returns (r: Result<string>)
    ensures r == Forward(tool, owner, arguments, codec, send)
  {
    var message :- Build(tool, owner, Get(arguments, "parameters"), codec);
    r := Success(send(message.Snapshot()));
  }

  /** Arguments other than `parameters` never reach the request. */
  lemma ForwardIgnoresOtherArguments(tool: McpTool, owner: Import, arguments: seq<(string, Json)>, key: string, value: Json,
                                     codec: Codec, send: HttpRequest -> string)
    requires key != "parameters"
    ensures Forward(tool, owner, Put(arguments, key, value), codec, send) == Forward(tool, owner, arguments, codec, send)
  {
    PutKeepsOthers(arguments, key, value, "parameters");
  }
}
