/** The diagnostic messages of `Orcid::ConfigurationError` and `Orcid::RemoteServiceError`. */
module OrcidExceptions {
  import opened Wrappers
  import opened RubyText
  import opened Lines

  /** Ruby's `inspect` and the `to_s` used by string interpolation, for the values that
      go into a diagnostic. Their formatting is not modelled: each is an opaque function. */
  datatype Renderer<!V> = Renderer(inspect: V -> string, toS: V -> string)

  function MapOption<V>(o: Option<V>, f: V -> string): Option<string> {
    match o
    case None => None
    case Some(v) => Some(f(v))
  }

  // ---------------------------------------------------------------------------
  // ConfigurationError
  // ---------------------------------------------------------------------------

  const ConfigurationPrefix: string := "Unable to find "
  const ConfigurationSuffix: string := " in configuration storage."

  /** The message `ConfigurationError.new(key_name)` carries. */
  function ConfigurationErrorMessage<V>(keyName: V, inspect: V -> string): (message: string)
    ensures StartsWith(message, ConfigurationPrefix)
    ensures EndsWith(message, ConfigurationSuffix)
    ensures |message| == |ConfigurationPrefix| + |inspect(keyName)| + |ConfigurationSuffix|
    ensures message[|ConfigurationPrefix|..|message| - |ConfigurationSuffix|] == inspect(keyName)
    ensures Contains(message, inspect(keyName))
  {
    ContainsInfix(ConfigurationPrefix, inspect(keyName), ConfigurationSuffix);
    var message := ConfigurationPrefix + inspect(keyName) + ConfigurationSuffix;
    assert message[|ConfigurationPrefix|..|message| - |ConfigurationSuffix|] == inspect(keyName);
    message
  }

  /** Reads the inspected key name back out of a configuration-error message. */
  function MissingKeyOf(message: string): (r: Option<string>)
    ensures r.Some? <==> |ConfigurationPrefix| + |ConfigurationSuffix| <= |message| &&
                         StartsWith(message, ConfigurationPrefix) && EndsWith(message, ConfigurationSuffix)
    ensures r.Some? ==> message == ConfigurationPrefix + r.value + ConfigurationSuffix
  {
    var p, q := |ConfigurationPrefix|, |ConfigurationSuffix|;
    if p + q <= |message| && StartsWith(message, ConfigurationPrefix) && EndsWith(message, ConfigurationSuffix)
    then
      assert message == message[..p] + message[p..|message| - q] + message[|message| - q..];
      Some(message[p..|message| - q])
    else None
  }

  /** The message names exactly the inspected key: it can be read back from it. */
  lemma ConfigurationErrorNamesKey<V>(keyName: V, inspect: V -> string)
    ensures MissingKeyOf(ConfigurationErrorMessage(keyName, inspect)) == Some(inspect(keyName))
  {
    var m := ConfigurationErrorMessage(keyName, inspect);
    var p, q := |ConfigurationPrefix|, |ConfigurationSuffix|;
    assert m[p..|m| - q] == inspect(keyName);
  }

  // ---------------------------------------------------------------------------
  // RemoteServiceError: the options bag
  // ---------------------------------------------------------------------------

  /** The OAuth client given as `options[:client]`. */
  datatype Client<V> = Client(id: V, site: V, options: V)

  /** The OAuth access token given as `options[:token]`. */
  datatype AccessToken<V> = AccessToken(token: V, refreshToken: V)

  /** The options hash handed to `RemoteServiceError.new`; `None` stands for a
      missing key or any falsy value. */
  datatype RemoteOptions<V> = RemoteOptions(
    client: Option<Client<V>>,
    token: Option<AccessToken<V>>,
    requestPath: Option<V>,
    requestHeaders: Option<V>,
    requestBody: Option<V>,
    responseStatus: Option<V>,
    responseBody: Option<V>)

  const ClientHeader: string := "-- Client --"
  const TokenHeader: string := "\n-- Token --"
  const RequestHeader: string := "\n-- Request --"
  const ResponseHeader: string := "\n-- Response --"

  function FieldPrefix(key: string): string { key + ":\n\t" }

  /** One `"label:\n\tvalue"` entry of the report. */
  function FieldLine(key: string, rendered: string): string { FieldPrefix(key) + rendered }

  /** The entry for a field that may be absent: no line at all when it is. */
  function OptionalLine(key: string, rendered: Option<string>): seq<string> {
    match rendered
    case None => []
    case Some(v) => [FieldLine(key, v)]
  }

  // ---------------------------------------------------------------------------
  // RemoteServiceError: the lines of the report
  // ---------------------------------------------------------------------------

  /** The client entries. `providerScope` is `Some(scope)` when `Orcid.provider` is
      defined, `scope` being its `authentication_scope` as interpolated. */
  function ClientLines<V>(client: Option<Client<V>>, providerScope: Option<string>, render: Renderer<V>): seq<string> {
    match client
    case None => []
    case Some(c) =>
      [FieldLine("id", render.inspect(c.id)),
       FieldLine("site", render.inspect(c.site)),
       FieldLine("options", render.inspect(c.options))]
      + OptionalLine("scopes", providerScope)
  }

  function TokenLines<V>(token: Option<AccessToken<V>>, render: Renderer<V>): seq<string> {
    match token
    case None => []
    case Some(t) =>
      [FieldLine("access_token", render.inspect(t.token)),
       FieldLine("refresh_token", render.inspect(t.refreshToken))]
  }

  function RequestLines<V>(options: RemoteOptions<V>, render: Renderer<V>): seq<string> {
    OptionalLine("path", MapOption(options.requestPath, render.inspect))
    + OptionalLine("headers", MapOption(options.requestHeaders, render.inspect))
    + OptionalLine("body", MapOption(options.requestBody, render.toS))
  }

  function ResponseLines<V>(options: RemoteOptions<V>, render: Renderer<V>): seq<string> {
    OptionalLine("status", MapOption(options.responseStatus, render.inspect))
    + OptionalLine("body", MapOption(options.responseBody, render.toS))
  }

  /** The four sections, each opened by its header, one after the other. */
  function Assemble(client: seq<string>, token: seq<string>, request: seq<string>, response: seq<string>): seq<string> {
    Framed(ClientHeader, client, TokenHeader, token, RequestHeader, request, ResponseHeader, response)
  }

  /** The `text` array once all four sections are appended. */
  function MessageLines<V>(options: RemoteOptions<V>, providerScope: Option<string>, render: Renderer<V>): seq<string> {
    Assemble(ClientLines(options.client, providerScope, render), TokenLines(options.token, render),
             RequestLines(options, render), ResponseLines(options, render))
  }

  // ---------------------------------------------------------------------------
  // RemoteServiceError#initialize and its append helpers
  // ---------------------------------------------------------------------------

  method AppendClientOptions<V>(client: Option<Client<V>>, providerScope: Option<string>, render: Renderer<V>, text: seq<string>)
    returns (result: seq<string>)
    ensures result == text + ClientLines(client, providerScope, render)
  {
    result := text;
    if client.Some? {
      var c := client.value;
      result := result + [FieldLine("id", render.inspect(c.id))];
      result := result + [FieldLine("site", render.inspect(c.site))];
      result := result + [FieldLine("options", render.inspect(c.options))];
      if providerScope.Some? {
        result := result + [FieldLine("scopes", providerScope.value)];
      }
    }
  }

  method AppendToken<V>(token: Option<AccessToken<V>>, render: Renderer<V>, text: seq<string>) returns (result: seq<string>)
    ensures result == text + [TokenHeader] + TokenLines(token, render)
  {
    result := text + [TokenHeader];
    if token.Some? {
      result := result + [FieldLine("access_token", render.inspect(token.value.token))];
      result := result + [FieldLine("refresh_token", render.inspect(token.value.refreshToken))];
    }
  }

  method AppendRequest<V>(options: RemoteOptions<V>, render: Renderer<V>, text: seq<string>) returns (result: seq<string>)
    ensures result == text + [RequestHeader] + RequestLines(options, render)
  {
    result := text + [RequestHeader];
    if options.requestPath.Some? {
      result := result + [FieldLine("path", render.inspect(options.requestPath.value))];
    }
    if options.requestHeaders.Some? {
      result := result + [FieldLine("headers", render.inspect(options.requestHeaders.value))];
    }
    if options.requestBody.Some? {
      result := result + [FieldLine("body", render.toS(options.requestBody.value))];
    }
  }

  method AppendResponse<V>(options: RemoteOptions<V>, render: Renderer<V>, text: seq<string>) returns (result: seq<string>)
    ensures result == text + [ResponseHeader] + ResponseLines(options, render)
  {
    result := text + [ResponseHeader];
    if options.responseStatus.Some? {
      result := result + [FieldLine("status", render.inspect(options.responseStatus.value))];
    }
    if options.responseBody.Some? {
      result := result + [FieldLine("body", render.toS(options.responseBody.value))];
    }
  }

  /** The message `RemoteServiceError.new(options)` carries. */
  method RemoteServiceErrorMessage<V>(options: RemoteOptions<V>, providerScope: Option<string>, render: Renderer<V>)
    returns (message: string)
    ensures message == Join(MessageLines(options, providerScope, render), "\n")
  {
    var text: seq<string> := [];
    text := text + [ClientHeader];
    text := AppendClientOptions(options.client, providerScope, render, text);
    text := AppendToken(options.token, render, text);
    text := AppendRequest(options, render, text);
    text := AppendResponse(options, render, text);
    assert text == MessageLines(options, providerScope, render);
    message := Join(text, "\n");
  }

  // ---------------------------------------------------------------------------
  // Reading a report back
  // ---------------------------------------------------------------------------

  function Field(section: seq<string>, key: string): (r: Option<string>)
    ensures r.None? <==> forall i :: 0 <= i < |section| ==> !StartsWith(section[i], FieldPrefix(key))
    ensures r.Some? ==> exists i :: 0 <= i < |section| && section[i] == FieldLine(key, r.value)
  {
    if section == [] then None
    else if StartsWith(section[0], FieldPrefix(key)) then
      var v := section[0][|FieldPrefix(key)|..];
      assert section[0] == FieldPrefix(key) + v;
      Some(v)
    else
      var r := Field(section[1..], key);
      assert forall i :: 1 <= i < |section| ==> section[i] == section[1..][i - 1];
      r
  }

  /** The label of an entry: the text before its first colon. */
  function LabelOf(line: string): string {
    if line == [] || line[0] == ':' then [] else [line[0]] + LabelOf(line[1..])
  }

  /** The labels of a section's entries, in order. */
  function Labels(section: seq<string>): seq<string> {
    if section == [] then [] else [LabelOf(section[0])] + Labels(section[1..])
  }

  /** The label of a field that is present, and nothing for one that is absent. */
  function Present<V>(key: string, field: Option<V>): seq<string> {
    if field.Some? then [key] else []
  }

  // ---------------------------------------------------------------------------
  // Lemmas on entries
  // ---------------------------------------------------------------------------

  lemma {:induction false} LabelOfFieldLine(key: string, v: string)
    requires ':' !in key
    ensures LabelOf(FieldLine(key, v)) == key
  {
    var line := FieldLine(key, v);
    if key != [] {
      assert line[1..] == FieldLine(key[1..], v);
      LabelOfFieldLine(key[1..], v);
    }
  }

  /** An entry starts with the prefix of `otherKey` exactly when it carries that label. */
  lemma FieldPrefixMatch(key: string, otherKey: string, v: string)
    requires ':' !in key && ':' !in otherKey
    ensures StartsWith(FieldLine(key, v), FieldPrefix(otherKey)) <==> key == otherKey
  {
    var line := FieldLine(key, v);
    if StartsWith(line, FieldPrefix(otherKey)) {
      var p := FieldPrefix(otherKey);
      assert forall i :: 0 <= i < |p| ==> line[i] == p[i];
      // the first colon of the entry is at |key|, the first colon of p at |otherKey|
      assert forall i :: 0 <= i < |key| ==> line[i] == key[i];
      assert line[|otherKey|] == p[|otherKey|] == ':';
      assert |otherKey| >= |key|;
      assert forall i :: 0 <= i < |otherKey| ==> p[i] == otherKey[i];
      assert line[|key|] == ':';
      assert |key| >= |otherKey|;
      assert key == line[..|key|] == otherKey;
    }
  }

  lemma {:induction false} FieldConcat(a: seq<string>, b: seq<string>, key: string)
    ensures Field(a + b, key) == if Field(a, key).Some? then Field(a, key) else Field(b, key)
  {
    if a != [] {
      assert (a + b)[1..] == a[1..] + b;
      FieldConcat(a[1..], b, key);
    } else {
      assert a + b == b;
    }
  }

  lemma {:induction false} LabelsConcat(a: seq<string>, b: seq<string>)
    ensures Labels(a + b) == Labels(a) + Labels(b)
  {
    if a != [] {
      assert (a + b)[1..] == a[1..] + b;
      LabelsConcat(a[1..], b);
    } else {
      assert a + b == b;
    }
  }

  /** Looking `otherKey` up in the entry of field `key` finds it exactly when the labels agree. */
  lemma FieldOfOptionalLine(key: string, rendered: Option<string>, otherKey: string)
    requires ':' !in key && ':' !in otherKey
    ensures Field(OptionalLine(key, rendered), otherKey) == if key == otherKey then rendered else None
  {
    if rendered.Some? {
      FieldPrefixMatch(key, otherKey, rendered.value);
      var line := FieldLine(key, rendered.value);
      var entries: seq<string> := [line];
      assert |entries[1..]| == 0;
      if key == otherKey {
        assert line[|FieldPrefix(otherKey)|..] == rendered.value;
      }
    }
  }

  lemma LabelsOfOptionalLine(key: string, rendered: Option<string>)
    requires ':' !in key
    ensures Labels(OptionalLine(key, rendered)) == Present(key, rendered)
  {
    if rendered.Some? {
      LabelOfFieldLine(key, rendered.value);
      var entries: seq<string> := [FieldLine(key, rendered.value)];
      assert |entries[1..]| == 0;
    }
  }

  /** Looking a field up after one more entry was appended. */
  lemma ReadAppended(a: seq<string>, k: string, rendered: Option<string>, key: string)
    requires ':' !in k && ':' !in key
    ensures Field(a + OptionalLine(k, rendered), key) ==
            if Field(a, key).Some? then Field(a, key) else if k == key then rendered else None
    ensures Labels(a + OptionalLine(k, rendered)) == Labels(a) + Present(k, rendered)
  {
    FieldConcat(a, OptionalLine(k, rendered), key);
    FieldOfOptionalLine(k, rendered, key);
    LabelsConcat(a, OptionalLine(k, rendered));
    LabelsOfOptionalLine(k, rendered);
  }

  /** Reading back the three entries every client has. */
  lemma ClientFixedEntries(i: string, si: string, o: string)
    ensures var s := [FieldLine("id", i), FieldLine("site", si), FieldLine("options", o)];
      && Field(s, "id") == Some(i) && Field(s, "site") == Some(si) && Field(s, "options") == Some(o)
      && Field(s, "scopes") == None
      && Labels(s) == ["id", "site", "options"]
  {
    var s1 := OptionalLine("id", Some(i));
    var s2 := s1 + OptionalLine("site", Some(si));
    assert s2 + OptionalLine("options", Some(o)) == [FieldLine("id", i), FieldLine("site", si), FieldLine("options", o)];
    FieldOfOptionalLine("id", Some(i), "id");
    FieldOfOptionalLine("id", Some(i), "site");
    FieldOfOptionalLine("id", Some(i), "options");
    FieldOfOptionalLine("id", Some(i), "scopes");
    LabelsOfOptionalLine("id", Some(i));
    ReadAppended(s1, "site", Some(si), "id");
    ReadAppended(s1, "site", Some(si), "site");
    ReadAppended(s1, "site", Some(si), "options");
    ReadAppended(s1, "site", Some(si), "scopes");
    ReadAppended(s2, "options", Some(o), "id");
    ReadAppended(s2, "options", Some(o), "site");
    ReadAppended(s2, "options", Some(o), "options");
    ReadAppended(s2, "options", Some(o), "scopes");
  }

  /** Reading back the client entries. */
  lemma ClientEntries(i: string, si: string, o: string, scopes: Option<string>)
    ensures var s := [FieldLine("id", i), FieldLine("site", si), FieldLine("options", o)] + OptionalLine("scopes", scopes);
      && Field(s, "id") == Some(i) && Field(s, "site") == Some(si) && Field(s, "options") == Some(o)
      && Field(s, "scopes") == scopes
      && Labels(s) == ["id", "site", "options"] + Present("scopes", scopes)
  {
    var s3 := [FieldLine("id", i), FieldLine("site", si), FieldLine("options", o)];
    ClientFixedEntries(i, si, o);
    ReadAppended(s3, "scopes", scopes, "id");
    ReadAppended(s3, "scopes", scopes, "site");
    ReadAppended(s3, "scopes", scopes, "options");
    ReadAppended(s3, "scopes", scopes, "scopes");
  }

  /** Reading back the token entries. */
  lemma TokenEntries(a: string, r: string)
    ensures var s := [FieldLine("access_token", a), FieldLine("refresh_token", r)];
      && Field(s, "access_token") == Some(a) && Field(s, "refresh_token") == Some(r)
      && Labels(s) == ["access_token", "refresh_token"]
  {
    var s1 := OptionalLine("access_token", Some(a));
    assert s1 + OptionalLine("refresh_token", Some(r)) == [FieldLine("access_token", a), FieldLine("refresh_token", r)];
    FieldOfOptionalLine("access_token", Some(a), "access_token");
    FieldOfOptionalLine("access_token", Some(a), "refresh_token");
    LabelsOfOptionalLine("access_token", Some(a));
    ReadAppended(s1, "refresh_token", Some(r), "access_token");
    ReadAppended(s1, "refresh_token", Some(r), "refresh_token");
  }

  /** Reading back the request entries. */
  lemma RequestEntries(p: Option<string>, h: Option<string>, b: Option<string>)
    ensures var s := OptionalLine("path", p) + OptionalLine("headers", h) + OptionalLine("body", b);
      && Field(s, "path") == p && Field(s, "headers") == h && Field(s, "body") == b
      && Labels(s) == Present("path", p) + Present("headers", h) + Present("body", b)
  {
    var s1 := OptionalLine("path", p);
    var s2 := s1 + OptionalLine("headers", h);
    FieldOfOptionalLine("path", p, "path");
    FieldOfOptionalLine("path", p, "headers");
    FieldOfOptionalLine("path", p, "body");
    LabelsOfOptionalLine("path", p);
    ReadAppended(s1, "headers", h, "path");
    ReadAppended(s1, "headers", h, "headers");
    ReadAppended(s1, "headers", h, "body");
    ReadAppended(s2, "body", b, "path");
    ReadAppended(s2, "body", b, "headers");
    ReadAppended(s2, "body", b, "body");
  }

  /** Reading back the response entries. */
  lemma ResponseEntries(st: Option<string>, b: Option<string>)
    ensures var s := OptionalLine("status", st) + OptionalLine("body", b);
      && Field(s, "status") == st && Field(s, "body") == b
      && Labels(s) == Present("status", st) + Present("body", b)
  {
    var s1 := OptionalLine("status", st);
    FieldOfOptionalLine("status", st, "status");
    FieldOfOptionalLine("status", st, "body");
    LabelsOfOptionalLine("status", st);
    ReadAppended(s1, "body", b, "status");
    ReadAppended(s1, "body", b, "body");
  }

  lemma PresentMapped<V>(key: string, o: Option<V>, f: V -> string)
    ensures Present(key, MapOption(o, f)) == Present(key, o)
  {
  }

  // ---------------------------------------------------------------------------
  // The layout of the report
  // ---------------------------------------------------------------------------

  /** An entry line starts with the lower-case first letter of its label. */
  predicate IsEntry(line: string) { line != [] && 'a' <= line[0] <= 'z' }

  predicate AllEntries(lines: seq<string>) { forall i :: 0 <= i < |lines| ==> IsEntry(lines[i]) }

  lemma OptionalLineEntries(k: string, rendered: Option<string>)
    requires k != [] && 'a' <= k[0] <= 'z'
    ensures AllEntries(OptionalLine(k, rendered))
  {
    if rendered.Some? {
      assert FieldLine(k, rendered.value)[0] == k[0];
    }
  }

  /** No line of a section body is a header. */
  lemma SectionsHoldOnlyEntries<V>(options: RemoteOptions<V>, providerScope: Option<string>, render: Renderer<V>)
    ensures NoHeader(ClientLines(options.client, providerScope, render))
    ensures NoHeader(TokenLines(options.token, render))
    ensures NoHeader(RequestLines(options, render))
    ensures NoHeader(ResponseLines(options, render))
  {
    SectionsHoldEntries(options, providerScope, render);
    EntriesAreNoHeaders(ClientLines(options.client, providerScope, render));
    EntriesAreNoHeaders(TokenLines(options.token, render));
    EntriesAreNoHeaders(RequestLines(options, render));
    EntriesAreNoHeaders(ResponseLines(options, render));
  }

  lemma SectionsHoldEntries<V>(options: RemoteOptions<V>, providerScope: Option<string>, render: Renderer<V>)
    ensures AllEntries(ClientLines(options.client, providerScope, render))
    ensures AllEntries(TokenLines(options.token, render))
    ensures AllEntries(RequestLines(options, render))
    ensures AllEntries(ResponseLines(options, render))
  {
    OptionalLineEntries("scopes", providerScope);
    if options.client.Some? {
      var c := options.client.value;
      assert FieldLine("id", render.inspect(c.id))[0] == 'i';
      assert FieldLine("site", render.inspect(c.site))[0] == 's';
      assert FieldLine("options", render.inspect(c.options))[0] == 'o';
    }
    if options.token.Some? {
      var t := options.token.value;
      assert FieldLine("access_token", render.inspect(t.token))[0] == 'a';
      assert FieldLine("refresh_token", render.inspect(t.refreshToken))[0] == 'r';
    }
    OptionalLineEntries("path", MapOption(options.requestPath, render.inspect));
    OptionalLineEntries("headers", MapOption(options.requestHeaders, render.inspect));
    OptionalLineEntries("body", MapOption(options.requestBody, render.toS));
    OptionalLineEntries("status", MapOption(options.responseStatus, render.inspect));
    OptionalLineEntries("body", MapOption(options.responseBody, render.toS));
  }

  /** None of the four headers occurs among `lines`. */
  predicate NoHeader(lines: seq<string>) {
    FreeOf(lines, ClientHeader, TokenHeader, RequestHeader, ResponseHeader)
  }

  lemma EntriesAreNoHeaders(lines: seq<string>)
    requires AllEntries(lines)
    ensures NoHeader(lines)
  {
    assert !IsEntry(ClientHeader) && !IsEntry(TokenHeader) && !IsEntry(RequestHeader) && !IsEntry(ResponseHeader);
  }

  /** The four headers are pairwise distinct. */
  lemma HeadersDistinct()
    ensures Distinct4(ClientHeader, TokenHeader, RequestHeader, ResponseHeader)
  {
    assert ClientHeader[0] != TokenHeader[0];
    assert ClientHeader[0] != RequestHeader[0];
    assert ClientHeader[0] != ResponseHeader[0];
    assert TokenHeader[4] != RequestHeader[4];
    assert TokenHeader[4] != ResponseHeader[4];
    assert RequestHeader[6] != ResponseHeader[6];
  }

  /** The four headers each occur exactly once in a report, in the order Client, Token,
      Request, Response, each followed by the lines of its own section. */
  lemma ReportLayout<V>(options: RemoteOptions<V>, providerScope: Option<string>, render: Renderer<V>)
    ensures var lines := MessageLines(options, providerScope, render);
      var cl := ClientLines(options.client, providerScope, render);
      var tl := TokenLines(options.token, render);
      var rl := RequestLines(options, render);
      var sl := ResponseLines(options, render);
      var t, q, r := 1 + |cl|, 2 + |cl| + |tl|, 3 + |cl| + |tl| + |rl|;
      && |lines| == 4 + |cl| + |tl| + |rl| + |sl|
      && lines[0] == ClientHeader && lines[t] == TokenHeader && lines[q] == RequestHeader && lines[r] == ResponseHeader
      && lines[1..t] == cl && lines[t + 1..q] == tl && lines[q + 1..r] == rl && lines[r + 1..] == sl
      && multiset(lines)[ClientHeader] == 1
      && multiset(lines)[TokenHeader] == 1
      && multiset(lines)[RequestHeader] == 1
      && multiset(lines)[ResponseHeader] == 1
  {
    SectionsHoldOnlyEntries(options, providerScope, render);
    HeadersDistinct();
    FramedLayout(ClientHeader, ClientLines(options.client, providerScope, render), TokenHeader,
                 TokenLines(options.token, render), RequestHeader, RequestLines(options, render),
                 ResponseHeader, ResponseLines(options, render));
  }

  /** Each section is what the report shows between its header and the next. */
  lemma ReportSections<V>(options: RemoteOptions<V>, providerScope: Option<string>, render: Renderer<V>)
    ensures var lines := MessageLines(options, providerScope, render);
      && Section(lines, ClientHeader, TokenHeader) == Some(ClientLines(options.client, providerScope, render))
      && Section(lines, TokenHeader, RequestHeader) == Some(TokenLines(options.token, render))
      && Section(lines, RequestHeader, ResponseHeader) == Some(RequestLines(options, render))
      && LastSection(lines, ResponseHeader) == Some(ResponseLines(options, render))
  {
    SectionsHoldOnlyEntries(options, providerScope, render);
    HeadersDistinct();
    FramedSections(ClientHeader, ClientLines(options.client, providerScope, render), TokenHeader,
                   TokenLines(options.token, render), RequestHeader, RequestLines(options, render),
                   ResponseHeader, ResponseLines(options, render));
  }

  /** The client section: `id`, `site` and `options`, inspected, exactly when a client is
      given, then `scopes` when the provider is defined as well. */
  lemma ClientReport<V>(options: RemoteOptions<V>, providerScope: Option<string>, render: Renderer<V>)
    ensures var s := Section(MessageLines(options, providerScope, render), ClientHeader, TokenHeader);
      var c := options.client;
      && s.Some?
      && Field(s.value, "id") == (if c.Some? then Some(render.inspect(c.value.id)) else None)
      && Field(s.value, "site") == (if c.Some? then Some(render.inspect(c.value.site)) else None)
      && Field(s.value, "options") == (if c.Some? then Some(render.inspect(c.value.options)) else None)
      && Field(s.value, "scopes") == (if c.Some? then providerScope else None)
      && Labels(s.value) == (if c.Some? then ["id", "site", "options"] + Present("scopes", providerScope) else [])
  {
    ReportSections(options, providerScope, render);
    if options.client.Some? {
      var c := options.client.value;
      ClientEntries(render.inspect(c.id), render.inspect(c.site), render.inspect(c.options), providerScope);
    }
  }

  /** The token section: `access_token` and `refresh_token`, inspected, exactly when a
      token is given. */
  lemma TokenReport<V>(options: RemoteOptions<V>, providerScope: Option<string>, render: Renderer<V>)
    ensures var s := Section(MessageLines(options, providerScope, render), TokenHeader, RequestHeader);
      var t := options.token;
      && s.Some?
      && Field(s.value, "access_token") == (if t.Some? then Some(render.inspect(t.value.token)) else None)
      && Field(s.value, "refresh_token") == (if t.Some? then Some(render.inspect(t.value.refreshToken)) else None)
      && Labels(s.value) == (if t.Some? then ["access_token", "refresh_token"] else [])
  {
    ReportSections(options, providerScope, render);
    if options.token.Some? {
      TokenEntries(render.inspect(options.token.value.token), render.inspect(options.token.value.refreshToken));
    }
  }

  /** The request section: `path` and `headers` inspected, `body` raw, each exactly when
      given, always in that order, with no placeholder for an absent one. */
  lemma RequestReport<V>(options: RemoteOptions<V>, providerScope: Option<string>, render: Renderer<V>)
    ensures var s := Section(MessageLines(options, providerScope, render), RequestHeader, ResponseHeader);
      && s.Some?
      && Field(s.value, "path") == MapOption(options.requestPath, render.inspect)
      && Field(s.value, "headers") == MapOption(options.requestHeaders, render.inspect)
      && Field(s.value, "body") == MapOption(options.requestBody, render.toS)
      && Labels(s.value) == Present("path", options.requestPath) + Present("headers", options.requestHeaders)
                            + Present("body", options.requestBody)
  {
    ReportSections(options, providerScope, render);
    RequestEntries(MapOption(options.requestPath, render.inspect), MapOption(options.requestHeaders, render.inspect),
                   MapOption(options.requestBody, render.toS));
    PresentMapped("path", options.requestPath, render.inspect);
    PresentMapped("headers", options.requestHeaders, render.inspect);
    PresentMapped("body", options.requestBody, render.toS);
  }

  /** The response section: `status` inspected, then `body` raw, each exactly when given. */
  lemma ResponseReport<V>(options: RemoteOptions<V>, providerScope: Option<string>, render: Renderer<V>)
    ensures var s := LastSection(MessageLines(options, providerScope, render), ResponseHeader);
      && s.Some?
      && Field(s.value, "status") == MapOption(options.responseStatus, render.inspect)
      && Field(s.value, "body") == MapOption(options.responseBody, render.toS)
      && Labels(s.value) == Present("status", options.responseStatus) + Present("body", options.responseBody)
  {
    ReportSections(options, providerScope, render);
    ResponseEntries(MapOption(options.responseStatus, render.inspect), MapOption(options.responseBody, render.toS));
    PresentMapped("status", options.responseStatus, render.inspect);
    PresentMapped("body", options.responseBody, render.toS);
  }

  /** The message text is the four sections joined in order, each opened by its header. */
  lemma MessageText<V>(options: RemoteOptions<V>, providerScope: Option<string>, render: Renderer<V>)
    ensures var sep := "\n";
      Join(MessageLines(options, providerScope, render), sep) ==
        Join([ClientHeader] + ClientLines(options.client, providerScope, render), sep) + sep
        + Join([TokenHeader] + TokenLines(options.token, render), sep) + sep
        + Join([RequestHeader] + RequestLines(options, render), sep) + sep
        + Join([ResponseHeader] + ResponseLines(options, render), sep)
    ensures StartsWith(Join(MessageLines(options, providerScope, render), "\n"), ClientHeader)
  {
    var sep := "\n";
    var a0 := [ClientHeader] + ClientLines(options.client, providerScope, render);
    var a1 := [TokenHeader] + TokenLines(options.token, render);
    var a2 := [RequestHeader] + RequestLines(options, render);
    var a3 := [ResponseHeader] + ResponseLines(options, render);
    var lines := MessageLines(options, providerScope, render);
    assert lines == ((a0 + a1) + a2) + a3;
    JoinAppend(a0, a1, sep);
    JoinAppend(a0 + a1, a2, sep);
    JoinAppend(a0 + a1 + a2, a3, sep);
    JoinStartsWith(lines, sep);
  }

  /** With nothing in the options bag the message is the four headers alone, one per
      line; as each later header starts with a newline, a blank line precedes it. */
  lemma EmptyOptionsMessage<V>(providerScope: Option<string>, render: Renderer<V>)
    ensures Join(MessageLines(RemoteOptions(None, None, None, None, None, None, None), providerScope, render), "\n")
            == ClientHeader + "\n" + (TokenHeader + "\n" + (RequestHeader + "\n" + ResponseHeader))
  {
    var lines, sep := MessageLines(RemoteOptions(None, None, None, None, None, None, None), providerScope, render), "\n";
    assert lines == [ClientHeader, TokenHeader, RequestHeader, ResponseHeader];
    assert lines[1..][1..][1..] == [ResponseHeader];
    assert Join(lines[1..][1..], sep) == RequestHeader + sep + ResponseHeader;
    assert Join(lines[1..], sep) == TokenHeader + sep + (RequestHeader + sep + ResponseHeader);
  }
}
