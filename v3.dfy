/** Turning an OpenAPI 3 document into the request list and the Siege
    configuration (v3.go). */
module V3 {
  import opened Base
  import opened GoStrings
  import opened UrlList
  import GoSort
  import P = Payloads
  import S = Siege

  // ---------------------------------------------------------------------
  // The document, as far as the converter reads it

  /** An `interface{}` value taken from the document: a string, a value
      with a `String` method (given by what that method returns), or
      anything else, `nil` included. */
  datatype Any = AnyString(s: string) | AnyStringer(text: string) | AnyOther

  /** Parameter Object (section 4.8.12 of the OpenAPI Specification 3.1.0);
      `examples` lists the values of the `Examples` map in the order Go
      visits it. */
  datatype Parameter = Parameter(
    name: string,
    location: string,
    required: bool,
    example: Option<Any>,
    examples: seq<Any>,
    allowEmptyValue: bool)

  /** A Media Type Object under its media type name. */
  datatype MediaType = MediaType(
    name: string,
    example: Option<P.Value>,
    examples: seq<P.Value>,
    schema: P.Proxy)

  /** Request Body Object; `content` in the order Go visits the map. */
  datatype RequestBody = RequestBody(required: bool, content: seq<MediaType>)

  /** Server Variable and Server Objects (sections 4.8.5 and 4.8.6). */
  datatype ServerVariable = ServerVariable(name: string, defaultValue: string)

  datatype Server = Server(url: string, description: string, variables: seq<ServerVariable>)

  /** Operation Object; `Deprecated` is a plain flag. */
  datatype Operation = Operation(
    deprecated: bool,
    servers: seq<Server>,
    parameters: seq<Parameter>,
    requestBody: Option<RequestBody>)

  /** Path Item Object: the eight operations the converter looks at. */
  datatype PathItem = PathItem(
    get: Option<Operation>,
    post: Option<Operation>,
    delete: Option<Operation>,
    patch: Option<Operation>,
    put: Option<Operation>,
    trace: Option<Operation>,
    head: Option<Operation>,
    options: Option<Operation>)

  /** Security Scheme Object (section 4.8.27 of the OpenAPI Specification
      3.1.0): `type`, `in`, `name` and `scheme`. */
  datatype SecurityScheme = SecurityScheme(kind: string, location: string, name: string, scheme: string)

  /** The document: its servers, its paths, its security requirements
      (each the scheme names of one requirement, in the order Go visits
      them) and its security schemes. */
  datatype Document = Document(
    servers: seq<Server>,
    paths: map<string, PathItem>,
    security: seq<seq<string>>,
    schemes: map<string, SecurityScheme>)

  /** `PathMethodConfig`. */
  datatype MethodConfig = MethodConfig(params: map<string, string>, payloads: map<string, string>)

  /** `PathConfig`: one entry per lower-case method name. */
  type PathConfig = map<string, MethodConfig>

  /** The command-line settings the converter consults; an absent generic
      flag is `None`. */
  datatype Settings = Settings(
    paths: Option<map<string, PathConfig>>,
    auth: Option<map<string, map<string, string>>>,
    serverVars: Option<map<string, string>>,
    serverDescription: string,
    useFirst: bool)

  /** `interfaceToString`: a string as it is, a `Stringer` by its `String`
      method, anything else as the empty string. */
  function InterfaceToString(v: Any): (r: string)
    ensures v.AnyString? ==> r == v.s
    ensures v.AnyStringer? ==> r == v.text
    ensures v.AnyOther? ==> r == ""
  {
    match v
    case AnyString(s) => s
    case AnyStringer(text) => text
    case AnyOther => ""
  }

  /** `strings.ToUpper` on the ASCII method names. */
  function Upper(s: string): (r: string)
    ensures |r| == |s|
  {
    seq(|s|, i requires 0 <= i < |s| => S.UpperChar(s[i]))
  }

  // ---------------------------------------------------------------------
  // getV3PathParams

  /** The path, query and cookies built from the parameters so far. */
  datatype Parts = Parts(path: string, query: seq<(string, string)>, cookies: seq<Cookie>)

  /** A required parameter with no configured value and nothing to fall
      back on. */
  predicate Unresolvable(p: Parameter, configured: map<string, string>) {
    p.name !in configured && p.required && p.example.None? && |p.examples| == 0 && !p.allowEmptyValue
  }

  /** The value a parameter takes: the configured one; else, when it is
      required, its example, its first listed example, or the empty
      string when empty values are allowed; an optional parameter without
      configuration takes none. */
  function ResolveParam(p: Parameter, configured: map<string, string>, verb: string, rawPath: string): (r: Result<Option<string>>)
    ensures r.Err? <==> Unresolvable(p, configured)
    ensures r.Err? ==> r.error == MissingParameterConfig(p.name, verb, rawPath)
    ensures r.Ok? && r.value.None? <==> p.name !in configured && !p.required
  {
    if p.name in configured then Ok(Some(configured[p.name]))
    else if !p.required then Ok(None)
    else if p.example.Some? then Ok(Some(InterfaceToString(p.example.value)))
    else if |p.examples| > 0 then Ok(Some(InterfaceToString(p.examples[0])))
    else if p.allowEmptyValue then Ok(Some(""))
    else Err(MissingParameterConfig(p.name, verb, rawPath))
  }

  /** Where a parameter's value goes: every `{name}` of the path, the end
      of the query, a new cookie, or nowhere (headers and unknown
      locations). */
  function Place(st: Parts, p: Parameter, value: string): Parts {
    if p.location == "path" then st.(path := ReplaceAll(st.path, "{" + p.name + "}", value))
    else if p.location == "query" then st.(query := st.query + [(p.name, value)])
    else if p.location == "cookie" then st.(cookies := st.cookies + [Cookie(p.name, value, "")])
    else st
  }

  /** The parameter loop from parameter `k` on, starting from `st`. */
  function ParamsFrom(params: seq<Parameter>, k: nat, st: Parts, configured: map<string, string>, verb: string, rawPath: string): Result<Parts>
    requires k <= |params|
    decreases |params| - k
  {
    if k == |params| then Ok(st)
    else
      match ResolveParam(params[k], configured, verb, rawPath)
      case Err(e) => Err(e)
      case Ok(None) => ParamsFrom(params, k + 1, st, configured, verb, rawPath)
      case Ok(Some(v)) => ParamsFrom(params, k + 1, Place(st, params[k], v), configured, verb, rawPath)
  }

  method GetV3PathParams(verb: string, rawPath: string, params: seq<Parameter>, config: MethodConfig) returns (r: Result<Parts>)
    ensures r == ParamsFrom(params, 0, Parts(rawPath, [], []), config.params, verb, rawPath)
  {
    var path := rawPath;
    var query: seq<(string, string)> := [];
    var cookies: seq<Cookie> := [];
    var i := 0;
    while i < |params|
      invariant 0 <= i <= |params|
      invariant ParamsFrom(params, i, Parts(path, query, cookies), config.params, verb, rawPath)
             == ParamsFrom(params, 0, Parts(rawPath, [], []), config.params, verb, rawPath)
    {
      var param := params[i];
      var paramValue := AnyOther;
      var configured := param.name in config.params;
      if !configured && param.required {
        if param.example.Some? {
          paramValue := param.example.value;
        } else if |param.examples| > 0 {
          paramValue := param.examples[0];
        } else if param.allowEmptyValue {
          paramValue := AnyString("");
        } else {
          return Err(MissingParameterConfig(param.name, verb, rawPath));
        }
      }
      if configured {
        paramValue := AnyString(config.params[param.name]);
      }
      if configured || param.required {
        var value := InterfaceToString(paramValue);
        if param.location == "path" {
          path := ReplaceAll(path, "{" + param.name + "}", value);
        } else if param.location == "query" {
          query := query + [(param.name, value)];
        } else if param.location == "cookie" {
          cookies := cookies + [Cookie(param.name, value, "")];
        }
      }
      i := i + 1;
    }
    r := Ok(Parts(path, query, cookies));
  }

  /** The `(name, value)` pairs the parameters from `k` on place at
      `location`, in parameter order. */
  function PlacedFrom(params: seq<Parameter>, k: nat, location: string, configured: map<string, string>, verb: string, rawPath: string): seq<(string, string)>
    requires k <= |params|
    decreases |params| - k
  {
    if k == |params| then []
    else
      var rest := PlacedFrom(params, k + 1, location, configured, verb, rawPath);
      match ResolveParam(params[k], configured, verb, rawPath)
      case Ok(Some(v)) => if params[k].location == location then [(params[k].name, v)] + rest else rest
      case _ => rest
  }

  function CookiePairs(cookies: seq<Cookie>): seq<(string, string)> {
    seq(|cookies|, i requires 0 <= i < |cookies| => (cookies[i].name, cookies[i].value))
  }

  /** The parameter loop fails exactly when some parameter cannot be
      resolved, and then with the error of the first such parameter. */
  lemma {:induction false} ParamsFailIff(params: seq<Parameter>, k: nat, st: Parts, configured: map<string, string>, verb: string, rawPath: string)
    requires k <= |params|
    ensures ParamsFrom(params, k, st, configured, verb, rawPath).Err?
        <==> exists j :: k <= j < |params| && Unresolvable(params[j], configured)
    ensures ParamsFrom(params, k, st, configured, verb, rawPath).Err? ==>
        exists j :: k <= j < |params| && Unresolvable(params[j], configured)
          && ParamsFrom(params, k, st, configured, verb, rawPath).error == MissingParameterConfig(params[j].name, verb, rawPath)
    decreases |params| - k
  {
    if k < |params| {
      var res := ResolveParam(params[k], configured, verb, rawPath);
      if res.Ok? {
        var next := if res.value.Some? then Place(st, params[k], res.value.value) else st;
        ParamsFailIff(params, k + 1, next, configured, verb, rawPath);
      }
    }
  }

  /** Query parameters and cookies come out in parameter order, one per
      parameter placed there, with the values the precedence chain picks;
      header parameters are dropped. */
  lemma {:induction false} ParamsPlacement(params: seq<Parameter>, k: nat, st: Parts, configured: map<string, string>, verb: string, rawPath: string)
    requires k <= |params|
    requires ParamsFrom(params, k, st, configured, verb, rawPath).Ok?
    ensures ParamsFrom(params, k, st, configured, verb, rawPath).value.query
         == st.query + PlacedFrom(params, k, "query", configured, verb, rawPath)
    ensures CookiePairs(ParamsFrom(params, k, st, configured, verb, rawPath).value.cookies)
         == CookiePairs(st.cookies) + PlacedFrom(params, k, "cookie", configured, verb, rawPath)
    decreases |params| - k
  {
    if k == |params| {
    } else {
      var p := params[k];
      var res := ResolveParam(p, configured, verb, rawPath);
      var next := if res.value.Some? then Place(st, p, res.value.value) else st;
      ParamsPlacement(params, k + 1, next, configured, verb, rawPath);
      if res.value.Some? && p.location == "cookie" {
        assert CookiePairs(next.cookies) == CookiePairs(st.cookies) + [(p.name, res.value.value)];
      } else {
        assert CookiePairs(next.cookies) == CookiePairs(st.cookies);
      }
    }
  }

  /** A path parameter's value replaces every `{name}` in the path: the
      path is cut at each occurrence and glued back with the value. */
  lemma PathPlacement(st: Parts, p: Parameter, value: string)
    requires p.location == "path"
    ensures Place(st, p, value).path == Join(Split(st.path, "{" + p.name + "}"), value)
    ensures Place(st, p, value).query == st.query && Place(st, p, value).cookies == st.cookies
  {
    ReplaceAllIsSplitJoin(st.path, "{" + p.name + "}", value);
  }

  // ---------------------------------------------------------------------
  // getV3PathPayloads

  /** Each of `examples` from `k` on, encoded for `mediaType`, appended to
      `acc`. */
  function ExamplePayloads(mediaType: string, examples: seq<P.Value>, k: nat, acc: seq<string>, marshal: P.Value -> string): Result<seq<string>>
    requires k <= |examples|
    decreases |examples| - k
  {
    if k == |examples| then Ok(acc)
    else
      var e :- P.PayloadFromType(mediaType, examples[k], marshal);
      ExamplePayloads(mediaType, examples, k + 1, acc + [e], marshal)
  }

  /** The synthesized fallback: a nil synthesis leaves the payload empty. */
  function FakePayload(mediaType: string, schema: P.Proxy, marshal: P.Value -> string): Result<string> {
    var fake :- P.Synthesize(schema);
    if fake == P.Null then Ok("") else P.PayloadFromType(mediaType, fake, marshal)
  }

  /** The end of one media type's turn: a non-empty payload is appended, and
      a required body must by now have at least one payload. */
  function Keep(payload: string, acc: seq<string>, required: bool, mediaType: string, verb: string, rawPath: string): Result<seq<string>> {
    var kept := if payload != "" then acc + [payload] else acc;
    if required && |kept| < 1 then Err(MissingPayloadConfig(mediaType, verb, rawPath)) else Ok(kept)
  }

  /** One media type of the body: its configured payload; or, for a
      required body without one, the listed examples first and then the
      single example, and only when there are neither, a synthesized
      payload. */
  function MediaPayloads(d: MediaType, required: bool, configured: map<string, string>, acc: seq<string>, verb: string, rawPath: string, marshal: P.Value -> string): Result<seq<string>> {
    if required && d.name !in configured then
      var payload :- if d.example.Some? then P.PayloadFromType(d.name, d.example.value, marshal) else Ok("");
      var withExamples :- ExamplePayloads(d.name, d.examples, 0, acc, marshal);
      var last :- if d.example.Some? || |d.examples| > 0 then Ok(payload) else FakePayload(d.name, d.schema, marshal);
      Keep(last, withExamples, required, d.name, verb, rawPath)
    else
      Keep(if d.name in configured then configured[d.name] else "", acc, required, d.name, verb, rawPath)
  }

  /** The media type loop from entry `k` on. */
  function PayloadsFrom(body: RequestBody, k: nat, acc: seq<string>, configured: map<string, string>, verb: string, rawPath: string, marshal: P.Value -> string): Result<seq<string>>
    requires k <= |body.content|
    decreases |body.content| - k
  {
    if k == |body.content| then Ok(acc)
    else
      var next :- MediaPayloads(body.content[k], body.required, configured, acc, verb, rawPath, marshal);
      PayloadsFrom(body, k + 1, next, configured, verb, rawPath, marshal)
  }

  /** `getV3PathPayloads`: the payloads of every media type, or a single
      empty JSON string when there are none. */
  function PathPayloads(body: RequestBody, configured: map<string, string>, verb: string, rawPath: string, marshal: P.Value -> string): Result<seq<string>> {
    var ps :- PayloadsFrom(body, 0, [], configured, verb, rawPath, marshal);
    if |ps| < 1 then Ok(["\"\""]) else Ok(ps)
  }

  method GetV3PathPayloads(verb: string, rawPath: string, body: RequestBody, config: MethodConfig, marshal: P.Value -> string) returns (r: Result<seq<string>>)
    ensures r == PathPayloads(body, config.payloads, verb, rawPath, marshal)
  {
    var payloads: seq<string> := [];
    var i := 0;
    while i < |body.content|
      invariant 0 <= i <= |body.content|
      invariant PayloadsFrom(body, i, payloads, config.payloads, verb, rawPath, marshal)
             == PayloadsFrom(body, 0, [], config.payloads, verb, rawPath, marshal)
    {
      var next := AddMediaPayloads(body.content[i], body.required, config.payloads, payloads, verb, rawPath, marshal);
      if next.Err? {
        return Err(next.error);
      }
      payloads := next.value;
      i := i + 1;
    }
    assert PayloadsFrom(body, 0, [], config.payloads, verb, rawPath, marshal) == Ok(payloads);
    if |payloads| < 1 {
      payloads := payloads + ["\"\""];
      assert payloads == ["\"\""];
    }
    r := Ok(payloads);
  }

  /** One turn of the media type loop of `getV3PathPayloads`. */
  method AddMediaPayloads(details: MediaType, required: bool, configuredPayloads: map<string, string>, payloads: seq<string>, verb: string, rawPath: string, marshal: P.Value -> string)
    returns (r: Result<seq<string>>)
    ensures r == MediaPayloads(details, required, configuredPayloads, payloads, verb, rawPath, marshal)
  {
    var mediatype := details.name;
    var res := payloads;
    var configured := mediatype in configuredPayloads;
    var payload := if configured then configuredPayloads[mediatype] else "";
    if required && !configured {
      var addedPayloads := false;
      if details.example.Some? {
        var encoded := P.PayloadFromType(mediatype, details.example.value, marshal);
        if encoded.Err? {
          return Err(encoded.error);
        }
        payload := encoded.value;
        addedPayloads := true;
      }
      var j := 0;
      while j < |details.examples|
        invariant 0 <= j <= |details.examples|
        invariant ExamplePayloads(mediatype, details.examples, j, res, marshal)
               == ExamplePayloads(mediatype, details.examples, 0, payloads, marshal)
        invariant addedPayloads <==> details.example.Some? || j > 0
      {
        var examplePayload := P.PayloadFromType(mediatype, details.examples[j], marshal);
        if examplePayload.Err? {
          return Err(examplePayload.error);
        }
        res := res + [examplePayload.value];
        addedPayloads := true;
        j := j + 1;
      }
      if !addedPayloads {
        var fakePayload := P.CreateFakePayload(details.schema);
        if fakePayload.Err? {
          return Err(fakePayload.error);
        }
        if fakePayload.value != P.Null {
          var encoded := P.PayloadFromType(mediatype, fakePayload.value, marshal);
          if encoded.Err? {
            return Err(encoded.error);
          }
          payload := encoded.value;
        }
      }
    }
    if payload != "" {
      res := res + [payload];
    }
    if required && |res| < 1 {
      return Err(MissingPayloadConfig(mediatype, verb, rawPath));
    }
    r := Ok(res);
  }

  // ---------------------------------------------------------------------
  // getV3BaseUrl

  /** A server variable's value: the configured one unless it is empty,
      else the declared default. */
  function VariableValue(v: ServerVariable, serverVars: Option<map<string, string>>): (r: string)
    ensures serverVars.Some? && v.name in serverVars.value && serverVars.value[v.name] != "" ==> r == serverVars.value[v.name]
    ensures !(serverVars.Some? && v.name in serverVars.value && serverVars.value[v.name] != "") ==> r == v.defaultValue
  {
    var configured := if serverVars.Some? && v.name in serverVars.value then serverVars.value[v.name] else "";
    if configured == "" then v.defaultValue else configured
  }

  /** Substituting the variables from `j` on into the server URL; a
      variable without a value is an error. */
  function SubstituteFrom(raw: string, vars: seq<ServerVariable>, j: nat, serverVars: Option<map<string, string>>): Result<string>
    requires j <= |vars|
    decreases |vars| - j
  {
    if j == |vars| then Ok(raw)
    else
      var value := VariableValue(vars[j], serverVars);
      if value == "" then Err(MissingServerVariable(vars[j].name))
      else SubstituteFrom(ReplaceAll(raw, "{" + vars[j].name + "}", value), vars, j + 1, serverVars)
  }

  /** Server `k` is taken when it is the only one, its description is the
      configured one, or the first server is asked for. */
  predicate Selectable(servers: seq<Server>, k: nat, s: Settings)
    requires k < |servers|
  {
    |servers| == 1 || s.serverDescription == servers[k].description || s.useFirst
  }

  /** The server loop from server `k` on: every server up to the chosen one
      has its variables substituted, and none chosen is an error. */
  function BaseUrlFrom(servers: seq<Server>, k: nat, s: Settings): Result<string>
    requires k <= |servers|
    decreases |servers| - k
  {
    if k == |servers| then Err(AmbiguousServer)
    else
      var raw :- SubstituteFrom(servers[k].url, servers[k].variables, 0, s.serverVars);
      if Selectable(servers, k, s) then Ok(raw) else BaseUrlFrom(servers, k + 1, s)
  }

  method GetV3BaseUrl(servers: seq<Server>, s: Settings) returns (r: Result<string>)
    ensures r == BaseUrlFrom(servers, 0, s)
  {
    var k := 0;
    while k < |servers|
      invariant 0 <= k <= |servers|
      invariant BaseUrlFrom(servers, k, s) == BaseUrlFrom(servers, 0, s)
    {
      var server := servers[k];
      var rawUrl := server.url;
      var j := 0;
      while j < |server.variables|
        invariant 0 <= j <= |server.variables|
        invariant SubstituteFrom(rawUrl, server.variables, j, s.serverVars)
               == SubstituteFrom(server.url, server.variables, 0, s.serverVars)
      {
        var variable := server.variables[j];
        var value := "";
        if s.serverVars.Some? && variable.name in s.serverVars.value {
          value := s.serverVars.value[variable.name];
        }
        if value == "" {
          value := variable.defaultValue;
        }
        if value == "" {
          return Err(MissingServerVariable(variable.name));
        }
        rawUrl := ReplaceAll(rawUrl, "{" + variable.name + "}", value);
        j := j + 1;
      }
      if |servers| == 1 || s.serverDescription == server.description || s.useFirst {
        return Ok(rawUrl);
      }
      k := k + 1;
    }
    r := Err(AmbiguousServer);
  }

  // ---------------------------------------------------------------------
  // url.Values.Encode: the raw query lists the keys in sorted order, each
  // key with its values in the order they were added

  function QueryKeys(query: seq<(string, string)>): seq<string> {
    seq(|query|, i requires 0 <= i < |query| => query[i].0)
  }

  /** The pairs of `query` under `key`, in order. */
  function WithKey(query: seq<(string, string)>, key: string): seq<(string, string)> {
    if |query| == 0 then []
    else (if query[0].0 == key then [query[0]] else []) + WithKey(query[1..], key)
  }

  function Gather(query: seq<(string, string)>, keys: seq<string>): seq<(string, string)> {
    if |keys| == 0 then [] else WithKey(query, keys[0]) + Gather(query, keys[1..])
  }

  /** The order in which `Values.Encode` writes the pairs. */
  function EncodeOrder(query: seq<(string, string)>): seq<(string, string)> {
    Gather(query, Dedup(GoSort.SortStrings(QueryKeys(query))))
  }

  lemma {:induction false} WithKeyAppend(a: seq<(string, string)>, b: seq<(string, string)>, key: string)
    ensures WithKey(a + b, key) == WithKey(a, key) + WithKey(b, key)
  {
    if |a| > 0 {
      assert (a + b)[1..] == a[1..] + b;
      WithKeyAppend(a[1..], b, key);
    } else {
      assert a + b == b;
    }
  }

  lemma {:induction false} WithKeyTwice(query: seq<(string, string)>, key: string, other: string)
    ensures WithKey(WithKey(query, key), other) == if key == other then WithKey(query, key) else []
  {
    if |query| > 0 {
      var head := if query[0].0 == key then [query[0]] else [];
      WithKeyAppend(head, WithKey(query[1..], key), other);
      WithKeyTwice(query[1..], key, other);
    }
  }

  lemma {:induction false} WithKeyAbsent(query: seq<(string, string)>, key: string)
    requires key !in QueryKeys(query)
    ensures WithKey(query, key) == []
  {
    if |query| > 0 {
      assert QueryKeys(query)[0] == query[0].0;
      assert QueryKeys(query[1..]) == QueryKeys(query)[1..];
      WithKeyAbsent(query[1..], key);
    }
  }

  lemma {:induction false} GatherKey(query: seq<(string, string)>, keys: seq<string>, key: string)
    requires forall i, j :: 0 <= i < j < |keys| ==> keys[i] != keys[j]
    ensures WithKey(Gather(query, keys), key) == if key in keys then WithKey(query, key) else []
  {
    if |keys| > 0 {
      WithKeyAppend(WithKey(query, keys[0]), Gather(query, keys[1..]), key);
      WithKeyTwice(query, keys[0], key);
      GatherKey(query, keys[1..], key);
      if key == keys[0] {
        assert key !in keys[1..];
      }
    }
  }

  /** Encoding reorders the query without losing, adding or reordering the
      values of any one key. */
  lemma EncodeOrderKeepsValues(query: seq<(string, string)>, key: string)
    ensures WithKey(EncodeOrder(query), key) == WithKey(query, key)
  {
    var sorted := GoSort.SortStrings(QueryKeys(query));
    DedupSpec(sorted);
    GatherKey(query, Dedup(sorted), key);
    assert key in QueryKeys(query) ==> key in multiset(QueryKeys(query));
    assert key in multiset(sorted) ==> key in sorted;
    if key !in Dedup(sorted) {
      WithKeyAbsent(query, key);
    }
  }

  // ---------------------------------------------------------------------
  // getV3RequestNoPayload and getV3RequestWithPayload

  /** The URL and cookies shared by the entries of one operation. */
  datatype Target = Target(url: Url, cookies: seq<Cookie>)

  /** Every cookie with `path` as its path, names and values kept. */
  function CookiesAt(cookies: seq<Cookie>, path: string): (r: seq<Cookie>)
    ensures |r| == |cookies|
    ensures forall i :: 0 <= i < |r| ==>
      r[i].name == cookies[i].name && r[i].value == cookies[i].value && r[i].path == path
  {
    seq(|cookies|, i requires 0 <= i < |cookies| => cookies[i].(path := path))
  }

  method SetCookiePaths(cookies: seq<Cookie>, path: string) returns (r: seq<Cookie>)
    ensures r == CookiesAt(cookies, path)
  {
    r := cookies;
    var i := 0;
    while i < |r|
      invariant 0 <= i <= |r| == |cookies|
      invariant forall k :: 0 <= k < i ==> r[k] == cookies[k].(path := path)
      invariant forall k :: i <= k < |r| ==> r[k] == cookies[k]
    {
      r := r[i := r[i].(path := path)];
      i := i + 1;
    }
  }

  /** The shared part of both request builders: the method must be
      configured, the operation's own servers replace the base URL, the
      parameters fill in the path, query and cookies, and the cookies get
      the request URL without its query as their path. */
  function ResolveTarget(verb: string, rawPath: string, base: string, op: Operation, pc: PathConfig, s: Settings): (r: Result<Target>)
    ensures r.Ok? ==> verb in pc
  {
    if verb !in pc then Err(UnconfiguredMethod(verb, rawPath))
    else
      var pathBase :- if |op.servers| > 0 then BaseUrlFrom(op.servers, 0, s) else Ok(base);
      var parts :- ParamsFrom(op.parameters, 0, Parts(rawPath, [], []), pc[verb].params, verb, rawPath);
      Ok(Target(Url(pathBase, parts.path, EncodeOrder(parts.query)),
                CookiesAt(parts.cookies, UrlString(Url(pathBase, parts.path, [])))))
  }

  /** `getV3RequestNoPayload`: one entry with an empty payload. */
  function NoPayloadRequest(verb: string, rawPath: string, base: string, urls: seq<UrlData>, op: Operation, pc: PathConfig, s: Settings): Result<seq<UrlData>> {
    var t :- ResolveTarget(verb, rawPath, base, op, pc, s);
    Ok(urls + [UrlData(t.url, Upper(verb), "", "", t.cookies)])
  }

  /** One entry per payload, all on the same URL with the same cookies. */
  function Entries(t: Target, verb: string, payloads: seq<string>): seq<UrlData> {
    if |payloads| == 0 then []
    else Entries(t, verb, payloads[..|payloads| - 1]) + [UrlData(t.url, verb, "", payloads[|payloads| - 1], t.cookies)]
  }

  /** `getV3RequestWithPayload`: one entry per payload of the request body,
      none when the operation has no request body. */
  function PayloadRequests(verb: string, rawPath: string, base: string, urls: seq<UrlData>, op: Operation, pc: PathConfig, s: Settings, marshal: P.Value -> string): Result<seq<UrlData>> {
    var t :- ResolveTarget(verb, rawPath, base, op, pc, s);
    var payloads :- if op.requestBody.Some? then PathPayloads(op.requestBody.value, pc[verb].payloads, verb, rawPath, marshal) else Ok([]);
    Ok(urls + Entries(t, Upper(verb), payloads))
  }

  method GetV3RequestNoPayload(verb: string, rawPath: string, baseUrl: string, urls: seq<UrlData>, methodData: Operation, pathConfig: PathConfig, s: Settings) returns (r: Result<seq<UrlData>>)
    ensures r == NoPayloadRequest(verb, rawPath, baseUrl, urls, methodData, pathConfig, s)
  {
    if verb !in pathConfig {
      return Err(UnconfiguredMethod(verb, rawPath));
    }
    var methodConfig := pathConfig[verb];
    var pathBaseUrl := baseUrl;
    if |methodData.servers| > 0 {
      var chosen := GetV3BaseUrl(methodData.servers, s);
      if chosen.Err? {
        return Err(chosen.error);
      }
      pathBaseUrl := chosen.value;
    }
    var parts := GetV3PathParams(verb, rawPath, methodData.parameters, methodConfig);
    if parts.Err? {
      return Err(parts.error);
    }
    var cookies := SetCookiePaths(parts.value.cookies, UrlString(Url(pathBaseUrl, parts.value.path, [])));
    var pathUrl := Url(pathBaseUrl, parts.value.path, EncodeOrder(parts.value.query));
    r := Ok(urls + [UrlData(pathUrl, Upper(verb), "", "", cookies)]);
  }

  method GetV3RequestWithPayload(verb: string, rawPath: string, baseUrl: string, urls: seq<UrlData>, methodData: Operation, pathConfig: PathConfig, s: Settings, marshal: P.Value -> string) returns (r: Result<seq<UrlData>>)
    ensures r == PayloadRequests(verb, rawPath, baseUrl, urls, methodData, pathConfig, s, marshal)
  {
    if verb !in pathConfig {
      return Err(UnconfiguredMethod(verb, rawPath));
    }
    var methodConfig := pathConfig[verb];
    var pathBaseUrl := baseUrl;
    if |methodData.servers| > 0 {
      var chosen := GetV3BaseUrl(methodData.servers, s);
      if chosen.Err? {
        return Err(chosen.error);
      }
      pathBaseUrl := chosen.value;
    }
    var parts := GetV3PathParams(verb, rawPath, methodData.parameters, methodConfig);
    if parts.Err? {
      return Err(parts.error);
    }
    var cookies := SetCookiePaths(parts.value.cookies, UrlString(Url(pathBaseUrl, parts.value.path, [])));
    var pathUrl := Url(pathBaseUrl, parts.value.path, EncodeOrder(parts.value.query));
    var payloads: seq<string> := [];
    if methodData.requestBody.Some? {
      var got := GetV3PathPayloads(verb, rawPath, methodData.requestBody.value, methodConfig, marshal);
      if got.Err? {
        return Err(got.error);
      }
      payloads := got.value;
    }
    ghost var t := Target(pathUrl, cookies);
    var res := urls;
    var i := 0;
    while i < |payloads|
      invariant 0 <= i <= |payloads|
      invariant res == urls + Entries(t, Upper(verb), payloads[..i])
    {
      res := res + [UrlData(pathUrl, Upper(verb), "", payloads[i], cookies)];
      assert payloads[..i + 1][..i] == payloads[..i];
      i := i + 1;
    }
    assert payloads[..i] == payloads;
    r := Ok(res);
  }

  // ---------------------------------------------------------------------
  // handleV3Spec: the paths

  /** One operation slot of a path: an absent or deprecated operation adds
      nothing. */
  function OpStep(verb: string, op: Option<Operation>, withPayload: bool, rawPath: string, base: string, urls: seq<UrlData>, pc: PathConfig, s: Settings, marshal: P.Value -> string): Result<seq<UrlData>> {
    if op.None? || op.value.deprecated then Ok(urls)
    else if withPayload then PayloadRequests(verb, rawPath, base, urls, op.value, pc, s, marshal)
    else NoPayloadRequest(verb, rawPath, base, urls, op.value, pc, s)
  }

  /** One of the operation slots the path loop visits: the method name,
      the operation in that slot, and whether it may carry a request body. */
  datatype Slot = Slot(verb: string, op: Option<Operation>, withPayload: bool)

  /** The slots of a path item in the order get, post, delete, patch, put,
      head, options; trace is only logged. */
  function Slots(item: PathItem): seq<Slot> {
    [Slot("get", item.get, false), Slot("post", item.post, true), Slot("delete", item.delete, true),
     Slot("patch", item.patch, true), Slot("put", item.put, true), Slot("head", item.head, false),
     Slot("options", item.options, true)]
  }

  /** The slots from the `k`-th on; the first error stops the path. */
  function SlotsFrom(slots: seq<Slot>, k: nat, rawPath: string, base: string, urls: seq<UrlData>, pc: PathConfig, s: Settings, marshal: P.Value -> string): Result<seq<UrlData>>
    requires k <= |slots|
    decreases |slots| - k
  {
    if k == |slots| then Ok(urls)
    else
      var next :- OpStep(slots[k].verb, slots[k].op, slots[k].withPayload, rawPath, base, urls, pc, s, marshal);
      SlotsFrom(slots, k + 1, rawPath, base, next, pc, s, marshal)
  }

  /** The requests of one path. */
  function PathRequests(rawPath: string, item: PathItem, base: string, urls: seq<UrlData>, pc: PathConfig, s: Settings, marshal: P.Value -> string): Result<seq<UrlData>> {
    SlotsFrom(Slots(item), 0, rawPath, base, urls, pc, s, marshal)
  }

  /** The path loop from the `k`-th path of `sorted` on; a path without
      configuration is an error. */
  function PathsFrom(doc: Document, sorted: seq<string>, k: nat, urls: seq<UrlData>, pcs: map<string, PathConfig>, base: string, s: Settings, marshal: P.Value -> string): Result<seq<UrlData>>
    requires k <= |sorted|
    requires forall i :: 0 <= i < |sorted| ==> sorted[i] in doc.paths
    decreases |sorted| - k
  {
    if k == |sorted| then Ok(urls)
    else if sorted[k] !in pcs then Err(UnconfiguredPath(sorted[k]))
    else
      var next :- PathRequests(sorted[k], doc.paths[sorted[k]], base, urls, pcs[sorted[k]], s, marshal);
      PathsFrom(doc, sorted, k + 1, next, pcs, base, s, marshal)
  }

  method ApplyOperation(verb: string, op: Option<Operation>, withPayload: bool, rawPath: string, base: string, urls: seq<UrlData>, pc: PathConfig, s: Settings, marshal: P.Value -> string) returns (r: Result<seq<UrlData>>)
    ensures r == OpStep(verb, op, withPayload, rawPath, base, urls, pc, s, marshal)
  {
    if op.Some? && !op.value.deprecated {
      if withPayload {
        r := GetV3RequestWithPayload(verb, rawPath, base, urls, op.value, pc, s, marshal);
      } else {
        r := GetV3RequestNoPayload(verb, rawPath, base, urls, op.value, pc, s);
      }
    } else {
      r := Ok(urls);
    }
  }

  method AddPathRequests(rawPath: string, pathData: PathItem, base: string, urls: seq<UrlData>, pathConfig: PathConfig, s: Settings, marshal: P.Value -> string) returns (r: Result<seq<UrlData>>)
    ensures r == PathRequests(rawPath, pathData, base, urls, pathConfig, s, marshal)
  {
    ghost var slots := Slots(pathData);
    ghost var spec := PathRequests(rawPath, pathData, base, urls, pathConfig, s, marshal);
    var r1 := ApplyOperation("get", pathData.get, false, rawPath, base, urls, pathConfig, s, marshal);
    if r1.Err? {
      return Err(r1.error);
    }
    assert SlotsFrom(slots, 1, rawPath, base, r1.value, pathConfig, s, marshal) == spec;
    var r2 := ApplyOperation("post", pathData.post, true, rawPath, base, r1.value, pathConfig, s, marshal);
    if r2.Err? {
      return Err(r2.error);
    }
    assert SlotsFrom(slots, 2, rawPath, base, r2.value, pathConfig, s, marshal) == spec;
    var r3 := ApplyOperation("delete", pathData.delete, true, rawPath, base, r2.value, pathConfig, s, marshal);
    if r3.Err? {
      return Err(r3.error);
    }
    assert SlotsFrom(slots, 3, rawPath, base, r3.value, pathConfig, s, marshal) == spec;
    var r4 := ApplyOperation("patch", pathData.patch, true, rawPath, base, r3.value, pathConfig, s, marshal);
    if r4.Err? {
      return Err(r4.error);
    }
    assert SlotsFrom(slots, 4, rawPath, base, r4.value, pathConfig, s, marshal) == spec;
    var r5 := ApplyOperation("put", pathData.put, true, rawPath, base, r4.value, pathConfig, s, marshal);
    if r5.Err? {
      return Err(r5.error);
    }
    assert SlotsFrom(slots, 5, rawPath, base, r5.value, pathConfig, s, marshal) == spec;
    var r6 := ApplyOperation("head", pathData.head, false, rawPath, base, r5.value, pathConfig, s, marshal);
    if r6.Err? {
      return Err(r6.error);
    }
    assert SlotsFrom(slots, 6, rawPath, base, r6.value, pathConfig, s, marshal) == spec;
    r := ApplyOperation("options", pathData.options, true, rawPath, base, r6.value, pathConfig, s, marshal);
    assert slots[6] == Slot("options", pathData.options, true);
    if r.Ok? {
      assert SlotsFrom(slots, 7, rawPath, base, r.value, pathConfig, s, marshal) == r;
    }
  }

  // ---------------------------------------------------------------------
  // handleV3Spec: the security requirements

  /** What the security requirements may set in the configuration. */
  datatype AuthState = AuthState(headers: S.Header, login: S.Creds, cert: string, key: string)

  const InitialAuth := AuthState(map[], S.NoCreds, "", "")

  /** The header a bearer credential adds: the credential itself, or a
      reference to the `OA2S_TOKEN` environment variable for `command`. */
  function BearerValue(creds: string): string {
    if creds != "command" then "Bearer " + creds else "Bearer ${OA2S_TOKEN}"
  }

  /** One scheme of a requirement. An API key in a header adds a global
      header; an API key in the query or in a cookie changes nothing (the
      code updates copies of the entries); basic and digest credentials
      either fail the length check or index past the end of the split;
      bearer adds an `Authorization` header; mutual TLS sets the client
      certificate and key; everything else is an error. */
  function SchemeStep(name: string, doc: Document, entry: map<string, string>, st: AuthState): Result<AuthState> {
    if name !in doc.schemes then Err(UnknownSecurityScheme(name))
    else
      var scheme := doc.schemes[name];
      if scheme.kind == "apiKey" then
        if "apikey" !in entry then Err(UnconfiguredApiKey(name))
        else if scheme.location == "header" then Ok(st.(headers := S.AddHeader(st.headers, scheme.name, entry["apikey"])))
        else Ok(st)
      else if scheme.kind == "http" then
        if "creds" !in entry then Err(UnconfiguredCredentials(name))
        else if scheme.scheme == "basic" || scheme.scheme == "digest" then
          var parts := SplitN(entry["creds"], ":", 2);
          if |parts| < 2 then Err(MalformedCredentials(name)) else Err(IndexOutOfRange(2, |parts|))
        else if scheme.scheme == "bearer" then Ok(st.(headers := S.AddHeader(st.headers, "Authorization", BearerValue(entry["creds"]))))
        else Err(UnsupportedHttpScheme(scheme.scheme, name))
      else if scheme.kind == "mutualTLS" then
        if "cert" !in entry || "key" !in entry then Err(UnconfiguredMutualTLS(name))
        else Ok(st.(cert := entry["cert"], key := entry["key"]))
      else if scheme.kind == "oauth2" || scheme.kind == "openIdConnect" then Err(UnsupportedSecurityScheme(scheme.kind, name))
      else Err(UnrecognizedSecurityScheme(scheme.kind, name))
  }

  /** The configuration entry of a scheme; a missing one reads as empty. */
  function EntryOf(auth: map<string, map<string, string>>, name: string): map<string, string> {
    if name in auth then auth[name] else map[]
  }

  /** The schemes of one requirement from the `j`-th on. */
  function NamesFrom(doc: Document, auth: map<string, map<string, string>>, names: seq<string>, j: nat, st: AuthState): Result<AuthState>
    requires j <= |names|
    decreases |names| - j
  {
    if j == |names| then Ok(st)
    else
      var next :- SchemeStep(names[j], doc, EntryOf(auth, names[j]), st);
      NamesFrom(doc, auth, names, j + 1, next)
  }

  /** The requirements from the `k`-th on; each needs the `auth` settings. */
  function SecurityFrom(doc: Document, auth: Option<map<string, map<string, string>>>, k: nat, st: AuthState): Result<AuthState>
    requires k <= |doc.security|
    decreases |doc.security| - k
  {
    if k == |doc.security| then Ok(st)
    else if auth.None? then Err(AuthNotConfigured)
    else
      var next :- NamesFrom(doc, auth.value, doc.security[k], 0, st);
      SecurityFrom(doc, auth, k + 1, next)
  }

  /** One scheme of a requirement, applied to the configuration. */
  method ApplyScheme(name: string, doc: Document, entry: map<string, string>, urls: seq<UrlData>, conf: S.SiegeConfig) returns (failure: Option<Error>)
    modifies conf`headers, conf`loginInfo, conf`sslUserCert, conf`sslUserKey
    ensures SchemeStep(name, doc, entry, old(AuthOf(conf))).Err? ==>
      failure == Some(SchemeStep(name, doc, entry, old(AuthOf(conf))).error)
    ensures SchemeStep(name, doc, entry, old(AuthOf(conf))).Ok? ==>
      failure.None? && AuthOf(conf) == SchemeStep(name, doc, entry, old(AuthOf(conf))).value
  {
    if name !in doc.schemes {
      return Some(UnknownSecurityScheme(name));
    }
    var scheme := doc.schemes[name];
    if scheme.kind == "apiKey" {
      if "apikey" !in entry {
        return Some(UnconfiguredApiKey(name));
      }
      var key := entry["apikey"];
      if scheme.location == "query" {
        // each turn changes a copy of the entry, which is then dropped
        var n := 0;
        while n < |urls|
          invariant 0 <= n <= |urls|
          invariant AuthOf(conf) == old(AuthOf(conf))
        {
          var url := urls[n];
          url := url.(url := url.url.(query := EncodeOrder(url.url.query + [(scheme.name, key)])));
          n := n + 1;
        }
      } else if scheme.location == "header" {
        conf.AddHeaderValue(scheme.name, key);
      } else if scheme.location == "cookie" {
        var n := 0;
        while n < |urls|
          invariant 0 <= n <= |urls|
          invariant AuthOf(conf) == old(AuthOf(conf))
        {
          var url := urls[n];
          url := url.(cookies := url.cookies + [Cookie(scheme.name, key, "")]);
          n := n + 1;
        }
      }
    } else if scheme.kind == "http" {
      if "creds" !in entry {
        return Some(UnconfiguredCredentials(name));
      }
      var creds := entry["creds"];
      if scheme.scheme == "basic" || scheme.scheme == "digest" {
        var loginCreds := SplitN(creds, ":", 2);
        if |loginCreds| < 2 {
          return Some(MalformedCredentials(name));
        }
        conf.loginInfo := conf.loginInfo.(user := loginCreds[0], password := loginCreds[1]);
        // the realm is read from index 2 of a split with at most two parts
        return Some(IndexOutOfRange(2, |loginCreds|));
      } else if scheme.scheme == "bearer" {
        var value := BearerValue(creds);
        conf.AddHeaderValue("Authorization", value);
      } else {
        return Some(UnsupportedHttpScheme(scheme.scheme, name));
      }
    } else if scheme.kind == "mutualTLS" {
      if "cert" !in entry || "key" !in entry {
        return Some(UnconfiguredMutualTLS(name));
      }
      conf.sslUserCert := entry["cert"];
      conf.sslUserKey := entry["key"];
    } else if scheme.kind == "oauth2" || scheme.kind == "openIdConnect" {
      return Some(UnsupportedSecurityScheme(scheme.kind, name));
    } else {
      return Some(UnrecognizedSecurityScheme(scheme.kind, name));
    }
    failure := None;
  }

  /** The security requirements of the document, applied in order to the
      configuration. */
  method ApplySecurity(doc: Document, auth: Option<map<string, map<string, string>>>, urls: seq<UrlData>, conf: S.SiegeConfig) returns (failure: Option<Error>)
    modifies conf`headers, conf`loginInfo, conf`sslUserCert, conf`sslUserKey
    ensures SecurityFrom(doc, auth, 0, old(AuthOf(conf))).Err? ==>
      failure == Some(SecurityFrom(doc, auth, 0, old(AuthOf(conf))).error)
    ensures SecurityFrom(doc, auth, 0, old(AuthOf(conf))).Ok? ==>
      failure.None? && AuthOf(conf) == SecurityFrom(doc, auth, 0, old(AuthOf(conf))).value
  {
    ghost var st := AuthOf(conf);
    ghost var security := SecurityFrom(doc, auth, 0, st);
    var k := 0;
    while k < |doc.security|
      invariant 0 <= k <= |doc.security|
      invariant SecurityFrom(doc, auth, k, st) == security
      invariant AuthOf(conf) == st
      modifies conf`headers, conf`loginInfo, conf`sslUserCert, conf`sslUserKey
    {
      if auth.None? {
        return Some(AuthNotConfigured);
      }
      var namesFailure := ApplyNames(doc, auth.value, doc.security[k], urls, conf);
      if namesFailure.Some? {
        return namesFailure;
      }
      st := NamesFrom(doc, auth.value, doc.security[k], 0, st).value;
      k := k + 1;
    }
    failure := None;
  }

  /** One security requirement: every scheme it names, in order. */
  method ApplyNames(doc: Document, auth: map<string, map<string, string>>, names: seq<string>, urls: seq<UrlData>, conf: S.SiegeConfig) returns (failure: Option<Error>)
    modifies conf`headers, conf`loginInfo, conf`sslUserCert, conf`sslUserKey
    ensures NamesFrom(doc, auth, names, 0, old(AuthOf(conf))).Err? ==>
      failure == Some(NamesFrom(doc, auth, names, 0, old(AuthOf(conf))).error)
    ensures NamesFrom(doc, auth, names, 0, old(AuthOf(conf))).Ok? ==>
      failure.None? && AuthOf(conf) == NamesFrom(doc, auth, names, 0, old(AuthOf(conf))).value
  {
    ghost var start := AuthOf(conf);
    ghost var st := start;
    var j := 0;
    while j < |names|
      invariant 0 <= j <= |names|
      invariant NamesFrom(doc, auth, names, j, st) == NamesFrom(doc, auth, names, 0, start)
      invariant AuthOf(conf) == st
      modifies conf`headers, conf`loginInfo, conf`sslUserCert, conf`sslUserKey
    {
      var name := names[j];
      var schemeFailure := ApplyScheme(name, doc, EntryOf(auth, name), urls, conf);
      if schemeFailure.Some? {
        return schemeFailure;
      }
      st := SchemeStep(name, doc, EntryOf(auth, name), st).value;
      j := j + 1;
    }
    failure := None;
  }

  // ---------------------------------------------------------------------
  // handleV3Spec

  datatype Outcome = Outcome(urls: seq<UrlData>, auth: AuthState)

  lemma SortedPathsExist(keys: seq<string>, paths: map<string, PathItem>)
    requires S.Enumerates(keys, paths)
    ensures forall i :: 0 <= i < |GoSort.SortStrings(keys)| ==> GoSort.SortStrings(keys)[i] in paths
  {
    var sorted := GoSort.SortStrings(keys);
    forall i | 0 <= i < |sorted| ensures sorted[i] in paths {
      assert sorted[i] in multiset(keys);
    }
  }

  /** What `handleV3Spec` produces: the document's base URL, then the
      requests of every path in sorted order, then the security settings.
      `keys` lists the paths in whatever order Go's map gives them. */
  function HandleSpec(doc: Document, s: Settings, keys: seq<string>, marshal: P.Value -> string): Result<Outcome>
    requires S.Enumerates(keys, doc.paths)
  {
    SortedPathsExist(keys, doc.paths);
    HandleSorted(doc, s, GoSort.SortStrings(keys), marshal)
  }

  /** The same with the paths already in the order they are visited. */
  function HandleSorted(doc: Document, s: Settings, sorted: seq<string>, marshal: P.Value -> string): Result<Outcome>
    requires forall i :: 0 <= i < |sorted| ==> sorted[i] in doc.paths
  {
    var urls :- SortedUrls(doc, s, sorted, marshal);
    var st :- SecurityFrom(doc, s.auth, 0, InitialAuth);
    Ok(Outcome(urls, st))
  }

  /** The URL list before the security requirements: the base URL, then
      the requests of every path in the order given. */
  function SortedUrls(doc: Document, s: Settings, sorted: seq<string>, marshal: P.Value -> string): Result<seq<UrlData>>
    requires forall i :: 0 <= i < |sorted| ==> sorted[i] in doc.paths
  {
    var base :- BaseUrlFrom(doc.servers, 0, s);
    if s.paths.None? then Err(PathsNotConfigured)
    else PathsFrom(doc, sorted, 0, [], s.paths.value, base, s, marshal)
  }

  /** The part of a configuration the security requirements set. */
  function AuthOf(conf: S.SiegeConfig): AuthState
    reads conf
  {
    AuthState(conf.headers, conf.loginInfo, conf.sslUserCert, conf.sslUserKey)
  }

  /** A configuration as `NewSiegeConfig` leaves it apart from what the
      security requirements set. */
  predicate Untouched(conf: S.SiegeConfig)
    reads conf
  {
    conf.Defaults() && conf.getMethod == "HEAD" && conf.urlFile == ""
  }

  /** The loop over the sorted paths of `handleV3Spec`. */
  method AddPaths(doc: Document, pathList: seq<string>, pathsConfig: map<string, PathConfig>, base: string, s: Settings, marshal: P.Value -> string) returns (r: Result<seq<UrlData>>)
    requires forall i :: 0 <= i < |pathList| ==> pathList[i] in doc.paths
    ensures r == PathsFrom(doc, pathList, 0, [], pathsConfig, base, s, marshal)
  {
    var urls: seq<UrlData> := [];
    var i := 0;
    while i < |pathList|
      invariant 0 <= i <= |pathList|
      invariant PathsFrom(doc, pathList, i, urls, pathsConfig, base, s, marshal) == PathsFrom(doc, pathList, 0, [], pathsConfig, base, s, marshal)
    {
      var rawPath := pathList[i];
      if rawPath !in pathsConfig {
        return Err(UnconfiguredPath(rawPath));
      }
      var next := AddPathRequests(rawPath, doc.paths[rawPath], base, urls, pathsConfig[rawPath], s, marshal);
      if next.Err? {
        return Err(next.error);
      }
      urls := next.value;
      i := i + 1;
    }
    return Ok(urls);
  }

  method HandleV3Spec(doc: Document, s: Settings, keys: seq<string>, marshal: P.Value -> string) returns (r: Result<seq<UrlData>>, conf: S.SiegeConfig?)
    requires S.Enumerates(keys, doc.paths)
    ensures HandleSpec(doc, s, keys, marshal).Err? ==> r == Err(HandleSpec(doc, s, keys, marshal).error) && conf == null
    ensures HandleSpec(doc, s, keys, marshal).Ok? ==>
      r == Ok(HandleSpec(doc, s, keys, marshal).value.urls) && conf != null && fresh(conf)
      && Untouched(conf) && AuthOf(conf) == HandleSpec(doc, s, keys, marshal).value.auth
  {
    var pathList := GoSort.SortStrings(keys);
    SortedPathsExist(keys, doc.paths);
    r, conf := HandlePaths(doc, s, pathList, marshal);
  }

  /** `handleV3Spec` once the paths are sorted. */
  method HandlePaths(doc: Document, s: Settings, pathList: seq<string>, marshal: P.Value -> string) returns (r: Result<seq<UrlData>>, conf: S.SiegeConfig?)
    requires forall i :: 0 <= i < |pathList| ==> pathList[i] in doc.paths
    ensures HandleSorted(doc, s, pathList, marshal).Err? ==> r == Err(HandleSorted(doc, s, pathList, marshal).error) && conf == null
    ensures HandleSorted(doc, s, pathList, marshal).Ok? ==>
      r == Ok(HandleSorted(doc, s, pathList, marshal).value.urls) && conf != null && fresh(conf)
      && Untouched(conf) && AuthOf(conf) == HandleSorted(doc, s, pathList, marshal).value.auth
  {
    var c: S.SiegeConfig := new S.SiegeConfig();
    var collected := CollectUrls(doc, s, pathList, marshal);
    if collected.Err? {
      return Err(collected.error), null;
    }
    var urls := collected.value;
    var failure := ApplySecurity(doc, s.auth, urls, c);
    if failure.Some? {
      return Err(failure.value), null;
    }
    return Ok(urls), c;
  }

  /** The base URL, then the requests of every path. */
  method CollectUrls(doc: Document, s: Settings, pathList: seq<string>, marshal: P.Value -> string) returns (r: Result<seq<UrlData>>)
    requires forall i :: 0 <= i < |pathList| ==> pathList[i] in doc.paths
    ensures r == SortedUrls(doc, s, pathList, marshal)
  {
    var baseUrl := GetV3BaseUrl(doc.servers, s);
    if baseUrl.Err? {
      return Err(baseUrl.error);
    }
    if s.paths.None? {
      return Err(PathsNotConfigured);
    }
    r := AddPaths(doc, pathList, s.paths.value, baseUrl.value, s, marshal);
  }

  // ---------------------------------------------------------------------
  // Properties: paths and operations

  lemma {:induction false} DistinctCount(a: seq<string>, x: string)
    requires forall i, j :: 0 <= i < j < |a| ==> a[i] != a[j]
    ensures multiset(a)[x] == if x in a then 1 else 0
  {
    if |a| > 0 {
      assert a == [a[0]] + a[1..];
      DistinctCount(a[1..], x);
      assert a[0] !in a[1..];
    }
  }

  lemma SameKeysSameOrder(keys1: seq<string>, keys2: seq<string>, paths: map<string, PathItem>)
    requires S.Enumerates(keys1, paths) && S.Enumerates(keys2, paths)
    ensures GoSort.SortStrings(keys1) == GoSort.SortStrings(keys2)
  {
    forall x ensures multiset(keys1)[x] == multiset(keys2)[x] {
      DistinctCount(keys1, x);
      DistinctCount(keys2, x);
    }
    assert multiset(keys1) == multiset(keys2);
    GoSort.SortIgnoresInputOrder(keys1, keys2);
  }

  /** The result does not depend on the order in which Go's map hands over
      the paths: they are sorted first. */
  lemma HandleIgnoresKeyOrder(doc: Document, s: Settings, keys1: seq<string>, keys2: seq<string>, marshal: P.Value -> string)
    requires S.Enumerates(keys1, doc.paths) && S.Enumerates(keys2, doc.paths)
    ensures HandleSpec(doc, s, keys1, marshal) == HandleSpec(doc, s, keys2, marshal)
  {
    SameKeysSameOrder(keys1, keys2, doc.paths);
  }

  lemma {:induction false} PathsFromConfigured(doc: Document, sorted: seq<string>, k: nat, urls: seq<UrlData>, pcs: map<string, PathConfig>, base: string, s: Settings, marshal: P.Value -> string)
    requires k <= |sorted|
    requires forall i :: 0 <= i < |sorted| ==> sorted[i] in doc.paths
    requires PathsFrom(doc, sorted, k, urls, pcs, base, s, marshal).Ok?
    ensures forall i :: k <= i < |sorted| ==> sorted[i] in pcs
    decreases |sorted| - k
  {
    if k < |sorted| {
      var next := PathRequests(sorted[k], doc.paths[sorted[k]], base, urls, pcs[sorted[k]], s, marshal).value;
      PathsFromConfigured(doc, sorted, k + 1, next, pcs, base, s, marshal);
    }
  }

  /** A successful conversion had a configuration block for every path of
      the document; a single missing one aborts it. */
  lemma EveryPathConfigured(doc: Document, s: Settings, keys: seq<string>, marshal: P.Value -> string)
    requires S.Enumerates(keys, doc.paths)
    requires HandleSpec(doc, s, keys, marshal).Ok?
    ensures s.paths.Some?
    ensures forall p :: p in doc.paths ==> p in s.paths.value
  {
    var base := BaseUrlFrom(doc.servers, 0, s).value;
    var sorted := GoSort.SortStrings(keys);
    SortedPathsExist(keys, doc.paths);
    PathsFromConfigured(doc, sorted, 0, [], s.paths.value, base, s, marshal);
    forall p | p in doc.paths ensures p in s.paths.value {
      assert p in multiset(keys);
      assert p in multiset(sorted);
      var i :| 0 <= i < |sorted| && sorted[i] == p;
    }
  }

  /** The position of a request method in the order the path loop visits
      them; 7 for anything else, TRACE included. */
  function Rank(verb: string): nat {
    if verb == "GET" then 0
    else if verb == "POST" then 1
    else if verb == "DELETE" then 2
    else if verb == "PATCH" then 3
    else if verb == "PUT" then 4
    else if verb == "HEAD" then 5
    else if verb == "OPTIONS" then 6
    else 7
  }

  lemma UpperMethods()
    ensures Upper("get") == "GET" && Upper("post") == "POST" && Upper("delete") == "DELETE"
    ensures Upper("patch") == "PATCH" && Upper("put") == "PUT" && Upper("head") == "HEAD"
    ensures Upper("options") == "OPTIONS"
  {
  }

  lemma {:induction false} EntriesShape(t: Target, verb: string, payloads: seq<string>)
    ensures |Entries(t, verb, payloads)| == |payloads|
    ensures forall i :: 0 <= i < |payloads| ==>
      Entries(t, verb, payloads)[i] == UrlData(t.url, verb, "", payloads[i], t.cookies)
  {
    if |payloads| > 0 {
      EntriesShape(t, verb, payloads[..|payloads| - 1]);
    }
  }

  /** `getV3RequestNoPayload` appends exactly one entry: the method in upper
      case, no payload, the shared URL and cookies; an unconfigured method
      is an error. */
  lemma NoPayloadShape(verb: string, rawPath: string, base: string, urls: seq<UrlData>, op: Operation, pc: PathConfig, s: Settings)
    ensures verb !in pc ==> NoPayloadRequest(verb, rawPath, base, urls, op, pc, s) == Err(UnconfiguredMethod(verb, rawPath))
    ensures NoPayloadRequest(verb, rawPath, base, urls, op, pc, s).Ok? ==>
      var u := NoPayloadRequest(verb, rawPath, base, urls, op, pc, s).value;
      var t := ResolveTarget(verb, rawPath, base, op, pc, s).value;
      |u| == |urls| + 1 && u[..|urls|] == urls
      && u[|urls|] == UrlData(t.url, Upper(verb), "", "", t.cookies)
  {
    if NoPayloadRequest(verb, rawPath, base, urls, op, pc, s).Ok? {
      var u := NoPayloadRequest(verb, rawPath, base, urls, op, pc, s).value;
      assert u[..|urls|] == urls;
    }
  }

  /** `getV3RequestWithPayload` appends one entry per payload, in payload
      order, all on the same URL with the same cookies, and none when the
      operation has no request body; with a body there is at least one. */
  lemma PayloadRequestsShape(verb: string, rawPath: string, base: string, urls: seq<UrlData>, op: Operation, pc: PathConfig, s: Settings, marshal: P.Value -> string)
    ensures verb !in pc ==> PayloadRequests(verb, rawPath, base, urls, op, pc, s, marshal) == Err(UnconfiguredMethod(verb, rawPath))
    ensures PayloadRequests(verb, rawPath, base, urls, op, pc, s, marshal).Ok? && op.requestBody.None? ==>
      PayloadRequests(verb, rawPath, base, urls, op, pc, s, marshal).value == urls
    ensures PayloadRequests(verb, rawPath, base, urls, op, pc, s, marshal).Ok? && op.requestBody.Some? ==>
      var u := PayloadRequests(verb, rawPath, base, urls, op, pc, s, marshal).value;
      var t := ResolveTarget(verb, rawPath, base, op, pc, s).value;
      var ps := PathPayloads(op.requestBody.value, pc[verb].payloads, verb, rawPath, marshal).value;
      |u| == |urls| + |ps| && |ps| >= 1 && u[..|urls|] == urls
      && forall i :: 0 <= i < |ps| ==> u[|urls| + i] == UrlData(t.url, Upper(verb), "", ps[i], t.cookies)
  {
    if PayloadRequests(verb, rawPath, base, urls, op, pc, s, marshal).Ok? {
      var u := PayloadRequests(verb, rawPath, base, urls, op, pc, s, marshal).value;
      var t := ResolveTarget(verb, rawPath, base, op, pc, s).value;
      if op.requestBody.Some? {
        var ps := PathPayloads(op.requestBody.value, pc[verb].payloads, verb, rawPath, marshal).value;
        EntriesShape(t, Upper(verb), ps);
        assert u == urls + Entries(t, Upper(verb), ps);
        assert u[..|urls|] == urls;
      } else {
        assert Entries(t, Upper(verb), []) == [];
      }
    }
  }

  /** The entries from `start` on come in method order, no later than
      `bound`, and carry no media type. */
  predicate Ranked(u: seq<UrlData>, start: nat, bound: nat) {
    (forall i, j :: start <= i <= j < |u| ==> Rank(u[i].verb) <= Rank(u[j].verb))
    && (forall i :: start <= i < |u| ==> Rank(u[i].verb) <= bound && u[i].mediaType == "")
  }

  lemma PayloadRequestsAppend(verb: string, rawPath: string, base: string, urls: seq<UrlData>, op: Operation, pc: PathConfig, s: Settings, marshal: P.Value -> string)
    requires PayloadRequests(verb, rawPath, base, urls, op, pc, s, marshal).Ok?
    ensures var u := PayloadRequests(verb, rawPath, base, urls, op, pc, s, marshal).value;
      |urls| <= |u| && u[..|urls|] == urls
      && forall i :: |urls| <= i < |u| ==> u[i].verb == Upper(verb) && u[i].mediaType == ""
  {
    var t := ResolveTarget(verb, rawPath, base, op, pc, s).value;
    var ps := if op.requestBody.Some? then PathPayloads(op.requestBody.value, pc[verb].payloads, verb, rawPath, marshal).value else [];
    var u := PayloadRequests(verb, rawPath, base, urls, op, pc, s, marshal).value;
    assert u == urls + Entries(t, Upper(verb), ps);
    EntriesShape(t, Upper(verb), ps);
    forall i | |urls| <= i < |u| ensures u[i].verb == Upper(verb) && u[i].mediaType == "" {
      assert u[i] == Entries(t, Upper(verb), ps)[i - |urls|];
    }
    assert u[..|urls|] == urls;
  }

  /** An operation slot keeps the entries before it and appends entries of
      its own method only, with no media type. */
  lemma OpStepAppends(verb: string, op: Option<Operation>, withPayload: bool, rawPath: string, base: string, urls: seq<UrlData>, pc: PathConfig, s: Settings, marshal: P.Value -> string)
    requires OpStep(verb, op, withPayload, rawPath, base, urls, pc, s, marshal).Ok?
    ensures var u := OpStep(verb, op, withPayload, rawPath, base, urls, pc, s, marshal).value;
      |urls| <= |u| && u[..|urls|] == urls
      && forall i :: |urls| <= i < |u| ==> u[i].verb == Upper(verb) && u[i].mediaType == ""
  {
    if op.Some? && !op.value.deprecated {
      if withPayload {
        PayloadRequestsAppend(verb, rawPath, base, urls, op.value, pc, s, marshal);
      } else {
        NoPayloadShape(verb, rawPath, base, urls, op.value, pc, s);
      }
    }
  }

  lemma OpStepRanked(verb: string, op: Option<Operation>, withPayload: bool, rawPath: string, base: string, urls: seq<UrlData>, pc: PathConfig, s: Settings, marshal: P.Value -> string, start: nat, bound: nat, rank: nat)
    requires Rank(Upper(verb)) == rank && bound <= rank
    requires start <= |urls| && Ranked(urls, start, bound)
    requires OpStep(verb, op, withPayload, rawPath, base, urls, pc, s, marshal).Ok?
    ensures var u := OpStep(verb, op, withPayload, rawPath, base, urls, pc, s, marshal).value;
      |urls| <= |u| && u[..|urls|] == urls && u[..start] == urls[..start] && Ranked(u, start, rank)
  {
    var u := OpStep(verb, op, withPayload, rawPath, base, urls, pc, s, marshal).value;
    OpStepAppends(verb, op, withPayload, rawPath, base, urls, pc, s, marshal);
    assert forall i :: start <= i < |urls| ==> u[i] == urls[i];
    assert u[..start] == u[..|urls|][..start];
  }

  /** Each slot's method holds the rank of its position. */
  lemma SlotsRanked(item: PathItem)
    ensures forall j :: 0 <= j < |Slots(item)| ==> Rank(Upper(Slots(item)[j].verb)) == j
  {
    UpperMethods();
  }

  /** The slots from the `k`-th on append entries whose methods rank no
      lower than those before them, and keep the entries before them. */
  lemma {:induction false} SlotsFromRanked(slots: seq<Slot>, k: nat, rawPath: string, base: string, urls: seq<UrlData>, pc: PathConfig, s: Settings, marshal: P.Value -> string, start: nat, bound: nat)
    requires k <= |slots| && bound <= k && bound <= 6 && |slots| == 7
    requires forall j :: 0 <= j < |slots| ==> Rank(Upper(slots[j].verb)) == j
    requires start <= |urls| && Ranked(urls, start, bound)
    requires SlotsFrom(slots, k, rawPath, base, urls, pc, s, marshal).Ok?
    ensures var u := SlotsFrom(slots, k, rawPath, base, urls, pc, s, marshal).value;
      |urls| <= |u| && u[..|urls|] == urls && Ranked(u, start, 6)
    decreases |slots| - k
  {
    if k < |slots| {
      var slot := slots[k];
      OpStepRanked(slot.verb, slot.op, slot.withPayload, rawPath, base, urls, pc, s, marshal, start, bound, k);
      var next := OpStep(slot.verb, slot.op, slot.withPayload, rawPath, base, urls, pc, s, marshal).value;
      SlotsFromRanked(slots, k + 1, rawPath, base, next, pc, s, marshal, start, k);
      var u := SlotsFrom(slots, k, rawPath, base, urls, pc, s, marshal).value;
      assert u[..|urls|] == u[..|next|][..|urls|];
    } else {
      assert urls[..|urls|] == urls;
    }
  }

  /** The entries of one path come in the order GET, POST, DELETE, PATCH,
      PUT, HEAD, OPTIONS, never TRACE, and with no media type; the entries
      before them are kept. */
  lemma PathRequestsOrder(rawPath: string, item: PathItem, base: string, urls: seq<UrlData>, pc: PathConfig, s: Settings, marshal: P.Value -> string)
    requires PathRequests(rawPath, item, base, urls, pc, s, marshal).Ok?
    ensures var u := PathRequests(rawPath, item, base, urls, pc, s, marshal).value;
      |urls| <= |u| && u[..|urls|] == urls && Ranked(u, |urls|, 6)
  {
    SlotsRanked(item);
    SlotsFromRanked(Slots(item), 0, rawPath, base, urls, pc, s, marshal, |urls|, 0);
  }

  /** Every entry of a successful path loop has a method of the fixed set
      (never TRACE) and no media type. */
  lemma {:induction false} PathsFromShape(doc: Document, sorted: seq<string>, k: nat, urls: seq<UrlData>, pcs: map<string, PathConfig>, base: string, s: Settings, marshal: P.Value -> string)
    requires k <= |sorted|
    requires forall i :: 0 <= i < |sorted| ==> sorted[i] in doc.paths
    requires forall i :: 0 <= i < |urls| ==> Rank(urls[i].verb) < 7 && urls[i].mediaType == ""
    requires PathsFrom(doc, sorted, k, urls, pcs, base, s, marshal).Ok?
    ensures var u := PathsFrom(doc, sorted, k, urls, pcs, base, s, marshal).value;
      forall i :: 0 <= i < |u| ==> Rank(u[i].verb) < 7 && u[i].mediaType == ""
    decreases |sorted| - k
  {
    if k < |sorted| {
      var next := PathRequests(sorted[k], doc.paths[sorted[k]], base, urls, pcs[sorted[k]], s, marshal).value;
      PathRequestsOrder(sorted[k], doc.paths[sorted[k]], base, urls, pcs[sorted[k]], s, marshal);
      assert forall i :: 0 <= i < |urls| ==> next[i] == urls[i];
      PathsFromShape(doc, sorted, k + 1, next, pcs, base, s, marshal);
    }
  }

  /** The request list of a successful conversion holds only the seven
      supported methods and never sets a media type, so its list of media
      types is empty. */
  lemma HandleRequestsShape(doc: Document, s: Settings, keys: seq<string>, marshal: P.Value -> string)
    requires S.Enumerates(keys, doc.paths)
    requires HandleSpec(doc, s, keys, marshal).Ok?
    ensures var u := HandleSpec(doc, s, keys, marshal).value.urls;
      (forall i :: 0 <= i < |u| ==> Rank(u[i].verb) < 7 && u[i].verb != "TRACE" && u[i].mediaType == "")
      && MediaTypes(u) == []
  {
    SortedPathsExist(keys, doc.paths);
    SortedRequestsShape(doc, s, GoSort.SortStrings(keys), marshal);
  }

  lemma SortedRequestsShape(doc: Document, s: Settings, sorted: seq<string>, marshal: P.Value -> string)
    requires forall i :: 0 <= i < |sorted| ==> sorted[i] in doc.paths
    requires HandleSorted(doc, s, sorted, marshal).Ok?
    ensures var u := HandleSorted(doc, s, sorted, marshal).value.urls;
      (forall i :: 0 <= i < |u| ==> Rank(u[i].verb) < 7 && u[i].verb != "TRACE" && u[i].mediaType == "")
      && MediaTypes(u) == []
  {
    var base := BaseUrlFrom(doc.servers, 0, s).value;
    var u := PathsFrom(doc, sorted, 0, [], s.paths.value, base, s, marshal).value;
    assert SortedUrls(doc, s, sorted, marshal).value == u;
    PathsFromShape(doc, sorted, 0, [], s.paths.value, base, s, marshal);
    UnsetMediaTypes(u, "");
  }

  // ---------------------------------------------------------------------
  // Properties: payloads

  /** What `getPayloadFromType` makes of a value under the JSON media type. */
  function JsonEncoding(data: P.Value, marshal: P.Value -> string): string {
    P.PayloadFromType(P.JsonMediaType, data, marshal).value
  }

  function EncodeAll(examples: seq<P.Value>, marshal: P.Value -> string): seq<string> {
    seq(|examples|, i requires 0 <= i < |examples| => JsonEncoding(examples[i], marshal))
  }

  lemma {:induction false} ExamplePayloadsJson(examples: seq<P.Value>, k: nat, acc: seq<string>, marshal: P.Value -> string)
    requires k <= |examples|
    ensures ExamplePayloads(P.JsonMediaType, examples, k, acc, marshal) == Ok(acc + EncodeAll(examples[k..], marshal))
    decreases |examples| - k
  {
    if k == |examples| {
      assert EncodeAll(examples[k..], marshal) == [];
      assert acc + [] == acc;
    } else {
      var e := JsonEncoding(examples[k], marshal);
      ExamplePayloadsJson(examples, k + 1, acc + [e], marshal);
      assert P.PayloadFromType(P.JsonMediaType, examples[k], marshal) == Ok(e);
      assert EncodeAll(examples[k..], marshal) == [e] + EncodeAll(examples[k + 1..], marshal);
      assert acc + [e] + EncodeAll(examples[k + 1..], marshal) == acc + ([e] + EncodeAll(examples[k + 1..], marshal));
    }
  }

  /** A required JSON body without a configured payload for the media type:
      the encoded listed examples come first, the single example after
      them, and a synthesized payload only when there are no examples at
      all. */
  lemma ExamplesBeforeExample(d: MediaType, acc: seq<string>, configured: map<string, string>, verb: string, rawPath: string, marshal: P.Value -> string)
    requires d.name == P.JsonMediaType && d.name !in configured
    ensures d.example.Some? ==>
      MediaPayloads(d, true, configured, acc, verb, rawPath, marshal)
        == Keep(JsonEncoding(d.example.value, marshal), acc + EncodeAll(d.examples, marshal), true, d.name, verb, rawPath)
    ensures d.example.None? && |d.examples| > 0 ==>
      MediaPayloads(d, true, configured, acc, verb, rawPath, marshal) == Ok(acc + EncodeAll(d.examples, marshal))
    ensures d.example.None? && |d.examples| == 0 ==>
      MediaPayloads(d, true, configured, acc, verb, rawPath, marshal)
        == match FakePayload(d.name, d.schema, marshal)
           case Err(e) => Err(e)
           case Ok(fake) => Keep(fake, acc, true, d.name, verb, rawPath)
  {
    ExamplePayloadsJson(d.examples, 0, acc, marshal);
    assert d.examples[0..] == d.examples;
  }

  /** A configured payload is used verbatim and suppresses every example;
      a configured empty payload adds nothing. */
  lemma ConfiguredPayload(d: MediaType, required: bool, configured: map<string, string>, acc: seq<string>, verb: string, rawPath: string, marshal: P.Value -> string)
    requires d.name in configured
    ensures configured[d.name] != "" ==>
      MediaPayloads(d, required, configured, acc, verb, rawPath, marshal) == Ok(acc + [configured[d.name]])
    ensures configured[d.name] == "" ==>
      MediaPayloads(d, required, configured, acc, verb, rawPath, marshal)
        == if required && |acc| < 1 then Err(MissingPayloadConfig(d.name, verb, rawPath)) else Ok(acc)
  {
  }

  lemma {:induction false} ExamplePayloadsGrow(mediaType: string, examples: seq<P.Value>, k: nat, acc: seq<string>, marshal: P.Value -> string)
    requires k <= |examples|
    requires ExamplePayloads(mediaType, examples, k, acc, marshal).Ok?
    ensures |acc| <= |ExamplePayloads(mediaType, examples, k, acc, marshal).value|
    ensures ExamplePayloads(mediaType, examples, k, acc, marshal).value[..|acc|] == acc
    decreases |examples| - k
  {
    if k < |examples| {
      var e := P.PayloadFromType(mediaType, examples[k], marshal).value;
      ExamplePayloadsGrow(mediaType, examples, k + 1, acc + [e], marshal);
      var r := ExamplePayloads(mediaType, examples, k, acc, marshal).value;
      assert r[..|acc| + 1][..|acc|] == r[..|acc|];
    }
  }

  lemma MediaPayloadsGrow(d: MediaType, required: bool, configured: map<string, string>, acc: seq<string>, verb: string, rawPath: string, marshal: P.Value -> string)
    requires MediaPayloads(d, required, configured, acc, verb, rawPath, marshal).Ok?
    ensures var r := MediaPayloads(d, required, configured, acc, verb, rawPath, marshal).value;
      |acc| <= |r| && r[..|acc|] == acc && (required ==> |r| >= 1)
  {
    if required && d.name !in configured {
      ExamplePayloadsGrow(d.name, d.examples, 0, acc, marshal);
      var w := ExamplePayloads(d.name, d.examples, 0, acc, marshal).value;
      var r := MediaPayloads(d, required, configured, acc, verb, rawPath, marshal).value;
      assert r[..|w|] == w;
      assert r[..|acc|] == w[..|acc|];
    } else {
      var r := MediaPayloads(d, required, configured, acc, verb, rawPath, marshal).value;
      assert r[..|acc|] == acc;
    }
  }

  /** The media type loop only ever appends, and a required body with any
      content ends with at least one payload. */
  lemma {:induction false} PayloadsFromGrow(body: RequestBody, k: nat, acc: seq<string>, configured: map<string, string>, verb: string, rawPath: string, marshal: P.Value -> string)
    requires k <= |body.content|
    requires PayloadsFrom(body, k, acc, configured, verb, rawPath, marshal).Ok?
    ensures var r := PayloadsFrom(body, k, acc, configured, verb, rawPath, marshal).value;
      |acc| <= |r| && r[..|acc|] == acc && (body.required && k < |body.content| ==> |r| >= 1)
    decreases |body.content| - k
  {
    if k < |body.content| {
      MediaPayloadsGrow(body.content[k], body.required, configured, acc, verb, rawPath, marshal);
      var next := MediaPayloads(body.content[k], body.required, configured, acc, verb, rawPath, marshal).value;
      PayloadsFromGrow(body, k + 1, next, configured, verb, rawPath, marshal);
      var r := PayloadsFrom(body, k, acc, configured, verb, rawPath, marshal).value;
      assert r[..|next|][..|acc|] == r[..|acc|];
    }
  }

  /** Every payload list `getV3PathPayloads` returns is non-empty: a body
      that yields nothing becomes the single empty JSON string, which a
      required body with content never needs. */
  lemma PathPayloadsNonEmpty(body: RequestBody, configured: map<string, string>, verb: string, rawPath: string, marshal: P.Value -> string)
    requires PathPayloads(body, configured, verb, rawPath, marshal).Ok?
    ensures |PathPayloads(body, configured, verb, rawPath, marshal).value| >= 1
    ensures body.required && |body.content| > 0 ==>
      PathPayloads(body, configured, verb, rawPath, marshal) == PayloadsFrom(body, 0, [], configured, verb, rawPath, marshal)
  {
    PayloadsFromGrow(body, 0, [], configured, verb, rawPath, marshal);
  }

  // ---------------------------------------------------------------------
  // Properties: servers

  /** The chosen server is the first selectable one, and every server
      before it had all its variables. */
  lemma {:induction false} ChosenServer(servers: seq<Server>, k: nat, s: Settings) returns (j: nat)
    requires k <= |servers|
    requires BaseUrlFrom(servers, k, s).Ok?
    ensures k <= j < |servers| && Selectable(servers, j, s)
    ensures BaseUrlFrom(servers, k, s) == SubstituteFrom(servers[j].url, servers[j].variables, 0, s.serverVars)
    ensures forall i :: k <= i < j ==>
      !Selectable(servers, i, s) && SubstituteFrom(servers[i].url, servers[i].variables, 0, s.serverVars).Ok?
    decreases |servers| - k
  {
    if Selectable(servers, k, s) {
      j := k;
    } else {
      j := ChosenServer(servers, k + 1, s);
    }
  }

  /** Without a selectable server the choice fails, for want of a variable
      value or as ambiguous. */
  lemma {:induction false} NoSelectableServer(servers: seq<Server>, k: nat, s: Settings)
    requires k <= |servers|
    requires forall i :: k <= i < |servers| ==> !Selectable(servers, i, s)
    ensures BaseUrlFrom(servers, k, s).Err?
    ensures BaseUrlFrom(servers, k, s).error == AmbiguousServer || BaseUrlFrom(servers, k, s).error.MissingServerVariable?
    decreases |servers| - k
  {
    if k < |servers| {
      SubstituteFailure(servers[k].url, servers[k].variables, 0, s.serverVars);
      NoSelectableServer(servers, k + 1, s);
    }
  }

  /** Substitution fails exactly when a variable has neither a configured
      value nor a default, and then names that variable. */
  lemma {:induction false} SubstituteFailure(raw: string, vars: seq<ServerVariable>, j: nat, serverVars: Option<map<string, string>>)
    requires j <= |vars|
    ensures SubstituteFrom(raw, vars, j, serverVars).Err?
        <==> exists i :: j <= i < |vars| && VariableValue(vars[i], serverVars) == ""
    ensures SubstituteFrom(raw, vars, j, serverVars).Err? ==>
        SubstituteFrom(raw, vars, j, serverVars).error.MissingServerVariable?
    decreases |vars| - j
  {
    if j < |vars| && VariableValue(vars[j], serverVars) != "" {
      SubstituteFailure(ReplaceAll(raw, "{" + vars[j].name + "}", VariableValue(vars[j], serverVars)), vars, j + 1, serverVars);
    }
  }

  /** The operation's own servers replace the base URL of the document. */
  lemma OperationServersFirst(verb: string, rawPath: string, base: string, op: Operation, pc: PathConfig, s: Settings)
    requires ResolveTarget(verb, rawPath, base, op, pc, s).Ok?
    ensures |op.servers| > 0 ==> ResolveTarget(verb, rawPath, base, op, pc, s).value.url.base == BaseUrlFrom(op.servers, 0, s).value
    ensures |op.servers| == 0 ==> ResolveTarget(verb, rawPath, base, op, pc, s).value.url.base == base
  {
  }

  // ---------------------------------------------------------------------
  // Properties: security

  /** A scheme the conversion accepts: an API key, a bearer credential or
      a mutual TLS pair, each with its configuration. */
  predicate Supported(scheme: SecurityScheme, entry: map<string, string>) {
    (scheme.kind == "apiKey" && "apikey" in entry)
    || (scheme.kind == "http" && scheme.scheme == "bearer" && "creds" in entry)
    || (scheme.kind == "mutualTLS" && "cert" in entry && "key" in entry)
  }

  /** One scheme goes through exactly when it is declared and supported
      with its configuration; every other kind is an error. */
  lemma StepOkIff(name: string, doc: Document, entry: map<string, string>, st: AuthState)
    ensures SchemeStep(name, doc, entry, st).Ok? <==> name in doc.schemes && Supported(doc.schemes[name], entry)
  {
  }

  predicate Accepted(doc: Document, auth: map<string, map<string, string>>, name: string) {
    name in doc.schemes && Supported(doc.schemes[name], EntryOf(auth, name))
  }

  lemma {:induction false} NamesFromOkIff(doc: Document, auth: map<string, map<string, string>>, names: seq<string>, j: nat, st: AuthState)
    requires j <= |names|
    ensures NamesFrom(doc, auth, names, j, st).Ok? <==> forall i :: j <= i < |names| ==> Accepted(doc, auth, names[i])
    decreases |names| - j
  {
    if j < |names| {
      var step := SchemeStep(names[j], doc, EntryOf(auth, names[j]), st);
      StepOkIff(names[j], doc, EntryOf(auth, names[j]), st);
      if step.Ok? {
        NamesFromOkIff(doc, auth, names, j + 1, step.value);
      }
    }
  }

  /** The security requirements go through exactly when the `auth`
      settings exist (if there is any requirement) and every scheme they
      name is an accepted one. */
  lemma {:induction false} SecurityOkIff(doc: Document, auth: Option<map<string, map<string, string>>>, k: nat, st: AuthState)
    requires k <= |doc.security|
    ensures SecurityFrom(doc, auth, k, st).Ok? <==>
      k == |doc.security|
      || (auth.Some? && forall r, i :: k <= r < |doc.security| && 0 <= i < |doc.security[r]| ==> Accepted(doc, auth.value, doc.security[r][i]))
    decreases |doc.security| - k
  {
    if k < |doc.security| && auth.Some? {
      NamesFromOkIff(doc, auth.value, doc.security[k], 0, st);
      var step := NamesFrom(doc, auth.value, doc.security[k], 0, st);
      if step.Ok? {
        SecurityOkIff(doc, auth, k + 1, step.value);
      }
    }
  }

  /** What an accepted scheme does: an API key in a header and a bearer
      credential append one header value, an API key in the query or a
      cookie changes nothing, and mutual TLS sets the certificate and
      key. */
  lemma SchemeEffects(name: string, doc: Document, entry: map<string, string>, st: AuthState)
    requires name in doc.schemes && SchemeStep(name, doc, entry, st).Ok?
    ensures var scheme := doc.schemes[name];
      var r := SchemeStep(name, doc, entry, st).value;
      (scheme.kind == "apiKey" && scheme.location == "header" ==>
        r == st.(headers := S.AddHeader(st.headers, scheme.name, entry["apikey"]))
        && r.headers[S.CanonicalKey(scheme.name)][|r.headers[S.CanonicalKey(scheme.name)]| - 1] == entry["apikey"])
      && (scheme.kind == "apiKey" && scheme.location != "header" ==> r == st)
      && (scheme.kind == "http" ==>
        r == st.(headers := S.AddHeader(st.headers, "Authorization", BearerValue(entry["creds"])))
        && r.headers[S.CanonicalKey("Authorization")][|r.headers[S.CanonicalKey("Authorization")]| - 1] == BearerValue(entry["creds"]))
      && (scheme.kind == "mutualTLS" ==> r == st.(cert := entry["cert"], key := entry["key"]))
  {
  }

  /** Basic and digest credentials never get through: without a colon they
      fail the length check, and with one the realm is read from index 2 of
      a split that has two parts. */
  lemma BasicDigestNeverSucceed(name: string, doc: Document, entry: map<string, string>, st: AuthState)
    requires name in doc.schemes && doc.schemes[name].kind == "http"
    requires doc.schemes[name].scheme == "basic" || doc.schemes[name].scheme == "digest"
    requires "creds" in entry
    ensures !Contains(entry["creds"], ":") ==> SchemeStep(name, doc, entry, st) == Err(MalformedCredentials(name))
    ensures Contains(entry["creds"], ":") ==> SchemeStep(name, doc, entry, st) == Err(IndexOutOfRange(2, 2))
  {
    var creds := entry["creds"];
    FindSpec(creds, ":");
    if Contains(creds, ":") {
      var i := Find(creds, ":").value;
      assert SplitN(creds, ":", 2) == [creds[..i]] + SplitN(creds[i + 1..], ":", 1);
    }
  }

  // ---------------------------------------------------------------------
  // Corrected readings of the two security cases that do not work as
  // written (see "Findings" in the README)

  /** The credential parse the error message asks for: `user:pass` or
      `user:pass:realm`, split into at most three parts. */
  function ParseLogin(name: string, creds: string): (r: Result<S.Creds>)
    ensures r.Err? <==> !Contains(creds, ":")
    ensures r.Err? ==> r.error == MalformedCredentials(name)
  {
    FindSpec(creds, ":");
    var parts := SplitN(creds, ":", 3);
    if |parts| < 2 then Err(MalformedCredentials(name))
    else Ok(S.Creds(parts[0], parts[1], if |parts| == 3 then parts[2] else ""))
  }

  /** Credentials written by `SiegeCreds.String` parse back to themselves,
      with or without a realm. */
  lemma ParseLoginRoundTrip(name: string, c: S.Creds)
    requires !Contains(c.user, ":") && !Contains(c.password, ":")
    ensures ParseLogin(name, S.CredsString(c)) == Ok(c)
  {
    S.CredsSplitBack(c);
  }

  /** What the loops over the entries mean to do for an API key in the
      query or in a cookie: every entry gains the key. */
  function InjectApiKey(urls: seq<UrlData>, location: string, name: string, key: string): (r: seq<UrlData>)
    ensures |r| == |urls|
  {
    seq(|urls|, i requires 0 <= i < |urls| =>
      if location == "query" then urls[i].(url := urls[i].url.(query := EncodeOrder(urls[i].url.query + [(name, key)])))
      else if location == "cookie" then urls[i].(cookies := urls[i].cookies + [Cookie(name, key, "")])
      else urls[i])
  }

  /** Each entry's query gains the key after its earlier values under the
      same name and keeps every other parameter; or each entry's cookies
      gain the key last. Nothing else about an entry changes. */
  lemma ApiKeyInjected(urls: seq<UrlData>, location: string, name: string, key: string, i: nat)
    requires i < |urls|
    ensures var d := InjectApiKey(urls, location, name, key)[i];
      d.verb == urls[i].verb && d.payload == urls[i].payload && d.mediaType == urls[i].mediaType
      && d.url.base == urls[i].url.base && d.url.path == urls[i].url.path
    ensures var d := InjectApiKey(urls, location, name, key)[i];
      location == "query" ==>
        d.cookies == urls[i].cookies
        && WithKey(d.url.query, name) == WithKey(urls[i].url.query, name) + [(name, key)]
        && forall other :: other != name ==> WithKey(d.url.query, other) == WithKey(urls[i].url.query, other)
    ensures var d := InjectApiKey(urls, location, name, key)[i];
      location == "cookie" ==> d.url == urls[i].url && d.cookies == urls[i].cookies + [Cookie(name, key, "")]
  {
    var d := InjectApiKey(urls, location, name, key)[i];
    if location == "query" {
      assert d == urls[i].(url := urls[i].url.(query := EncodeOrder(urls[i].url.query + [(name, key)])));
      QueryGainsKey(urls[i].url.query, name, key);
    } else if location == "cookie" {
      assert d == urls[i].(cookies := urls[i].cookies + [Cookie(name, key, "")]);
    } else {
      assert d == urls[i];
    }
  }

  /** `Query`, `Add` and `Encode`: the new value follows the earlier ones
      under its name, and every other name keeps its values. */
  lemma QueryGainsKey(q: seq<(string, string)>, name: string, key: string)
    ensures WithKey(EncodeOrder(q + [(name, key)]), name) == WithKey(q, name) + [(name, key)]
    ensures forall other :: other != name ==> WithKey(EncodeOrder(q + [(name, key)]), other) == WithKey(q, other)
  {
    var p := [(name, key)];
    assert p[1..] == [];
    forall other
      ensures WithKey(EncodeOrder(q + p), other) == WithKey(q, other) + (if other == name then p else [])
    {
      EncodeOrderKeepsValues(q + p, other);
      WithKeyAppend(q, p, other);
      assert WithKey(p, other) == (if other == name then p else []) + WithKey(p[1..], other);
    }
    assert WithKey(q, name) + p == WithKey(q, name) + [(name, key)];
  }

  /** One scheme as intended: basic and digest credentials set the login,
      an API key in the query or a cookie reaches every entry, and every
      other scheme behaves as `SchemeStep`. */
  function IntendedSchemeStep(name: string, doc: Document, entry: map<string, string>, urls: seq<UrlData>, st: AuthState): Result<(seq<UrlData>, AuthState)> {
    if name in doc.schemes && doc.schemes[name].kind == "apiKey" && "apikey" in entry
       && (doc.schemes[name].location == "query" || doc.schemes[name].location == "cookie") then
      Ok((InjectApiKey(urls, doc.schemes[name].location, doc.schemes[name].name, entry["apikey"]), st))
    else if name in doc.schemes && doc.schemes[name].kind == "http" && "creds" in entry
       && (doc.schemes[name].scheme == "basic" || doc.schemes[name].scheme == "digest") then
      var login :- ParseLogin(name, entry["creds"]);
      Ok((urls, st.(login := login)))
    else
      var next :- SchemeStep(name, doc, entry, st);
      Ok((urls, next))
  }

  /** Basic and digest credentials written as `user:pass[:realm]` now set
      exactly that login and leave everything else alone. */
  lemma IntendedLogin(name: string, doc: Document, entry: map<string, string>, urls: seq<UrlData>, st: AuthState, c: S.Creds)
    requires name in doc.schemes && doc.schemes[name].kind == "http"
    requires doc.schemes[name].scheme == "basic" || doc.schemes[name].scheme == "digest"
    requires "creds" in entry && entry["creds"] == S.CredsString(c)
    requires !Contains(c.user, ":") && !Contains(c.password, ":")
    ensures IntendedSchemeStep(name, doc, entry, urls, st) == Ok((urls, st.(login := c)))
  {
    ParseLoginRoundTrip(name, c);
  }

  /** Outside the two corrected cases the intended step and the program
      agree, and a query or cookie API key never touches the global
      configuration in either. */
  lemma IntendedAgreesElsewhere(name: string, doc: Document, entry: map<string, string>, urls: seq<UrlData>, st: AuthState)
    ensures SchemeStep(name, doc, entry, st).Ok? && IntendedSchemeStep(name, doc, entry, urls, st).Ok? ==>
      IntendedSchemeStep(name, doc, entry, urls, st).value.1 == SchemeStep(name, doc, entry, st).value
    ensures !(name in doc.schemes && doc.schemes[name].kind == "http"
              && (doc.schemes[name].scheme == "basic" || doc.schemes[name].scheme == "digest")) ==>
      (SchemeStep(name, doc, entry, st).Ok? <==> IntendedSchemeStep(name, doc, entry, urls, st).Ok?)
  {
  }
}
