/**
  The MCP proxy route: one inbound request under `/api/oap_mcp` is checked
  against the configuration, rewritten into a request for the MCP server
  (path, headers, bearer token, body), sent once, and the upstream outcome is
  relayed back to the caller (status, headers, body) or mapped to an error.

  What the JavaScript runtime does for the route is given as inputs: the
  pathname of the parsed server URL, `JSON.parse` of the static credential,
  the message of the error a response constructor throws, and `fetch` itself.
 */
module McpProxy {
  import opened Wrappers
  import opened FetchHeaders

  // ---------------------------------------------------------------------
  // Constants of the route
  // ---------------------------------------------------------------------

  const ApiPrefix: string := "/api/oap_mcp"
  const CookieName: string := "X-MCP-Access-Token"
  const AcceptValue: string := "application/json, text/event-stream"
  const AuthorizationName: string := "Authorization"
  const AcceptName: string := "Accept"
  const ConfigMessage: string := "MCP_SERVER_URL environment variable is not set. Please set it to the URL of your MCP server, or NEXT_PUBLIC_MCP_SERVER_URL if you do not want to use the proxy route."
  const AuthMessage: string := "Failed to obtain access token. Please provide MCP_TOKENS environment variable or X-MCP-Access-Token cookie."
  const ProxyFailedMessage: string := "Proxy request failed"
  const UnknownErrorMessage: string := "Unknown error"

  /** Header list a JSON response starts with (`NextResponse.json`). */
  const JsonDefaults: seq<Header> := [("content-type", "application/json")]
  /** Header list a response built from a string body starts with. */
  const TextDefaults: seq<Header> := [("content-type", "text/plain;charset=UTF-8")]

  // ---------------------------------------------------------------------
  // Data model
  // ---------------------------------------------------------------------

  /**
    The environment read when the route module loads: the server URL
    (NEXT_PUBLIC_MCP_SERVER_URL), the auth switch
    (NEXT_PUBLIC_MCP_AUTH_REQUIRED) and the static credential (MCP_TOKENS).
   */
  datatype Config = Config(serverUrl: Option<string>, authRequiredVar: Option<string>, tokens: Option<string>)

  /** The inbound request: URL pathname and search, method, the headers as
      its `Headers` object holds them (normalised, valid values) in the order
      `forEach` visits them, the cookies by name, and the body. */
  datatype Request = Request(
    pathname: string,
    search: string,
    httpMethod: string,
    headers: HeaderList,
    cookies: map<string, string>,
    body: Option<string>)

  /** What `const { access_token } = JSON.parse(MCP_TOKENS)` yields: a throw
      (bad JSON, or a `null` result that cannot be destructured), or the
      field, absent or falsy as None. */
  datatype TokenParse = ParseError | Parsed(accessToken: Option<string>)

  /** Runtime services the route relies on and does not define. */
  datatype Runtime = Runtime(
    serverPathname: string -> string,
    parseTokens: string -> TokenParse,
    constructorRejection: int -> string)

  /** The request sent to the MCP server. */
  datatype Outbound = Outbound(target: string, httpMethod: string, headers: seq<Header>, body: Option<string>)

  /** Outcome of the preparation that precedes the upstream call. */
  datatype Prepared =
    | ConfigError
    | AuthError
    | InvalidAuthorization  // `headers.set("Authorization", ...)` throws, outside the `try`
    | Forward(outbound: Outbound)

  /** A value thrown by the upstream call or by building the relayed response. */
  datatype Thrown = ErrorInstance(message: string) | NonError

  /** The upstream body as read: valid JSON (re-serialised) or raw text. */
  datatype BodyRead = JsonData(json: string) | NotJson(text: string)

  /** What `fetch` produced. */
  datatype Upstream =
    | Rejected(error: Thrown)
    | Received(status: int, statusText: string, headers: HeaderList, body: BodyRead)

  datatype ResponseBody =
    | ErrorPayload(message: string, error: Option<string>)
    | Json(json: string)
    | Text(text: string)

  /** The response returned to the caller. */
  datatype Response = Response(status: int, statusText: string, headers: seq<Header>, body: ResponseBody)

  /** How the handler ends: it returns a response, or an exception escapes it. */
  datatype Completion = Returns(response: Response) | Throws

  // ---------------------------------------------------------------------
  // JavaScript truthiness and the small decisions of the route
  // ---------------------------------------------------------------------

  /** An optional string that JavaScript treats as true: present and non-empty. */
  predicate Truthy(s: Option<string>) {
    s.Some? && s.value != ""
  }

  /** The auth switch holds only for the exact text "true". */
  predicate AuthRequired(cfg: Config) {
    cfg.authRequiredVar == Some("true")
  }

  /** Methods other than exactly "GET" and "HEAD" forward the body. */
  predicate ForwardsBody(httpMethod: string) {
    httpMethod != "GET" && httpMethod != "HEAD"
  }

  /** The value of the access-token cookie, if the request carries it. */
  function CookieToken(req: Request): Option<string> {
    if CookieName in req.cookies then Some(req.cookies[CookieName]) else None
  }

  predicate StartsWith(s: string, prefix: string) {
    |prefix| <= |s| && s[..|prefix|] == prefix
  }

  predicate EndsWith(s: string, suffix: string) {
    |suffix| <= |s| && s[|s| - |suffix|..] == suffix
  }

  // ---------------------------------------------------------------------
  // Path rewriting
  // ---------------------------------------------------------------------

  /** `pathname.replace(/^\/api\/oap_mcp/, "")`. */
  function SubPath(pathname: string): string {
    if StartsWith(pathname, ApiPrefix) then pathname[|ApiPrefix|..] else pathname
  }

  /** The server pathname followed by one `/` unless it already ends in one. */
  function MountPoint(base: string): string {
    base + (if EndsWith(base, "/") then "" else "/")
  }

  /** The pathname assigned to the target URL. */
  function TargetPath(base: string, sub: string, search: string): string {
    MountPoint(base) + "mcp" + sub + search
  }

  /** Number of `/` characters that end the string. */
  function TrailingSlashes(s: string): nat {
    if s != [] && s[|s| - 1] == '/' then 1 + TrailingSlashes(s[..|s| - 1]) else 0
  }

  /** The prefix is stripped only where the pathname starts with it. */
  lemma SubPathStripsPrefix(pathname: string)
    ensures StartsWith(pathname, ApiPrefix) ==> ApiPrefix + SubPath(pathname) == pathname
    ensures !StartsWith(pathname, ApiPrefix) ==> SubPath(pathname) == pathname
    ensures pathname == ApiPrefix ==> SubPath(pathname) == ""
  {
    if StartsWith(pathname, ApiPrefix) {
      assert pathname == pathname[..|ApiPrefix|] + pathname[|ApiPrefix|..];
    }
  }

  /**
    The separator before `mcp`: the mount point starts with the server
    pathname and ends in `/`; a pathname without a trailing `/` gets exactly
    one, and a pathname with trailing slashes gets none added.
   */
  lemma MountPointSeparator(base: string)
    ensures StartsWith(MountPoint(base), base)
    ensures EndsWith(MountPoint(base), "/")
    ensures TrailingSlashes(MountPoint(base)) == if TrailingSlashes(base) == 0 then 1 else TrailingSlashes(base)
    ensures |MountPoint(base)| <= |base| + 1
  {
    var m := MountPoint(base);
    assert m[..|base|] == base;
    if !EndsWith(base, "/") {
      assert m[..|m| - 1] == base;
      if base != [] {
        assert base[|base| - 1..] == [base[|base| - 1]];
      }
    } else {
      assert base[|base| - 1..] == [base[|base| - 1]];
      assert m == base && base[|base| - 1] == '/';
    }
  }

  /**
    The target pathname is the mount point, `mcp`, then the sub-path and the
    search text unchanged, so the sub-path and search can be read back.
   */
  lemma TargetPathRecovers(base: string, sub: string, search: string)
    ensures StartsWith(TargetPath(base, sub, search), MountPoint(base) + "mcp")
    ensures TargetPath(base, sub, search)[|MountPoint(base)| + 3..] == sub + search
  {
    var t := TargetPath(base, sub, search);
    var head := MountPoint(base) + "mcp";
    assert t == head + (sub + search);
    assert t[..|head|] == head;
  }

  /** A URL search text: empty, or `?` followed by the query. */
  predicate IsSearch(search: string) {
    search == "" || search[0] == '?'
  }

  /** Index of the first `?` of the string, or its length when there is none. */
  function QueryStart(s: string): nat {
    if s == [] || s[0] == '?' then 0 else 1 + QueryStart(s[1..])
  }

  /** A path without `?` followed by a search text splits at the first `?`. */
  lemma {:induction false} QueryStartAfterPath(path: string, search: string)
    requires '?' !in path && IsSearch(search)
    ensures QueryStart(path + search) == |path|
  {
    if path != [] {
      assert (path + search)[0] == path[0];
      assert (path + search)[1..] == path[1..] + search;
      QueryStartAfterPath(path[1..], search);
    }
  }

  /**
    For a fixed server, distinct sub-path and search pairs give distinct
    targets, for sub-paths as a parsed URL's pathname has them (a `?` in the
    path is percent-encoded) and search texts as `url.search` gives them.
   */
  lemma TargetPathInjective(base: string, sub1: string, search1: string, sub2: string, search2: string)
    requires '?' !in sub1 && '?' !in sub2
    requires IsSearch(search1) && IsSearch(search2)
    requires TargetPath(base, sub1, search1) == TargetPath(base, sub2, search2)
    ensures sub1 == sub2 && search1 == search2
  {
    TargetPathRecovers(base, sub1, search1);
    TargetPathRecovers(base, sub2, search2);
    var joined := sub1 + search1;
    assert joined == sub2 + search2;
    QueryStartAfterPath(sub1, search1);
    QueryStartAfterPath(sub2, search2);
    assert sub1 == joined[..|sub1|] == sub2;
    assert search1 == joined[|sub1|..] == search2;
  }

  // ---------------------------------------------------------------------
  // Token resolution
  // ---------------------------------------------------------------------

  /** The token the static credential supplies: None when it is unset or
      empty, does not parse, or has no truthy `access_token`. */
  function ConfigToken(cfg: Config, rt: Runtime): (r: Option<string>)
    ensures r.Some? ==> r.value != ""
  {
    if Truthy(cfg.tokens) then
      match rt.parseTokens(cfg.tokens.value)
      case Parsed(Some(t)) => if t != "" then Some(t) else None
      case _ => None
    else None
  }

  /** The token chosen when auth is required: the cookie, then the static credential. */
  function ResolveToken(cfg: Config, req: Request, rt: Runtime): (r: Option<string>)
    ensures r.Some? ==> r.value != ""
  {
    if Truthy(CookieToken(req)) then CookieToken(req) else ConfigToken(cfg, rt)
  }

  /** The first truthy candidate of an ordered list of token sources. */
  function FirstTruthy(candidates: seq<Option<string>>): (r: Option<string>)
    ensures r.Some? ==> r.value != ""
    ensures r.Some? ==> exists k :: 0 <= k < |candidates| && candidates[k] == r
                                    && forall j :: 0 <= j < k ==> !Truthy(candidates[j])
    ensures r.None? <==> forall i :: 0 <= i < |candidates| ==> !Truthy(candidates[i])
  {
    if candidates == [] then None
    else if Truthy(candidates[0]) then candidates[0]
    else
      var r := FirstTruthy(candidates[1..]);
      assert forall i :: 1 <= i < |candidates| ==> candidates[i] == candidates[1..][i - 1];
      r
  }

  /**
    Token resolution is the ordered chain [cookie, static credential]: the
    first truthy source wins, and a resolved token is never empty.
   */
  lemma ResolveTokenIsPriorityChain(cfg: Config, req: Request, rt: Runtime)
    ensures ResolveToken(cfg, req, rt) == FirstTruthy([CookieToken(req), ConfigToken(cfg, rt)])
    ensures ResolveToken(cfg, req, rt).Some? ==> ResolveToken(cfg, req, rt).value != ""
  {
    var cands := [CookieToken(req), ConfigToken(cfg, rt)];
    assert cands[1..] == [ConfigToken(cfg, rt)];
    assert cands[1..][1..] == [];
  }

  /** A non-empty cookie wins, whatever the static credential holds. */
  lemma CookieWins(cfg: Config, req: Request, rt: Runtime)
    requires CookieName in req.cookies && req.cookies[CookieName] != ""
    ensures ResolveToken(cfg, req, rt) == Some(req.cookies[CookieName])
  {
  }

  /**
    Without a usable cookie the static credential's truthy `access_token` is
    used; a parse failure or a missing or empty field leaves no token.
   */
  lemma StaticCredentialFallback(cfg: Config, req: Request, rt: Runtime)
    requires !Truthy(CookieToken(req))
    ensures Truthy(cfg.tokens) && rt.parseTokens(cfg.tokens.value).Parsed?
            && Truthy(rt.parseTokens(cfg.tokens.value).accessToken)
            ==> ResolveToken(cfg, req, rt) == rt.parseTokens(cfg.tokens.value).accessToken
    ensures Truthy(cfg.tokens) && rt.parseTokens(cfg.tokens.value) == ParseError
            ==> ResolveToken(cfg, req, rt) == None
    ensures Truthy(cfg.tokens) && rt.parseTokens(cfg.tokens.value) in {Parsed(None), Parsed(Some(""))}
            ==> ResolveToken(cfg, req, rt) == None
    ensures !Truthy(cfg.tokens) ==> ResolveToken(cfg, req, rt) == None
  {
  }

  // ---------------------------------------------------------------------
  // Preparation of the outbound request
  // ---------------------------------------------------------------------

  /** The inbound headers without `host`, appended one by one to a new list. */
  function ForwardedHeaders(inbound: seq<Header>): seq<Header> {
    AppendAll([], RemoveName(inbound, "host"))
  }

  /**
    The outbound header list: the forwarded headers, then Authorization set
    to the bearer token when there is one, then Accept set to its fixed value.
   */
  function OutboundHeaderList(inbound: seq<Header>, token: Option<string>): seq<Header> {
    OutboundHeaderAdditions(ForwardedHeaders(inbound), token)
  }

  /** The Authorization value built for a token, before `set` normalises it. */
  function Bearer(token: string): string {
    "Bearer " + token
  }

  /**
    Authorization set to the normalised bearer value when there is a token,
    then Accept set (its fixed value is already normalised).
   */
  function OutboundHeaderAdditions(forwarded: seq<Header>, token: Option<string>): seq<Header> {
    var withAuth := if token.Some? then SetHeader(forwarded, AuthorizationName, Normalize(Bearer(token.value))) else forwarded;
    SetHeader(withAuth, AcceptName, AcceptValue)
  }

  /** Everything the route decides before it calls the MCP server. */
  function Prepare(cfg: Config, req: Request, rt: Runtime): (r: Prepared)
    ensures r.ConfigError? <==> !Truthy(cfg.serverUrl)
    ensures r.AuthError? <==> Truthy(cfg.serverUrl) && AuthRequired(cfg) && ResolveToken(cfg, req, rt).None?
    ensures r.InvalidAuthorization? <==>
      Truthy(cfg.serverUrl) && AuthRequired(cfg) && ResolveToken(cfg, req, rt).Some?
      && !ValidValue(Bearer(ResolveToken(cfg, req, rt).value))
    ensures r.Forward? ==> r.outbound.httpMethod == req.httpMethod
    ensures r.Forward? ==> r.outbound.body == if ForwardsBody(req.httpMethod) then req.body else None
  {
    if !Truthy(cfg.serverUrl) then ConfigError
    else
      var token := if AuthRequired(cfg) then ResolveToken(cfg, req, rt) else None;
      if AuthRequired(cfg) && token.None? then AuthError
      else if token.Some? && !ValidValue(Bearer(token.value)) then InvalidAuthorization
      else
        var target := TargetPath(rt.serverPathname(cfg.serverUrl.value), SubPath(req.pathname), req.search);
        var body := if ForwardsBody(req.httpMethod) then req.body else None;
        Forward(Outbound(target, req.httpMethod, OutboundHeaderList(req.headers, token), body))
  }

  /**
    The forwarded header list drops every `host` header in any casing and
    keeps the values of every other name in order.
   */
  lemma ForwardedHeadersValues(inbound: seq<Header>, m: string)
    ensures Values(ForwardedHeaders(inbound), m) == if SameName(m, "host") then [] else Values(inbound, m)
    ensures !Contains(ForwardedHeaders(inbound), "host")
  {
    AppendAllValues([], RemoveName(inbound, "host"), m);
    RemoveNameValues(inbound, "host", m);
    AppendAllValues([], RemoveName(inbound, "host"), "host");
    RemoveNameValues(inbound, "host", "host");
    ValuesEmptyIffAbsent(ForwardedHeaders(inbound), "host");
  }

  /**
    With lower-case names, as a `Headers` object yields them, the forwarded
    list is exactly the inbound list without its `host` headers.
   */
  lemma ForwardedHeadersExact(inbound: seq<Header>)
    requires AllLowerNames(inbound)
    ensures ForwardedHeaders(inbound) == RemoveName(inbound, "host")
  {
    RemoveNameKeepsLowerNames(inbound, "host");
    AppendAllLowerNames([], RemoveName(inbound, "host"));
  }

  /**
    The outbound header list: no `host`; Accept holds exactly the fixed
    value; Authorization holds exactly the bearer token when there is one and
    its inbound values otherwise; every other name keeps its inbound values.
   */
  lemma OutboundHeaderListValues(inbound: seq<Header>, token: Option<string>, m: string)
    ensures Values(OutboundHeaderList(inbound, token), m)
         == if SameName(m, "accept") then [AcceptValue]
            else if token.Some? && SameName(m, "authorization") then [Normalize(Bearer(token.value))]
            else if SameName(m, "host") then []
            else Values(inbound, m)
  {
    NameSpellings();
    assert SameName(m, AcceptName) == SameName(m, "accept");
    assert SameName(m, AuthorizationName) == SameName(m, "authorization");
    var forwarded := ForwardedHeaders(inbound);
    var withAuth := if token.Some? then SetHeader(forwarded, AuthorizationName, Normalize(Bearer(token.value))) else forwarded;
    assert OutboundHeaderList(inbound, token) == SetHeader(withAuth, AcceptName, AcceptValue);
    ForwardedHeadersValues(inbound, m);
    SetHeaderValues(withAuth, AcceptName, AcceptValue, m);
    if token.Some? {
      SetHeaderValues(forwarded, AuthorizationName, Normalize(Bearer(token.value)), m);
    }
  }

  /**
    The bearer value `set` stores: a token that does not end in HTTP
    whitespace is kept exactly; trailing whitespace is dropped; and a token
    with a NUL or a character beyond one byte makes `set` throw.
   */
  lemma BearerValue(token: string)
    ensures token != "" && !IsHttpWhitespace(token[|token| - 1]) ==> Normalize(Bearer(token)) == Bearer(token)
    ensures token != "" && !IsHttpWhitespace(token[|token| - 1]) ==> Normalize(Bearer(token + " ")) == Bearer(token)
    ensures (exists k :: 0 <= k < |token| && (token[k] == '\0' || token[k] as int > 0xFF)) ==> !ValidValue(Bearer(token))
  {
    var b := Bearer(token);
    if token != "" && !IsHttpWhitespace(token[|token| - 1]) {
      NormalizeFixed(b);
      var b2 := Bearer(token + " ");
      assert b2 == b + " ";
      assert LeadingWhitespace(b2) == 0;
      assert TrailingWhitespace(b2[..|b2| - 1]) == 0 by {
        assert b2[..|b2| - 1] == b;
      }
      assert b2[..|b2| - 1] == b;
    }
    if exists k :: 0 <= k < |token| && (token[k] == '\0' || token[k] as int > 0xFF) {
      var k :| 0 <= k < |token| && (token[k] == '\0' || token[k] as int > 0xFF);
      assert b[k + 7] == token[k];
      NulOrWideCharInvalid(b, k + 7);
    }
  }

  /** The fixed Accept value is stored unchanged and never makes `set` throw. */
  lemma AcceptValueStored()
    ensures Normalize(AcceptValue) == AcceptValue
    ensures ValidValue(AcceptValue)
  {
    var v := AcceptValue;
    assert v == "application/json, text/event-stream" && |v| == 35;
    forall k | 0 <= k < |v|
      ensures ' ' <= v[k] <= '~'
    {
      if k < 9 {} else if k < 18 {} else if k < 27 {} else {}
    }
    PrintableStored(v);
  }

  /** `host` is its own lower-case form. */
  lemma HostIsLower()
    ensures Lower("host") == "host"
  {
    assert Lower("host")[0] == 'h';
  }

  /** The lower-case forms of the names the route sets, in either spelling. */
  lemma NameSpellings()
    ensures Lower(AcceptName) == Lower("accept") == "accept"
    ensures Lower(AuthorizationName) == Lower("authorization") == "authorization"
  {
    assert Lower(AcceptName) == "accept";
    assert Lower("accept") == "accept";
    assert Lower(AuthorizationName) == "authorization";
    assert Lower("authorization") == "authorization";
  }

  /**
    The outbound headers of a forwarded request: no `host`; exactly one
    Accept value, the fixed one; Authorization is exactly the bearer token
    when auth is required and passes through untouched otherwise; every
    other name keeps its inbound values.
   */
  lemma OutboundHeaders(cfg: Config, req: Request, rt: Runtime, m: string)
    requires Prepare(cfg, req, rt).Forward?
    ensures !Contains(Prepare(cfg, req, rt).outbound.headers, "host")
    ensures Values(Prepare(cfg, req, rt).outbound.headers, "accept") == [AcceptValue]
    ensures AuthRequired(cfg) ==>
      Values(Prepare(cfg, req, rt).outbound.headers, "authorization") == [Normalize(Bearer(ResolveToken(cfg, req, rt).value))]
    ensures !AuthRequired(cfg) ==>
      Values(Prepare(cfg, req, rt).outbound.headers, "authorization") == Values(req.headers, "authorization")
    ensures !SameName(m, "host") && !SameName(m, "accept") && !SameName(m, "authorization") ==>
      Values(Prepare(cfg, req, rt).outbound.headers, m) == Values(req.headers, m)
  {
    var token := if AuthRequired(cfg) then ResolveToken(cfg, req, rt) else None;
    var out := OutboundHeaderList(req.headers, token);
    assert Prepare(cfg, req, rt).outbound.headers == out;
    OutboundHeaderListValues(req.headers, token, m);
    OutboundHeaderListValues(req.headers, token, "accept");
    OutboundHeaderListValues(req.headers, token, "authorization");
    OutboundHeaderListValues(req.headers, token, "host");
    ValuesEmptyIffAbsent(out, "host");
  }

  /** The target of a forwarded request is the rewritten path of the inbound one. */
  lemma OutboundTarget(cfg: Config, req: Request, rt: Runtime)
    requires Prepare(cfg, req, rt).Forward?
    ensures var base := rt.serverPathname(cfg.serverUrl.value);
      && StartsWith(Prepare(cfg, req, rt).outbound.target, MountPoint(base) + "mcp")
      && Prepare(cfg, req, rt).outbound.target[|MountPoint(base)| + 3..] == SubPath(req.pathname) + req.search
  {
    TargetPathRecovers(rt.serverPathname(cfg.serverUrl.value), SubPath(req.pathname), req.search);
  }

  /** One more inbound header: appended unless its name is `host` in any casing. */
  lemma ForwardedStep(prefix: seq<Header>, h: Header)
    ensures ForwardedHeaders(prefix + [h])
         == if Lower(h.0) != "host" then AppendHeader(ForwardedHeaders(prefix), h.0, h.1)
            else ForwardedHeaders(prefix)
  {
    RemoveNameSnoc(prefix, h, "host");
    HostIsLower();
    if Lower(h.0) != "host" {
      AppendAllSnoc([], RemoveName(prefix, "host"), h);
    } else {
      assert RemoveName(prefix + [h], "host") == RemoveName(prefix, "host");
    }
  }

  /** A new `Headers` object holding the inbound headers other than `host`, appended in order. */
  method CopyForwardedHeaders(inbound: HeaderList) returns (headers: Headers)
    ensures fresh(headers)
    ensures headers.list == ForwardedHeaders(inbound)
  {
    headers := new Headers();
    var i := 0;
    while i < |inbound|
      invariant 0 <= i <= |inbound|
      invariant fresh(headers)
      invariant headers.list == ForwardedHeaders(inbound[..i])
    {
      var (key, value) := inbound[i];
      assert inbound[..i + 1] == inbound[..i] + [(key, value)];
      ForwardedStep(inbound[..i], (key, value));
      if Lower(key) != "host" {
        headers.Append(key, value);
      }
      i := i + 1;
    }
    assert inbound[..i] == inbound;
  }

  /** The token chain when auth is required: the cookie, else `MCP_TOKENS`. */
  method ResolveAccessToken(cfg: Config, req: Request, rt: Runtime) returns (accessToken: Option<string>)
    ensures accessToken == ResolveToken(cfg, req, rt)
  {
    accessToken := None;
    var cookie := CookieToken(req);
    if Truthy(cookie) {
      accessToken := cookie;
    } else if Truthy(cfg.tokens) {
      var parsed := rt.parseTokens(cfg.tokens.value);
      if parsed.Parsed? && Truthy(parsed.accessToken) {
        accessToken := parsed.accessToken;
      }
    }
  }

  /**
    Sets the bearer token, when there is one, then the fixed Accept value;
    `ok` is false when setting the bearer value throws, and the list is then
    left as it was.
   */
  method SetAuthorizationAndAccept(headers: Headers, accessToken: Option<string>) returns (ok: bool)
    modifies headers
    ensures ok == (accessToken.None? || ValidValue(Bearer(accessToken.value)))
    ensures headers.list == if ok then OutboundHeaderAdditions(old(headers.list), accessToken) else old(headers.list)
  {
    if accessToken.Some? {
      ok := headers.Set(AuthorizationName, Bearer(accessToken.value));
      if !ok {
        return;
      }
    }
    AcceptValueStored();
    ok := headers.Set(AcceptName, AcceptValue);
  }

  /** `proxyRequest` up to the upstream call. */
  method PrepareRequest(cfg: Config, req: Request, rt: Runtime) returns (r: Prepared)
    ensures r == Prepare(cfg, req, rt)
  {
    if !Truthy(cfg.serverUrl) {
      return ConfigError;
    }
    var path := SubPath(req.pathname);
    var target := TargetPath(rt.serverPathname(cfg.serverUrl.value), path, req.search);

    var headers := CopyForwardedHeaders(req.headers);

    var accessToken: Option<string> := None;
    if AuthRequired(cfg) {
      accessToken := ResolveAccessToken(cfg, req, rt);
      if !Truthy(accessToken) {
        return AuthError;
      }
    }
    var ok := SetAuthorizationAndAccept(headers, accessToken);
    if !ok {
      return InvalidAuthorization;
    }

    var body: Option<string> := None;
    if ForwardsBody(req.httpMethod) {
      body := req.body;
    }
    r := Forward(Outbound(target, req.httpMethod, headers.list, body));
  }

  // ---------------------------------------------------------------------
  // Relaying the upstream outcome
  // ---------------------------------------------------------------------

  /** A JSON error response with the given status. */
  function ErrorResponse(status: int, message: string, error: Option<string>): Response {
    Response(status, "", [("Content-Type", "application/json")], ErrorPayload(message, error))
  }

  /** `error instanceof Error ? error.message : "Unknown error"`. */
  function ErrorText(e: Thrown): string {
    match e
    case ErrorInstance(msg) => msg
    case NonError => UnknownErrorMessage
  }

  /** A null body status of the Fetch Standard. */
  predicate NullBodyStatus(status: int) {
    status == 101 || status == 103 || status == 204 || status == 205 || status == 304
  }

  /**
    A response can be built with a body and this status: the Fetch Standard's
    Response constructor throws for a status outside 200..599 and for a null
    body status, and the relay always passes a body.
   */
  predicate Constructible(status: int) {
    200 <= status <= 599 && !NullBodyStatus(status)
  }

  /** The response the route returns for an upstream outcome. */
  function Relay(up: Upstream, rt: Runtime): (resp: Response)
    ensures up.Rejected? ==> resp == ErrorResponse(502, ProxyFailedMessage, Some(ErrorText(up.error)))
    ensures up.Received? && !Constructible(up.status) ==>
      resp == ErrorResponse(502, ProxyFailedMessage, Some(rt.constructorRejection(up.status)))
    ensures up.Received? && Constructible(up.status) ==>
      resp.status == up.status && resp.statusText == up.statusText
  {
    match up
    case Rejected(e) => ErrorResponse(502, ProxyFailedMessage, Some(ErrorText(e)))
    case Received(status, statusText, headers, body) =>
      if !Constructible(status) then
        ErrorResponse(502, ProxyFailedMessage, Some(rt.constructorRejection(status)))
      else
        match body
        case JsonData(j) => Response(status, statusText, SetAll(JsonDefaults, headers), Json(j))
        case NotJson(t) => Response(status, statusText, SetAll(TextDefaults, headers), Text(t))
  }

  /**
    A relayed response carries the upstream body as parsed or as raw text,
    and for every header name the upstream sent, exactly the last value it
    sent; other names keep the relay's defaults.
   */
  lemma RelayedHeadersAndBody(up: Upstream, rt: Runtime, m: string)
    requires up.Received? && Constructible(up.status)
    ensures up.body.JsonData? ==> Relay(up, rt).body == Json(up.body.json)
    ensures up.body.NotJson? ==> Relay(up, rt).body == Text(up.body.text)
    ensures Values(Relay(up, rt).headers, m)
         == match LastValue(up.headers, m)
            case Some(v) => [v]
            case None => Values(if up.body.JsonData? then JsonDefaults else TextDefaults, m)
  {
    SetAllValues(if up.body.JsonData? then JsonDefaults else TextDefaults, up.headers, m);
  }

  /** An upstream Content-Type (an event stream, say) replaces the relay's default. */
  lemma RelayKeepsContentType(up: Upstream, rt: Runtime, contentType: string)
    requires up.Received? && Constructible(up.status)
    requires LastValue(up.headers, "content-type") == Some(contentType)
    ensures Values(Relay(up, rt).headers, "content-type") == [contentType]
  {
    RelayedHeadersAndBody(up, rt, "content-type");
  }

  /** The relay step of `proxyRequest`: status kept, upstream headers copied with `set`. */
  method RelayResponse(up: Upstream, rt: Runtime) returns (resp: Response)
    ensures resp == Relay(up, rt)
  {
    if up.Rejected? {
      return ErrorResponse(502, ProxyFailedMessage, Some(ErrorText(up.error)));
    }
    if !Constructible(up.status) {
      return ErrorResponse(502, ProxyFailedMessage, Some(rt.constructorRejection(up.status)));
    }
    var defaults := if up.body.JsonData? then JsonDefaults else TextDefaults;
    var body := if up.body.JsonData? then Json(up.body.json) else Text(up.body.text);
    var headers := new Headers.Of(defaults);
    CopyUpstreamHeaders(headers, up.headers);
    resp := Response(up.status, up.statusText, headers.list, body);
  }

  /** `response.headers.forEach((value, key) => newResponse.headers.set(key, value))`. */
  method CopyUpstreamHeaders(headers: Headers, upstream: HeaderList)
    modifies headers
    ensures headers.list == SetAll(old(headers.list), upstream)
  {
    ghost var defaults := headers.list;
    var i := 0;
    while i < |upstream|
      invariant 0 <= i <= |upstream|
      invariant headers.list == SetAll(defaults, upstream[..i])
    {
      var (key, value) := upstream[i];
      assert upstream[..i + 1][..i] == upstream[..i];
      assert StoredValue(upstream[i].1);
      var ok := headers.Set(key, value);
      i := i + 1;
    }
    assert upstream[..i] == upstream;
  }

  // ---------------------------------------------------------------------
  // The whole route
  // ---------------------------------------------------------------------

  /**
    `proxyRequest`: the response, and the requests sent to the MCP server
    (`fetch` stands for the single upstream call).
   */
  function Handle(cfg: Config, req: Request, rt: Runtime, fetch: Outbound -> Upstream): (Completion, seq<Outbound>) {
    match Prepare(cfg, req, rt)
    case ConfigError => (Returns(ErrorResponse(500, ConfigMessage, None)), [])
    case AuthError => (Returns(ErrorResponse(401, AuthMessage, None)), [])
    case InvalidAuthorization => (Throws, [])
    case Forward(out) => (Returns(Relay(fetch(out), rt)), [out])
  }

  /**
    A missing or empty server URL gives 500 for every request and sends
    nothing, before and regardless of any authentication outcome.
   */
  lemma MissingServerUrl(cfg: Config, req: Request, rt: Runtime, fetch: Outbound -> Upstream)
    requires !Truthy(cfg.serverUrl)
    ensures Handle(cfg, req, rt, fetch).0 == Returns(ErrorResponse(500, ConfigMessage, None))
    ensures Handle(cfg, req, rt, fetch).1 == []
  {
  }

  /** Auth required and no token resolved: 401, and nothing is sent. */
  lemma MissingToken(cfg: Config, req: Request, rt: Runtime, fetch: Outbound -> Upstream)
    requires Truthy(cfg.serverUrl) && AuthRequired(cfg)
    requires !Truthy(CookieToken(req)) && ConfigToken(cfg, rt).None?
    ensures Handle(cfg, req, rt, fetch).0 == Returns(ErrorResponse(401, AuthMessage, None))
    ensures Handle(cfg, req, rt, fetch).1 == []
  {
  }

  /**
    A token whose bearer value `set` rejects (a NUL, a CR or LF inside it, a
    character beyond one byte) makes the handler throw before any request is
    sent: the `set` call is outside the `try`.
   */
  lemma InvalidTokenThrows(cfg: Config, req: Request, rt: Runtime, fetch: Outbound -> Upstream)
    requires Truthy(cfg.serverUrl) && AuthRequired(cfg)
    requires ResolveToken(cfg, req, rt).Some? && !ValidValue(Bearer(ResolveToken(cfg, req, rt).value))
    ensures Handle(cfg, req, rt, fetch) == (Throws, [])
  {
  }

  /**
    The handler throws exactly when the bearer value is rejected; otherwise
    the status is 500, 401 or 502, or the upstream's own status. A request
    is sent to the MCP server exactly when no local check fails, and then
    exactly once.
   */
  lemma HandleOutcomes(cfg: Config, req: Request, rt: Runtime, fetch: Outbound -> Upstream)
    ensures var (done, sent) := Handle(cfg, req, rt, fetch);
      && |sent| <= 1
      && (|sent| == 1 <==> Prepare(cfg, req, rt).Forward?)
      && (done.Throws? <==> Prepare(cfg, req, rt).InvalidAuthorization?)
      && (done.Returns? ==>
            done.response.status in {500, 401, 502}
            || (|sent| == 1 && fetch(sent[0]).Received? && done.response.status == fetch(sent[0]).status))
  {
  }

  /** `proxyRequest` as a whole. */
  method ProxyRequest(cfg: Config, req: Request, rt: Runtime, fetch: Outbound -> Upstream)
    returns (done: Completion, sent: seq<Outbound>)
    ensures (done, sent) == Handle(cfg, req, rt, fetch)
  {
    var prepared := PrepareRequest(cfg, req, rt);
    match prepared {
      case ConfigError =>
        return Returns(ErrorResponse(500, ConfigMessage, None)), [];
      case AuthError =>
        return Returns(ErrorResponse(401, AuthMessage, None)), [];
      case InvalidAuthorization =>
        return Throws, [];
      case Forward(out) =>
        var up := fetch(out);
        var resp := RelayResponse(up, rt);
        done, sent := Returns(resp), [out];
    }
  }
}
