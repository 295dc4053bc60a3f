# MCP proxy route — a Dafny model

This project models `proxyRequest`, the Next.js route handler of the Open
Agent Platform web app that forwards requests under `/api/oap_mcp` to the
configured MCP server. It covers one request from arrival to response:

- **Configuration check.** A missing or empty server URL gives 500, before anything else.
- **Path rewrite.** A leading `/api/oap_mcp` is stripped. The server pathname gets one `/` unless it already ends in one. Then come `mcp`, the sub-path and the search text.
- **Header build.** Inbound headers are appended to a fresh `Headers` object, except any `host` in any casing.
- **Token chain.** Only when `NEXT_PUBLIC_MCP_AUTH_REQUIRED` is exactly `"true"`:
  - a non-empty `X-MCP-Access-Token` cookie wins;
  - otherwise a truthy `access_token` from `MCP_TOKENS` is used;
  - otherwise the response is 401 and nothing is sent.
  - A resolved token replaces any inbound `Authorization` with `Bearer <token>`, as `headers.set` stores it: trailing HTTP whitespace is trimmed. A value `set` rejects makes the handler throw, and nothing is sent.
- **Accept.** `Accept` is always set last to `application/json, text/event-stream`.
- **Body rule.** The body is forwarded unless the method is exactly `GET` or `HEAD`.
- **Relay.** An upstream throw gives 502 with `{message: "Proxy request failed", error}`. Otherwise the upstream status and status text are kept, the body is relayed as JSON or raw text, and every upstream header is copied on with `set`.

Files:

- `wrappers.dfy`: the `Option` type.
- `fetch_headers.dfy`: the header list of the WHATWG Fetch Standard, section 2.2.2. Names compare case-insensitively. It gives:
  - `append`, which reuses the casing of a name already present;
  - `set`, which replaces the first header of that name and drops the rest, or appends;
  - the value step of the `Headers` class (section 5.1): the value is normalised (as section 2.2.2 defines it), that is, leading and trailing HTTP whitespace is stripped. It is then checked: a character beyond one byte, or a NUL, CR or LF left after trimming, throws a TypeError;
  - `Values`, the values stored under a name;
  - the `Headers` class, whose `Append` and `Set` methods change its list in place. Both are loops proved against the functions.
  - `HeaderList`, the lists a `Headers` object holds: every value is normalised and valid. The upstream response's headers have this type.
- `mcp_proxy.dfy`: the route itself. Each part is given twice:
  - as specification functions (`Prepare`, `Relay`, `Handle`);
  - as imperative methods proved equal to them (`PrepareRequest`, `CopyForwardedHeaders`, `RelayResponse`, `ProxyRequest`).
  - The lemmas state what the route promises.

What the runtime does is passed in as parameters:

- `Runtime.serverPathname`: the pathname of the parsed server URL.
- `Runtime.parseTokens`: `JSON.parse` of `MCP_TOKENS` followed by the destructuring.
- `Runtime.constructorRejection`: the message of the error a `Response` constructor throws.
- `fetch`: an `Outbound -> Upstream` function.
- The environment is a `Config` value.

`Handle` returns how the handler ends and the list of requests sent upstream. It ends either by returning a response (`Returns`) or by an exception escaping it (`Throws`). "No upstream call" is therefore stated as that list being empty.

Behaviour the model follows from the code, where a reader might expect otherwise:

- **Token sources.** The comment at proxy-request.ts:49-52 names an `X-MCP-Access-Token` header as a token source. The code reads only the cookie.
- **Empty values.** An empty server URL counts as missing (`!MCP_SERVER_URL`). So do an empty `MCP_TOKENS`, an empty cookie and an empty `access_token`.
- **Slashes.** A server pathname that already ends in `//` keeps both slashes before `mcp`. The route adds a `/` only when none is there.
- **Prefix match.** The prefix is removed as a bare string match, so `/api/oap_mcpx` becomes `x`.
- **Search text.** It is appended to the pathname string, not set as the query. The model states only the concatenated string.
- **Bearer value.** `headers.set("Authorization", ...)` at proxy-request.ts:81 runs before the `try` at :93.
  - A token with a NUL, a CR or LF inside it, or a character beyond one byte makes `set` throw.
  - That exception escapes the handler, and no request is sent.
  - A token with trailing whitespace is sent trimmed.
- **Null-body statuses.** The relay always passes a string body to the response constructor. The Fetch Standard's constructor throws for a status outside 200..599 and for a null-body status (101, 103, 204, 205, 304). The outer `catch` then answers 502, and the model relays those statuses that way.

## Model

| member | source | states |
|---|---|---|
| FetchHeaders.Headers.constructor | apps/web/src/app/api/oap_mcp/proxy-request.ts:40 | `new Headers()` starts with an empty list |
| FetchHeaders.Headers.Of | apps/web/src/app/api/oap_mcp/proxy-request.ts:109-119 | a response's header object starts as the given default list |
| FetchHeaders.Lower | apps/web/src/app/api/oap_mcp/proxy-request.ts:43 | ASCII lower-casing of a name, character by character, keeping its length, as `key.toLowerCase()` does on an HTTP token |
| FetchHeaders.SameName | apps/web/src/app/api/oap_mcp/proxy-request.ts:44 | two header names match when they agree after lower-casing, the case-insensitive name match of `append` and `set` |
| FetchHeaders.FindName | apps/web/src/app/api/oap_mcp/proxy-request.ts:44 | the index of the first header whose name matches case-insensitively, which lies inside the list, or None |
| FetchHeaders.RemoveName | apps/web/src/app/api/oap_mcp/proxy-request.ts:81-84 | the list without every header of that name, in any casing, the others in order |
| FetchHeaders.AppendHeader | apps/web/src/app/api/oap_mcp/proxy-request.ts:44 | "append": the pair is added at the end, with the name spelled as the first existing header of that name when there is one |
| FetchHeaders.SetHeader | apps/web/src/app/api/oap_mcp/proxy-request.ts:81-84 | "set": the first header of the name gets the value in place and the later ones are removed; the pair is appended when the name is absent |
| FetchHeaders.AppendAll | apps/web/src/app/api/oap_mcp/proxy-request.ts:41-46 | the headers appended one by one, in order |
| FetchHeaders.SetAll | apps/web/src/app/api/oap_mcp/proxy-request.ts:123-125 | the headers set one by one, in order |
| FetchHeaders.Normalize | apps/web/src/app/api/oap_mcp/proxy-request.ts:81 | the value with its leading and trailing HTTP whitespace (tab, LF, CR, space) removed |
| FetchHeaders.ValidValue | apps/web/src/app/api/oap_mcp/proxy-request.ts:81 | a value `set` accepts: every character fits in one byte, and the normalised value holds no NUL, CR or LF |
| FetchHeaders.FindNameIsFirst | apps/web/src/app/api/oap_mcp/proxy-request.ts:44 | the name lookup returns the first header whose name matches case-insensitively, no earlier one matches, and it finds nothing exactly when no header has that name |
| FetchHeaders.Headers.Append | apps/web/src/app/api/oap_mcp/proxy-request.ts:44 | the list becomes the old list with the pair appended; the name takes the casing of an existing header of that name |
| FetchHeaders.Headers.Set | apps/web/src/app/api/oap_mcp/proxy-request.ts:81-84 | `set` throws (`ok` false, list unchanged) exactly when the value is invalid. Otherwise the list becomes "set" of the old list with the normalised value: the first header of the name gets it, the other headers of that name are removed, or the pair is appended |
| FetchHeaders.Headers.SetNormalized | apps/web/src/app/api/oap_mcp/proxy-request.ts:81-84 | the scan-and-remove loop leaves the list as "set" of the old list with a checked value |
| FetchHeaders.LeadingWhitespace | apps/web/src/app/api/oap_mcp/proxy-request.ts:81 | the count of leading characters is exactly the run of HTTP whitespace the value starts with |
| FetchHeaders.TrailingWhitespace | apps/web/src/app/api/oap_mcp/proxy-request.ts:81 | the count of trailing characters is exactly the run of HTTP whitespace the value ends with |
| FetchHeaders.NormalizeTrims | apps/web/src/app/api/oap_mcp/proxy-request.ts:81 | the normalised value is the slice of the value between its leading and trailing whitespace, and it neither starts nor ends with whitespace |
| FetchHeaders.NormalizeEmptyIffBlank | apps/web/src/app/api/oap_mcp/proxy-request.ts:81 | normalising yields the empty string exactly for an all-whitespace value |
| FetchHeaders.NormalizeFixed | apps/web/src/app/api/oap_mcp/proxy-request.ts:81 | a value is left unchanged exactly when it neither starts nor ends with HTTP whitespace |
| FetchHeaders.NormalizeIdempotent | apps/web/src/app/api/oap_mcp/proxy-request.ts:81 | normalising twice is normalising once |
| FetchHeaders.NulOrWideCharInvalid | apps/web/src/app/api/oap_mcp/proxy-request.ts:81 | a NUL, or a character beyond one byte, anywhere in the value makes `set` reject it |
| FetchHeaders.IndexOfName | apps/web/src/app/api/oap_mcp/proxy-request.ts:44 | the scan returns the index of the first header of that name, case-insensitively, or the list length when there is none |
| FetchHeaders.AppendHeaderValues | apps/web/src/app/api/oap_mcp/proxy-request.ts:44 | append adds the value at the end of that name's values, keeps the old list as prefix and changes no other name |
| FetchHeaders.SetHeaderValues | apps/web/src/app/api/oap_mcp/proxy-request.ts:81-84 | after set, the name holds exactly the new value, in any casing; every other name keeps its values |
| FetchHeaders.AppendAllValues | apps/web/src/app/api/oap_mcp/proxy-request.ts:41-46 | appending a sequence of headers adds each name's values after the existing ones, in order |
| FetchHeaders.AppendAllLowerNames | apps/web/src/app/api/oap_mcp/proxy-request.ts:41-46 | with lower-case names, appending one by one rebuilds exactly the same list |
| FetchHeaders.SetAllValues | apps/web/src/app/api/oap_mcp/proxy-request.ts:123-125 | setting a sequence of headers leaves each name it carries with exactly its last value there, and other names unchanged |
| FetchHeaders.LastValueIsLastOfValues | apps/web/src/app/api/oap_mcp/proxy-request.ts:123-125 | the last value given for a name is the last of that name's values, and there is none exactly when it has no values |
| McpProxy.Truthy | apps/web/src/app/api/oap_mcp/proxy-request.ts:18 | a present, non-empty string: the JavaScript truthiness tested at :18, :56, :58, :62 and :71 |
| McpProxy.AuthRequired | apps/web/src/app/api/oap_mcp/proxy-request.ts:6 | auth is required only when the variable is exactly the text "true" |
| McpProxy.CookieToken | apps/web/src/app/api/oap_mcp/proxy-request.ts:48 | the value of the `X-MCP-Access-Token` cookie, or None when the request has no such cookie |
| McpProxy.ForwardsBody | apps/web/src/app/api/oap_mcp/proxy-request.ts:88 | the body is forwarded for every method other than exactly "GET" and "HEAD" |
| McpProxy.SubPath | apps/web/src/app/api/oap_mcp/proxy-request.ts:31 | the pathname with a leading `/api/oap_mcp` removed; any other pathname unchanged |
| McpProxy.MountPoint | apps/web/src/app/api/oap_mcp/proxy-request.ts:35 | the server pathname followed by `/` unless it already ends in `/` |
| McpProxy.TargetPath | apps/web/src/app/api/oap_mcp/proxy-request.ts:35 | the assigned pathname: mount point, `mcp`, sub-path, then the search text |
| McpProxy.SubPathStripsPrefix | apps/web/src/app/api/oap_mcp/proxy-request.ts:31 | the prefix is removed only at the start (prefix + sub-path gives back the pathname); `/api/oap_mcp` alone maps to the empty string |
| McpProxy.MountPointSeparator | apps/web/src/app/api/oap_mcp/proxy-request.ts:35 | before `mcp` the server pathname is kept and ends in `/`: exactly one slash when it had none, no slash added when it had some |
| McpProxy.TargetPathRecovers | apps/web/src/app/api/oap_mcp/proxy-request.ts:35 | the target is the mount point, `mcp`, then sub-path and search text unchanged, which can be read back from it |
| McpProxy.TargetPathInjective | apps/web/src/app/api/oap_mcp/proxy-request.ts:31-35 | for one server, different (sub-path, search) pairs give different targets. This holds for the pairs a parsed URL yields: no `?` in the path, and the search empty or starting with `?` |
| McpProxy.QueryStartAfterPath | apps/web/src/app/api/oap_mcp/proxy-request.ts:31-35 | in a path without `?` followed by a search text, the first `?` is exactly where the search text starts |
| McpProxy.ConfigToken | apps/web/src/app/api/oap_mcp/proxy-request.ts:58-68 | the truthy `access_token` MCP_TOKENS parses to, never empty; None when MCP_TOKENS is unset or empty, does not parse, or has no truthy field |
| McpProxy.ResolveToken | apps/web/src/app/api/oap_mcp/proxy-request.ts:53-68 | the cookie when it is non-empty, otherwise the static credential's token; never empty |
| McpProxy.FirstTruthy | apps/web/src/app/api/oap_mcp/proxy-request.ts:53-68 | the result is a truthy candidate with no truthy candidate before it, that is, the first in priority order. It is None exactly when no candidate is truthy |
| McpProxy.ResolveTokenIsPriorityChain | apps/web/src/app/api/oap_mcp/proxy-request.ts:53-68 | the resolved token is the first truthy of [cookie, static credential], and never empty |
| McpProxy.CookieWins | apps/web/src/app/api/oap_mcp/proxy-request.ts:56-57 | a non-empty cookie is the token, whatever MCP_TOKENS holds |
| McpProxy.StaticCredentialFallback | apps/web/src/app/api/oap_mcp/proxy-request.ts:58-68 | without a cookie, any truthy `access_token` the credential parses to is the token. A parse failure, a missing or empty field, or an unset credential leaves no token, without error |
| McpProxy.ForwardedHeaders | apps/web/src/app/api/oap_mcp/proxy-request.ts:40-46 | the inbound headers whose name is not `host` in any casing, appended one by one to an empty list |
| McpProxy.OutboundHeaderList | apps/web/src/app/api/oap_mcp/proxy-request.ts:40-84 | the outbound header list: the forwarded inbound headers, then the Authorization and Accept settings |
| McpProxy.Bearer | apps/web/src/app/api/oap_mcp/proxy-request.ts:81 | the Authorization text built for a token: "Bearer ", then the token |
| McpProxy.OutboundHeaderAdditions | apps/web/src/app/api/oap_mcp/proxy-request.ts:80-84 | Authorization set to the normalised `Bearer <token>` when there is a token, then Accept set to its fixed value |
| McpProxy.Prepare | apps/web/src/app/api/oap_mcp/proxy-request.ts:18-91 | 500 outcome exactly when the server URL is missing or empty (before auth). 401 outcome exactly when auth is required and no token resolves. The `set` throw outcome exactly when a resolved token's bearer value is invalid. A forwarded request keeps the method and carries the body iff the method is not GET or HEAD |
| McpProxy.ForwardedHeadersValues | apps/web/src/app/api/oap_mcp/proxy-request.ts:40-46 | the forwarded list holds no `host` in any casing and every other name keeps its inbound values in order |
| McpProxy.ForwardedHeadersExact | apps/web/src/app/api/oap_mcp/proxy-request.ts:40-46 | for lower-case inbound names, the forwarded list is exactly the inbound list without its `host` headers |
| McpProxy.OutboundHeaderListValues | apps/web/src/app/api/oap_mcp/proxy-request.ts:40-84 | in the outbound list, Accept is exactly the fixed value. Authorization is exactly the normalised `Bearer <token>` when there is a token, else its inbound values. There is no host, and other names are as inbound |
| McpProxy.OutboundHeaders | apps/web/src/app/api/oap_mcp/proxy-request.ts:55-84 | a forwarded request carries no host and one fixed Accept value. With auth required, Authorization is exactly the normalised bearer value of the resolved token. Without auth, Authorization passes through untouched, and other headers always do. |
| McpProxy.BearerValue | apps/web/src/app/api/oap_mcp/proxy-request.ts:81 | `set` stores a token without trailing whitespace as exactly `Bearer <token>`, and a token with one trailing space trimmed. A token with a NUL or a character beyond one byte is rejected |
| McpProxy.AcceptValueStored | apps/web/src/app/api/oap_mcp/proxy-request.ts:84 | the fixed Accept value is valid and stored unchanged, so that `set` never throws |
| McpProxy.OutboundTarget | apps/web/src/app/api/oap_mcp/proxy-request.ts:28-36 | a forwarded request's target starts with the server mount point and `mcp` and ends with the stripped sub-path and the search text |
| McpProxy.CopyForwardedHeaders | apps/web/src/app/api/oap_mcp/proxy-request.ts:40-46 | the `forEach`/`append` loop yields a fresh Headers object whose list is the forwarded list |
| McpProxy.ResolveAccessToken | apps/web/src/app/api/oap_mcp/proxy-request.ts:53-68 | the reassigned `accessToken` ends as the cookie-then-static-credential token of `ResolveToken` |
| McpProxy.SetAuthorizationAndAccept | apps/web/src/app/api/oap_mcp/proxy-request.ts:81-84 | fails (list unchanged) exactly when there is a token whose bearer value `set` rejects. Otherwise the object ends as its old list with the normalised Authorization set when there is a token, then Accept set |
| McpProxy.PrepareRequest | apps/web/src/app/api/oap_mcp/proxy-request.ts:17-91 | the imperative preparation (loop, reassigned token and body) yields exactly `Prepare` |
| McpProxy.ErrorResponse | apps/web/src/app/api/oap_mcp/proxy-request.ts:132-138 | the JSON error response with the given status, a `Content-Type: application/json` header and the message (and error text) as body, as built at :19-25, :72-77 and :132-138 |
| McpProxy.ErrorText | apps/web/src/app/api/oap_mcp/proxy-request.ts:130-131 | the message of a thrown Error, "Unknown error" for any other thrown value |
| McpProxy.Constructible | apps/web/src/app/api/oap_mcp/proxy-request.ts:109-119 | the statuses a response with a body can be built with: 200 to 599, except the null-body statuses 204, 205 and 304 (101 and 103 are below 200 anyway) |
| McpProxy.Relay | apps/web/src/app/api/oap_mcp/proxy-request.ts:93-139 | a thrown upstream error gives 502 with "Proxy request failed" and the error text ("Unknown error" for non-Error values); an unconstructible status gives 502; otherwise status and status text are kept |
| McpProxy.RelayedHeadersAndBody | apps/web/src/app/api/oap_mcp/proxy-request.ts:106-125 | the relayed body is the parsed JSON or the raw text; each upstream header name ends with exactly its last upstream value, other names keep the defaults |
| McpProxy.RelayKeepsContentType | apps/web/src/app/api/oap_mcp/proxy-request.ts:122-125 | an upstream Content-Type (such as an event stream) replaces the relay's default Content-Type |
| McpProxy.CopyUpstreamHeaders | apps/web/src/app/api/oap_mcp/proxy-request.ts:123-125 | the `forEach`/`set` loop leaves the response headers as every upstream header set, in order, over the defaults |
| McpProxy.RelayResponse | apps/web/src/app/api/oap_mcp/proxy-request.ts:100-139 | the imperative relay with its `set` loop yields exactly `Relay` |
| McpProxy.Handle | apps/web/src/app/api/oap_mcp/proxy-request.ts:17-140 | how the handler ends and what it sends: 500 or 401 with nothing sent, a throw with nothing sent when the bearer value is rejected, or the one upstream request and its relayed response |
| McpProxy.MissingServerUrl | apps/web/src/app/api/oap_mcp/proxy-request.ts:18-26 | a missing or empty server URL gives 500 with the configuration message and sends nothing, whatever the auth state |
| McpProxy.MissingToken | apps/web/src/app/api/oap_mcp/proxy-request.ts:70-78 | auth required without cookie or static token gives 401 with the token message and sends nothing |
| McpProxy.InvalidTokenThrows | apps/web/src/app/api/oap_mcp/proxy-request.ts:55-93 | auth required and a resolved token whose bearer value is rejected: the handler throws and sends nothing |
| McpProxy.HandleOutcomes | apps/web/src/app/api/oap_mcp/proxy-request.ts:17-140 | at most one upstream request, sent exactly when preparation forwards. The handler throws exactly when the bearer value is rejected; otherwise every status is 500, 401, 502 or the upstream's own |
| McpProxy.ProxyRequest | apps/web/src/app/api/oap_mcp/proxy-request.ts:17-140 | the whole handler yields exactly `Handle`: how it ends and the requests sent |

## Left out

- URL parsing and serialisation. Only the pathname string assigned at proxy-request.ts:35 is modelled:
  - `new URL(req.url)` is left out;
  - so is `new URL(MCP_SERVER_URL)`, together with its throw on an invalid URL, which escapes the handler;
  - so is the pathname setter's percent-encoding, which escapes the `?` of the search text;
  - so is the setter's resolution of `.` and `..` segments, which also applies inside the appended search text. An inbound `GET /api/oap_mcp?/../../admin` assigns `/mcp?/../../admin`, which the setter turns into the path `/admin`. `TargetPathRecovers`, `TargetPathInjective` and `OutboundTarget` hold for the assigned string, not for the path of the URL actually sent;
  - so is `toString`.
- The upstream call, body streaming, `response.clone()`, `.json()` and `.text()`. These are network and runtime calls. `fetch` is a function parameter, and a read body is `JsonData` or `NotJson`.
- `JSON.parse` of `MCP_TOKENS`. It is a foreign parser, abstracted as `Runtime.parseTokens`. An `access_token` that is not a string is not modelled.
- `NextResponse` construction. The model does not capture:
  - the JSON re-serialisation;
  - the text of the constructor's exceptions (a parameter);
  - the status-text validation.
  - It keeps the default Content-Type lists and the status checks that decide whether construction throws.
- How the runtime produces the inbound header sequence (sorted, combined, lower-cased iteration of a `Headers` object). The inbound headers are the sequence `forEach` visits.
- FetchHeaders.Headers.Set: does not check that the name is a header name (an HTTP token). Every name the route passes is a fixed token or one that a `Headers` object already holds.
- FetchHeaders.Headers.Append: does not normalise or check the value. Its only caller, `McpProxy.CopyForwardedHeaders`, takes a `HeaderList` (the request's headers), whose values are already normalised and valid.
- What the framework answers when the handler throws (`Throws`), and the text of the TypeError. Both belong to the runtime.
- Case-folding beyond ASCII. Header names are HTTP tokens, which are ASCII.
- Environment reads at module load. They are the `Config` value.
- `console.error` logging. It is output only.
- apps/web/src/components/sidebar/nav-user.tsx: declarative UI and a toast.
- apps/web/src/hooks/use-agents.tsx: thin wrappers over SDK assistant calls.
- apps/web/src/features/rag/providers/RAG.tsx: React context wiring over a hook that is not part of this model.
- apps/web/src/middleware.ts: a pass-through; its matcher is routing configuration.
- apps/web/src/lib/client.ts: builds an SDK client from a deployment list that is not part of this model.
