# Trace propagation front end: a Dafny model

This project models the deterministic core of a small browser front end
that demonstrates distributed tracing with the Sentry SDK. The front end has
a login/register form, a WebSocket demo panel, a fetch wrapper and a
token store. The model covers:

- **Auth.jsx**: `extractToken`, the register and login payloads, and the
  outcome of a login or register attempt. On success the token is stored
  and `onAuthed` runs. On failure an error text is shown.
- **http.js**: `apiRequest`. It covers the method default, the URL, the
  header map (`content-type`, `sentry-trace`, `baggage`, `authorization:
  Bearer …` as in section 2.1 of RFC 6750), the JSON body, how the response
  text is classified, and the error for a non-ok status.
- **sentry.js**: `getTraceData` and `spanToSentryTrace`. The
  `traceId-spanId-1` header format is proved to split back into its parts.
- **helpers/run-sentry-new-trace.js**: the span options built by both
  helpers, including the `frontend.<op>` naming rule.
- **auth-storage.js**: `getToken`, `setToken` and `clearToken`, as a class
  over a storage map.
- **WsDemo.jsx**: the WebSocket panel as a class. It holds the socket
  reference, the `connected` flag and the log. The model covers the connect
  and send guards on the ready state, the `onopen`/`onclose` transitions,
  the connect URL, the per-message envelope, logout and unmount.

Foreign code becomes parameters. `JSON.parse`, `JSON.stringify`,
`encodeURIComponent` and `Number()` are function-typed parameters. The
SDK's trace data (`Option<map<string,string>>`, `None` when
`Sentry.getTraceData` is absent) and the span ids the SDK mints are inputs.
The settled `fetch` promise and the settled `apiRequest` promise are inputs
too. A per-call `storageThrows` flag says whether a storage call fails.
`config.storageKey` and `config.endpoints` are parameters, because
`src/config.js` does not define them.

JavaScript values are the datatype `JsValues.JsValue`. The module writes out
truthiness, optional-chaining property access and `String()`. One edge
follows from `String()`: `String([])` is `''`. So `extractToken({token: []})`
returns `''` even though a truthy value was found. The lemma
`Auth.EmptyOnlyWhenNoCandidate` therefore assumes that no candidate is an
array or an Error.

The propagation headers are `sentry-trace` and `baggage`. The code has no
parser for the `sentry-trace` value; `Sentry.TraceHeaderSplits` proves that
the format splits back into `[traceId, spanId, "1"]` when the ids contain
no `-`. `Auth.EmptyArrayTokenGivesEmpty` states the `{token: []}` case.

## Model

| member | source | states |
|---|---|---|
| `Auth.ExtractToken` | src/Auth.jsx:23-33 | a falsy input, or any string input, yields '' |
| `Auth.ExtractTokenFollowsRules` | src/Auth.jsx:26-32 | extractToken equals the ordered rule list (`token`, `accessToken`, `data.token`, `data.accessToken`): the string form of the first truthy candidate, else '' |
| `Auth.FirstTruthyCandidateWins` | src/Auth.jsx:28-31 | when candidate k is truthy and all earlier ones are falsy, the result is `String(candidate k)`; falsy higher-priority values fall through |
| `Auth.EmptyOnlyWhenNoCandidate` | src/Auth.jsx:28-32 | for candidates that are not arrays or Errors, '' comes back iff no candidate is truthy |
| `Auth.BuildRegisterPayload` | src/Auth.jsx:45-50 | the payload has name, email and password always, and `age` = Number(age) iff the age field is not '' |
| `Auth.LoginPayload` | src/Auth.jsx:74 | the login payload has exactly the keys email and password, holding the form values |
| `Auth.EmptyArrayTokenGivesEmpty` | src/Auth.jsx:28 | `{token: []}` yields '': the empty array is truthy, but its string form is '' |
| `Auth.ErrorText` | src/Auth.jsx:66 | the shown text is the error's message when it is truthy, otherwise `String(e)` (for an Error, a plain object and a primitive) |
| `Auth.TokenOutcome` | src/Auth.jsx:59-60 | a flow succeeds iff the request succeeded and the extracted token is non-empty; an empty token throws `Error(<no token message>)`; a request failure is passed on unchanged |
| `Auth.UnauthorizedLoginShowsStatus` | src/Auth.jsx:83-90 | a login answered with 401 Unauthorized fails and shows `HTTP 401 Unauthorized` |
| `Auth.AuthPanel.Complete` | src/Auth.jsx:59-66 | on success the token is stored (unless storage throws) and onAuthed runs once; on failure the store and the onAuthed count are unchanged and the error text is shown |
| `Auth.AuthPanel.DoRegister` | src/Auth.jsx:42-69 | clears the error, POSTs the register payload to the register path without a token, then settles as Complete does |
| `Auth.AuthPanel.DoLogin` | src/Auth.jsx:71-93 | clears the error, POSTs `{email, password}` to the login path without a token, then settles as Complete does |
| `Http.MethodOf` | src/http.js:12 | the method is `opts.method` when non-empty, else 'GET' |
| `Http.ResponseData` | src/http.js:40-46 | empty text gives null, unparseable text gives the raw text, otherwise the parsed value |
| `Http.StatusError` | src/http.js:48-49 | a non-ok status throws an Error whose message is `HTTP <status> <statusText>` |
| `Http.Outcome` | src/http.js:40-55 | a fetch failure is passed on; an ok status resolves to the response data; a non-ok status rejects with the status error and no data |
| `Http.ApiRequest` | src/http.js:11-58 | URL = apiUrl + path with nothing between; content-type is always set; `sentry-trace` and `baggage` are present iff non-empty; `authorization` = `Bearer <token>` iff the token is non-empty; the body is the JSON of `opts.json` iff it is truthy; no other header; the span is `http <method> <path>` with op `http.client`; the result is Outcome |
| `Http.OkIffSuccess` | src/http.js:48-55 | a received response resolves iff its status is 200 to 299 |
| `Http.UnauthorizedMessage` | src/http.js:48-49 | a 401 Unauthorized response rejects with `Error("HTTP 401 Unauthorized")` |
| `Sentry.TraceField` | src/sentry.js:34-37 | `td[key] \|\| ''`: non-empty exactly when the SDK function exists and gives a non-empty value, which is then returned |
| `Sentry.GetTraceData` | src/sentry.js:33-39 | both fields are always present; each is '' when the SDK lacks it or the SDK function is absent, and otherwise the SDK's value |
| `Sentry.TraceHeader` | src/sentry.js:48 | the header starts with the trace id, ends with `-1` (sampled flag always 1), and is three characters longer than the two ids |
| `Sentry.SpanToSentryTrace` | src/sentry.js:45-49 | '' iff the span, its context, the trace id or the span id is missing or empty; otherwise `traceId-spanId-1` |
| `Sentry.TraceHeaderSplits` | src/sentry.js:48 | with dash-free ids, splitting the header on '-' gives exactly `[traceId, spanId, "1"]` |
| `Sentry.TraceHeaderInjective` | src/sentry.js:48 | dash-free id pairs with the same header are equal |
| `Sentry.SpanToSentryTraceSplits` | src/sentry.js:45-49 | for a span with non-empty dash-free ids, the output splits into `[traceId, spanId, "1"]` |
| `NewTrace.FrontendOp` | src/helpers/run-sentry-new-trace.js:15 | a non-empty op becomes `frontend.<op>`; a null, undefined or '' op becomes `frontend.unknown_operation` |
| `NewTrace.FrontendOpRecoverable` | src/helpers/run-sentry-new-trace.js:15 | stripping `frontend.` from the span op recovers the op, or `unknown_operation` |
| `NewTrace.FrontendOpInjective` | src/helpers/run-sentry-new-trace.js:35 | distinct non-empty ops give distinct span ops |
| `NewTrace.NewTraceSpanOptions` | src/helpers/run-sentry-new-trace.js:13-17 | the span name is passed unchanged, forceTransaction is true, and op follows FrontendOp |
| `NewTrace.NewTraceSyncSpanOptions` | src/helpers/run-sentry-new-trace.js:33-37 | the same three facts for the sync variant |
| `NewTrace.RunSentryNewTrace` | src/helpers/run-sentry-new-trace.js:10-21 | the result is the SDK's span run with those options (for this async helper, the value its promise settles to) |
| `NewTrace.RunSentryNewTraceSync` | src/helpers/run-sentry-new-trace.js:30-41 | the result is the SDK's span run with those options |
| `NewTrace.VariantsAgree` | src/helpers/run-sentry-new-trace.js:12-19 | the async and sync variants build identical options, and the async variant settles to the value the sync one returns, for the same name, op and SDK |
| `AuthStorage.AfterSetToken` | src/auth-storage.js:21-22 | '' removes the storage-key entry; a non-empty token is stored under it; every other key is untouched |
| `AuthStorage.SetThenGet` | src/auth-storage.js:7-26 | after setToken(t), getToken returns t; after setToken(''), it returns '' |
| `AuthStorage.SetIsIdempotent` | src/auth-storage.js:19-26 | setting the same token twice is the same as setting it once |
| `AuthStorage.TokenStore.GetToken` | src/auth-storage.js:7-13 | the stored token, '' when the key is absent, '' when storage throws |
| `AuthStorage.TokenStore.SetToken` | src/auth-storage.js:19-26 | the storage becomes AfterSetToken of the old storage; when storage throws it is unchanged and nothing escapes |
| `AuthStorage.TokenStore.ClearToken` | src/auth-storage.js:28-30 | behaves as setToken(''): the storage-key entry is gone (unless storage throws) |
| `WsDemo.GetSentryHeadersForWs` | src/WsDemo.jsx:17-23 | both fields default to ''; the result equals getTraceData's from sentry.js |
| `WsDemo.ConnectUrl` | src/WsDemo.jsx:69-73 | `wsUrl + "/demo?" + sentryTrace=enc(st)&baggage=enc(bg)&token=enc(token)` |
| `WsDemo.ConnectQueryParams` | src/WsDemo.jsx:71-73 | with an encoder that never emits '&', the query splits into exactly the three parameters, in order |
| `WsDemo.MessageTrace` | src/WsDemo.jsx:122 | the inline trace string is never empty, and equals spanToSentryTrace's when both ids are non-empty |
| `WsDemo.MessageTraceUnguarded` | src/WsDemo.jsx:122 | with an empty id, spanToSentryTrace gives '' but the inline format does not |
| `WsDemo.Envelope` | src/WsDemo.jsx:125 | the envelope is exactly `{type, payload, _trace: {sentryTrace: traceId-spanId-1, baggage: ''}}` |
| `WsDemo.DistinctSpansDistinctEnvelopes` | src/WsDemo.jsx:120-125 | messages sent under spans with different dash-free ids carry different envelopes |
| `WsDemo.LogLine` | src/WsDemo.jsx:34 | each log entry ends with '\n' |
| `WsDemo.LogLineIsOneLine` | src/WsDemo.jsx:33-35 | arguments free of line breaks add exactly one line |
| `WsDemo.WsPanel.constructor` | src/WsDemo.jsx:26-29 | no socket, not connected, the initial log text |
| `WsDemo.WsPanel.Log` | src/WsDemo.jsx:33-35 | appends the args as strings joined by single spaces plus '\n'; earlier text is a prefix of the new text |
| `WsDemo.WsPanel.Connect` | src/WsDemo.jsx:55-102 | when the current socket is OPEN or CONNECTING, only logs and keeps the reference; otherwise the reference holds a fresh CONNECTING socket whose URL is ConnectUrl(trace headers, stored token), and the URL is logged |
| `WsDemo.WsPanel.Disconnect` | src/WsDemo.jsx:104-106 | a connecting or open current socket starts closing; a closing or closed one keeps its state; no frame is sent |
| `WsDemo.WsPanel.Send` | src/WsDemo.jsx:113-129 | without an OPEN socket nothing is sent and a warning is logged; otherwise exactly the envelope's JSON is appended to the socket's frames, under span `ws.send.<type>` / `frontend.ws.send`, and the trace is logged |
| `WsDemo.WsPanel.OnOpen` | src/WsDemo.jsx:80-83 | the socket is OPEN and `connected` becomes true |
| `WsDemo.WsPanel.OnMessage` | src/WsDemo.jsx:85-87 | logs `[message]` and the data |
| `WsDemo.WsPanel.OnError` | src/WsDemo.jsx:95-99 | logs `[error]` |
| `WsDemo.WsPanel.OnClose` | src/WsDemo.jsx:89-93 | `connected` becomes false and the socket reference is cleared, whichever socket closed |
| `WsDemo.WsPanel.Logout` | src/WsDemo.jsx:131-138 | closes a connecting or open socket (a closing or closed one keeps its state, no frame is sent), clears the stored token (unless storage throws) and calls onLogout once |
| `WsDemo.WsPanel.Unmount` | src/WsDemo.jsx:44-53 | closes a connecting or open socket (a closing or closed one keeps its state, no frame is sent) and clears the reference |

## Left out

- Sentry SDK internals are not modelled: `startSpan`, `startNewTrace`, `captureException`, `captureMessage`, `setContext`, `init`, id generation and sampling. They are foreign calls. Span ids and SDK trace data are inputs, so distinct ids per message are assumed rather than proved.
- `initSentry` (src/sentry.js:7-27) is not modelled. It only initialises the SDK, depending on the environment.
- The literal options of the `auth.register`, `auth.login` and `ws connect` spans are not modelled. They are constants handed to the SDK.
- Network and browser I/O are inputs, not code: `fetch`, the WebSocket transport and its event delivery, and `localStorage`. A rejected `res.text()` is not modelled, nor is a `new WebSocket(url)` that throws on a malformed URL.
- `JSON.parse`, `JSON.stringify`, `encodeURIComponent` and `Number()` are parameters. `JSON.stringify` is total here, because a `JsValue` has no cycles and no BigInt.
- JavaScript numbers are modelled as unbounded integers plus NaN. Fractions and infinities are left out. So is the loss of precision above 2^53, and so is the exponent form of `String(n)` from 1e21 on (`String(1e21)` is `"1e+21"`, while `Strings.IntToString` prints every digit).
- Async functions (`apiRequest`, `runSentryNewTrace`, `doRegister`, `doLogin`) are modelled by the value their promise settles to. The model does not say that the async helper turns a synchronous throw of its callback into a rejection, where the sync helper throws.
- Objects are maps. Key insertion order, and so the field order of serialised JSON, is not modelled. Property lookup through the prototype chain is not modelled, apart from an Error's `name` and `message`.
- React is left out: rendering, styles, tab and form state, `useState` scheduling and auto-scroll. So is the disabling of buttons by `connected`. The model's methods can be called in any order, including orders that the disabled buttons prevent.
- Each flow runs to completion. Interleaving on the event loop is not modelled.
- src/App.jsx, src/config.js and src/utils/get-api-or-origin.js are not part of this model. The storage key, the endpoint paths, `apiUrl` and `wsUrl` are parameters.
- A storage failure is a per-call flag. The model does not say why storage fails.
- There is no trace-context library in the code: no id generator, scope stack or carrier decoder. None is modelled.
