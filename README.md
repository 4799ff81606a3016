# sly-app component, modelled in Dafny

`SlyApp.js` defines the Vue component `sly-app`. The component mirrors two
JSON documents, `state` and `data`, that belong to a Python backend. It
reaches the backend at the `url` prop: POST requests go to the base URL
without its trailing slash, followed by a path. The WebSocket address is the base URL with its
`http://`/`https://` and one trailing slash removed, a `ws`/`wss` scheme in
front, and `/sly-app-ws` appended. The backend
sends JSON Patch batches, and `merge` applies them to the two documents.
`command` sends `{command, state}` over the socket. `http` posts
`{state, context}` and merges the answer.

The model has three modules:

- `JsValue` (`js_value.dfy`) defines JSON values, JavaScript truthiness
  (an empty array is truthy) and reading a named property of a value.
- `Endpoints` (`endpoints.dfy`) covers the string logic:
  - the regular expression `/\/$/`, which removes at most one final slash;
  - `String.prototype.replace` with a string pattern, which removes the
    first occurrence anywhere in the string, not only at the start;
  - the request URLs and the WebSocket URL.
- `SlyApp` (`sly_app.dfy`) holds:
  - `MergeSpec`, the specification of `merge`, with lemmas about which
    document changes;
  - the outbound message shapes;
  - the class `Component`, whose methods update the fields `state`, `data`
    and `ws` in place; `context` is only read.

`jsonpatch.applyPatch` is an external library. The component holds it as
the function value `applyPatch`, which returns `None` when the library
throws. The backend's HTTP responses and the WebSocket message text are
parameters of the methods that receive them. The page's protocol is a
parameter of `OpenSocket`.

The component does not reconnect its socket, does not gate or throttle
commands, does not normalise errors and dispatches no actions. Its
WebSocket handler passes the raw message text to `merge` without decoding
it (see Findings).

## Model

| member | source | states |
|---|---|---|
| `JsValue.Truthy` | SlyApp.js:56-60 | the `if (payload.x)` test: only a defined, non-null value can pass it, and every array or object passes it, even an empty one (`MergeEmptyBatchIsApplied`) |
| `JsValue.Get` | SlyApp.js:56 | `payload.state` / `payload.data` is defined exactly when the payload is an object that has that key, and then it is that key's value |
| `Endpoints.StripTrailingSlash` | SlyApp.js:20-22 | `formattedUrl`: when the base ends with `/`, the result plus one `/` is the base; otherwise the base is unchanged |
| `Endpoints.StripTrailingSlashNotIdempotent` | SlyApp.js:21 | only one slash is removed: `"a//"` becomes `"a/"`, and stripping that again gives `"a"` |
| `Endpoints.StripTrailingSlashKeepsSecondSlash` | SlyApp.js:21 | the formatted URL still ends with `/` exactly when the base ended with `//` |
| `Endpoints.RequestUrl` | SlyApp.js:34 | a request URL starts with the formatted base URL, ends with the path, and has the length of the two together |
| `Endpoints.RequestUrlIgnoresOneTrailingSlash` | SlyApp.js:34 | a base with one trailing slash and the same base without it give the same request URL, `base + path` |
| `Endpoints.RequestUrlKeepsSecondSlash` | SlyApp.js:47 | for every base ending in `//` and every path starting with `/`, the request URL is the base minus its last slash followed by the path, and it has `//` where the two meet |
| `Endpoints.StartupRequestUrls` | SlyApp.js:68-69 | the startup requests of `http://host:8000/` go to `http://host:8000/sly-app-state` and `http://host:8000/sly-app-data` |
| `Endpoints.IndexOfFrom` | SlyApp.js:71 | the first-match search that `replace` with a string pattern performs: the result is an occurrence of the pattern at or after the start, with none between the start and it; `None` means there is no occurrence from the start on |
| `Endpoints.RemoveFirst` | SlyApp.js:71 | `replace(pattern, "")` removes nothing or exactly one copy of the pattern; `RemoveFirstSpec` says which one |
| `Endpoints.RemoveFirstSpec` | SlyApp.js:71 | `replace(pattern, "")` removes the first occurrence of the pattern and keeps everything around it; without an occurrence the string is unchanged |
| `Endpoints.RemoveFirstPrefix` | SlyApp.js:71 | a string that starts with the pattern loses exactly that prefix |
| `Endpoints.RemoveFirstIsNotAnchored` | SlyApp.js:71 | with no scheme at the start, an `http://` later in the string is the one removed |
| `Endpoints.WsScheme` | SlyApp.js:71 | the scheme is `ws` or `wss`, and `wss` exactly when the page protocol is `https:` |
| `Endpoints.WsHost` | SlyApp.js:71 | the host part is never longer than the base URL; `WsHostOfHttpBase` and `WsHostOfHttpsBase` give it for `http://` and `https://` bases |
| `Endpoints.WsUrl` | SlyApp.js:71 | the socket address is at most 17 characters longer than the base; `WsUrlShape` states its scheme, host part and path |
| `Endpoints.WsUrlShape` | SlyApp.js:71 | the WebSocket URL starts with `wss://` if and only if the page protocol is `https:`, and with `ws://` if and only if it is not; it ends with `/sly-app-ws`, and the host part follows `://` |
| `Endpoints.WsHostOfHttpBase` | SlyApp.js:71 | for a base `http://HOST` with no `https://` inside HOST, the socket host is HOST minus one trailing slash |
| `Endpoints.WsHostOfHttpsBase` | SlyApp.js:71 | for a base `https://HOST` with no `http://` inside HOST, the socket host is HOST minus one trailing slash |
| `Endpoints.WsUrlExamples` | SlyApp.js:71 | `http://host:8000/` gives `ws://host:8000/sly-app-ws` on an `http:` page and `wss://host:8000/sly-app-ws` on an `https:` page; `https://host:8000/` gives `ws://…` on an `http:` page |
| `SlyApp.ApplyBatch` | SlyApp.js:56-62 | one `if (payload.x)` step: a falsy batch leaves the document as it is, a truthy one gives the patcher's result for it |
| `SlyApp.MergeSpec` | SlyApp.js:55-63 | `merge(null)` throws and changes nothing; a document changes only when its own batch is truthy; a throw never leaves `data` patched |
| `SlyApp.MergeWithoutBatchesIsNoOp` | SlyApp.js:55-63 | a payload with no truthy `state` or `data` leaves both documents unchanged and does not throw |
| `SlyApp.MergeNullThrows` | SlyApp.js:56 | `merge(null)` throws on the property read and changes nothing |
| `SlyApp.MergeStateBatchOnly` | SlyApp.js:56-58 | with only a `state` batch, `state` becomes the patched document and `data` is unchanged; when the patch throws, neither changes |
| `SlyApp.MergeDataBatchOnly` | SlyApp.js:60-62 | with only a `data` batch, `data` becomes the patched document and `state` is unchanged; when the patch throws, neither changes |
| `SlyApp.MergeStateIgnoresData` | SlyApp.js:56-62 | the new `state` does not depend on the old `data`, even when the `data` patch throws |
| `SlyApp.MergeDataIgnoresState` | SlyApp.js:56-62 | once the `state` step succeeds, the new `data` and whether `merge` throws do not depend on the old `state` |
| `SlyApp.MergeStateIgnoresDataBatch` | SlyApp.js:56-62 | the new `state` is the same whatever the `data` batch, present or not, patchable or not |
| `SlyApp.MergeDataIgnoresStateBatch` | SlyApp.js:56-62 | once the `state` step succeeds, the new `data` and whether `merge` throws are the same whatever the `state` batch |
| `SlyApp.MergeBoth` | SlyApp.js:56-62 | with both batches present and both patches succeeding, `state` is the old `state` patched with its batch and `data` the old `data` patched with its batch |
| `SlyApp.MergeEmptyBatchIsApplied` | SlyApp.js:56 | an empty batch `[]` is truthy, so `state` becomes the patcher's result for it |
| `SlyApp.RawDelivery` | SlyApp.js:74 | merging the raw message text never throws; `RawDeliveryIsNoOp` shows it changes nothing |
| `SlyApp.DecodedDelivery` | SlyApp.js:74 | with a decoding step, text that does not decode throws and changes nothing, and a throw never leaves `data` patched |
| `SlyApp.RawDeliveryIsNoOp` | SlyApp.js:72-75 | a WebSocket message passed to `merge` as raw text leaves both documents unchanged and does not throw, whatever its text |
| `SlyApp.DecodedDeliveryAppliesStateBatch` | SlyApp.js:74 | when the text decodes to `{"state": batch}`, merging the decoded value patches `state`, leaves `data` and does not throw; the raw delivery of the same text keeps the old `state` |
| `SlyApp.CommandMessage` | SlyApp.js:28 | the socket frame has exactly the keys `command` and `state`, holding the command name and the current `state`; it has no `context` |
| `SlyApp.HttpBody` | SlyApp.js:36-39 | the POST body has exactly the keys `state` and `context`, holding the current values |
| `SlyApp.Component.constructor` | SlyApp.js:9-17 | the component starts with empty `state`, `data` and `context` objects and no socket |
| `SlyApp.Component.Command` | SlyApp.js:26-29 | a frame is sent if and only if `this.ws` is non-null, and it is `{command, state}` of the current `state`; while `this.ws` is null, reading `this.ws.send` throws a TypeError |
| `SlyApp.Component.Http` | SlyApp.js:31-40 | the request goes to the formatted URL plus the command, with the current `state` and `context`; sending it changes nothing |
| `SlyApp.Component.OnHttpResponse` | SlyApp.js:41-43 | the backend's answer is merged into the documents as they are when it arrives, as `merge` specifies |
| `SlyApp.Component.GetJson` | SlyApp.js:46-53 | a POST with no body to the formatted URL plus the path |
| `SlyApp.Component.Merge` | SlyApp.js:55-63 | the new `state` and `data`, and whether it throws, are those of `MergeSpec` on the old documents |
| `SlyApp.Component.OpenSocket` | SlyApp.js:71 | the socket is opened on the WebSocket URL for the page protocol and the `url` prop |
| `SlyApp.Component.OnMessage` | SlyApp.js:72-75 | the handler as written: `state` and `data` are unchanged and nothing throws, for every message |
| `SlyApp.Component.OnMessageDecoded` | SlyApp.js:74 | the corrected handler: a message that does not decode throws and changes nothing; a decoded message is merged as `merge` specifies |

## Findings

| source | as written | input that shows it | evidently intended | confidence | as-written member | corrected member |
|---|---|---|---|---|---|---|
| SlyApp.js:74 | `this.merge(event.data)` passes the message text, a string, to `merge`. `merge` then reads `payload.state` and `payload.data`, which are undefined on a string, so it does nothing | the text `{"state":[{"op":"replace","path":"/count","value":5}]}` leaves `state` unchanged | `this.merge(JSON.parse(event.data))`, so that pushed patches reach the documents | high; not executed | `SlyApp.RawDeliveryIsNoOp` (and `SlyApp.Component.OnMessage`) | `SlyApp.DecodedDeliveryAppliesStateBatch` (and `SlyApp.Component.OnMessageDecoded`) |

## Left out

- The JSON Patch algorithm (`jsonpatch.applyPatch`, SlyApp.js:57 and 61) is an external library. It is the `applyPatch` parameter of the component. Whether it mutates the document it is given is not modelled. If it mutates the document and then throws, the partial change is not modelled either.
- JSON decoding is not modelled. `OnMessageDecoded` takes the decoder as a parameter.
- Network I/O is not modelled: `fetch`, `res.json()`, `WebSocket` construction and `send`. A `Request` value stands for the outgoing call, and the parsed HTTP response is a parameter of `OnHttpResponse`.
- Wire details are not modelled: the POST method, the `Content-Type` header that `http` sets, and the key order produced by `JSON.stringify`. A `Request` holds only the URL and the body.
- The asynchronous startup in `created` (SlyApp.js:66-70) is not modelled: its awaits and the assignment of the fetched documents. Only its request URLs (`StartupRequestUrls`) and the opening of the socket (`OpenSocket`) are. The timing of HTTP answers is not modelled: `Http` and `OnHttpResponse` are separate calls, and any other calls may come between them.
- Component.Command: the socket's ready state is not modelled. `send` also throws while the socket is still connecting, and `created` does not wait for it to open; the model only knows whether `this.ws` is null.
- The `url` prop is assumed to be a string. When it is missing, `this.url.replace` throws (SlyApp.js:21 and 71); that is not modelled.
- A `WebSocket` constructor that throws on a malformed address is not modelled.
- `JsValue.Get` is exact only for keys that name no array index, no `length` and no built-in prototype member. The component reads only `state` and `data`.
- JSON numbers are reals. JSON cannot carry NaN, so truthiness of numbers is exact.
- The `url` prop is constant. A change of the prop, which Vue would recompute `formattedUrl` for, is not modelled.
- The props and fields the code never uses are not modelled: `initState` and `task`.
- `window.slyApp.init` (SlyApp.js:79-91), the whole of `DebugPanel.js` (a JSON viewer and a debug panel toggle) and the `console.log` calls are UI or logging and are not modelled.
