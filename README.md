# HTTP request viewer: relay endpoint and request composer

This project models the two pieces of behaviour in the HTTP request viewer that are more than presentation:

- **The relay endpoint** (`POST /api/proxy`). It takes a request description (`url`, `method`, `headers`, `body`, each optional), makes the outbound request server-side and normalises the result into a JSON envelope `{ status, statusText, headers, body }`. It can also answer with an error object `{ error }` at status 400 or 500. The model is the function `ProxyRoute.Relay`, plus the method `ProxyRoute.CollectHeaders`, the loop that assembles the response headers.
  - The outbound call and the clock are inputs. `Relay` receives the outcome of the call: a thrown value, or a completed response with its elapsed milliseconds.
  - `Relay` returns the call it would make, so "no outbound call" is a visible result.
- **The composer page** (`HttpRequestViewer`). It holds an editable list of header pairs and builds the payload it posts to the relay. When the send throws, it shows a locally built error envelope, and it colours the status badge by status class. The page state is the class `Page.HttpRequestViewer`, whose event handlers are methods. The payload, the header serialisation, the error envelope and the badge are functions.
- **Both together** (`ClientRelay`). These lemmas follow a composed request through the relay and a relay reply back to the badge.

JavaScript semantics are written out in `JsValues`:
- "absent or empty string" truthiness for `!x`, `x || d` and `x && y`;
- `error instanceof Error ? error.message : fallback`;
- the decimal text that a template literal gives an integer Number (with its parser as partner).

Three points where the code departs from what a reader might expect; the model follows the code:

- **Body guard.** The guard reads the method *as received*, not the defaulted one (`app/api/proxy/route.ts:17`). For a request with no method and a non-empty body, the outbound options therefore name GET and carry the body (`ProxyRoute.AbsentMethodKeepsBody`). GET and HEAD carry no body (sections 9.3.1 and 9.3.2 of RFC 9110), and `fetch` itself rejects such options with a TypeError, so the program answers 500 for this request instead of dropping the body. The same holds for a lower-case `get` or `head`, which passes the guard and which `fetch` upper-cases. The page always sends one of its seven methods, so this path is not reachable from the page (`ClientRelay.ComposedRequest`).
- **`x-response-time`.** This is the difference of two wall-clock readings. The code does not make it non-negative, so a negative value is written with a minus sign. The model allows any integer.
- **The relay's own reply.** The code sets no cache headers on it (only the outbound call uses `cache: "no-store"`), so the model has none.

## Model

| member | source | states |
|---|---|---|
| ProxyRoute.Relay | app/api/proxy/route.ts:3-54 | An unparsable request gives a 500 error with the thrown message or "Unknown error". A missing or empty url gives a 400 error "URL is required". In both cases no outbound call is made. Otherwise there is exactly one call, to the given url with `OutboundOptions`. A failed call gives a 500 error with the failure's message or "Unknown error", and no envelope. A completed call gives a 200 envelope with the target's status and statusText unchanged (4xx/5xx included), the response headers plus the synthetic headers, and the body text. An envelope appears exactly on status 200, and the status is always 200, 400 or 500. |
| ProxyRoute.ResolvedMethod | app/api/proxy/route.ts:12 | The method sent is never empty. It is the given method when that is non-empty, and "GET" otherwise. |
| ProxyRoute.OutboundOptions | app/api/proxy/route.ts:11-19 | The outbound options use the resolved method. Headers are the given headers, or the empty map when absent. Cache mode is always "no-store". A body is attached exactly when the body is non-empty and the raw method is neither "GET" nor "HEAD". An attached body is the given body unchanged. |
| ProxyRoute.ResponseHeaders | app/api/proxy/route.ts:26-34 | The result has the response's header names plus the three synthetic ones. `x-request-url`, `x-request-method` and `x-response-time` hold the url, the method and the elapsed milliseconds followed by "ms". On a name clash the synthetic value wins. Every other response header is kept unchanged. |
| ProxyRoute.CollectHeaders | app/api/proxy/route.ts:26-34 | The header loop copies every response header, one at a time in any order, then assigns the three synthetic headers. The record it builds is exactly `ResponseHeaders`. |
| ProxyRoute.BodyText | app/api/proxy/route.ts:37-43 | The envelope body is the decoded text. When decoding fails it is exactly "Could not read response body". |
| ProxyRoute.EnvelopeDescribesCall | app/api/proxy/route.ts:32-34 | In every success envelope, `x-request-url` is the url that was fetched and `x-request-method` is the method the call went out with. Reading `x-response-time` back gives the measured milliseconds. |
| ProxyRoute.BodyFollowsGivenMethod | app/api/proxy/route.ts:17-19 | When a non-empty method is given, the outbound options carry a body exactly when it is non-empty and the resolved method is neither GET nor HEAD: the guard on the raw method and on the resolved method agree. |
| ProxyRoute.AbsentMethodKeepsBody | app/api/proxy/route.ts:12-19 | With no method (or an empty one) and a non-empty body, the outbound options name GET and carry the body. |
| ProxyRoute.StatusPassesThrough | app/api/proxy/route.ts:45-50 | Changing only the target's status changes only the envelope's status. The call is the same, and the reply is still a 200 envelope. |
| JsValues.NumberToStringRoundTrip | app/api/proxy/route.ts:34 | Parsing the text a template literal gives an integer returns that integer. |
| JsValues.NumberToStringInjective | app/api/proxy/route.ts:34 | Different elapsed times never give the same `x-response-time` text. |
| JsValues.NatToDecimal | app/api/proxy/route.ts:34 | The numeral is non-empty and made of digits only, with no leading zero except for 0 itself. |
| Page.HttpRequestViewer.constructor | app/page.tsx:17-31 | The initial state: the default url, GET, one `Content-Type: application/json` row, an empty body, not loading, no response. |
| Page.HttpRequestViewer.AddHeader | app/page.tsx:33-35 | Appends exactly one blank pair at the end. Earlier rows and the rest of the state are unchanged. |
| Page.HttpRequestViewer.ChangeHeader | app/page.tsx:37-41 | For a valid index, only the chosen field of that row is replaced. The length, the other field and every other row are unchanged. |
| Page.HttpRequestViewer.RemoveHeader | app/page.tsx:43-47 | The rows become `SpliceOne` of the old rows at the index. |
| Page.SpliceOne | app/page.tsx:43-47 | For a valid index the list is one shorter: rows before the index stay put and rows after it shift left by one. A negative index counts back from the end, clamped at the first row. An index at or past the end removes nothing. |
| Page.SerializedHeaders | app/page.tsx:81 | A key is in the posted header map exactly when some row has that key with a non-empty key and value. Its value is that of the last such row. |
| Page.SerializeHeadersSnoc | app/page.tsx:81 | Appending a row with non-empty key and value sets that key (later wins). Appending any other row leaves the map unchanged. |
| Page.BuildPayload | app/page.tsx:78-83 | The payload has the url and method unchanged and the serialised headers. The body is absent exactly when the body text is empty, and otherwise it is the text unchanged, whatever the method. |
| Page.ErrorEnvelope | app/page.tsx:97-106 | The client's error envelope: status 0, statusText "Error", empty headers, body = the error's message or "Unknown error occurred", time 0, size 0. |
| Page.IsSuccessBadge | app/page.tsx:188 | The badge shows success exactly when the status is defined and its hundreds digit is 2 (the 2xx class). |
| Page.HttpRequestViewer.SendRequest | app/page.tsx:49-110 | Posts `BuildPayload` of the current state. The response becomes the decoded reply with the measured time and size, or `ErrorEnvelope` of what was thrown. Loading ends false, and the url, method, rows and body are unchanged. |
| ClientRelay.AsReplyData | app/page.tsx:86-93 | A relay envelope supplies status, statusText, headers and body. A relay error object supplies none of them. |
| ClientRelay.ComposedRequest | app/page.tsx:78-83 | For a request composed on the page, an empty url is refused with 400 and no call. Otherwise the call goes to the url with the selected method, the serialised headers and "no-store". It carries the body exactly when the body is non-empty and the method is not GET or HEAD. |
| ClientRelay.BadgeOfRelayedReply | app/page.tsx:188 | After a relay, the badge shows success exactly when the call completed with a 2xx target status. Relay errors and target errors both show as failures. |

## Left out

- `fetch`'s own rejection of options that name GET or HEAD (in any letter case) and carry a body is not modelled. For that call the model accepts any `FetchOutcome`, where the program always answers 500 with the TypeError's message.
- Real network I/O is not modelled. This covers the outbound `fetch`, the page's `fetch("/api/proxy")`, `request.json()` and `res.json()`. Their results are inputs: `Incoming`, `FetchOutcome` and `SendOutcome`.
- JSON fields of the wrong type are not modelled (a numeric `url`, a string `headers`). Request fields are typed as optional strings and an optional string map.
- Clocks are not modelled (`Date.now`, `performance.now`). The relay takes the elapsed milliseconds as an integer of any sign. The page takes the rounded round-trip time as a parameter.
- Page.HttpRequestViewer.SendRequest: `time` and `size` are parameters. `Math.round` of a float difference and the `Blob` byte length of the serialised reply are floating point and a foreign encoder.
- The KB display `(size / 1024).toFixed(2)` is float formatting and is not modelled.
- JsValues.NumberToString: Numbers of 1e21 or more, which JavaScript writes in exponent form, are not modelled. Elapsed milliseconds never reach that size.
- `Headers.forEach` lower-casing and combining of duplicate names is not modelled. Response headers are a given map.
- Assigning the header name `__proto__` into a plain object record is not modelled. Such a header is treated as an ordinary key.
- The `options` object that `sendRequest` builds and never uses is not modelled.
- The `console.error` calls, React hooks and their render scheduling, and all JSX are not modelled. `SendRequest` applies its state updates in order within one call.
- Page.HttpRequestViewer.ChangeHeader: the TypeError that `newHeaders[index][field] = value` throws for an index outside the list is not modelled. The requires excludes it, and the row list only passes indices of existing rows.
- Page.HttpRequestViewer.ChangeHeader: the state is modelled as values. In the source, the copied array still shares the row objects with the previous state, so the previous state's row is changed too. That aliasing is not modelled because the previous state is discarded.
- Page.HttpRequestViewer.RemoveHeader: non-integer indices are not modelled. The row list only ever passes integer positions.
- `components/response-viewer.tsx` is not part of this model. It renders the envelope, and its JSON formatting is a wrapper over `JSON.parse`/`JSON.stringify`.
- `components/request-headers.tsx` is not part of this model. It renders rows and forwards their callbacks.
