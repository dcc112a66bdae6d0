# Request handler of an open HTTP forwarding gateway

The gateway has a single route handler, `src/routes/index.ts`. A client names a
target URL in the `destination` query parameter, and may add extra outbound
headers as a JSON object in the `headers` parameter. The handler then decides
how the request ends:

- it sets the CORS headers;
- it answers a CORS preflight with 204;
- it rejects any other OPTIONS request with 405;
- it answers the status probe when there is no destination;
- it parses `headers` leniently;
- it consults the access gate, answering 401 when the gate refuses;
- it reads the body and mints an access token if one is needed;
- it builds the outbound headers, with the query's headers overriding the filtered inbound ones;
- it relays the request, and on the response copies the rewritten headers and, if one was minted, the token.

The model has four modules:

- `Wrappers` holds `Option`.
- `HeaderLists` holds header collections. HTTP field names are case-insensitive
  (RFC 9110, section 5.1), and both the outbound `Headers` object and Node's
  response-header store compare names that way. So a collection is a map keyed
  by the ASCII-lower-cased name. `KeysLowered` states that invariant, and every
  write is proved to preserve it. The `Valid()` predicates of `HeaderStore` and
  `Event` carry it.
  - `Overlay` is the result of setting a list of `(name, value)` entries in order.
  - `LastValue` is an independent reference definition: the last entry for a name wins.
  - `HeaderStore` is the mutable `Headers` object, with its `Set` method.
- `Proxy` holds the pure handler. `Handle` maps the request, plus the collaborators'
  answers for it, to an `Outcome` and a trace of `Effect`s. The trace holds, in
  order:
  - every response-header write;
  - the preflight's end of the response;
  - every call to JSON parsing, the gate, body capture, token minting, the relay
    and `setTokenHeader`;
  - the error log line.

  It does not record the look-ups `isPreflightRequest`, `getProxyHeaders`,
  `getBlacklistedHeaders` and `getAfterResponseHeaders`, the preflight's status
  write (`Event` holds that as a field), or the `sendJson` replies (the outcome
  holds those). The lemmas beside it cover each way
  a request can end, the ordering that makes the gate a safety boundary, the
  header overlay, and the CORS headers on every response.
- `ProxyEvent` holds the handler as it runs against the framework's event object.
  - `Event` is a class whose response headers, status code and "ended" flag are
    updated in place. It records every effect in a ghost `log`.
  - `MergeQueryHeaders` is the `forEach` loop that sets each query header on the
    outbound `Headers` object.
  - `ReadQueryHeaders` is the lenient parse of the `headers` parameter.
  - `GuardedRelay` is everything from the gate on.
  - `ProxyRequest` is the `try` block.
  - `HandleRequest` is the whole handler. It is proved to return `Handle`'s outcome
    and to perform exactly `Handle`'s trace.

Collaborators whose code is not shown are inputs (`Proxy.Collaborators`): the
framework's preflight test, JSON parsing, the access gate, body capture, token
minting, the proxy-header filter, the blacklist, the relay, and the version
string from the runtime configuration. The preflight test is a flag on the
request. It is constrained to be true only for an OPTIONS request, as a CORS
preflight is in the WHATWG Fetch Standard, section 3.2.2.

JavaScript truthiness is modelled where the code depends on it. `!destination`,
`if (headersParam)` and `if (token)` each treat an absent value and the empty
string alike.

Notes on the handler's behaviour:
- Preflight detection is the framework's own test, not a fixed header check.
- An empty `destination` also gets the status probe.
- A relay failure is logged and rethrown unchanged.
- The token header is written only for a truthy token.

The relay's own code is not shown, and it is handed the event itself
(`src/routes/index.ts:85`), so it may write response headers of its own
before it calls `onResponse`. `Proxy.RelayResult.Responded` therefore carries
those writes as a list, which may be empty, and the trace records them as a
`RelayHeaders` effect between the relay call and the callback's header copy.

## Model

| member | source | states |
|---|---|---|
| `HeaderLists.Lower` | src/routes/index.ts:82 | the normalised name has the same length, keeps every character that is not an upper-case ASCII letter, turns each upper-case ASCII letter into its lower-case letter, and holds no upper-case ASCII letter |
| `HeaderLists.SameKeyIffSameUpToCase` | src/routes/index.ts:82 | two header names get the same key exactly when, position by position, they differ at most in the case of an ASCII letter |
| `HeaderLists.LowerIdempotent` | src/routes/index.ts:82 | normalising a name twice gives the same name as normalising it once |
| `HeaderLists.LastValueIsLastMatch` | src/routes/index.ts:81-83 | the reference `LastValue` is None exactly when no entry has the name, and otherwise is the value of the last entry with that name |
| `HeaderLists.DistinctLastValue` | src/routes/index.ts:81-83 | when no two entries share a name, an entry's own value is the last value for its name |
| `HeaderLists.Overlay` | src/routes/index.ts:81-83 | the headers after `set` is called for each entry in order; it has no contract of its own, and `OverlayLookup`, `OverlayKeys` and `OverlayAppend` characterise it |
| `HeaderLists.OverlayKeysLowered` | src/routes/index.ts:82 | setting entries on a collection whose names are all lower-cased leaves every name lower-cased |
| `HeaderLists.NoCaseVariantKeys` | src/routes/index.ts:82 | a collection with lower-cased names never holds two names that differ only in case |
| `HeaderLists.OverlaySnoc` | src/routes/index.ts:81-83 | setting one more entry after a list is one more map update under its lower-cased name |
| `HeaderLists.OverlayAppend` | src/routes/index.ts:81-83 | setting one list of entries and then another is the same as setting their concatenation |
| `HeaderLists.OverlayLookup` | src/routes/index.ts:79-83 | a name is in the overlaid headers iff it was in the base or some entry sets it; the last such entry's value wins; otherwise the base value stays |
| `HeaderLists.OverlayKeys` | src/routes/index.ts:79-83 | the overlaid headers have exactly the base names plus the entries' names: no other key appears and none disappears |
| `HeaderLists.EntryValueWins` | src/routes/index.ts:81-83 | with distinct names, every query entry's value is what the outbound headers hold for its name |
| `HeaderLists.BaseValueKept` | src/routes/index.ts:79-83 | a filtered inbound header that no query entry names keeps its value |
| `HeaderLists.HeaderStore.Set` | src/routes/index.ts:82 | `set` replaces the value stored under the lower-cased name and changes nothing else; every stored name stays lower-cased |
| `Proxy.Handle` | src/routes/index.ts:13-102 | every request's first effect is the CORS header write, before any branch |
| `Proxy.QueryHeaders` | src/routes/index.ts:53-60 | the query headers: the parsed entries of a present, non-empty, parseable `headers` parameter, and none otherwise; it has no contract of its own, and `MalformedHeadersIgnored` characterises it |
| `Proxy.OutboundRequest` | src/routes/index.ts:79-91 | the request handed to the relay; it has no contract of its own, and `OutboundHeaders` and `RelayOrder` characterise it |
| `Proxy.Apply` | src/routes/index.ts:16-21 | one effect's change to the response headers: the CORS write, the relay's own writes and the rewritten-header write overlay entries, and nothing else changes them; it has no contract of its own, and `HandleResponseHeaders` characterises it |
| `Proxy.ResponseHeaders` | src/routes/index.ts:16-21 | the response headers after a trace of effects; it has no contract of its own, and `RelayHeadersWritten` and `HandleResponseHeaders` characterise it |
| `Proxy.RelayHeadersWritten` | src/routes/index.ts:85-96 | the relay's answer changes the response headers exactly by its own writes followed by the callback's rewritten headers; a failure changes none |
| `Proxy.HandleResponseHeaders` | src/routes/index.ts:16-21 | the response headers end as the CORS overlay; only on a relayed response are the relay's own writes and then the rewritten upstream headers overlaid on it |
| `Proxy.CorsNamesDistinct` | src/routes/index.ts:16-21 | the four CORS header names are distinct even ignoring case |
| `Proxy.CorsOnEveryResponse` | src/routes/index.ts:16-21 | every response carries each CORS header with its literal value, unless on a relayed response the relay's own writes or the rewritten headers name it |
| `Proxy.PreflightAnswered` | src/routes/index.ts:23-27 | a preflight is an OPTIONS request; it ends with the no-content outcome, and its only effects are the CORS write and ending the response |
| `Proxy.OptionsRejected` | src/routes/index.ts:30-35 | a non-preflight OPTIONS request fails with 405 "Method Not Allowed" with no parse, gate check, body read or relay |
| `Proxy.StatusProbe` | src/routes/index.ts:42-51 | a non-OPTIONS request with an absent or empty destination gets 200 with message "Proxy is working as expected (v<version>)", and no gate check or relay |
| `Proxy.MalformedHeadersIgnored` | src/routes/index.ts:53-60 | with `headers` absent, empty or unparseable, the query headers are empty and the request ends exactly as without the parameter; the only extra effect is the attempted parse |
| `Proxy.GateRejects` | src/routes/index.ts:63-71 | a request the gate refuses ends with 401 "Invalid or missing token", and no body read, token, relay or token header happens |
| `Proxy.GateGuardsRelay` | src/routes/index.ts:63-75 | every body read, token mint, relay and token-header write happens only when the gate allowed the request, and after the gate check in the trace |
| `Proxy.RelayOrder` | src/routes/index.ts:74-91 | past the gate, the order is gate check, body read, token step, relay; the relay goes to the destination with redirect "follow", the captured body and the overlaid headers |
| `Proxy.OutboundHeaders` | src/routes/index.ts:79-91 | every request through the gate is sent, whether the relay then fails or responds, to the destination with redirect "follow" and the captured body; its headers are the filtered inbound ones, with names added only by the query, the query's last value winning, and other values kept |
| `Proxy.TokenHeaderOnlyWhenMinted` | src/routes/index.ts:75-96 | a token header is written iff the relay responded and a (truthy) token was minted; it carries that token and follows the rewritten response headers |
| `Proxy.FetchFailureRethrown` | src/routes/index.ts:98-101 | a relay failure ends with that same error rethrown, logged right after the relay call, and no token header written |
| `Proxy.OutcomeClassification` | src/routes/index.ts:23-101 | each outcome kind (204, 405, 200, 401, relayed, rethrown) holds exactly under its condition on the preflight flag, method, destination, gate and relay; a relay happens iff the request reaches the gate and passes it |
| `ProxyEvent.Event.SetCorsHeaders` | src/routes/index.ts:16-21 | the CORS entries are set on the response headers, and the write is recorded |
| `ProxyEvent.Event.End` | src/routes/index.ts:25 | the response is marked ended and the end is recorded |
| `ProxyEvent.Event.SetResponseHeaders` | src/routes/index.ts:93-94 | the rewritten upstream headers are set on the response headers, and the write is recorded |
| `ProxyEvent.Event.IsPreflightRequest` | src/routes/index.ts:23 | returns the framework's preflight verdict for this request, which holds only for OPTIONS |
| `ProxyEvent.Event.ParseJson` | src/routes/index.ts:55-59 | called only with the request's own `headers` text; returns the entries, or None when parsing throws, and records the attempt |
| `ProxyEvent.Event.IsAllowedToMakeRequest` | src/routes/index.ts:63 | returns the gate's verdict and records the gate check |
| `ProxyEvent.Event.GetBodyBuffer` | src/routes/index.ts:74 | returns the captured body, possibly absent, and records the read |
| `ProxyEvent.Event.CreateTokenIfNeeded` | src/routes/index.ts:75 | returns the minted token, possibly absent, and records the step |
| `ProxyEvent.Event.GetProxyHeaders` | src/routes/index.ts:79 | returns a new `Headers` object holding the filtered inbound headers, shared with nothing else, whose names are lower-cased |
| `ProxyEvent.Event.SpecificProxyRequest` | src/routes/index.ts:85-97 | records the relay call with the assembled outbound request and returns the relay's result; on a response it first applies and records the relay's own header writes |
| `ProxyEvent.Event.SetTokenHeader` | src/routes/index.ts:95 | records the token header write with the given token |
| `ProxyEvent.Event.LogError` | src/routes/index.ts:99 | records the log line with the caught error |
| `ProxyEvent.MergeQueryHeaders` | src/routes/index.ts:81-83 | after the loop, the outbound `Headers` object holds the overlay of its old contents with the query entries, in order, and its names stay lower-cased |
| `ProxyEvent.ReadQueryHeaders` | src/routes/index.ts:53-60 | the parse is attempted (and recorded) only for a present, non-empty parameter; the result is the parsed entries, or empty when parsing throws or is skipped |
| `ProxyEvent.GuardedRelay` | src/routes/index.ts:63-101 | from the gate on, the method returns `Handle`'s outcome, performs exactly the gate's part of `Handle`'s trace, and changes the response headers only on a relayed response, by the relay's writes |
| `ProxyEvent.ProxyRequest` | src/routes/index.ts:77-101 | the relay gets the overlaid headers; a failure is logged and rethrown; a response leads to the relay's own header writes, the header copy, and the token header when the token is truthy; only the log and response headers change |
| `ProxyEvent.HandleRequest` | src/routes/index.ts:13-102 | the handler returns `Handle`'s outcome and performs exactly `Handle`'s trace; the response headers end as stated and keep lower-cased names; of the handler's own writes, status 204 and "ended" happen only for a preflight (`src/routes/index.ts:24-25`) |

## Left out

- The code of the collaborators is not part of this model: `isPreflightRequest`, `isAllowedToMakeRequest`, `createTokenIfNeeded`, `setTokenHeader`, `getProxyHeaders`, `getBlacklistedHeaders`, `getAfterResponseHeaders`, `getBodyBuffer` and `specificProxyRequest`. Their answers are inputs. No filtering, signing or verification rule is assumed.
- Collaborators other than the relay are taken not to throw. A throw from the gate, body or token step (`src/routes/index.ts:63-75`) would escape the handler unlogged. A throw from `getProxyHeaders` or `getBlacklistedHeaders` (`src/routes/index.ts:79-86`) would be logged and rethrown with no relay call. A throw from `getAfterResponseHeaders` or `setTokenHeader` inside the response callback (`src/routes/index.ts:93-95`) would be logged and rethrown after some headers were written. In the model, every logged error follows a relay call.
- `JSON.parse` followed by `Object.entries` is reduced to one input: a list of string entries, or None when parsing throws. Non-object JSON values are not modelled, and neither are non-string values. With `null`, the `Object.entries` call at `src/routes/index.ts:81` would throw inside the `try` block.
- The type of the object returned by `getProxyHeaders` is not shown. It is taken to be a Fetch `Headers` object, since the code calls `set` on it. Its rejection of invalid header names or values, and its trimming of values, are not modelled.
- `getQuery` returning an array for a repeated parameter is not modelled. Both parameters are optional strings.
- The relay is atomic: it either fails before responding, or responds, writes its own response headers and runs the callback. The callback's `outputEvent` is taken to be the handler's own `event`, so the rewritten headers and the token header land on the same response. Any header it writes after the callback, a failure while streaming the body after the callback, redirect following, and the relayed status and body are not modelled; they belong to the external relay.
- `ProxyEvent.HandleRequest`: its status and "ended" clauses cover only the handler's own writes at `src/routes/index.ts:24-25`. The status `sendJson` writes for the 200 and 401 replies, the rendered thrown errors, the status the relay copies from upstream, and the ending of those responses all happen in unseen code. The outcome records the 200, 401 and 405 status codes instead.
- `ProxyEvent.Event.SetTokenHeader`: records the call only. The name of the header it writes is fixed in unseen code, so the model's response-header map does not change.
- `Proxy.CorsOnEveryResponse`: does not promise the CORS values on a relayed response if the relay's own writes or the rewritten headers name a CORS header. Both are written after the CORS headers, by the relay and at `src/routes/index.ts:94`, and can replace those values.
- How the framework renders a thrown error, and what `sendJson` writes besides the status and JSON body, are not modelled. The outcome records the status and body only.
- The version string from `useRuntimeConfig` is an input. `console.log` is recorded as an effect carrying the error. `async`/`await` scheduling is not modelled, because each step runs to completion before the next.
