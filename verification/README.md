# forward-proxy-tunnel, modelled in Dafny

`ProxyTunnel` sends HTTP and HTTPS requests through a forward HTTP proxy. A
plain `http:` request goes to the proxy itself, with the target's absolute URL
as its path and a Host header that names the target. An `https:` request goes
to the target over an HTTPS agent. That agent opens every new connection with
a CONNECT handshake at the proxy and then runs TLS over the tunnelled socket.
When a request fails because the peer reset a socket taken from the keep-alive
pool, `fetch` issues the request again.

This project models the decisions `index.mjs` takes around Node's `http`,
`https` and `tls` calls. They are written as pure functions over immutable
records:

- `HeaderObjects` (headers.dfy): header maps as plain JavaScript objects. The
  model keeps their keys in insertion order and gives assignment and
  `{...a, ...b}` their JavaScript meaning.
- `Authority` (authority.dfy): the parsed target URL and `constructHost`.
  It is checked against the `host:port` rule the repository's test proxy
  uses to read a CONNECT request-target.
- `Client` (client.dfy): the constructed `ProxyTunnel`, with its proxy, proxy
  headers and seeded default headers. It also holds the caller's options and
  the request descriptions handed to Node.
- `Connect` (connect.dfy): `createSecureConnection`, written as the state
  machine Idle → ConnectSent → Established | Failed, plus `connectErrored`.
- `Fetch` (fetch.dfy): header selection, routing and the retry decision in
  `fetch`. The call is modelled over the sequence of outcomes its requests
  meet.

The network, the proxy and the TLS layer are the model's environment. Their
effect reaches the model only as handshake events and request outcomes.

Where the code differs from the library's type declarations, the model
follows the code:

- The constructor takes its arguments by position: `(proxy, proxyHeaders,
  defaultHeaders)`. There is no options object and no agent options. The
  tests pass `{proxyHeaders, agentOptions}` in the second position. By the
  code, that object becomes the proxy headers themselves.
- There is no `request`, `parseRequestParams`, request body or agent-options
  handling.

Facts about the code that the model keeps:

- Retries are not limited to one. Every reset of a reused socket issues
  `fetch` again (`Fetch.RetriesAreUnbounded`).
- The hostname is used as the URL parser yields it. There is no separate
  IPv6 bracketing.
- `fetch` deletes `headers` from the caller's own `options` object. It does
  not work on a copy.

## Model

| member | source | states |
|---|---|---|
| HeaderObjects.Spread | index.mjs:100-104 | in `{...a, ...b}` a key of `b` takes `b`'s value, and any other key keeps `a`'s value or stays absent |
| HeaderObjects.SpreadNames | index.mjs:26-30 | key order of `{...a, ...b}`: `a`'s keys in their order, then the keys of `b` that `a` lacks, in `b`'s order |
| HeaderObjects.SpreadCopies | index.mjs:87-91 | `{...headers}` is the same object: the same properties in the same order |
| Authority.ConstructHost | index.mjs:180-192 | the Host authority is the hostname, a colon, then the URL's port; an empty port becomes "443" for `https:` and "80" for every other protocol |
| Authority.SplitAuthority | test/helpers/helpers.mjs:97 | the test proxy splits a request-target at a colon followed only by digits, always when such a colon exists; otherwise it keeps the whole text with port "80" |
| Authority.HostRoundTrip | index.mjs:180-192 | the test proxy's `host:port` rule recovers the URL's hostname and effective port from the text `constructHost` writes, even when the hostname contains colons |
| Client.New | index.mjs:23-30 | default headers hold User-Agent `node <version>` and Accept `*/*` unless the caller's defaults override them; all other caller defaults are kept; User-Agent and Accept are the first two keys |
| Connect.ConnectErrored | index.mjs:176-178 | every handshake error is "connecting to proxy failed with " followed by the error's stack, or by the error itself when it has no stack |
| Connect.ConnectRequest | index.mjs:41-53 | CONNECT goes to the proxy on the plain agent; its path is `hostname:port`; Host is `hostname:port` and comes first, but a proxy header called Host replaces it; other headers are the proxy headers |
| Connect.ConnectTargetRoundTrip | index.mjs:47 | the test proxy's `host:port` rule recovers the destination hostname and port from the CONNECT request-target, even when the hostname contains colons |
| Connect.Step | index.mjs:54-67 | sending enters ConnectSent; in ConnectSent, status 200 (and only 200) establishes TLS with host and servername equal to the hostname and the given port; any other status fails with the status line and a destroyed socket; a request error fails with that error |
| Connect.HandshakeOutcome | index.mjs:41-68 | events before the CONNECT is sent change nothing; the first response or error after it decides the whole handshake, whatever follows |
| Connect.TerminalIsFinal | index.mjs:54-67 | an established or failed handshake is not changed by later events |
| Connect.EstablishedOnlyBy200 | index.mjs:55-61 | a handshake becomes established only through a status-200 response, and then TLS points at the destination hostname and port |
| Connect.RejectionReportsStatus | index.mjs:62-64 | a rejected CONNECT reports the prefix, the status code's digits, a space and the status message, and the digits read back as the status code |
| Fetch.EffectiveHeaders | index.mjs:78 | the request headers are the caller's `options.headers` when given (any object, even an empty one, is truthy) and the default headers otherwise |
| Fetch.CallerHeadersReplaceDefaults | index.mjs:78 | there is no key-by-key merge: a default header missing from the caller's headers is not sent, unless a forwarded request gets that name from the proxy headers or Host |
| Fetch.ForwardedHostNamesTarget | index.mjs:100-105 | unless the caller or the proxy headers set Host, the test proxy's `host:port` rule recovers the target's hostname and port (80 when the URL names none) from a forwarded request's Host text, never the proxy's |
| Fetch.Route | index.mjs:77-109 | `https:` goes to the target on the HTTPS agent with exactly the effective headers. Anything else goes to the proxy with path = the absolute URL and setHost false; its headers rank caller > proxy headers > target Host, with Host first. Caller options override path, agent and setHost. `headers` is removed from the options. |
| Fetch.ShouldRetry | index.mjs:115 | retry iff the socket was reused and the error is an Error object whose code is ECONNRESET; a string error, such as a failed CONNECT, never qualifies |
| Fetch.FetchAsWritten | index.mjs:111-123 | the first request uses the caller's options; every re-issued request uses those options without `headers`; at most one request per outcome plus the first |
| Fetch.FetchSettles | index.mjs:114-120 | the call ends at the first outcome that is not a reset of a reused socket: a response resolves, any other error rejects unchanged, after exactly one request per outcome up to it |
| Fetch.FetchKeepsRetrying | index.mjs:114-117 | while every outcome is an ECONNRESET on a reused socket, each one issues another request and the call stays pending |
| Fetch.RetriesAreUnbounded | index.mjs:115-117 | n resets of reused sockets followed by a response take n + 1 requests and resolve with that response |
| Fetch.RetryDropsCallerHeaders | index.mjs:78-79 | a caller header that the defaults do not supply is on the first request and missing from the retry |
| Fetch.FetchIntended | index.mjs:111-123 | corrected retry: every request issued is the same request, the caller's headers included |
| Fetch.IntendedEndsAlike | index.mjs:114-120 | the corrected call ends exactly as the written one, after the same number of requests |

## Left out

- URL parsing (`new URL(...)`, index.mjs:24 and :77) and URL serialisation are left out. A `Uri` is an already parsed URL, and its `href` is opaque. An invalid URL, which makes the constructor throw and `fetch` reject, is not modelled.
- Sockets, the keep-alive agents and `destroy()` (index.mjs:32-38, 71-74) are left out. Pooling and socket reuse are library I/O; reuse enters only as the `reusedSocket` flag of an outcome.
- The TLS handshake, the byte stream and the order in which events fire are asynchronous I/O. Only the decision taken at each event is modelled.
- Connect.Step: the source keeps its `error` listener after `connect` has fired, so a later error could call the agent's callback a second time. The model treats Established and Failed as final.
- `request.removeListener("response", resolve)` (index.mjs:116) is modelled only by its effect: a failed attempt never resolves the call.
- The debug block (index.mjs:7-20, 128-166) is left out. It is logging and colouring keyed on process-wide state.
- What Node does with the request description after `fetch` builds it is left out. That covers header names matching case-insensitively, options merged over the URL, the default method and port, and the HTTPS agent passing the hostname to `createSecureConnection` with IPv6 brackets removed. The model stops at the object the source builds; the hostname and port the agent passes are parameters.
- Client.New: `process.version` is a parameter; the proxy argument is taken already parsed.
- Options are limited to the keys the client reads or overrides: `headers`, `method`, `path`, `agent` and `setHost`. Other keys pass through to Node unchanged. A key that is present but set to `undefined` is not distinguished from an absent key.
- HeaderObjects.SpreadNames: JavaScript orders keys that look like array indices before all others. The model assumes header names do not look like array indices and keeps plain insertion order.
- Error objects are opaque: a code, a stack text and a display text.
- `request`, `parseRequestParams`, request bodies and agent options appear only in the type declarations and are not part of this model. Of the repository's tests, only the mock proxy's request-target split (test/helpers/helpers.mjs:97) is modelled, as an independent reader of `host:port`; the rest of the tests is left out.

## Findings

| source | as written | input that shows it | evidently intended | confidence | as-written member | corrected member |
|---|---|---|---|---|---|---|
| index.mjs:78-79 | `delete options.headers` removes the headers from the caller's options object. The retry `this.fetch.apply(this, arguments)` (index.mjs:117) re-reads that same object. A retried request therefore carries the default headers instead of the caller's. | `fetch("https://h/", {headers: {"Authorization": "x"}})` whose first request meets ECONNRESET on a reused socket: the retried request has no Authorization header | the retry re-sends the same request, caller headers included | medium; not executed | Fetch.RetryDropsCallerHeaders | Fetch.FetchIntended |
