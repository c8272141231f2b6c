/**
 * `fetch`: which headers a request carries, where it is sent (straight to an
 * `https:` target over the tunnelling agent, or to the proxy with the target's
 * absolute URL as its path), and when a failed request is issued again.
 */
module Fetch {
  import opened Wrappers
  import opened HeaderObjects
  import opened Authority
  import opened Client

  /** `options.headers || this.defaultHeaders`: a headers object, even an empty one, is truthy. */
  function EffectiveHeaders(t: ProxyTunnel, options: Options): (h: Headers)
    ensures options.headers.Some? ==> h == options.headers.value
    ensures options.headers.None? ==> h == t.defaultHeaders
  {
    options.headers.GetOr(t.defaultHeaders)
  }

  /** The request `fetch` issues, and the caller's options object as `fetch` leaves it. */
  datatype Routed = Routed(request: RequestSpec, options: Options)

  /**
   * The request for target `uri` and the caller's `options`. The caller's
   * headers replace the defaults wholesale and are then deleted from
   * `options`; the caller's remaining options are spread last, so they
   * override the path, agent and setHost the client chooses.
   */
  function Route(t: ProxyTunnel, uri: Uri, options: Options): (r: Routed)
    ensures r.options == options.(headers := None)
    ensures uri.protocol == "https:" ==>
              && r.request.url == uri
              && r.request.agent == options.agent.GetOr(HttpsAgent)
              && r.request.httpMethod == options.httpMethod
              && r.request.path == options.path
              && r.request.setHost == options.setHost
              && r.request.headers == EffectiveHeaders(t, options)
    ensures uri.protocol != "https:" ==>
              && r.request.url == t.proxy
              && r.request.agent == options.agent.GetOr(HttpAgent)
              && r.request.httpMethod == options.httpMethod
              && r.request.path == Some(options.path.GetOr(uri.href))
              && r.request.setHost == Some(options.setHost.GetOr(false))
              && |r.request.headers| >= 1 && r.request.headers[0].name == "Host"
              && forall k :: Get(r.request.headers, k) ==
                   var caller := EffectiveHeaders(t, options);
                   if Has(caller, k) then Get(caller, k)
                   else if Has(t.proxyHeaders, k) then Get(t.proxyHeaders, k)
                   else if k == "Host" then Some(ConstructHost(uri))
                   else None
  {
    var headers := EffectiveHeaders(t, options);
    var rest := options.(headers := None);
    if uri.protocol == "https:" then
      SpreadCopies(headers);
      var request := RequestSpec(uri, options.httpMethod, options.path, options.agent.GetOr(HttpsAgent),
                                 options.setHost, Spread([], headers));
      Routed(request, rest)
    else
      var host := Single("Host", ConstructHost(uri));
      var toProxy := Spread(host, t.proxyHeaders);
      var composed := Spread(toProxy, headers);
      SpreadNames(host, t.proxyHeaders);
      SpreadNames(toProxy, headers);
      assert Names(composed)[0] == "Host";
      var request := RequestSpec(t.proxy, options.httpMethod, Some(options.path.GetOr(uri.href)),
                                 options.agent.GetOr(HttpAgent), Some(options.setHost.GetOr(false)), composed);
      Routed(request, rest)
  }

  /**
   * Caller headers replace the defaults wholesale: a default header the
   * caller's headers lack is not sent, unless (for a forwarded request) the
   * proxy headers or the target Host supply that name.
   */
  lemma CallerHeadersReplaceDefaults(t: ProxyTunnel, uri: Uri, options: Options, caller: Headers, k: string)
    requires options.headers == Some(caller)
    requires !Has(caller, k)
    requires uri.protocol == "https:" || (k != "Host" && !Has(t.proxyHeaders, k))
    ensures !Has(Route(t, uri, options).request.headers, k)
  {
  }

  /**
   * The Host header of a forwarded request names the target, never the
   * proxy: unless the caller or the proxy headers set Host, the test proxy's
   * `host:port` rule recovers from it the target's hostname and the port the
   * request uses.
   */
  lemma ForwardedHostNamesTarget(t: ProxyTunnel, uri: Uri, options: Options)
    requires uri.protocol != "https:" && ValidPort(uri)
    requires !Has(EffectiveHeaders(t, options), "Host") && !Has(t.proxyHeaders, "Host")
    ensures var host := Get(Route(t, uri, options).request.headers, "Host");
      && host.Some?
      && SplitAuthority(host.value) == (uri.hostname, if uri.port != "" then uri.port else "80")
  {
    HostRoundTrip(uri);
  }

  /**
   * The error handler's test: the socket came from the pool and the peer
   * reset it. A bare string, such as the error of a failed CONNECT, has no
   * `code` and never qualifies.
   */
  function ShouldRetry(reusedSocket: bool, err: ErrorValue): (r: bool)
    ensures !reusedSocket ==> !r
    ensures err.Text? ==> !r
    ensures reusedSocket && err.ErrorObject? ==> (r <==> err.code == Some("ECONNRESET"))
  {
    reusedSocket && err.ErrorObject? && err.code == Some("ECONNRESET")
  }

  /** What one issued request runs into. */
  datatype Attempt = Responded(statusCode: nat) | Errored(err: ErrorValue, reusedSocket: bool)

  predicate Retried(a: Attempt) {
    a.Errored? && ShouldRetry(a.reusedSocket, a.err)
  }

  /** How the promise `fetch` returned ends, if it has ended. */
  datatype FetchResult = Resolved(statusCode: nat) | Rejected(err: ErrorValue) | Pending

  /** The requests issued, in order, and how the call ended. */
  datatype Trace = Trace(requests: seq<RequestSpec>, result: FetchResult)

  /** The end an attempt that is not retried gives the call. */
  function Settle(a: Attempt): FetchResult
    requires !Retried(a)
  {
    match a
    case Responded(code) => Resolved(code)
    case Errored(err, _) => Rejected(err)
  }

  /**
   * `fetch(url, options)` as written, against the outcomes of the requests
   * it issues in turn: a qualifying error issues `fetch` again with the same
   * `options` object, which no longer carries `headers`. The call is Pending
   * when the outcomes run out.
   */
  function FetchAsWritten(t: ProxyTunnel, uri: Uri, options: Options, attempts: seq<Attempt>): (tr: Trace)
    ensures 1 <= |tr.requests| <= |attempts| + 1
    ensures tr.requests[0] == Route(t, uri, options).request
    ensures forall i :: 1 <= i < |tr.requests| ==>
              tr.requests[i] == Route(t, uri, options.(headers := None)).request
    decreases |attempts|
  {
    var routed := Route(t, uri, options);
    if attempts == [] then Trace([routed.request], Pending)
    else if Retried(attempts[0]) then
      var rest := FetchAsWritten(t, uri, routed.options, attempts[1..]);
      Trace([routed.request] + rest.requests, rest.result)
    else Trace([routed.request], Settle(attempts[0]))
  }

  /**
   * `fetch` as evidently intended: a retry issues the same request again,
   * the caller's headers included.
   */
  function FetchIntended(t: ProxyTunnel, uri: Uri, options: Options, attempts: seq<Attempt>): (tr: Trace)
    ensures 1 <= |tr.requests| <= |attempts| + 1
    ensures forall i :: 0 <= i < |tr.requests| ==> tr.requests[i] == Route(t, uri, options).request
    decreases |attempts|
  {
    var routed := Route(t, uri, options);
    if attempts == [] then Trace([routed.request], Pending)
    else if Retried(attempts[0]) then
      var rest := FetchIntended(t, uri, options, attempts[1..]);
      Trace([routed.request] + rest.requests, rest.result)
    else Trace([routed.request], Settle(attempts[0]))
  }

  /**
   * A call ends at the first outcome that is not a reset of a reused socket:
   * one request per outcome up to it, a response resolves, any other error
   * rejects unchanged.
   */
  lemma {:induction false} FetchSettles(t: ProxyTunnel, uri: Uri, options: Options, attempts: seq<Attempt>, k: nat)
    requires k < |attempts|
    requires forall i :: 0 <= i < k ==> Retried(attempts[i])
    requires !Retried(attempts[k])
    ensures |FetchAsWritten(t, uri, options, attempts).requests| == k + 1
    ensures FetchAsWritten(t, uri, options, attempts).result == Settle(attempts[k])
    decreases k
  {
    if k > 0 {
      assert Retried(attempts[0]);
      FetchSettles(t, uri, options.(headers := None), attempts[1..], k - 1);
    }
  }

  /** While every outcome is a reset of a reused socket, the call keeps issuing requests. */
  lemma {:induction false} FetchKeepsRetrying(t: ProxyTunnel, uri: Uri, options: Options, attempts: seq<Attempt>)
    requires forall i :: 0 <= i < |attempts| ==> Retried(attempts[i])
    ensures |FetchAsWritten(t, uri, options, attempts).requests| == |attempts| + 1
    ensures FetchAsWritten(t, uri, options, attempts).result == Pending
    decreases |attempts|
  {
    if attempts != [] {
      assert Retried(attempts[0]);
      FetchKeepsRetrying(t, uri, options.(headers := None), attempts[1..]);
    }
  }

  /** There is no bound on retries: n resets of reused sockets, then a response, take n + 1 requests. */
  lemma RetriesAreUnbounded(t: ProxyTunnel, uri: Uri, options: Options, n: nat, reset: ErrorValue, statusCode: nat)
    requires ShouldRetry(true, reset)
    ensures var tr := FetchAsWritten(t, uri, options, seq(n, _ => Errored(reset, true)) + [Responded(statusCode)]);
      |tr.requests| == n + 1 && tr.result == Resolved(statusCode)
  {
    var attempts := seq(n, _ => Errored(reset, true)) + [Responded(statusCode)];
    FetchSettles(t, uri, options, attempts, n);
  }

  /**
   * A retry as written drops the caller's headers: a header the caller set
   * that the defaults (and, for a forwarded request, the proxy headers and
   * Host) do not supply is on the first request and missing from the retry.
   */
  lemma RetryDropsCallerHeaders(t: ProxyTunnel, uri: Uri, caller: Headers, options: Options,
                                attempts: seq<Attempt>, k: string)
    requires options.headers == Some(caller)
    requires |attempts| >= 1 && Retried(attempts[0])
    requires Has(caller, k) && !Has(t.defaultHeaders, k)
    requires uri.protocol == "https:" || (k != "Host" && !Has(t.proxyHeaders, k))
    ensures var tr := FetchAsWritten(t, uri, options, attempts);
      && |tr.requests| >= 2
      && Has(tr.requests[0].headers, k)
      && !Has(tr.requests[1].headers, k)
  {
    var tr := FetchAsWritten(t, uri, options, attempts);
    var rest := FetchAsWritten(t, uri, options.(headers := None), attempts[1..]);
    assert tr.requests == [Route(t, uri, options).request] + rest.requests;
    var retry := Route(t, uri, options.(headers := None)).request;
    assert tr.requests[1] == retry;
    assert EffectiveHeaders(t, options.(headers := None)) == t.defaultHeaders;
  }

  /** The corrected call ends exactly as the written one, after as many requests. */
  lemma {:induction false} IntendedEndsAlike(t: ProxyTunnel, uri: Uri, options: Options, written: Options,
                                            attempts: seq<Attempt>)
    ensures FetchIntended(t, uri, options, attempts).result == FetchAsWritten(t, uri, written, attempts).result
    ensures |FetchIntended(t, uri, options, attempts).requests| ==
            |FetchAsWritten(t, uri, written, attempts).requests|
    decreases |attempts|
  {
    if attempts != [] && Retried(attempts[0]) {
      IntendedEndsAlike(t, uri, options, written.(headers := None), attempts[1..]);
    }
  }
}
