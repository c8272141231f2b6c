/**
 * `createSecureConnection`: the CONNECT handshake the HTTPS agent runs for
 * every new tunnelled connection, as a state machine
 * Idle -> ConnectSent -> Established | Failed driven by the events of the
 * CONNECT request.
 */
module Connect {
  import opened Wrappers
  import opened HeaderObjects
  import opened Authority
  import opened Client

  /** The fixed head of every error the handshake reports. */
  const FailurePrefix := "connecting to proxy failed with "

  /** `${err.stack || err}`: a string has no stack; an Error with an empty stack shows as itself. */
  function Describe(e: ErrorValue): string {
    match e
    case Text(s) => s
    case ErrorObject(_, stack, display) => if stack != "" then stack else display
  }

  /** `connectErrored`: the error string handed to the agent's callback. */
  function ConnectErrored(e: ErrorValue): (msg: string)
    ensures |msg| >= |FailurePrefix| && msg[..|FailurePrefix|] == FailurePrefix
    ensures msg[|FailurePrefix|..] == Describe(e)
  {
    FailurePrefix + Describe(e)
  }

  function DigitChar(d: nat): (c: char)
    requires d < 10
    ensures IsDigit(c)
  {
    "0123456789"[d]
  }

  /** A status code as a template literal writes it: its decimal digits. */
  function DecimalString(n: nat): (s: string)
    ensures |s| >= 1 && AllDigits(s)
    decreases n
  {
    if n < 10 then [DigitChar(n)] else DecimalString(n / 10) + [DigitChar(n % 10)]
  }

  /** The number a string of decimal digits denotes. */
  function DecimalValue(s: string): nat
    requires AllDigits(s)
  {
    if s == [] then 0 else 10 * DecimalValue(s[..|s| - 1]) + (s[|s| - 1] as int - '0' as int)
  }

  /** The digits written for a status code denote that status code. */
  lemma {:induction false} DecimalRoundTrip(n: nat)
    ensures DecimalValue(DecimalString(n)) == n
    decreases n
  {
    if n >= 10 {
      DecimalRoundTrip(n / 10);
      var s := DecimalString(n);
      assert s[..|s| - 1] == DecimalString(n / 10);
    }
  }

  /** `${response.statusCode} ${response.statusMessage}` */
  function StatusText(statusCode: nat, statusMessage: string): string {
    DecimalString(statusCode) + " " + statusMessage
  }

  /**
   * The CONNECT request: to the proxy over the plain keep-alive agent, with
   * request-target `hostname:port` and a Host header of the same text that
   * a proxy header called Host replaces; the proxy headers follow Host.
   */
  function ConnectRequest(t: ProxyTunnel, hostname: string, port: string): (r: RequestSpec)
    ensures r.url == t.proxy && r.agent == HttpAgent
    ensures r.httpMethod == Some("CONNECT")
    ensures r.path == Some(hostname + ":" + port)
    ensures r.setHost == None
    ensures Get(r.headers, "Host") ==
              if Has(t.proxyHeaders, "Host") then Get(t.proxyHeaders, "Host")
              else Some(hostname + ":" + port)
    ensures forall k :: k != "Host" ==> Get(r.headers, k) == Get(t.proxyHeaders, k)
    ensures |r.headers| >= 1 && r.headers[0].name == "Host"
  {
    var authority := hostname + ":" + port;
    var host := Single("Host", authority);
    var headers := Spread(host, t.proxyHeaders);
    SpreadNames(host, t.proxyHeaders);
    assert Names(headers)[0] == "Host";
    RequestSpec(t.proxy, Some("CONNECT"), Some(authority), HttpAgent, None, headers)
  }

  /**
   * The proxy recovers the destination from the CONNECT request-target: its
   * `host:port` split gives back the hostname and port, even when the
   * hostname contains colons.
   */
  lemma ConnectTargetRoundTrip(t: ProxyTunnel, hostname: string, port: string)
    requires AllDigits(port)
    ensures SplitAuthority(ConnectRequest(t, hostname, port).path.value) == (hostname, port)
  {
    LastColonBeforeSuffix(hostname, port);
    var s := hostname + ":" + port;
    assert s[..|hostname|] == hostname;
    assert s[|hostname| + 1..] == port;
  }

  /** The options given to `tls.connect` over the tunnelled socket. */
  datatype TlsOptions = TlsOptions(host: string, servername: string, port: string)

  /** Where one handshake stands. A failed handshake records whether it destroyed the socket. */
  datatype Handshake =
    | Idle
    | ConnectSent(request: RequestSpec)
    | Established(tls: TlsOptions)
    | Failed(error: string, socketDestroyed: bool)
  {
    predicate Terminal() {
      Established? || Failed?
    }
  }

  /** What can happen: the CONNECT request is sent, its response arrives, or it errors. */
  datatype Event =
    | Send
    | Connected(statusCode: nat, statusMessage: string)
    | RequestError(err: ErrorValue)

  /** The handshake for destination `hostname`:`port` after one event. */
  function Step(t: ProxyTunnel, hostname: string, port: string, s: Handshake, e: Event): (s': Handshake)
    ensures s.Idle? && e.Send? ==> s' == ConnectSent(ConnectRequest(t, hostname, port))
    ensures s.ConnectSent? && e.Connected? ==> (s'.Established? <==> e.statusCode == 200)
    ensures s'.Established? && !s.Established? ==>
              s.ConnectSent? && e.Connected? && e.statusCode == 200 &&
              s'.tls.host == hostname && s'.tls.servername == hostname && s'.tls.port == port
    ensures s.ConnectSent? && e.Connected? && e.statusCode != 200 ==>
              s' == Failed(ConnectErrored(Text(StatusText(e.statusCode, e.statusMessage))), true)
    ensures s.ConnectSent? && e.RequestError? ==> s' == Failed(ConnectErrored(e.err), false)
    ensures s.Terminal() ==> s' == s
    ensures (s.Idle? || s.ConnectSent?) && e.Send? ==> s'.ConnectSent?
    ensures s.Idle? && !e.Send? ==> s' == Idle
  {
    match s
    case Idle =>
      if e.Send? then ConnectSent(ConnectRequest(t, hostname, port)) else s
    case ConnectSent(_) =>
      (match e
       case Send => s
       case Connected(code, message) =>
         if code == 200 then Established(TlsOptions(hostname, hostname, port))
         else Failed(ConnectErrored(Text(StatusText(code, message))), true)
       case RequestError(err) => Failed(ConnectErrored(err), false))
    case Established(_) => s
    case Failed(_, _) => s
  }

  /** The handshake after a sequence of events. */
  function Run(t: ProxyTunnel, hostname: string, port: string, s: Handshake, events: seq<Event>): Handshake
    decreases |events|
  {
    if events == [] then s else Run(t, hostname, port, Step(t, hostname, port, s, events[0]), events[1..])
  }

  lemma {:induction false} RunAppend(t: ProxyTunnel, hostname: string, port: string, s: Handshake, a: seq<Event>, b: seq<Event>)
    ensures Run(t, hostname, port, s, a + b) == Run(t, hostname, port, Run(t, hostname, port, s, a), b)
    decreases |a|
  {
    if a != [] {
      var s' := Step(t, hostname, port, s, a[0]);
      assert (a + b)[0] == a[0] && (a + b)[1..] == a[1..] + b;
      assert Run(t, hostname, port, s, a + b) == Run(t, hostname, port, s', a[1..] + b);
      assert Run(t, hostname, port, s, a) == Run(t, hostname, port, s', a[1..]);
      RunAppend(t, hostname, port, s', a[1..], b);
    } else {
      assert a + b == b;
    }
  }

  /** Once established or failed, a handshake is not changed by any later event. */
  lemma {:induction false} TerminalIsFinal(t: ProxyTunnel, hostname: string, port: string, s: Handshake, events: seq<Event>)
    requires s.Terminal()
    ensures Run(t, hostname, port, s, events) == s
    decreases |events|
  {
    if events != [] {
      TerminalIsFinal(t, hostname, port, s, events[1..]);
    }
  }

  lemma {:induction false} IdleWithoutSend(t: ProxyTunnel, hostname: string, port: string, events: seq<Event>)
    requires forall i :: 0 <= i < |events| ==> !events[i].Send?
    ensures Run(t, hostname, port, Idle, events) == Idle
    decreases |events|
  {
    if events != [] {
      IdleWithoutSend(t, hostname, port, events[1..]);
    }
  }

  lemma {:induction false} SentWhileSending(t: ProxyTunnel, hostname: string, port: string, r: RequestSpec, events: seq<Event>)
    requires forall i :: 0 <= i < |events| ==> events[i].Send?
    ensures Run(t, hostname, port, ConnectSent(r), events) == ConnectSent(r)
    decreases |events|
  {
    if events != [] {
      SentWhileSending(t, hostname, port, r, events[1..]);
    }
  }

  /**
   * The whole handshake: nothing happens before the CONNECT request is sent;
   * the first response or error after it decides the outcome once and for
   * all. Status 200 hands the socket to TLS with the destination as host and
   * server name; any other status destroys the socket and reports the status
   * line; an error reports the error.
   */
  lemma HandshakeOutcome(t: ProxyTunnel, hostname: string, port: string,
                         before: seq<Event>, resent: seq<Event>, answer: Event, after: seq<Event>)
    requires forall i :: 0 <= i < |before| ==> !before[i].Send?
    requires forall i :: 0 <= i < |resent| ==> resent[i].Send?
    requires !answer.Send?
    ensures var s := Run(t, hostname, port, Idle, before + [Send] + resent + [answer] + after);
      match answer
      case Connected(code, message) =>
        if code == 200 then s == Established(TlsOptions(hostname, hostname, port))
        else s == Failed(FailurePrefix + StatusText(code, message), true)
      case RequestError(err) => s == Failed(FailurePrefix + Describe(err), false)
      case Send => true
  {
    var req := ConnectRequest(t, hostname, port);
    RunAppend(t, hostname, port, Idle, before + [Send] + resent + [answer], after);
    RunAppend(t, hostname, port, Idle, before + [Send] + resent, [answer]);
    RunAppend(t, hostname, port, Idle, before + [Send], resent);
    RunAppend(t, hostname, port, Idle, before, [Send]);
    IdleWithoutSend(t, hostname, port, before);
    SentWhileSending(t, hostname, port, req, resent);
    var outcome := Step(t, hostname, port, ConnectSent(req), answer);
    assert Run(t, hostname, port, ConnectSent(req), [answer]) == outcome;
    TerminalIsFinal(t, hostname, port, outcome, after);
  }

  /**
   * A handshake is established only by a status-200 response, and then TLS
   * is pointed at the destination: host and server name are the destination
   * hostname, the port is the destination port.
   */
  lemma {:induction false} EstablishedOnlyBy200(t: ProxyTunnel, hostname: string, port: string, s: Handshake, events: seq<Event>)
    requires !s.Established?
    requires Run(t, hostname, port, s, events).Established?
    ensures exists j :: 0 <= j < |events| && events[j].Connected? && events[j].statusCode == 200
    ensures Run(t, hostname, port, s, events).tls == TlsOptions(hostname, hostname, port)
    decreases |events|
  {
    var s' := Step(t, hostname, port, s, events[0]);
    if s'.Established? {
      TerminalIsFinal(t, hostname, port, s', events[1..]);
      assert events[0].Connected? && events[0].statusCode == 200;
    } else {
      EstablishedOnlyBy200(t, hostname, port, s', events[1..]);
      var j :| 0 <= j < |events[1..]| && events[1..][j].Connected? && events[1..][j].statusCode == 200;
      assert events[j + 1] == events[1..][j];
    }
  }

  /** The status code can be read back from the error a rejected CONNECT reports. */
  lemma RejectionReportsStatus(statusCode: nat, statusMessage: string)
    ensures var msg := ConnectErrored(Text(StatusText(statusCode, statusMessage)));
      var digits := DecimalString(statusCode);
      && msg == FailurePrefix + digits + " " + statusMessage
      && DecimalValue(digits) == statusCode
  {
    DecimalRoundTrip(statusCode);
  }
}
