/**
 * Target URLs and the `hostname:port` authority the client writes into the
 * Host header of a forwarded request.
 */
module Authority {
  import opened Wrappers

  /**
   * A URL as Node's WHATWG `URL` object exposes it. `port` is the empty string
   * when the URL names no port (the URL parser also normalises a scheme's
   * default port to ""); otherwise it is the decimal port. `hostname` is
   * whatever the parser yields (an IPv6 literal keeps its brackets) and `href`
   * is the parser's serialisation of the whole URL.
   */
  datatype Uri = Uri(protocol: string, hostname: string, port: string, href: string)

  predicate IsDigit(c: char) {
    '0' <= c <= '9'
  }

  predicate AllDigits(s: string) {
    forall i :: 0 <= i < |s| ==> IsDigit(s[i])
  }

  /** What the URL parser guarantees of a port: decimal digits or nothing. */
  predicate ValidPort(u: Uri) {
    AllDigits(u.port)
  }

  /** The port a request to `u` uses when `u` names none. */
  function DefaultPort(protocol: string): string {
    if protocol == "https:" then "443" else "80"
  }

  /**
   * `constructHost`: the hostname, a colon, and the URL's port, written out as
   * "443" for `https:` and "80" for any other scheme when the URL has none.
   */
  function ConstructHost(u: Uri): (r: string)
    ensures |r| > |u.hostname|
    ensures r[..|u.hostname|] == u.hostname && r[|u.hostname|] == ':'
    ensures u.port != "" ==> r[|u.hostname| + 1..] == u.port
    ensures u.port == "" && u.protocol == "https:" ==> r[|u.hostname| + 1..] == "443"
    ensures u.port == "" && u.protocol != "https:" ==> r[|u.hostname| + 1..] == "80"
  {
    var port := if u.port != "" then u.port else DefaultPort(u.protocol);
    u.hostname + ":" + port
  }

  /** The index of the last colon of `s`, if it has one. */
  function LastColon(s: string): (r: Option<nat>)
    ensures r.Some? ==> r.value < |s| && s[r.value] == ':'
    ensures r.Some? ==> forall i :: r.value < i < |s| ==> s[i] != ':'
    ensures r.None? ==> forall i :: 0 <= i < |s| ==> s[i] != ':'
  {
    if s == [] then None
    else if s[|s| - 1] == ':' then Some(|s| - 1)
    else LastColon(s[..|s| - 1])
  }

  /**
   * How the test proxy reads the request-target of a CONNECT request: split
   * at the colon followed by nothing but digits (only the last colon can be
   * one), and take port 80 when there is no such colon.
   */
  function SplitAuthority(s: string): (r: (string, string))
    ensures r.0 == s || (s == r.0 + ":" + r.1 && AllDigits(r.1))
    ensures r.0 == s ==> r.1 == "80"
    ensures r.0 == s ==> forall i :: 0 <= i < |s| && s[i] == ':' ==> !AllDigits(s[i + 1..])
  {
    match LastColon(s)
    case Some(j) =>
      if AllDigits(s[j + 1..]) then
        assert s == s[..j] + ":" + s[j + 1..];
        (s[..j], s[j + 1..])
      else
        forall i | 0 <= i < |s| && s[i] == ':'
          ensures !AllDigits(s[i + 1..])
        {
          if i < j {
            assert s[i + 1..][j - i - 1] == ':';
          }
        }
        (s, "80")
    case None => (s, "80")
  }

  /** A string followed by a colon and a colon-free suffix has its last colon there. */
  lemma {:induction false} LastColonBeforeSuffix(h: string, p: string)
    requires forall i :: 0 <= i < |p| ==> p[i] != ':'
    ensures LastColon(h + ":" + p) == Some(|h|)
    decreases |p|
  {
    if p == [] {
      assert h + ":" + p == h + ":";
    } else {
      var p' := p[..|p| - 1];
      assert (h + ":" + p)[..|h + ":" + p| - 1] == h + ":" + p';
      LastColonBeforeSuffix(h, p');
    }
  }

  /**
   * The test proxy's `host:port` rule recovers, from the text `constructHost`
   * writes, the URL's hostname and the port the request uses, even when the
   * hostname itself contains colons (a bracketed IPv6 literal).
   */
  lemma HostRoundTrip(u: Uri)
    requires ValidPort(u)
    ensures SplitAuthority(ConstructHost(u)) ==
              (u.hostname, if u.port != "" then u.port else DefaultPort(u.protocol))
  {
    var port := if u.port != "" then u.port else DefaultPort(u.protocol);
    assert AllDigits(port);
    LastColonBeforeSuffix(u.hostname, port);
    var s := ConstructHost(u);
    assert s[..|u.hostname|] == u.hostname;
    assert s[|u.hostname| + 1..] == port;
  }
}
