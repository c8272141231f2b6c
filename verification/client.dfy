/**
 * The `ProxyTunnel` object: the proxy it is bound to, the headers it sends to
 * the proxy, its default request headers, and the request descriptions it
 * hands to Node's `http.request` / `https.request`.
 */
module Client {
  import opened Wrappers
  import opened HeaderObjects
  import opened Authority

  /** The agent a request is issued on: the client's two keep-alive agents, or one the caller passed. */
  datatype Agent = HttpAgent | HttpsAgent | CallerAgent(id: string)

  /**
   * The caller's `options` object, restricted to the keys the client reads or
   * that override the keys it sets. `None` is an absent key.
   */
  datatype Options = Options(
    headers: Option<Headers>,
    httpMethod: Option<string>,
    path: Option<string>,
    agent: Option<Agent>,
    setHost: Option<bool>)

  /** `options = {}`, the default of `fetch`. */
  const NoOptions := Options(None, None, None, None, None)

  /**
   * One call of Node's `request(url, options)`: the URL the request is opened
   * against and the options object passed with it (absent keys are `None`).
   */
  datatype RequestSpec = RequestSpec(
    url: Uri,
    httpMethod: Option<string>,
    path: Option<string>,
    agent: Agent,
    setHost: Option<bool>,
    headers: Headers)

  /** An error as the client sees it: a bare string, or an Error object. */
  datatype ErrorValue =
    | Text(text: string)
    | ErrorObject(code: Option<string>, stack: string, display: string)

  /** A constructed client. */
  datatype ProxyTunnel = ProxyTunnel(proxy: Uri, proxyHeaders: Headers, defaultHeaders: Headers)

  /** The defaults every client starts from, for a given `process.version`. */
  function SeedHeaders(nodeVersion: string): Headers {
    var h := [Entry("User-Agent", "node " + nodeVersion), Entry("Accept", "*/*")];
    assert h[1..] == [Entry("Accept", "*/*")] && h[1..][1..] == [];
    assert !Has(h[1..][1..], "Accept");
    assert Get(h[1..], "User-Agent") == Get(h[1..][1..], "User-Agent") == None;
    assert Distinct(h[1..][1..]) && Distinct(h[1..]);
    h
  }

  lemma SeedLookup(nodeVersion: string)
    ensures Get(SeedHeaders(nodeVersion), "User-Agent") == Some("node " + nodeVersion)
    ensures Get(SeedHeaders(nodeVersion), "Accept") == Some("*/*")
    ensures forall k :: k != "User-Agent" && k != "Accept" ==> Get(SeedHeaders(nodeVersion), k) == None
    ensures Names(SeedHeaders(nodeVersion)) == ["User-Agent", "Accept"]
  {
    var h := SeedHeaders(nodeVersion);
    assert h[1..] == [Entry("Accept", "*/*")] && h[1..][1..] == [];
    assert Names(h[1..]) == ["Accept"];
  }

  /**
   * `new ProxyTunnel(proxy, proxyHeaders, defaultHeaders)`: the default
   * headers are the seeded User-Agent and Accept, each overridden by the
   * caller's default of the same name, followed by the caller's other
   * defaults.
   */
  function New(proxy: Uri, proxyHeaders: Headers, defaultHeaders: Headers, nodeVersion: string): (t: ProxyTunnel)
    ensures t.proxy == proxy && t.proxyHeaders == proxyHeaders
    ensures Get(t.defaultHeaders, "User-Agent") ==
              if Has(defaultHeaders, "User-Agent") then Get(defaultHeaders, "User-Agent")
              else Some("node " + nodeVersion)
    ensures Get(t.defaultHeaders, "Accept") ==
              if Has(defaultHeaders, "Accept") then Get(defaultHeaders, "Accept") else Some("*/*")
    ensures forall k :: k != "User-Agent" && k != "Accept" ==>
              Get(t.defaultHeaders, k) == Get(defaultHeaders, k)
    ensures |t.defaultHeaders| >= 2
    ensures Names(t.defaultHeaders)[..2] == ["User-Agent", "Accept"]
  {
    var seed := SeedHeaders(nodeVersion);
    var d := Spread(seed, defaultHeaders);
    SeedLookup(nodeVersion);
    SpreadNames(seed, defaultHeaders);
    assert |Names(d)| == |d|;
    ProxyTunnel(proxy, proxyHeaders, d)
  }
}
