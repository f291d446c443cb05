/**
 * The WebFinger client (RFC 7033 section 4): finds a host's host-meta (https first, then
 * http), fills the resource into its LRDD template, or falls back to the well-known WebFinger
 * URL, and reads the XRD that comes back. Host-meta documents and WebFinger documents are
 * memoised per host and per resource.
 *
 * The network and the library calls are the `Environment`: `fetch` is the response body of a
 * GET ("" when the request fails), `parseXml` stands for simplexml_load_string, `parseUrl` for
 * parse_url and `encode` for rawurlencode. The pure `...Step` functions say what each method
 * returns, which caches it leaves and which URLs it requests, in order; the class methods do
 * the same work step by step and are proved to match them.
 */
module WebFingerClients {
  import opened Wrappers
  import opened Text
  import opened Trees
  import opened Descriptors
  import opened HostMetas

  /** The parts of a parsed URI the client looks at (parse_url's 'scheme', 'host' and 'path'). */
  datatype UriParts = UriParts(scheme: Option<string>, host: Option<string>, path: Option<string>)

  datatype Environment = Environment(
    fetch: string -> string,
    parseXml: string -> Option<Element>,
    parseUrl: string -> UriParts,
    encode: string -> string)

  /** The exceptions the client raises: UnexpectedValueException and RuntimeException. */
  datatype ClientError = UnexpectedValueError(message: string) | RuntimeError(message: string)

  const EmptyResource := "resource URI is empty."
  const EmptyResourceHost := "invalid resource URI. (host is empty.)"
  const EmptyHost := "host is empty."
  const FetchFailed := "webfinger fetch failed."

  const WellKnownHostMeta := "/.well-known/host-meta"
  const WellKnownWebFinger := "/.well-known/webfinger?resource="
  const UriPlaceholder := "{uri}"

  /** The memo maps: host to host-meta (null included), resource URI to WebFinger document. */
  datatype ClientState = ClientState(hostMetas: map<string, Option<Descriptor>>, webFingers: map<string, Descriptor>)

  /** What an operation returns, the state it leaves, and the URLs it requests, in order. */
  datatype Step<T> = Step(result: Result<T, ClientError>, state: ClientState, requests: seq<string>)

  // ---------------------------------------------------------------------------------------
  // URLs and hosts

  function Scheme(isHttp: bool): string {
    if isHttp then "http" else "https"
  }

  /** getHostMetaUrl: the host-meta URL of a host, over http or https. */
  function HostMetaUrl(host: string, isHttp: bool := false): string {
    Scheme(isHttp) + "://" + host + WellKnownHostMeta
  }

  /** A host-meta URL names its scheme and its host, so different hosts or schemes give different URLs. */
  lemma HostMetaUrlParts(host: string, isHttp: bool)
    ensures var url := HostMetaUrl(host, isHttp); var start := |Scheme(isHttp)| + 3;
      start + |WellKnownHostMeta| <= |url| &&
      url[..start] == Scheme(isHttp) + "://" &&
      url[start..|url| - |WellKnownHostMeta|] == host &&
      url[|url| - |WellKnownHostMeta|..] == WellKnownHostMeta
  {
    var url := HostMetaUrl(host, isHttp);
    var start := |Scheme(isHttp)| + 3;
    assert url == (Scheme(isHttp) + "://") + host + WellKnownHostMeta;
  }

  /** The https and http host-meta URLs differ, and the host can be told from the URL. */
  lemma HostMetaUrlInjective(h1: string, b1: bool, h2: string, b2: bool)
    requires HostMetaUrl(h1, b1) == HostMetaUrl(h2, b2)
    ensures h1 == h2 && b1 == b2
  {
    var url := HostMetaUrl(h1, b1);
    HostMetaUrlParts(h1, b1);
    HostMetaUrlParts(h2, b2);
    assert url[4] == (if b1 then ':' else 's');
    assert url[4] == (if b2 then ':' else 's');
  }

  /** extractHostFromResourceUri: for an `acct` URI the text after the first '@' of its path, else the URI's host, else "". */
  function ExtractHost(env: Environment, uri: string): string {
    var parsed := env.parseUrl(uri);
    if parsed.scheme == Some("acct") then AfterFirst(parsed.path.GetOr(""), '@').GetOr("")
    else parsed.host.GetOr("")
  }

  /** The host of an `acct` URI follows its first '@'; with no '@' it is "". */
  lemma AcctHost(env: Environment, uri: string, path: string)
    requires env.parseUrl(uri).scheme == Some("acct") && env.parseUrl(uri).path == Some(path)
    ensures '@' !in path ==> ExtractHost(env, uri) == ""
    ensures '@' in path ==> exists i :: 0 <= i < |path| && path[i] == '@' && '@' !in path[..i] && ExtractHost(env, uri) == path[i + 1..]
  {
    var r := AfterFirst(path, '@');
    assert ExtractHost(env, uri) == r.GetOr("");
    if r.Some? {
      var i :| 0 <= i < |path| && path[i] == '@' && '@' !in path[..i] && r.value == path[i + 1..];
    }
  }

  /** acct:mirai_iro@mstdn.jp is looked up on mstdn.jp. */
  lemma AcctHostExample(env: Environment)
    requires env.parseUrl("acct:mirai_iro@mstdn.jp") == UriParts(Some("acct"), None, Some("mirai_iro@mstdn.jp"))
    ensures ExtractHost(env, "acct:mirai_iro@mstdn.jp") == "mstdn.jp"
  {
    var p := "mirai_iro@mstdn.jp";
    assert p[9] == '@' && p[10..] == "mstdn.jp";
    assert '@' !in p[..9] by {
      assert p[..9] == "mirai_iro";
    }
    AfterFirstAt(p, '@', 9);
  }

  /** In a path with two '@' the host keeps the second one. */
  lemma AcctHostTwoAts(env: Environment)
    requires env.parseUrl("acct:a@b@example.com") == UriParts(Some("acct"), None, Some("a@b@example.com"))
    ensures ExtractHost(env, "acct:a@b@example.com") == "b@example.com"
  {
    var q := "a@b@example.com";
    assert q[1] == '@' && q[2..] == "b@example.com";
    assert '@' !in q[..1] by {
      assert q[..1] == "a";
    }
    AfterFirstAt(q, '@', 1);
  }

  /** The WebFinger request URL: `{uri}` in the LRDD template replaced by the encoded resource, or the well-known URL without a host-meta. */
  function WebFingerUrl(env: Environment, uri: string, host: string, hostMeta: Option<Descriptor>): string {
    match hostMeta
    case Some(hm) => ReplaceAll(Lrdd(hm.links, XrdContentType), UriPlaceholder, env.encode(uri))
    case None => "https://" + host + WellKnownWebFinger + env.encode(uri)
  }

  /** With a host-meta but no LRDD link of the XRD type, the request URL is "": there is no fallback. */
  lemma NoLrddNoUrl(env: Environment, uri: string, host: string, hm: Descriptor)
    requires forall i :: 0 <= i < |hm.links| ==> !IsLrdd(hm.links[i], XrdContentType)
    ensures WebFingerUrl(env, uri, host, Some(hm)) == ""
  {
    LrddSpec(hm.links, XrdContentType);
  }

  /** With an LRDD template `a{uri}b` whose head has no '{', the request URL is `a`, the encoded resource, then `b` expanded. */
  lemma LrddUrl(env: Environment, uri: string, host: string, hm: Descriptor, a: string, b: string)
    requires Lrdd(hm.links, XrdContentType) == a + UriPlaceholder + b && '{' !in a
    ensures WebFingerUrl(env, uri, host, Some(hm)) == a + env.encode(uri) + ReplaceAll(b, UriPlaceholder, env.encode(uri))
  {
    ExpandPlaceholder(a, b, UriPlaceholder, env.encode(uri));
  }

  // ---------------------------------------------------------------------------------------
  // The operations as state transitions

  /**
   * What `@file_get_contents` gives for a URL: the response body, and no body at all for an
   * empty URL, for which it sends no network request.
   */
  function Download(env: Environment, url: string): (body: string)
    ensures url == "" ==> body == ""
    ensures url != "" ==> body == env.fetch(url)
  {
    if url == "" then "" else env.fetch(url)
  }

  /** HostMeta::fromXml / WebFinger::fromXml on a response body; their errors are UnexpectedValueExceptions. */
  function ReadXrd(env: Environment, body: string): (r: Result<Descriptor, ClientError>)
    ensures r.Success? <==> ParseXrd(env.parseXml(body)).Success?
    ensures r.Success? ==> ValidDescriptor(r.value)
    ensures r.Success? ==> r.value == ParseXrd(env.parseXml(body)).value
    ensures r.Failure? ==> r.error == UnexpectedValueError(ParseXrd(env.parseXml(body)).error.message)
  {
    match ParseXrd(env.parseXml(body))
    case Success(d) => Success(d)
    case Failure(e) => Failure(UnexpectedValueError(e.message))
  }

  function SomeDocument(r: Result<Descriptor, ClientError>): Result<Option<Descriptor>, ClientError> {
    match r
    case Success(d) => Success(Some(d))
    case Failure(e) => Failure(e)
  }

  /** fetchHostMeta: the https URL, then the http URL only when that body is empty; null when both are empty. */
  function FetchHostMetaStep(env: Environment, s: ClientState, host: string): Step<Option<Descriptor>> {
    if IsEmptyPhp(host) then Step(Failure(UnexpectedValueError(EmptyHost)), s, [])
    else
      var https := HostMetaUrl(host);
      var body := Download(env, https);
      if body != "" then Step(SomeDocument(ReadXrd(env, body)), s, [https])
      else
        var http := HostMetaUrl(host, true);
        var body' := Download(env, http);
        if body' == "" then Step(Success(None), s, [https, http])
        else Step(SomeDocument(ReadXrd(env, body')), s, [https, http])
  }

  /** getHostMeta: a non-null cached document is served; otherwise fetched, and a result (null too) stored. */
  function GetHostMetaStep(env: Environment, s: ClientState, host: string): Step<Option<Descriptor>> {
    if IsEmptyPhp(host) then Step(Failure(UnexpectedValueError(EmptyHost)), s, [])
    else if host in s.hostMetas && s.hostMetas[host].Some? then Step(Success(s.hostMetas[host]), s, [])
    else
      var f := FetchHostMetaStep(env, s, host);
      if f.result.Success? then f.(state := s.(hostMetas := s.hostMetas[host := f.result.value])) else f
  }

  /** fetch: host from the resource, host-meta for the host, one request to the resulting URL, and its body read as XRD. */
  function FetchStep(env: Environment, s: ClientState, uri: string): Step<Descriptor> {
    var host := ExtractHost(env, uri);
    if IsEmptyPhp(host) then Step(Failure(UnexpectedValueError(EmptyResourceHost)), s, [])
    else
      var h := GetHostMetaStep(env, s, host);
      if h.result.Failure? then Step(Failure(h.result.error), h.state, h.requests)
      else
        var url := WebFingerUrl(env, uri, host, h.result.value);
        var body := Download(env, url);
        if body == "" then Step(Failure(RuntimeError(FetchFailed)), h.state, h.requests + [url])
        else Step(ReadXrd(env, body), h.state, h.requests + [url])
  }

  /** get: a cached document is served; otherwise fetched, and a success stored under the resource. */
  function GetStep(env: Environment, s: ClientState, uri: string): Step<Descriptor> {
    if IsEmptyPhp(uri) then Step(Failure(UnexpectedValueError(EmptyResource)), s, [])
    else if uri in s.webFingers then Step(Success(s.webFingers[uri]), s, [])
    else
      var f := FetchStep(env, s, uri);
      if f.result.Success? then f.(state := f.state.(webFingers := f.state.webFingers[uri := f.result.value])) else f
  }

  // ---------------------------------------------------------------------------------------
  // Properties

  /** The https URL is requested first; the http URL second and only after an empty https body; null only when both are empty. */
  lemma FetchHostMetaOrder(env: Environment, s: ClientState, host: string)
    requires !IsEmptyPhp(host)
    ensures var f := FetchHostMetaStep(env, s, host);
      f.state == s && 1 <= |f.requests| <= 2 &&
      f.requests[0] == HostMetaUrl(host) &&
      (|f.requests| == 2 <==> env.fetch(HostMetaUrl(host)) == "") &&
      (|f.requests| == 2 ==> f.requests[1] == HostMetaUrl(host, true)) &&
      (f.result == Success(None) <==> env.fetch(HostMetaUrl(host)) == "" && env.fetch(HostMetaUrl(host, true)) == "")
  {
    var f := FetchHostMetaStep(env, s, host);
    if env.fetch(HostMetaUrl(host)) == "" && env.fetch(HostMetaUrl(host, true)) != "" {
      assert f.result == SomeDocument(ReadXrd(env, env.fetch(HostMetaUrl(host, true))));
    }
  }

  /** A host-meta that parsed is served from the cache with no request. */
  lemma CachedHostMetaServed(env: Environment, s: ClientState, host: string)
    requires !IsEmptyPhp(host) && host in s.hostMetas && s.hostMetas[host].Some?
    ensures GetHostMetaStep(env, s, host) == Step(Success(s.hostMetas[host]), s, [])
  {
  }

  /** A null host-meta is stored, but isset misses it: the next call requests the host-meta again. */
  lemma NullHostMetaRefetched(env: Environment, s: ClientState, host: string)
    requires !IsEmptyPhp(host) && host !in s.hostMetas
    requires env.fetch(HostMetaUrl(host)) == "" && env.fetch(HostMetaUrl(host, true)) == ""
    ensures var first := GetHostMetaStep(env, s, host);
      first.result == Success(None) && first.state.hostMetas == s.hostMetas[host := None] &&
      GetHostMetaStep(env, first.state, host).requests == [HostMetaUrl(host), HostMetaUrl(host, true)]
  {
  }

  /** getHostMeta changes only the host's own entry in the host-meta cache and never the WebFinger cache. */
  lemma GetHostMetaFrame(env: Environment, s: ClientState, host: string)
    ensures var g := GetHostMetaStep(env, s, host);
      g.state.webFingers == s.webFingers &&
      (forall h :: h != host ==> (h in g.state.hostMetas <==> h in s.hostMetas)) &&
      (forall h :: h != host && h in s.hostMetas ==> g.state.hostMetas[h] == s.hostMetas[h]) &&
      (g.result.Failure? ==> g.state == s) &&
      (g.result.Success? && g.state != s ==> g.state.hostMetas[host] == g.result.value)
  {
  }

  /** get("") and get("0") throw before any request or cache change. */
  lemma GetRejectsEmpty(env: Environment, s: ClientState, uri: string)
    requires IsEmptyPhp(uri)
    ensures GetStep(env, s, uri) == Step(Failure(UnexpectedValueError(EmptyResource)), s, [])
  {
  }

  /** A cached resource, under its exact text, is returned with no request. */
  lemma CachedWebFingerServed(env: Environment, s: ClientState, uri: string)
    requires !IsEmptyPhp(uri) && uri in s.webFingers
    ensures GetStep(env, s, uri) == Step(Success(s.webFingers[uri]), s, [])
  {
  }

  /** A new resource: a success is stored under it; a failure leaves the WebFinger cache as it was. */
  lemma GetStoresSuccess(env: Environment, s: ClientState, uri: string)
    requires !IsEmptyPhp(uri) && uri !in s.webFingers
    ensures var g := GetStep(env, s, uri);
      (g.result.Success? ==> g.state.webFingers == s.webFingers[uri := g.result.value]) &&
      (g.result.Failure? ==> g.state.webFingers == s.webFingers) &&
      g.requests == FetchStep(env, s, uri).requests
  {
    GetHostMetaFrame(env, s, ExtractHost(env, uri));
  }

  /** The last request of fetch is the URL built from the host-meta or the fallback, and an empty body throws "webfinger fetch failed.". */
  lemma FetchRequestsUrl(env: Environment, s: ClientState, uri: string)
    requires !IsEmptyPhp(ExtractHost(env, uri))
    requires GetHostMetaStep(env, s, ExtractHost(env, uri)).result.Success?
    ensures var host := ExtractHost(env, uri); var h := GetHostMetaStep(env, s, host); var f := FetchStep(env, s, uri);
      var url := WebFingerUrl(env, uri, host, h.result.value);
      f.requests == h.requests + [url] &&
      (Download(env, url) == "" ==> f.result == Failure(RuntimeError(FetchFailed))) &&
      (Download(env, url) != "" ==> f.result == ReadXrd(env, Download(env, url)))
  {
  }

  /**
   * A host-meta without an LRDD link of the XRD type makes fetch fail with "webfinger fetch
   * failed.", after an empty URL is handed to the transport, and get then caches nothing.
   */
  lemma NoLrddFetchFails(env: Environment, s: ClientState, uri: string, hm: Descriptor)
    requires !IsEmptyPhp(ExtractHost(env, uri))
    requires GetHostMetaStep(env, s, ExtractHost(env, uri)).result == Success(Some(hm))
    requires forall i :: 0 <= i < |hm.links| ==> !IsLrdd(hm.links[i], XrdContentType)
    ensures FetchStep(env, s, uri).result == Failure(RuntimeError(FetchFailed))
    ensures FetchStep(env, s, uri).requests == GetHostMetaStep(env, s, ExtractHost(env, uri)).requests + [""]
    ensures !IsEmptyPhp(uri) ==> GetStep(env, s, uri).state.webFingers == s.webFingers
  {
    NoLrddNoUrl(env, uri, ExtractHost(env, uri), hm);
    GetHostMetaFrame(env, s, ExtractHost(env, uri));
  }

  /** Without a host-meta the resource is looked up at the well-known WebFinger URL of its host, over https. */
  lemma FallbackUrl(env: Environment, uri: string, host: string)
    ensures WebFingerUrl(env, uri, host, None) == "https://" + host + WellKnownWebFinger + env.encode(uri)
  {
  }

  // ---------------------------------------------------------------------------------------
  // The mutable object

  class WebFingerClient {
    var hostMetaCache: map<string, Option<Descriptor>>
    var webFingerCache: map<string, Descriptor>
    /** Every URL handed to the transport, in order. */
    ghost var requests: seq<string>

    function State(): ClientState
      reads this
    {
      ClientState(hostMetaCache, webFingerCache)
    }

    constructor ()
      ensures State() == ClientState(map[], map[]) && requests == []
    {
      hostMetaCache := map[];
      webFingerCache := map[];
      requests := [];
    }

    /** fetchXrd: one GET of `url`; the body, "" when it fails or `url` is empty. */
    method FetchXrd(env: Environment, url: string) returns (body: string)
      modifies this
      ensures body == Download(env, url)
      ensures State() == old(State()) && requests == old(requests) + [url]
    {
      requests := requests + [url];
      if url == "" {
        body := "";
      } else {
        body := env.fetch(url);
      }
    }

    method FetchHostMeta(env: Environment, host: string) returns (r: Result<Option<Descriptor>, ClientError>)
      modifies this
      ensures var step := FetchHostMetaStep(env, old(State()), host);
        r == step.result && State() == step.state && requests == old(requests) + step.requests
    {
      if IsEmptyPhp(host) {
        return Failure(UnexpectedValueError(EmptyHost));
      }
      var hostMetaUrl := HostMetaUrl(host);
      var hostMetaXrd := FetchXrd(env, hostMetaUrl);
      if |hostMetaXrd| < 1 {
        hostMetaUrl := HostMetaUrl(host, true);
        hostMetaXrd := FetchXrd(env, hostMetaUrl);
      }
      if |hostMetaXrd| < 1 {
        return Success(None);
      }
      var hostMeta := General.FromXml(env.parseXml(hostMetaXrd));
      if hostMeta.Failure? {
        return Failure(UnexpectedValueError(hostMeta.error.message));
      }
      return Success(Some(hostMeta.value.Value()));
    }

    method GetHostMeta(env: Environment, host: string) returns (r: Result<Option<Descriptor>, ClientError>)
      modifies this
      ensures var step := GetHostMetaStep(env, old(State()), host);
        r == step.result && State() == step.state && requests == old(requests) + step.requests
    {
      if IsEmptyPhp(host) {
        return Failure(UnexpectedValueError(EmptyHost));
      }
      if host in hostMetaCache && hostMetaCache[host].Some? {
        return Success(hostMetaCache[host]);
      }
      r := FetchHostMeta(env, host);
      if r.Success? {
        hostMetaCache := hostMetaCache[host := r.value];
      }
    }

    method Fetch(env: Environment, uri: string) returns (r: Result<Descriptor, ClientError>)
      modifies this
      ensures var step := FetchStep(env, old(State()), uri);
        r == step.result && State() == step.state && requests == old(requests) + step.requests
    {
      var host := ExtractHost(env, uri);
      if IsEmptyPhp(host) {
        return Failure(UnexpectedValueError(EmptyResourceHost));
      }
      var hostMeta := GetHostMeta(env, host);
      if hostMeta.Failure? {
        return Failure(hostMeta.error);
      }
      var webFingerUrl: string;
      if hostMeta.value.Some? {
        webFingerUrl := ReplaceAll(Lrdd(hostMeta.value.value.links, XrdContentType), UriPlaceholder, env.encode(uri));
      } else {
        webFingerUrl := "https://" + host + WellKnownWebFinger + env.encode(uri);
      }
      var webFingerXrd := FetchXrd(env, webFingerUrl);
      if |webFingerXrd| < 1 {
        return Failure(RuntimeError(FetchFailed));
      }
      var webFinger := General.FromXml(env.parseXml(webFingerXrd));
      if webFinger.Failure? {
        return Failure(UnexpectedValueError(webFinger.error.message));
      }
      return Success(webFinger.value.Value());
    }

    method Get(env: Environment, uri: string) returns (r: Result<Descriptor, ClientError>)
      modifies this
      ensures var step := GetStep(env, old(State()), uri);
        r == step.result && State() == step.state && requests == old(requests) + step.requests
    {
      if IsEmptyPhp(uri) {
        return Failure(UnexpectedValueError(EmptyResource));
      }
      if uri in webFingerCache {
        return Success(webFingerCache[uri]);
      }
      r := Fetch(env, uri);
      if r.Success? {
        webFingerCache := webFingerCache[uri := r.value];
      }
    }
  }
}
