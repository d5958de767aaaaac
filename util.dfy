/** Transport negotiation: which channel to open (a serial device or a
    WebSocket), the URL checks that come first, the WebSocket upgrade request,
    and the protocol-extension choice made when the session is created. The
    I/O steps themselves are outcomes passed in by the caller. */
module Util {
  import opened Wrappers
  import opened BoundedInts
  import opened Net

  // ---------------------------------------------------------------------
  // Errors.

  datatype WhisperError =
    | UriHasNoScheme
    | UriHasInvalidScheme
    | UriHasNoHost
    | NoSocketAddr
    | NotInitialized
    | AlreadyInitialized
    | NotStarted
    | AlreadyStarted
    | ChannelExited
    | Other(inner: BoxError)

  /** A `Box<dyn Error>`: one of this crate's errors, or a foreign error
      known by its `Display` text. */
  datatype BoxError =
    | Whisper(whisper: WhisperError)
    | Foreign(message: string)

  /** `WhisperError::other`: boxes a foreign error. */
  function OtherError(message: string): WhisperError {
    Other(Foreign(message))
  }

  predicate IsUnit(e: WhisperError) {
    !e.Other?
  }

  /** `impl Display for WhisperError`; `Other` prints the wrapped error. */
  function Display(e: WhisperError): (msg: string)
    ensures e.Other? ==> msg == BoxDisplay(e.inner)
    decreases e, 1
  {
    match e
    case UriHasNoScheme => "URI has no scheme"
    case UriHasInvalidScheme => "URI has invalid scheme"
    case UriHasNoHost => "URI has no host"
    case NoSocketAddr => "No socket addr"
    case NotInitialized => "Whisper not initialized"
    case AlreadyInitialized => "Whisper already initialized"
    case NotStarted => "Whisper not started"
    case AlreadyStarted => "Whisper already started"
    case ChannelExited => "Channel exited"
    case Other(inner) => BoxDisplay(inner)
  }

  function BoxDisplay(b: BoxError): string
    decreases b, 0
  {
    match b
    case Whisper(e) => Display(e)
    case Foreign(message) => message
  }

  /** Every unit variant has its own non-empty message, and wrapping one of
      this crate's errors in `Other` does not change what is printed. */
  lemma DisplayFacts(e1: WhisperError, e2: WhisperError)
    ensures IsUnit(e1) ==> |Display(e1)| > 0
    ensures IsUnit(e1) && IsUnit(e2) && e1 != e2 ==> Display(e1) != Display(e2)
    ensures Display(Other(Whisper(e1))) == Display(e1)
  {
  }

  // ---------------------------------------------------------------------
  // Choosing the transport.

  /** `WispServer`: a serial device path, a URL, or (on the command line,
      exactly one of) both. */
  datatype WispServer = WispServer(pty: Option<string>, url: Option<Uri>)

  datatype Transport = PtyTransport(path: string) | UrlTransport(url: Uri)

  /** The device path wins when both are given; the URL is used only
      without one. */
  function ChooseTransport(opts: WispServer): (t: Transport)
    requires opts.pty.Some? || opts.url.Some?
    ensures t.PtyTransport? <==> opts.pty.Some?
    ensures t.PtyTransport? ==> t.path == opts.pty.value
    ensures t.UrlTransport? ==> t.url == opts.url.value
  {
    if opts.pty.Some? then PtyTransport(opts.pty.value) else UrlTransport(opts.url.value)
  }

  // ---------------------------------------------------------------------
  // URL checks, shared with the helper-tunnel branch of the binary, which
  // uses "https"/"http" where this file uses "wss"/"ws".

  /** The TLS flag a scheme selects: `secure` means TLS, `plain` means none,
      anything else is refused. */
  function SchemeTls(scheme: Option<string>, secure: string, plain: string): (r: Result<bool, WhisperError>)
    requires secure != plain
    ensures r == Ok(true) <==> scheme == Some(secure)
    ensures r == Ok(false) <==> scheme == Some(plain)
    ensures r == Err(UriHasNoScheme) <==> scheme.None?
    ensures r == Err(UriHasInvalidScheme) <==> scheme.Some? && scheme.value != secure && scheme.value != plain
  {
    match scheme
    case None => Err(UriHasNoScheme)
    case Some(s) =>
      if s == secure then Ok(true)
      else if s == plain then Ok(false)
      else Err(UriHasInvalidScheme)
  }

  /** The port used when the URL gives none. */
  function DefaultPort(tls: bool): (port: uint16)
    ensures tls ==> port == 443
    ensures !tls ==> port == 80
  {
    if tls then 443 else 80
  }

  datatype Endpoint = Endpoint(host: string, port: uint16, tls: bool)

  /** Scheme first, then host, then port: the order of the checks decides
      which error a URL that fails several of them gets. */
  function UrlEndpoint(url: Uri, secure: string, plain: string): (r: Result<Endpoint, WhisperError>)
    requires secure != plain
    ensures SchemeTls(url.scheme, secure, plain).Err? ==> r == Err(SchemeTls(url.scheme, secure, plain).error)
    ensures SchemeTls(url.scheme, secure, plain).Ok? && Host(url).None? ==> r == Err(UriHasNoHost)
    ensures r.Ok? <==> SchemeTls(url.scheme, secure, plain).Ok? && Host(url).Some?
    ensures r.Ok? ==> r.value.host == Host(url).value
                      && (r.value.tls <==> url.scheme == Some(secure))
                      && r.value.port == (if Port(url).Some? then Port(url).value else DefaultPort(r.value.tls))
  {
    match SchemeTls(url.scheme, secure, plain)
    case Err(e) => Err(e)
    case Ok(tls) =>
      match Host(url)
      case None => Err(UriHasNoHost)
      case Some(host) =>
        var port := match Port(url) case Some(p) => p case None => DefaultPort(tls);
        Ok(Endpoint(host, port, tls))
  }

  lemma DefaultPorts(url: Uri)
    requires Port(url).None? && Host(url).Some?
    ensures url.scheme == Some("wss") ==> UrlEndpoint(url, "wss", "ws") == Ok(Endpoint(Host(url).value, 443, true))
    ensures url.scheme == Some("ws") ==> UrlEndpoint(url, "wss", "ws") == Ok(Endpoint(Host(url).value, 80, false))
  {
  }

  // ---------------------------------------------------------------------
  // The WebSocket upgrade request.

  /** The standard header names the request uses, as the `http` crate
      names them. */
  datatype HeaderName = HostHeader | UpgradeHeader | ConnectionHeader | SecWebSocketKey | SecWebSocketVersion

  /** An HTTP request head; each header is set once, so the headers form
      a map from name to value. */
  datatype Request = Request(verb: string, target: string, headers: map<HeaderName, string>)

  /** The request sent on the new connection: `GET url.path()` with the
      upgrade headers and the `Sec-WebSocket-Key` generated for it, passed in
      as `key`. It always carries that key, and its target is the path alone:
      a URL's query is not sent. For a URL with a scheme, an absolute path
      and no query, and a key generated as the standard asks, it is a
      client opening handshake. */
  function UpgradeRequest(url: Uri, host: string, key: string): (req: Request)
    ensures SecWebSocketKey in req.headers && req.headers[SecWebSocketKey] == key
    ensures req.target == Path(url)
    ensures url.scheme.Some? && IsNonceKey(key)
            && (url.pathAndQuery.Some? ==> url.pathAndQuery.value.query.None?)
            && (url.pathAndQuery.Some? && url.pathAndQuery.value.path != [] ==> url.pathAndQuery.value.path[0] == '/')
            ==> IsOpeningHandshake(req, host, ResourceName(url))
    ensures url.pathAndQuery.Some? && url.pathAndQuery.value.query.Some? ==>
              |req.target| < |ResourceName(url)| && ResourceName(url)[..|req.target|] == req.target
  {
    Request("GET", Path(url), map[
      HostHeader := host,
      UpgradeHeader := "websocket",
      ConnectionHeader := "upgrade",
      SecWebSocketKey := key,
      SecWebSocketVersion := "13"
    ])
  }

  predicate IsBase64Char(c: char) {
    'A' <= c <= 'Z' || 'a' <= c <= 'z' || '0' <= c <= '9' || c == '+' || c == '/'
  }

  /** The base64 encoding of 16 bytes: 21 full sextets, a last character
      whose low four bits are zero, and two padding characters. */
  predicate IsNonceKey(key: string) {
    && |key| == 24
    && (forall i :: 0 <= i < 21 ==> IsBase64Char(key[i]))
    && key[21] in "AQgw"
    && key[22] == '=' && key[23] == '='
  }

  /** What a client's opening handshake for `resource` must carry (section
      4.1 of RFC 6455): a GET of the resource name, which begins with `/`,
      the Host, `Upgrade: websocket`, `Connection: upgrade`, a key that is a
      base64-encoded 16-byte nonce, and version 13. */
  predicate IsOpeningHandshake(req: Request, host: string, resource: string) {
    && req.verb == "GET"
    && req.target == resource
    && |resource| > 0 && resource[0] == '/'
    && req.headers.Keys == {HostHeader, UpgradeHeader, ConnectionHeader, SecWebSocketKey, SecWebSocketVersion}
    && req.headers[HostHeader] == host
    && req.headers[UpgradeHeader] == "websocket"
    && req.headers[ConnectionHeader] == "upgrade"
    && IsNonceKey(req.headers[SecWebSocketKey])
    && req.headers[SecWebSocketVersion] == "13"
  }

  // ---------------------------------------------------------------------
  // Protocol version and extensions.

  datatype Extension = UdpExtension

  /** Arguments of `ClientMux::create` and the follow-up call: version 1
      offers no extensions and requires none; otherwise the UDP extension is
      offered and required. */
  datatype MuxSetup = MuxSetup(offered: Option<seq<Extension>>, udpRequired: bool)

  function ExtensionSetup(v1: bool): (s: MuxSetup)
    ensures v1 <==> s.offered.None?
    ensures v1 <==> !s.udpRequired
    ensures !v1 ==> s.offered == Some([UdpExtension])
  {
    if v1 then MuxSetup(None, false) else MuxSetup(Some([UdpExtension]), true)
  }

  // ---------------------------------------------------------------------
  // connect_to_wisp.

  /** The multiplexed session, known by an identity and whether the UDP
      extension was negotiated. */
  datatype Mux = Mux(session: nat, udpExtension: bool)

  /** Outcomes of the foreign steps `connect_to_wisp` awaits, in order. */
  datatype ConnectIo = ConnectIo(
    openPty: Result<(), string>,          // open the device in raw mode
    tcpConnect: Result<SocketAddr, string>, // TCP connect, then the peer address
    tlsConnect: Result<(), string>,       // TLS handshake (only under TLS)
    wsKey: string,                        // the generated Sec-WebSocket-Key
    wsHandshake: Result<(), string>,      // the HTTP upgrade
    muxCreate: Result<nat, string>,       // the Wisp handshake
    serverExtensions: seq<Extension>)     // what the server advertised

  /** What the connection attempt did: the address dialed and the upgrade
      request sent, when it got that far. */
  datatype ConnectTrace = ConnectTrace(dialed: Option<(string, uint16)>, request: Option<Request>)

  method ConnectToWisp(opts: WispServer, v1: bool, io: ConnectIo)
    returns (r: Result<(Mux, Option<SocketAddr>), BoxError>, trace: ConnectTrace)
    requires opts.pty.Some? || opts.url.Some?
    // The serial path never dials and never reports an address.
    ensures opts.pty.Some? ==> trace == ConnectTrace(None, None)
    ensures opts.pty.Some? && r.Ok? ==> r.value.1.None?
    ensures opts.pty.Some? && io.openPty.Err? ==> r == Err(Foreign(io.openPty.error))
    // The URL path: checks first, then the dial to host:port.
    ensures opts.pty.None? ==>
              var ep := UrlEndpoint(opts.url.value, "wss", "ws");
              && (ep.Err? ==> r == Err(Whisper(ep.error)) && trace == ConnectTrace(None, None))
              && (ep.Ok? ==> trace.dialed == Some((ep.value.host, ep.value.port)))
              && (ep.Ok? && r.Ok? ==>
                    && io.tcpConnect.Ok? && r.value.1 == Some(io.tcpConnect.value)
                    && (ep.value.tls ==> io.tlsConnect.Ok?)
                    && trace.request == Some(UpgradeRequest(opts.url.value, ep.value.host, io.wsKey))
                    && io.wsHandshake.Ok?)
    ensures opts.pty.Some? && r.Ok? ==> io.openPty.Ok?
    // The session itself.
    ensures r.Ok? ==> io.muxCreate.Ok? && r.value.0 == Mux(io.muxCreate.value, !v1)
    ensures !v1 && UdpExtension !in io.serverExtensions ==> r.Err?
    // Every step succeeding, and UDP advertised when it is required, is enough.
    ensures && io.muxCreate.Ok?
            && (v1 || UdpExtension in io.serverExtensions)
            && (if opts.pty.Some? then io.openPty.Ok?
                else
                  var ep := UrlEndpoint(opts.url.value, "wss", "ws");
                  && ep.Ok? && io.tcpConnect.Ok? && io.wsHandshake.Ok?
                  && (ep.value.tls ==> io.tlsConnect.Ok?))
            ==> r.Ok?
  {
    trace := ConnectTrace(None, None);
    var socketaddr: Option<SocketAddr>;
    match ChooseTransport(opts) {
    case PtyTransport(path) =>
      if io.openPty.Err? {
        return Err(Foreign(io.openPty.error)), trace;
      }
      socketaddr := None;
    case UrlTransport(url) =>
      var endpoint := UrlEndpoint(url, "wss", "ws");
      if endpoint.Err? {
        return Err(Whisper(endpoint.error)), trace;
      }
      var Endpoint(host, port, tls) := endpoint.value;
      trace := trace.(dialed := Some((host, port)));
      if io.tcpConnect.Err? {
        return Err(Foreign(io.tcpConnect.error)), trace;
      }
      var peer := io.tcpConnect.value;
      if tls && io.tlsConnect.Err? {
        return Err(Foreign(io.tlsConnect.error)), trace;
      }
      var request := UpgradeRequest(url, host, io.wsKey);
      trace := trace.(request := Some(request));
      if io.wsHandshake.Err? {
        return Err(Foreign(io.wsHandshake.error)), trace;
      }
      socketaddr := Some(peer);
    }
    var setup := ExtensionSetup(v1);
    if io.muxCreate.Err? {
      return Err(Foreign(io.muxCreate.error)), trace;
    }
    if setup.udpRequired && UdpExtension !in io.serverExtensions {
      return Err(Foreign("extensions not supported: udp")), trace;
    }
    r := Ok((Mux(io.muxCreate.value, setup.udpRequired), socketaddr));
  }
}
