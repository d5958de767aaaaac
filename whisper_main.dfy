/** The command-line client's connection step. With a URL and the `cf`
    flag it goes through a local helper tunnel: it reserves a local port,
    starts the helper listening there, checks the URL, resolves the real
    server's address, and connects to the helper with a rewritten local
    URL. Without them it connects directly. Process I/O, DNS and the
    connection itself are outcomes passed in by the caller. */
module WhisperMain {
  import opened Wrappers
  import opened BoundedInts
  import opened Net
  import opened Util

  /** The host the local listener is bound to. */
  const LOOPBACK: string := "127.0.0.1"

  /** The options that decide the connection step. */
  datatype Cli = Cli(wisp: WispServer, cf: bool)

  predicate UsesHelperTunnel(cli: Cli) {
    cli.wisp.url.Some? && cli.cf
  }

  /** Builds the URL of the local helper listener step by step: scheme
      `ws`, the listener's address as authority, and the original
      path-and-query when there is one. Building a URI with a scheme but no
      path-and-query fails. */
  method RewriteUrl(url: Uri, listenerPort: uint16) returns (r: Result<Uri, string>)
    ensures r.Ok? <==> url.pathAndQuery.Some?
    ensures r.Ok? ==> && r.value.scheme == Some("ws")
                      && r.value.authority == Some(Authority(LOOPBACK, Some(listenerPort)))
                      && r.value.pathAndQuery == url.pathAndQuery
  {
    var local := Uri(None, None, None);
    local := local.(scheme := Some("ws"));
    local := local.(authority := Some(Authority(LOOPBACK, Some(listenerPort))));
    if url.pathAndQuery.Some? {
      local := local.(pathAndQuery := url.pathAndQuery);
    }
    if local.pathAndQuery.None? {
      return Err("path and query missing");
    }
    r := Ok(local);
  }

  /** The rewritten URL is dialed in plain text at the local listener, and
      its request path is the one the original URL would have sent. */
  lemma LocalUrlTargetsListener(url: Uri, local: Uri, listenerPort: uint16)
    requires url.scheme.Some?
    requires local.scheme == Some("ws")
    requires local.authority == Some(Authority(LOOPBACK, Some(listenerPort)))
    requires local.pathAndQuery == url.pathAndQuery
    ensures UrlEndpoint(local, "wss", "ws") == Ok(Endpoint(LOOPBACK, listenerPort, false))
    ensures Path(local) == Path(url)
  {
  }

  /** What the helper branch did before connecting. */
  datatype HelperTrace = HelperTrace(resolved: Option<(string, uint16)>, local: Option<Uri>)

  /** The helper-tunnel branch: bind a local port, start the helper (its
      exit, which aborts the process, is not modelled), check the URL with
      "https"/"http", resolve host:port, rewrite the URL and connect to it.
      The address reported is the first resolved address of the real
      server; the address of the local connection is discarded. */
  method HelperTunnel(url: Uri, listener: Result<uint16, string>, spawn: Result<(), string>,
                      lookup: Result<seq<SocketAddr>, string>,
                      connect: Result<(Mux, Option<SocketAddr>), BoxError>)
    returns (r: Result<(Mux, Option<SocketAddr>), BoxError>, trace: HelperTrace)
    requires WellFormed(url)
    ensures listener.Err? ==> r == Err(Foreign(listener.error)) && trace == HelperTrace(None, None)
    ensures listener.Ok? && spawn.Err? ==> r == Err(Foreign(spawn.error)) && trace == HelperTrace(None, None)
    ensures listener.Ok? && spawn.Ok? ==>
              var ep := UrlEndpoint(url, "https", "http");
              && (ep.Err? ==> r == Err(Whisper(ep.error)) && trace == HelperTrace(None, None))
              && (ep.Ok? ==> trace.resolved == Some((ep.value.host, ep.value.port)))
              && (ep.Ok? && lookup.Err? ==> r == Err(Foreign(lookup.error)) && trace.local.None?)
    ensures r.Ok? ==>
              && listener.Ok? && spawn.Ok? && lookup.Ok? && connect.Ok?
              && UrlEndpoint(url, "https", "http").Ok?
              && r.value.0 == connect.value.0
              && r.value.1 == (if lookup.value == [] then None else Some(lookup.value[0]))
              && trace.local.Some?
              && trace.local.value.scheme == Some("ws")
              && trace.local.value.authority == Some(Authority(LOOPBACK, Some(listener.value)))
              && trace.local.value.pathAndQuery == url.pathAndQuery
    ensures r.Err? && trace.local.Some? ==> connect.Err? && r == Err(connect.error)
    // Once the host is resolved, the local URL is built and dialed, and the
    // tunnel succeeds exactly when that connection does.
    ensures listener.Ok? && spawn.Ok? && UrlEndpoint(url, "https", "http").Ok? && lookup.Ok? ==>
              && trace.local == Some(Uri(Some("ws"), Some(Authority(LOOPBACK, Some(listener.value))), url.pathAndQuery))
              && (r.Ok? <==> connect.Ok?)
  {
    trace := HelperTrace(None, None);
    if listener.Err? {
      return Err(Foreign(listener.error)), trace;
    }
    var freePort := listener.value;
    if spawn.Err? {
      return Err(Foreign(spawn.error)), trace;
    }
    var endpoint := UrlEndpoint(url, "https", "http");
    if endpoint.Err? {
      return Err(Whisper(endpoint.error)), trace;
    }
    var Endpoint(host, port, _) := endpoint.value;
    trace := trace.(resolved := Some((host, port)));
    if lookup.Err? {
      return Err(Foreign(lookup.error)), trace;
    }
    var socketaddr := if lookup.value == [] then None else Some(lookup.value[0]);
    var local := RewriteUrl(url, freePort);
    if local.Err? {
      // A URL with a scheme has a path-and-query, so building cannot fail.
      assert false;
    }
    trace := trace.(local := Some(local.value));
    if connect.Err? {
      return Err(connect.error), trace;
    }
    r := Ok((connect.value.0, socketaddr));
  }

  /** The connection step of `main`: the helper tunnel only with a URL and
      the `cf` flag, otherwise a direct connection. */
  method Connect(cli: Cli, listener: Result<uint16, string>, spawn: Result<(), string>,
                 lookup: Result<seq<SocketAddr>, string>,
                 connect: Result<(Mux, Option<SocketAddr>), BoxError>)
    returns (r: Result<(Mux, Option<SocketAddr>), BoxError>, usedHelper: bool)
    requires cli.wisp.url.Some? ==> WellFormed(cli.wisp.url.value)
    ensures usedHelper <==> UsesHelperTunnel(cli)
    ensures !usedHelper ==> r == connect
    ensures usedHelper && r.Ok? ==>
              && connect.Ok? && lookup.Ok? && r.value.0 == connect.value.0
              && r.value.1 == (if lookup.value == [] then None else Some(lookup.value[0]))
  {
    if cli.wisp.url.Some? && cli.cf {
      var trace;
      r, trace := HelperTunnel(cli.wisp.url.value, listener, spawn, lookup, connect);
      usedHelper := true;
    } else {
      r := connect;
      usedHelper := false;
    }
  }
}
