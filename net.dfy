/** The pieces of `std::net` and of the `http` crate's `Uri` that the core
    reads: socket addresses and the parsed components of a URL. */
module Net {
  import opened Wrappers
  import opened BoundedInts

  /** `std::net::IpAddr`: four octets or eight 16-bit groups. */
  datatype IpAddr =
    | V4(octets: seq<uint8>)
    | V6(segments: seq<uint16>)

  /** `std::net::SocketAddr`. */
  datatype SocketAddr = SocketAddr(ip: IpAddr, port: uint16)

  const LOCALHOST: IpAddr := V4([127, 0, 0, 1])

  /** `http::uri::Authority`, already split into host and optional port. */
  datatype Authority = Authority(host: string, port: Option<uint16>)

  /** `http::uri::PathAndQuery`: the path and the optional query after `?`. */
  datatype PathAndQuery = PathAndQuery(path: string, query: Option<string>)

  /** `http::Uri` as its accessors see it. A URI the `http` crate parses
      or builds satisfies `WellFormed`. */
  datatype Uri = Uri(scheme: Option<string>, authority: Option<Authority>, pathAndQuery: Option<PathAndQuery>)

  /** `Uri::host`. */
  function Host(u: Uri): (h: Option<string>)
    ensures h.Some? <==> u.authority.Some?
  {
    match u.authority
    case None => None
    case Some(a) => Some(a.host)
  }

  /** `Uri::port_u16`. */
  function Port(u: Uri): (p: Option<uint16>)
    ensures p.Some? <==> u.authority.Some? && u.authority.value.port.Some?
  {
    match u.authority
    case None => None
    case Some(a) => a.port
  }

  /** `Uri::path`: the path without the query; "/" stands for an empty path
      once the URI has a scheme or a query, "" otherwise. */
  function Path(u: Uri): (p: string)
    ensures u.pathAndQuery.Some? && u.pathAndQuery.value.path != [] ==> p == u.pathAndQuery.value.path
    ensures u.scheme.Some? ==> p != []
  {
    match u.pathAndQuery
    case Some(pq) =>
      if pq.path != [] then pq.path
      else if u.scheme.Some? || pq.query.Some? then "/" else ""
    case None =>
      if u.scheme.Some? then "/" else ""
  }

  /** Once a URI has a scheme, `Uri::path_and_query` is never `None`: a URL
      written without a path has an empty one. */
  predicate WellFormed(u: Uri) {
    u.scheme.Some? ==> u.pathAndQuery.Some?
  }

  /** The resource name of a URL: its path, then `?` and the query when
      there is one. */
  function ResourceName(u: Uri): (r: string)
    ensures |Path(u)| <= |r| && r[..|Path(u)|] == Path(u)
    ensures u.pathAndQuery.Some? && u.pathAndQuery.value.query.Some? ==> |Path(u)| < |r|
  {
    match u.pathAndQuery
    case Some(PathAndQuery(_, Some(q))) => Path(u) + "?" + q
    case _ => Path(u)
  }
}
