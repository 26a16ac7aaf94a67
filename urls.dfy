/**
 * URLs as far as the connection logic looks at them: an origin (scheme, host,
 * port) and a path. Parsing and re-assembly of URL strings are not modelled.
 */
module Urls {
  import opened Wrappers

  datatype Url = Url(scheme: Option<string>, host: Option<string>, port: Option<int>, path: string)

  predicate EndsWithSlash(p: string) {
    |p| > 0 && p[|p| - 1] == '/'
  }

  /**
   * The path with all of its trailing '/' characters removed: the longest
   * prefix of `p` that does not end in '/' and after which only '/' follows.
   */
  function StripTrailingSlashes(p: string): (r: string)
    ensures r <= p
    ensures !EndsWithSlash(r)
    ensures forall i | |r| <= i < |p| :: p[i] == '/'
    decreases |p|
  {
    if EndsWithSlash(p) then StripTrailingSlashes(p[..|p| - 1]) else p
  }

  /** The three properties of StripTrailingSlashes determine its result. */
  lemma {:induction false} StripTrailingSlashesUnique(p: string, q: string)
    requires q <= p && !EndsWithSlash(q)
    requires forall i | |q| <= i < |p| :: p[i] == '/'
    ensures q == StripTrailingSlashes(p)
  {
    var r := StripTrailingSlashes(p);
    assert q == p[..|q|] && r == p[..|r|];
  }

  /** The URL with the trailing slashes of its path stripped; its origin is kept. */
  function Sanitized(u: Url): (r: Url)
    ensures !EndsWithSlash(r.path)
  {
    u.(path := StripTrailingSlashes(u.path))
  }

  /** Stripping trailing slashes a second time changes nothing. */
  lemma SanitizedIdempotent(u: Url)
    ensures Sanitized(Sanitized(u)) == Sanitized(u)
  {
  }

  /**
   * `sanitize(_:)`: removes the last character of the path while it is '/'.
   * A URL whose path has no trailing slash is returned as it is.
   */
  method Sanitize(u: Url) returns (r: Url)
    ensures r == Sanitized(u)
    ensures !EndsWithSlash(u.path) ==> r == u
  {
    var path := u.path;
    if EndsWithSlash(path) {
      while EndsWithSlash(path)
        invariant StripTrailingSlashes(path) == StripTrailingSlashes(u.path)
        decreases |path|
      {
        path := path[..|path| - 1];
      }
      r := u.(path := path);
    } else {
      r := u;
    }
  }

  // Optional chaining `known?.scheme` and friends: an absent URL has no scheme, host or port.
  function SchemeOf(known: Option<Url>): Option<string> {
    if known.Some? then known.value.scheme else None
  }

  function HostOf(known: Option<Url>): Option<string> {
    if known.Some? then known.value.host else None
  }

  function PortOf(known: Option<Url>): Option<int> {
    if known.Some? then known.value.port else None
  }

  /** Whether `u` has the scheme, host and port of `known` (compared as optionals). */
  predicate SameOrigin(u: Url, known: Option<Url>) {
    u.scheme == SchemeOf(known) && u.host == HostOf(known) && u.port == PortOf(known)
  }

  /**
   * Because the comparison is between optionals, an absent endpoint matches
   * exactly the URLs that have no scheme, no host and no port.
   */
  lemma SameOriginAbsent(u: Url)
    ensures SameOrigin(u, None) <==> u.scheme.None? && u.host.None? && u.port.None?
  {
  }

  /** Sanitizing a URL never changes which endpoint origin it matches. */
  lemma SanitizedKeepsOrigin(u: Url, known: Option<Url>)
    ensures SameOrigin(Sanitized(u), known) <==> SameOrigin(u, known)
  {
  }

  /** `appendingPathComponent(_:isDirectory: false)`, reduced to joining paths with one '/'. */
  function AppendingPathComponent(u: Url, component: string): (r: Url)
    ensures r.scheme == u.scheme && r.host == u.host && r.port == u.port
    ensures |u.path| + |component| <= |r.path| <= |u.path| + 1 + |component|
    ensures u.path <= r.path && r.path[|r.path| - |component|..] == component
    ensures |r.path| == |u.path| + |component| <==> EndsWithSlash(u.path)
    ensures |r.path| > |component| && r.path[|r.path| - |component| - 1] == '/'
  {
    u.(path := (if EndsWithSlash(u.path) then u.path else u.path + "/") + component)
  }
}
