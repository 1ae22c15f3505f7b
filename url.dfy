/**
 * The part of Go's `net/url` the plugin relies on: `url.Parse` followed by `Hostname()`
 * and `Port()`, for endpoints of the form `scheme://authority[/path]`.
 */
module Url {

  import opened Wrappers
  import opened Strings

  /** What the plugin reads from a parsed URL: `Hostname()` and `Port()`. */
  datatype Url = Url(host: string, port: string)

  predicate IsAsciiLetter(c: char) { 'a' <= c <= 'z' || 'A' <= c <= 'Z' }

  /** A URL scheme: a letter, then letters, digits, `+`, `-` or `.`. */
  predicate IsScheme(s: string)
  {
    && |s| > 0
    && IsAsciiLetter(s[0])
    && forall i :: 0 < i < |s| ==> IsAsciiLetter(s[i]) || IsDigit(s[i]) || s[i] == '+' || s[i] == '-' || s[i] == '.'
  }

  /** Characters a host name may hold without escaping. */
  predicate IsHostChar(c: char) { IsAsciiLetter(c) || IsDigit(c) || c == '-' || c == '.' || c == '_' || c == '~' }

  predicate IsHostName(h: string) { forall i :: 0 <= i < |h| ==> IsHostChar(h[i]) }

  /** Printable ASCII other than the query, fragment and escape markers. */
  predicate IsPathChar(c: char) { ' ' <= c <= '~' && c != '?' && c != '#' && c != '%' }

  /** An empty path or one that starts with `/`. */
  predicate IsPath(p: string) { (p == [] || p[0] == '/') && forall i :: 0 <= i < |p| ==> IsPathChar(p[i]) }

  /**
   * `url.Parse(ep)` read through `Hostname()` and `Port()`. The scheme ends at the first
   * `:` and `//` opens the authority; `None` covers every string outside the modelled form.
   */
  function ParseEndpoint(ep: string): (r: Option<Url>)
    ensures r.Some? ==> AllDigits(r.value.port)
    ensures r.Some? ==> forall i :: 0 <= i < |r.value.host| ==> IsHostChar(r.value.host[i]) || r.value.host[i] == ':'
  {
    var i := FirstIndex(ep, ':');
    if i == |ep| || !IsScheme(ep[..i]) then None
    else
      var rest := ep[i + 1..];
      if |rest| < 2 || rest[0] != '/' || rest[1] != '/' then None
      else ParseHierarchy(rest[2..])
  }

  /** What follows `scheme://`: the authority runs up to the next `/`, the path from there. */
  function ParseHierarchy(tail: string): (r: Option<Url>)
    ensures r.Some? ==> AllDigits(r.value.port)
    ensures r.Some? ==> forall i :: 0 <= i < |r.value.host| ==> IsHostChar(r.value.host[i]) || r.value.host[i] == ':'
  {
    var j := FirstIndex(tail, '/');
    if !IsPath(tail[j..]) then None else SplitHostPort(tail[..j])
  }

  /**
   * An authority splits at its last `:` into host and port; Go refuses an authority
   * whose port is not all digits, and one without `:` has an empty port.
   */
  function SplitHostPort(authority: string): (r: Option<Url>)
    ensures r.Some? ==> AllDigits(r.value.port)
    ensures r.Some? ==> forall i :: 0 <= i < |r.value.host| ==> IsHostChar(r.value.host[i]) || r.value.host[i] == ':'
  {
    if !(forall k :: 0 <= k < |authority| ==> IsHostChar(authority[k]) || authority[k] == ':') then None
    else
      match LastIndex(authority, ':')
      case None => Some(Url(authority, ""))
      case Some(k) =>
        if AllDigits(authority[k + 1..]) then Some(Url(authority[..k], authority[k + 1..]))
        else None
  }

  /** The endpoint text `scheme://host:port` followed by a path. */
  function FormatEndpoint(scheme: string, host: string, port: string, path: string): string
  {
    scheme + "://" + host + ":" + port + path
  }

  lemma SplitFormattedHostPort(host: string, port: string)
    requires IsHostName(host) && AllDigits(port)
    ensures SplitHostPort(host + ":" + port) == Some(Url(host, port))
  {
    var authority := host + ":" + port;
    assert authority[|host| + 1..] == port;
    assert ':' !in port by {
      assert forall i :: 0 <= i < |port| ==> port[i] != ':';
    }
    LastIndexIs(authority, ':', |host|);
    assert authority[..|host|] == host;
  }

  lemma ParseFormattedHierarchy(host: string, port: string, path: string)
    requires IsHostName(host) && AllDigits(port) && IsPath(path)
    ensures ParseHierarchy(host + ":" + port + path) == Some(Url(host, port))
  {
    var authority := host + ":" + port;
    var tail := authority + path;
    assert '/' !in authority by {
      assert forall i :: 0 <= i < |authority| ==> authority[i] != '/';
    }
    FirstIndexAfter(authority, path, '/');
    assert FirstIndex(path, '/') == 0;
    assert tail[..|authority|] == authority;
    assert tail[|authority|..] == path;
    SplitFormattedHostPort(host, port);
  }

  /** After a well-formed scheme and `://`, parsing continues with the hierarchical part. */
  lemma ParseAfterScheme(scheme: string, tail: string)
    requires IsScheme(scheme)
    ensures ParseEndpoint(scheme + "://" + tail) == ParseHierarchy(tail)
  {
    var ep := scheme + "://" + tail;
    assert ep == scheme + ("://" + tail);
    assert ':' !in scheme by {
      assert forall i :: 0 <= i < |scheme| ==> scheme[i] != ':';
    }
    FirstIndexAfter(scheme, "://" + tail, ':');
    assert ep[..|scheme|] == scheme;
    assert ep[|scheme| + 1..] == "//" + tail;
    assert ("//" + tail)[2..] == tail;
  }

  /** Parsing a formatted endpoint recovers its host and port. */
  lemma ParseFormat(scheme: string, host: string, port: string, path: string)
    requires IsScheme(scheme) && IsHostName(host) && AllDigits(port) && IsPath(path)
    ensures ParseEndpoint(FormatEndpoint(scheme, host, port, path)) == Some(Url(host, port))
  {
    assert FormatEndpoint(scheme, host, port, path) == scheme + "://" + (host + ":" + port + path);
    ParseAfterScheme(scheme, host + ":" + port + path);
    ParseFormattedHierarchy(host, port, path);
  }
}
