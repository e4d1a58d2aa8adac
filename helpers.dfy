/**
 * internal/helpers: split a cluster server address into scheme, host and
 * port, with Go's named results and their defaults.
 */
module Helpers {
  import opened Wrappers
  import opened Text
  import opened Url
  import opened Net

  datatype AddressError = UrlFailed(urlError: UrlError) | SplitFailed(addrError: AddrError)

  /**
   * The four named results of AddressToSchemeHostPort. Go returns whatever
   * the named results hold when an error ends the function early, so the
   * scheme survives a host:port split failure.
   */
  datatype SchemeHostPort = SchemeHostPort(scheme: string, host: string, port: string, err: Option<AddressError>)

  /**
   * Parse `address` as a request URI, default an empty scheme to "https",
   * split the URI's host into host and port, and default an empty host to
   * "localhost" and an empty port to "6443".
   */
  function AddressToSchemeHostPort(address: string): (r: SchemeHostPort)
    ensures r.err.None? ==> r.scheme != [] && r.host != [] && r.port != []
    ensures r.err.None? ==> ParseRequestUri(address).Success?
    ensures ParseRequestUri(address).Failure? ==>
      r == SchemeHostPort("", "", "", Some(UrlFailed(ParseRequestUri(address).error)))
    ensures r.err.Some? && r.err.value.SplitFailed? ==> r.scheme != [] && r.host == [] && r.port == []
  {
    match ParseRequestUri(address)
    case Failure(e) => SchemeHostPort("", "", "", Some(UrlFailed(e)))
    case Success(u) =>
      var scheme := if u.scheme == [] then "https" else u.scheme;
      match SplitHostPort(u.host)
      case Failure(e) => SchemeHostPort(scheme, "", "", Some(SplitFailed(e)))
      case Success((h, p)) =>
        SchemeHostPort(scheme, if h == [] then "localhost" else h, if p == [] then "6443" else p, None)
  }

  // ---- properties ----

  /**
   * "scheme://host:port" (then nothing, a path or a query) gives the
   * lower-cased scheme, the host and the port, with "localhost" for an
   * empty host and "6443" for an empty port.
   */
  lemma AddressRoundTrip(scheme: string, host: string, port: string, suffix: string)
    requires IsSchemeName(scheme)
    requires forall c :: c in host ==> c !in ":/?@[]"
    requires AllDigits(port)
    requires suffix == [] || suffix[0] == '/' || suffix[0] == '?'
    ensures AddressToSchemeHostPort(scheme + "://" + host + ":" + port + suffix)
         == SchemeHostPort(Lower(scheme), if host == [] then "localhost" else host,
                           if port == [] then "6443" else port, None)
  {
    ParseSchemeHostPort(scheme, host, port, suffix);
    assert forall k :: 0 <= k < |port| ==> port[k] in port;
    SplitHostPortJoin(host, port);
  }

  /** An authority without a ":port" part is an error, not a default port. */
  lemma MissingPortIsError(scheme: string, host: string, suffix: string)
    requires IsSchemeName(scheme)
    requires forall c :: c in host ==> c !in ":/?@[]"
    requires suffix == [] || suffix[0] == '/' || suffix[0] == '?'
    ensures AddressToSchemeHostPort(scheme + "://" + host + suffix)
         == SchemeHostPort(Lower(scheme), "", "", Some(SplitFailed(MissingPort)))
  {
    CheckHostPlain(host);
    ParseSchemeAuthority(scheme, host, suffix);
  }

  /** With no '/' or no ':' in the address there is no host to split, so it always fails. */
  lemma NoAuthorityIsError(address: string)
    requires '/' !in address || ':' !in address
    ensures AddressToSchemeHostPort(address).err.Some?
  {
    if '/' !in address { NoSlashNoHost(address); } else { NoColonNoHost(address); }
  }

  /**
   * The "https" default is never used on success: a URI with a host always
   * carries its own scheme, and the result's scheme is the parsed one.
   */
  lemma SchemeDefaultUnused(address: string)
    requires AddressToSchemeHostPort(address).err.None?
    ensures ParseRequestUri(address).value.scheme != []
    ensures AddressToSchemeHostPort(address).scheme == ParseRequestUri(address).value.scheme
  {
    assert ParseRequestUri(address).value.host != [];
  }

  /**
   * On success neither host nor port holds a '/' or '?', the port holds no
   * ':' and the host no '[' (a bracketed IPv6 host keeps its colons).
   */
  lemma ResultIsClean(address: string)
    requires AddressToSchemeHostPort(address).err.None?
    ensures var r := AddressToSchemeHostPort(address);
      '/' !in r.host && '?' !in r.host && '[' !in r.host &&
      '/' !in r.port && '?' !in r.port && ':' !in r.port
  {
    var u := ParseRequestUri(address).value;
    var parts := SplitHostPort(u.host).value;
    assert '/' !in u.host && '?' !in u.host;
    assert '/' !in parts.0 && '?' !in parts.0 && '/' !in parts.1 && '?' !in parts.1;
    LocalhostIsPlain("localhost");
    DefaultPortIsNumeric("6443");
    var r := AddressToSchemeHostPort(address);
    assert r.host == (if parts.0 == [] then "localhost" else parts.0);
    assert r.port == (if parts.1 == [] then "6443" else parts.1);
  }

  /** "https://:6443" gives host "localhost". */
  lemma EmptyHostDefaults(address: string)
    requires address == "https://:6443"
    ensures AddressToSchemeHostPort(address) == SchemeHostPort("https", "localhost", "6443", None)
  {
    HttpsIsScheme();
    assert address == "https" + "://" + "" + ":" + "6443" + "";
    AddressRoundTrip("https", "", "6443", "");
  }

  /** "https://localhost:" gives port "6443". */
  lemma EmptyPortDefaults(address: string)
    requires address == "https://localhost:"
    ensures AddressToSchemeHostPort(address) == SchemeHostPort("https", "localhost", "6443", None)
  {
    HttpsIsScheme();
    LocalhostIsPlain("localhost");
    assert address == "https" + "://" + "localhost" + ":" + "" + "";
    AddressRoundTrip("https", "localhost", "", "");
  }

  /** "https://localhost:6443" splits into "https", "localhost" and "6443". */
  lemma LocalhostUrl(address: string)
    requires address == "https://localhost:6443"
    ensures AddressToSchemeHostPort(address) == SchemeHostPort("https", "localhost", "6443", None)
  {
    assert address == "https" + "://" + "localhost" + ":" + "6443";
    ExampleRoundTrip("https", "localhost", "6443");
  }

  /** "https://api.cluster.local:6443" has host "api.cluster.local". */
  lemma SubdomainUrl(address: string)
    requires address == "https://api.cluster.local:6443"
    ensures AddressToSchemeHostPort(address) == SchemeHostPort("https", "api.cluster.local", "6443", None)
  {
    var host := "api.cluster.local";
    assert address == "https" + "://" + host + ":" + "6443";
    ExampleRoundTrip("https", host, "6443");
  }

  /** Lower-case letters and dots only. */
  predicate IsLowerDotted(h: string) {
    forall k :: 0 <= k < |h| ==> IsLower(h[k]) || h[k] == '.'
  }

  lemma LocalstackHostIsLowerDotted(host: string)
    requires host == "localhost.localstack.cloud"
    ensures IsLowerDotted(host)
  {
    var a, b := "localhost.", "localstack.";
    assert IsLowerDotted(a) && IsLowerDotted(b) && IsLowerDotted("cloud");
    LowerDottedConcat(a, b);
    LowerDottedConcat(a + b, "cloud");
    assert host == a + b + "cloud";
  }

  lemma LowerDottedConcat(a: string, b: string)
    requires IsLowerDotted(a) && IsLowerDotted(b)
    ensures IsLowerDotted(a + b)
  {
    assert forall k :: |a| <= k < |a + b| ==> (a + b)[k] == b[k - |a|];
  }

  /** The round trip for an "https" or "http" address with a lower-case dotted host and a numeric port. */
  lemma ExampleRoundTrip(scheme: string, host: string, port: string)
    requires scheme == "https" || scheme == "http"
    requires port == "6443" || port == "4566"
    requires host != [] && IsLowerDotted(host)
    ensures AddressToSchemeHostPort(scheme + "://" + host + ":" + port) == SchemeHostPort(scheme, host, port, None)
  {
    if scheme == "https" { HttpsIsScheme(); } else { HttpIsScheme(); }
    if port == "6443" { DefaultPortIsNumeric(port); } else { LocalstackPortIsNumeric(port); }
    assert forall c :: c in host ==> c !in ":/?@[]";
    AddressRoundTrip(scheme, host, port, "");
    assert scheme + "://" + host + ":" + port + "" == scheme + "://" + host + ":" + port;
  }

  lemma LocalhostIsPlain(h: string)
    requires h == "localhost"
    ensures forall c :: c in h ==> c !in ":/?@[]"
  {
    assert forall k :: 0 <= k < |h| ==> IsLower(h[k]);
  }

  lemma DefaultPortIsNumeric(p: string)
    requires p == "6443"
    ensures AllDigits(p) && forall c :: c in p ==> c !in ":/?@[]"
  {
    assert forall k :: 0 <= k < |p| ==> IsDigit(p[k]);
  }

  lemma LocalstackPortIsNumeric(p: string)
    requires p == "4566"
    ensures AllDigits(p) && forall c :: c in p ==> c !in ":/?@[]"
  {
    assert forall k :: 0 <= k < |p| ==> IsDigit(p[k]);
  }

  lemma HttpIsScheme()
    ensures IsSchemeName("http") && Lower("http") == "http"
  {
    LowerOfLower("http");
  }

  lemma HttpsIsScheme()
    ensures IsSchemeName("https") && Lower("https") == "https"
  {
    LowerOfLower("https");
  }
}
