/**
 * Go's url.ParseRequestURI, reduced to the two results the modelled code
 * reads: the (lower-cased) scheme and the host with its optional ":port".
 */
module Url {
  import opened Wrappers
  import opened Text

  datatype UrlError = EmptyUrl | MissingProtocolScheme | InvalidRequestUri | MissingBracket | InvalidPort

  datatype RequestUri = RequestUri(scheme: string, host: string)

  predicate IsSchemeChar(c: char) {
    IsLetter(c) || IsDigit(c) || c == '+' || c == '-' || c == '.'
  }

  /** A scheme name as RFC 3986 spells it: a letter, then letters, digits, '+', '-' or '.'. */
  predicate IsSchemeName(s: string) {
    |s| >= 1 && IsLetter(s[0]) && forall k :: 0 <= k < |s| ==> IsSchemeChar(s[k])
  }

  /**
   * Go's getScheme, scanning from position `i`: a leading letter run ended by
   * ':' is the scheme; a ':' in first position is an error; any other
   * character ends the scan with no scheme.
   */
  function GetSchemeFrom(s: string, i: nat): (r: Result<(string, string), UrlError>)
    requires i <= |s|
    requires forall k :: 0 <= k < i ==> IsSchemeChar(s[k])
    requires i > 0 ==> IsLetter(s[0])
    ensures r.Success? && r.value.0 == [] ==> r.value.1 == s
    ensures r.Success? && r.value.0 != [] ==>
      IsSchemeName(r.value.0) && s == r.value.0 + ":" + r.value.1
    ensures r.Failure? ==> r.error == MissingProtocolScheme
    decreases |s| - i
  {
    if i == |s| then Success(("", s))
    else
      var c := s[i];
      if IsLetter(c) then GetSchemeFrom(s, i + 1)
      else if IsDigit(c) || c == '+' || c == '-' || c == '.' then
        (if i == 0 then Success(("", s)) else GetSchemeFrom(s, i + 1))
      else if c == ':' then
        (if i == 0 then Failure(MissingProtocolScheme)
         else
           assert s == s[..i] + ":" + s[i + 1..];
           Success((s[..i], s[i + 1..])))
      else Success(("", s))
  }

  function GetScheme(s: string): Result<(string, string), UrlError> {
    GetSchemeFrom(s, 0)
  }

  /** Go's validOptionalPort: empty, or ':' followed by digits only. */
  predicate ValidOptionalPort(p: string) {
    p == [] || (p[0] == ':' && AllDigits(p[1..]))
  }

  /** The checks of Go's parseHost that this model keeps: a closing ']' and a numeric port. */
  function CheckHost(host: string): (r: Result<string, UrlError>)
    ensures r.Success? ==> r.value == host
  {
    if StartsWith(host, "[") then
      var i := LastIndexOf(host, ']');
      if i < 0 then Failure(MissingBracket)
      else if ValidOptionalPort(host[i + 1..]) then Success(host)
      else Failure(InvalidPort)
    else
      var i := LastIndexOf(host, ':');
      if i < 0 || ValidOptionalPort(host[i..]) then Success(host)
      else Failure(InvalidPort)
  }

  /** The host part of "//authority/path": the authority less any "userinfo@". */
  function AuthorityHost(rest: string): (r: string)
    requires '?' !in rest && |rest| >= 2
    ensures '/' !in r && '?' !in r
  {
    var authority := UpTo(rest[2..], '/');
    var host := AfterLast(authority, '@');
    assert forall k :: 0 <= k < |host| ==> host[k] == rest[2 + |authority| - |host| + k];
    host
  }

  /** What ParseRequestUri does once the scheme is split off. */
  function ParseAfterScheme(scheme: string, afterScheme: string): (r: Result<RequestUri, UrlError>)
    ensures r.Success? ==> '/' !in r.value.host && '?' !in r.value.host
    ensures r.Success? && r.value.host != [] ==> r.value.scheme != []
  {
    var rest := UpTo(afterScheme, '?');
    if !StartsWith(rest, "/") then
      if scheme != [] then Success(RequestUri(Lower(scheme), ""))
      else Failure(InvalidRequestUri)
    else if scheme != [] && StartsWith(rest, "//") then
      match CheckHost(AuthorityHost(rest))
      case Failure(e) => Failure(e)
      case Success(h) => Success(RequestUri(Lower(scheme), h))
    else Success(RequestUri(Lower(scheme), ""))
  }

  /**
   * url.ParseRequestURI: "*" and absolute paths have no host; a scheme with
   * an opaque rest has no host; "scheme://authority/path" has the authority,
   * less any user information before the last '@', as host.
   */
  function ParseRequestUri(s: string): (r: Result<RequestUri, UrlError>)
    ensures r.Success? ==> '/' !in r.value.host && '?' !in r.value.host
    ensures r.Success? && r.value.host != [] ==> r.value.scheme != []
  {
    if s == [] then Failure(EmptyUrl)
    else if s == "*" then Success(RequestUri("", ""))
    else match GetScheme(s)
      case Failure(e) => Failure(e)
      case Success((scheme, afterScheme)) => ParseAfterScheme(scheme, afterScheme)
  }

  // ---- properties ----

  lemma GetSchemeOfName(scheme: string, rest: string)
    requires IsSchemeName(scheme)
    ensures GetScheme(scheme + ":" + rest) == Success((scheme, rest))
  {
    var s := scheme + ":" + rest;
    assert s[..|scheme|] == scheme && s[|scheme| + 1..] == rest;
    GetSchemeScan(s, |scheme|, 0);
  }

  lemma {:induction false} GetSchemeScan(s: string, n: nat, i: nat)
    requires 1 <= n < |s| && s[n] == ':' && i <= n
    requires IsLetter(s[0])
    requires forall k :: 0 <= k < n ==> IsSchemeChar(s[k])
    ensures GetSchemeFrom(s, i) == Success((s[..n], s[n + 1..]))
    decreases n - i
  {
    if i < n {
      GetSchemeScan(s, n, i + 1);
    }
  }

  /** A string with no ':' has no scheme. */
  lemma {:induction false} NoColonNoScheme(s: string, i: nat)
    requires ':' !in s && i <= |s|
    requires forall k :: 0 <= k < i ==> IsSchemeChar(s[k])
    requires i > 0 ==> IsLetter(s[0])
    ensures GetSchemeFrom(s, i) == Success(("", s))
    decreases |s| - i
  {
    if i < |s| && IsSchemeChar(s[i]) && (i > 0 || IsLetter(s[i])) {
      NoColonNoScheme(s, i + 1);
    }
  }

  /** Without a '/', nothing parses to a non-empty host. */
  lemma NoSlashNoHost(s: string)
    requires '/' !in s
    ensures ParseRequestUri(s).Success? ==> ParseRequestUri(s).value.host == []
  {
    if s != [] && s != "*" && GetScheme(s).Success? {
      var afterScheme := GetScheme(s).value.1;
      assert '/' !in afterScheme;
      assert !StartsWith(UpTo(afterScheme, '?'), "/") by {
        var rest := UpTo(afterScheme, '?');
        if rest != [] { assert rest[0] == afterScheme[0]; }
      }
    }
  }

  /** Without a ':', nothing parses to a non-empty host: there is no scheme. */
  lemma NoColonNoHost(s: string)
    requires ':' !in s
    ensures ParseRequestUri(s).Success? ==> ParseRequestUri(s).value.host == []
  {
    NoColonNoScheme(s, 0);
  }

  /** The authority of "//" + hp + suffix is hp when hp holds no '/', '?' or '@'. */
  lemma AuthorityOf(hp: string, suffix: string)
    requires '/' !in hp && '?' !in hp && '@' !in hp
    requires suffix == [] || suffix[0] == '/' || suffix[0] == '?'
    ensures UpTo("//" + hp + suffix, '?') == "//" + hp + UpTo(suffix, '?')
    ensures AuthorityHost("//" + hp + UpTo(suffix, '?')) == hp
  {
    assert '?' !in "//" + hp;
    UpToConcat("//" + hp, suffix, '?');
    var tail := UpTo(suffix, '?');
    var rest := "//" + hp + tail;
    assert tail == [] || tail[0] == '/';
    assert rest[2..] == hp + tail;
    UpToConcat(hp, tail, '/');
  }

  lemma CheckHostPort(host: string, port: string)
    requires forall c :: c in host ==> c !in ":/?@[]"
    requires AllDigits(port)
    ensures CheckHost(host + ":" + port) == Success(host + ":" + port)
  {
    var hp := host + ":" + port;
    assert !StartsWith(hp, "[") by {
      assert hp[..1] == [hp[0]];
      if host == [] { assert hp[0] == ':'; } else { assert hp[0] == host[0] && host[0] in host; }
    }
    assert hp == host + (":" + port);
    LastIndexOfConcat(host + ":", port, ':');
    assert LastIndexOf(host + ":", ':') == |host|;
    assert hp[|host|..] == ":" + port;
  }

  /** Past the special cases, ParseRequestUri is ParseAfterScheme on GetScheme's split. */
  lemma ParseWithScheme(s: string, scheme: string, afterScheme: string)
    requires scheme != [] && GetScheme(s) == Success((scheme, afterScheme))
    ensures ParseRequestUri(s) == ParseAfterScheme(scheme, afterScheme)
  {
    assert s == scheme + ":" + afterScheme;
    assert s != "*" by { assert |s| >= 2; }
  }

  /** A scheme followed by "//" + hp, then nothing, a path or a query, has host hp when CheckHost accepts it. */
  lemma ParseAfterSchemeAuthority(scheme: string, hp: string, suffix: string)
    requires scheme != []
    requires '/' !in hp && '?' !in hp && '@' !in hp
    requires suffix == [] || suffix[0] == '/' || suffix[0] == '?'
    requires CheckHost(hp) == Success(hp)
    ensures ParseAfterScheme(scheme, "//" + hp + suffix) == Success(RequestUri(Lower(scheme), hp))
  {
    var rest := "//" + hp + UpTo(suffix, '?');
    assert UpTo("//" + hp + suffix, '?') == rest && AuthorityHost(rest) == hp by {
      AuthorityOf(hp, suffix);
    }
    assert StartsWith(rest, "//") by {
      assert rest[..2] == "//";
    }
    ParseAuthorityForm(scheme, "//" + hp + suffix);
  }

  /** With a scheme, a rest before any '?' that starts with "//" yields the authority's host, if it passes CheckHost. */
  lemma ParseAuthorityForm(scheme: string, afterScheme: string)
    requires scheme != [] && StartsWith(UpTo(afterScheme, '?'), "//")
    ensures ParseAfterScheme(scheme, afterScheme) ==
      match CheckHost(AuthorityHost(UpTo(afterScheme, '?')))
      case Failure(e) => Failure(e)
      case Success(h) => Success(RequestUri(Lower(scheme), h))
  {
    var rest := UpTo(afterScheme, '?');
    assert StartsWith(rest, "/") by { assert rest[..1] == "/"; }
  }

  /**
   * "scheme://" + hp followed by nothing, a path or a query parses to the
   * lower-cased scheme and host hp, whenever hp holds no '/', '?' or '@'
   * and passes the port check.
   */
  lemma ParseSchemeAuthority(scheme: string, hp: string, suffix: string)
    requires IsSchemeName(scheme)
    requires '/' !in hp && '?' !in hp && '@' !in hp
    requires CheckHost(hp) == Success(hp)
    requires suffix == [] || suffix[0] == '/' || suffix[0] == '?'
    ensures ParseRequestUri(scheme + "://" + hp + suffix) == Success(RequestUri(Lower(scheme), hp))
  {
    var afterScheme := "//" + hp + suffix;
    assert scheme + "://" + hp + suffix == scheme + ":" + afterScheme;
    GetSchemeOfName(scheme, afterScheme);
    ParseWithScheme(scheme + ":" + afterScheme, scheme, afterScheme);
    ParseAfterSchemeAuthority(scheme, hp, suffix);
  }

  /** "scheme://host:port" with a plain host and a numeric port parses to "host:port". */
  lemma ParseSchemeHostPort(scheme: string, host: string, port: string, suffix: string)
    requires IsSchemeName(scheme)
    requires forall c :: c in host ==> c !in ":/?@[]"
    requires AllDigits(port)
    requires suffix == [] || suffix[0] == '/' || suffix[0] == '?'
    ensures ParseRequestUri(scheme + "://" + host + ":" + port + suffix)
         == Success(RequestUri(Lower(scheme), host + ":" + port))
  {
    var hp := host + ":" + port;
    assert scheme + "://" + host + ":" + port + suffix == scheme + "://" + hp + suffix;
    CheckHostPort(host, port);
    assert forall c :: c in hp ==> c in host || c == ':' || IsDigit(c);
    ParseSchemeAuthority(scheme, hp, suffix);
  }

  /** A plain host with no port at all also passes Go's parseHost. */
  lemma CheckHostPlain(host: string)
    requires forall c :: c in host ==> c !in ":[]"
    ensures CheckHost(host) == Success(host)
  {
    if host != [] {
      assert host[..1] == [host[0]] && host[0] in host;
    }
  }
}
