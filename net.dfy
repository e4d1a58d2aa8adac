/**
 * The parts of Go's `net` package the modelled code calls: SplitHostPort, and
 * ParseIP reduced to the question "is this string an IP literal".
 */
module Net {
  import opened Wrappers
  import opened Text

  datatype AddrError = MissingPort | TooManyColons | MissingBracket | UnexpectedBracket

  /**
   * net.SplitHostPort: the port follows the last colon; a host that starts
   * with '[' must end with the first ']' right before that colon.
   */
  function SplitHostPort(hostport: string): (r: Result<(string, string), AddrError>)
    ensures ':' !in hostport ==> r == Failure(MissingPort)
    ensures r.Success? ==> ':' !in r.value.1 && '[' !in r.value.0 && ']' !in r.value.0
    ensures r.Success? ==> |r.value.0| + |r.value.1| < |hostport|
    ensures r.Success? ==> forall c :: c in r.value.0 || c in r.value.1 ==> c in hostport
  {
    var i := LastIndexOf(hostport, ':');
    if i < 0 then Failure(MissingPort)
    else
      var bracketed := hostport[0] == '[';
      var end := IndexOf(hostport, ']');
      if bracketed && end < 0 then Failure(MissingBracket)
      else if bracketed && end + 1 == |hostport| then Failure(MissingPort)
      else if bracketed && end + 1 != i then
        (if hostport[end + 1] == ':' then Failure(TooManyColons) else Failure(MissingPort))
      else if !bracketed && ':' in hostport[..i] then Failure(TooManyColons)
      else
        var host := if bracketed then hostport[1..end] else hostport[..i];
        var j, k := if bracketed then 1 else 0, if bracketed then end + 1 else 0;
        if '[' in hostport[j..] then Failure(UnexpectedBracket)
        else if ']' in hostport[k..] then Failure(UnexpectedBracket)
        else Success((host, hostport[i + 1..]))
  }

  /** A "host:port" pair whose host holds no colon or bracket splits back into its parts. */
  lemma SplitHostPortJoin(host: string, port: string)
    requires ':' !in host && '[' !in host && ']' !in host
    requires ':' !in port && '[' !in port && ']' !in port
    ensures SplitHostPort(host + ":" + port) == Success((host, port))
  {
    var hp := host + ":" + port;
    var i := |host|;
    assert LastIndexOf(hp, ':') == i by {
      assert hp == (host + ":") + port;
      LastIndexOfConcat(host + ":", port, ':');
    }
    assert hp[..i] == host && hp[i + 1..] == port;
    assert hp[0] != '[' by {
      if host == [] { assert hp[0] == ':'; } else { assert hp[0] == host[0]; }
    }
    assert '[' !in hp && ']' !in hp && ':' !in hp[..i] by {
      assert forall c :: c in hp ==> c in host || c == ':' || c in port;
    }
  }

  // ---- net.ParseIP, as a predicate ----

  /** One decimal octet of a dotted IPv4 address: 1 to 3 digits, at most 255, no leading zero. */
  predicate IsOctet(s: string) {
    && 1 <= |s| <= 3
    && AllDigits(s)
    && !(|s| > 1 && s[0] == '0')
    && DecimalValue(s) <= 255
  }

  function DecimalValue(s: string): nat
    requires AllDigits(s)
  {
    if s == [] then 0
    else DecimalValue(s[..|s| - 1]) * 10 + (s[|s| - 1] - '0') as nat
  }

  predicate IsIPv4(s: string) {
    var fields := Split(s, '.');
    |fields| == 4 && forall k :: 0 <= k < 4 ==> IsOctet(fields[k])
  }

  predicate IsHexDigit(c: char) {
    IsDigit(c) || 'a' <= c <= 'f' || 'A' <= c <= 'F'
  }

  /** IPv6 text form, approximated: hex digits, colons and dots only, with at least one colon. */
  predicate IsIPv6Like(s: string) {
    ':' in s && forall k :: 0 <= k < |s| ==> IsHexDigit(s[k]) || s[k] == ':' || s[k] == '.'
  }

  /**
   * net.ParseIP(s) != nil: the first '.' or ':' decides between the IPv4 and
   * the IPv6 syntax.
   */
  predicate ParsesAsIp(s: string) {
    var dot, colon := IndexOf(s, '.'), IndexOf(s, ':');
    if dot >= 0 && (colon < 0 || dot < colon) then IsIPv4(s)
    else if colon >= 0 then IsIPv6Like(s)
    else false
  }

  lemma IpLiteralNotEmpty(s: string)
    requires ParsesAsIp(s)
    ensures s != ""
  {
  }

  lemma OctetsOfLoopback()
    ensures IsOctet("127") && IsOctet("0") && IsOctet("1")
  {
    assert DecimalValue("1") == 1 by { assert "1"[..0] == ""; }
    assert DecimalValue("12") == 12 by { assert "12"[..1] == "1"; }
    assert DecimalValue("127") == 127 by { assert "127"[..2] == "12"; }
  }

  function Dotted(a: string, b: string, c: string, d: string): string {
    a + ['.'] + (b + ['.'] + (c + ['.'] + d))
  }

  /** The four parts of a dotted string come back from splitting it at the dots. */
  lemma SplitDotted(a: string, b: string, c: string, d: string)
    requires '.' !in a && '.' !in b && '.' !in c && '.' !in d
    ensures Split(Dotted(a, b, c, d), '.') == [a, b, c, d]
  {
    var parts := [a, b, c, d];
    assert forall k :: 0 <= k < |parts| ==> '.' !in parts[k];
    SplitJoin(parts, '.');
    assert Join(parts, '.') == Dotted(a, b, c, d) by {
      assert Join([c, d], '.') == c + ['.'] + d by {
        JoinCons(c, [d], '.');
        assert [c, d] == [c] + [d];
      }
      assert Join([b, c, d], '.') == b + ['.'] + (c + ['.'] + d) by {
        JoinCons(b, [c, d], '.');
        assert [b, c, d] == [b] + [c, d];
      }
      JoinCons(a, [b, c, d], '.');
      assert parts == [a] + [b, c, d];
    }
  }

  lemma DottedIsIPv4(a: string, b: string, c: string, d: string)
    requires IsOctet(a) && IsOctet(b) && IsOctet(c) && IsOctet(d)
    ensures IsIPv4(Dotted(a, b, c, d))
  {
    OctetHasNoSeparator(a);
    OctetHasNoSeparator(b);
    OctetHasNoSeparator(c);
    OctetHasNoSeparator(d);
    SplitDotted(a, b, c, d);
    OctetFields(Dotted(a, b, c, d), a, b, c, d);
  }

  /** A string that splits at its dots into four octets is IPv4. */
  lemma OctetFields(s: string, a: string, b: string, c: string, d: string)
    requires Split(s, '.') == [a, b, c, d]
    requires IsOctet(a) && IsOctet(b) && IsOctet(c) && IsOctet(d)
    ensures IsIPv4(s)
  {
    var f := Split(s, '.');
    assert f[0] == a && f[1] == b && f[2] == c && f[3] == d;
  }

  lemma OctetHasNoSeparator(o: string)
    requires IsOctet(o)
    ensures '.' !in o && ':' !in o && o != []
  {
  }

  /** Four octets joined by dots form an IP literal. */
  lemma DottedQuadIsIp(a: string, b: string, c: string, d: string)
    requires IsOctet(a) && IsOctet(b) && IsOctet(c) && IsOctet(d)
    ensures ParsesAsIp(Dotted(a, b, c, d))
  {
    DottedIsIPv4(a, b, c, d);
    OctetHasNoSeparator(a);
    OctetHasNoSeparator(b);
    OctetHasNoSeparator(c);
    OctetHasNoSeparator(d);
    DottedSeparators(a, b, c, d);
    DotFirstIsIPv4(Dotted(a, b, c, d));
  }

  /** In a dotted string of colon-free parts, the first dot ends the first part and there is no colon. */
  lemma DottedSeparators(a: string, b: string, c: string, d: string)
    requires '.' !in a && ':' !in a && ':' !in b && ':' !in c && ':' !in d
    ensures IndexOf(Dotted(a, b, c, d), '.') == |a|
    ensures IndexOf(Dotted(a, b, c, d), ':') == -1
  {
    var tail := ['.'] + (b + ['.'] + (c + ['.'] + d));
    assert IndexOf(tail, '.') == 0 by {
      assert tail[0] == '.';
    }
    assert ':' !in tail by {
      assert forall x :: x in tail ==> x == '.' || x in b || x in c || x in d;
    }
    assert Dotted(a, b, c, d) == a + tail;
    IndexOfConcat(a, tail, '.');
    IndexOfConcat(a, tail, ':');
  }

  /** A string whose first separator is a dot parses as IPv4 or not at all. */
  lemma DotFirstIsIPv4(s: string)
    requires IndexOf(s, '.') >= 0 && IndexOf(s, ':') < 0
    ensures ParsesAsIp(s) == IsIPv4(s)
  {
  }

  /** The loopback address that remapping reports is an IP literal. */
  lemma LoopbackIsIp()
    ensures ParsesAsIp("127.0.0.1")
  {
    OctetsOfLoopback();
    DottedQuadIsIp("127", "0", "0", "1");
    assert Dotted("127", "0", "0", "1") == "127.0.0.1";
  }

  /** A host name with no dot or colon, such as "localhost", is not an IP literal. */
  lemma PlainNameIsNotIp(s: string)
    requires '.' !in s && ':' !in s
    ensures !ParsesAsIp(s)
  {
  }
}
