/**
 * internal/kubeconfig/firewall.go: the port-forwarding rule that sends
 * traffic for publicIp:port to localIp:port, and the rule that removes it,
 * rendered in the dialect the cluster's FirewallFormat names.
 */
module Firewall {
  import opened Text

  datatype Dialect = Nftables | Ufw | Firewalld | Ipfw | Pf | Iptables

  /** The dialect a FirewallFormat string selects; anything unrecognised is iptables. */
  function DialectOf(format: string): (d: Dialect)
    ensures d == Iptables <==> format !in {"nftables", "ufw", "firewalld", "ipfw", "pf"}
  {
    if format == "nftables" then Nftables
    else if format == "ufw" then Ufw
    else if format == "firewalld" then Firewalld
    else if format == "ipfw" then Ipfw
    else if format == "pf" then Pf
    else Iptables
  }

  /**
   * A rendered command from its pieces, in order: the literal parts of the
   * fmt.Sprintf template interleaved with the values of its %s verbs. The
   * word that tells an add rule from a delete rule is kept as a piece of
   * its own.
   */
  function Concat(parts: seq<string>): string {
    if parts == [] then "" else parts[0] + Concat(parts[1..])
  }

  /** makeFirewallRule: the command that installs the forwarding rule. */
  function MakeFirewallRule(format: string, localIp: string, publicIp: string, port: string): string {
    match DialectOf(format)
    case Nftables =>
      Concat(["nft ", "add ", "rule ip nat prerouting ip daddr ", publicIp, " tcp dport ", port,
              " dnat to ", localIp, ":", port])
    case Ufw =>
      Concat(["ufw route allow proto tcp from any to ", publicIp, " port ", port,
              " comment 'DNAT to ", localIp, ":", port, "'"])
    case Firewalld =>
      Concat(["firewall-cmd --zone=public ", "--add-rich-rule", "='rule family=\"ipv4\" forward-port port=\"", port,
              "\" protocol=\"tcp\" to-addr=\"", localIp, "\" to-port=\"", port, "\"'"])
    case Ipfw =>
      Concat(["ipfw add 100 fwd ", localIp, ",", port, " tcp from any to ", publicIp, " ", port])
    case Pf =>
      Concat(["rdr pass on egress proto tcp from any to ", publicIp, " port ", port,
              " -> ", localIp, " port ", port])
    case Iptables =>
      Concat(["iptables -t nat ", "-A ", "PREROUTING -p tcp -d ", publicIp, " --dport ", port,
              " -j DNAT --to-destination ", localIp, ":", port])
  }

  /** makeDeleteFirewallRule: the command that removes the forwarding rule. */
  function MakeDeleteFirewallRule(format: string, localIp: string, publicIp: string, port: string): string {
    match DialectOf(format)
    case Nftables =>
      Concat(["nft ", "delete ", "rule ip nat prerouting ip daddr ", publicIp, " tcp dport ", port,
              " dnat to ", localIp, ":", port])
    case Ufw =>
      Concat(["ufw route delete allow proto tcp from any to ", publicIp, " port ", port])
    case Firewalld =>
      Concat(["firewall-cmd --zone=public ", "--remove-rich-rule", "='rule family=\"ipv4\" forward-port port=\"", port,
              "\" protocol=\"tcp\" to-addr=\"", localIp, "\" to-port=\"", port, "\"'"])
    case Ipfw =>
      "ipfw delete 100"
    case Pf =>
      Concat(["no rdr pass on egress proto tcp from any to ", publicIp, " port ", port])
    case Iptables =>
      Concat(["iptables -t nat ", "-D ", "PREROUTING -p tcp -d ", publicIp, " --dport ", port,
              " -j DNAT --to-destination ", localIp, ":", port])
  }

  /** `s` with the first occurrence of `pat` replaced by `rep`; unchanged when there is none. */
  function ReplaceFirst(s: string, pat: string, rep: string): string
    requires pat != []
    decreases |s|
  {
    if |s| < |pat| then s
    else if s[..|pat|] == pat then rep + s[|pat|..]
    else [s[0]] + ReplaceFirst(s[1..], pat, rep)
  }

  /** No occurrence of `pat` starts inside `p`, judged by the first three characters of `pat`. */
  predicate NoMatchBefore(p: string, pat: string)
    requires |pat| >= 3
  {
    forall k :: 0 <= k < |p| ==>
      (p + pat)[k] != pat[0] || (p + pat)[k + 1] != pat[1] || (p + pat)[k + 2] != pat[2]
  }

  // ---- properties ----

  /** Replacing the first `pat` in p + pat + rest gives p + rep + rest when no `pat` starts inside p. */
  lemma {:induction false} ReplaceFirstAt(p: string, pat: string, rep: string, rest: string)
    requires |pat| >= 3 && NoMatchBefore(p, pat)
    ensures ReplaceFirst(p + pat + rest, pat, rep) == p + rep + rest
    decreases |p|
  {
    var s := p + pat + rest;
    if p == [] {
      assert s[..|pat|] == pat && s[|pat|..] == rest;
    } else {
      assert s[..|pat|] != pat by {
        assert (p + pat)[0] == s[0] && (p + pat)[1] == s[1] && (p + pat)[2] == s[2];
      }
      var p' := p[1..];
      forall k | 0 <= k < |p'|
        ensures (p' + pat)[k] != pat[0] || (p' + pat)[k + 1] != pat[1] || (p' + pat)[k + 2] != pat[2]
      {
        assert (p' + pat)[k] == (p + pat)[k + 1];
        assert (p' + pat)[k + 1] == (p + pat)[k + 2];
        assert (p' + pat)[k + 2] == (p + pat)[k + 3];
      }
      ReplaceFirstAt(p', pat, rep, rest);
      assert s[1..] == p' + pat + rest;
      assert [s[0]] + (p' + rep + rest) == p + rep + rest;
    }
  }

  /**
   * In a command whose first two pieces are p and `pat`, replacing the first
   * `pat` swaps that piece for `rep` and leaves every other piece alone.
   */
  lemma SwapSecondPiece(p: string, pat: string, rep: string, tail: seq<string>)
    requires |pat| >= 3 && NoMatchBefore(p, pat)
    ensures ReplaceFirst(Concat([p, pat] + tail), pat, rep) == Concat([p, rep] + tail)
  {
    ConcatTwo(p, pat, tail);
    ConcatTwo(p, rep, tail);
    ReplaceFirstAt(p, pat, rep, Concat(tail));
  }

  lemma ConcatTwo(a: string, b: string, tail: seq<string>)
    ensures Concat([a, b] + tail) == a + b + Concat(tail)
  {
    assert ([a, b] + tail)[1..] == [b] + tail && ([b] + tail)[1..] == tail;
    assert a + (b + Concat(tail)) == a + b + Concat(tail);
  }

  /** Any format other than the five named ones renders exactly what "iptables" renders. */
  lemma UnknownFormatIsIptables(format: string, localIp: string, publicIp: string, port: string)
    requires format !in {"nftables", "ufw", "firewalld", "ipfw", "pf"}
    ensures MakeFirewallRule(format, localIp, publicIp, port) == MakeFirewallRule("iptables", localIp, publicIp, port)
    ensures MakeDeleteFirewallRule(format, localIp, publicIp, port) == MakeDeleteFirewallRule("iptables", localIp, publicIp, port)
  {
  }

  /** The iptables delete rule is the add rule with "-A" changed to "-D". */
  lemma IptablesDeleteSwapsFlag(format: string, localIp: string, publicIp: string, port: string)
    requires DialectOf(format) == Iptables
    ensures MakeDeleteFirewallRule(format, localIp, publicIp, port)
         == ReplaceFirst(MakeFirewallRule(format, localIp, publicIp, port), "-A ", "-D ")
  {
    var tail := ["PREROUTING -p tcp -d ", publicIp, " --dport ", port, " -j DNAT --to-destination ", localIp, ":", port];
    assert ["iptables -t nat ", "-A "] + tail == ["iptables -t nat ", "-A ", "PREROUTING -p tcp -d ", publicIp,
      " --dport ", port, " -j DNAT --to-destination ", localIp, ":", port];
    assert ["iptables -t nat ", "-D "] + tail == ["iptables -t nat ", "-D ", "PREROUTING -p tcp -d ", publicIp,
      " --dport ", port, " -j DNAT --to-destination ", localIp, ":", port];
    IptablesHead("iptables -t nat ", "-A ");
    SwapSecondPiece("iptables -t nat ", "-A ", "-D ", tail);
  }

  lemma IptablesHead(p: string, pat: string)
    requires p == "iptables -t nat " && pat == "-A "
    ensures NoMatchBefore(p, pat)
  {
  }

  /** The nftables delete rule is the add rule with "add" changed to "delete". */
  lemma NftablesDeleteSwapsVerb(localIp: string, publicIp: string, port: string)
    ensures MakeDeleteFirewallRule("nftables", localIp, publicIp, port)
         == ReplaceFirst(MakeFirewallRule("nftables", localIp, publicIp, port), "add ", "delete ")
  {
    var tail := ["rule ip nat prerouting ip daddr ", publicIp, " tcp dport ", port, " dnat to ", localIp, ":", port];
    assert ["nft ", "add "] + tail == ["nft ", "add ", "rule ip nat prerouting ip daddr ", publicIp,
      " tcp dport ", port, " dnat to ", localIp, ":", port];
    assert ["nft ", "delete "] + tail == ["nft ", "delete ", "rule ip nat prerouting ip daddr ", publicIp,
      " tcp dport ", port, " dnat to ", localIp, ":", port];
    NftablesHead("nft ", "add ");
    SwapSecondPiece("nft ", "add ", "delete ", tail);
  }

  lemma NftablesHead(p: string, pat: string)
    requires p == "nft " && pat == "add "
    ensures NoMatchBefore(p, pat)
  {
  }

  /**
   * The firewalld delete rule is the add rule with "--add-rich-rule" changed
   * to "--remove-rich-rule", and neither depends on the public IP.
   */
  lemma FirewalldDeleteSwapsOption(localIp: string, publicIp: string, otherIp: string, port: string)
    ensures MakeDeleteFirewallRule("firewalld", localIp, publicIp, port)
         == ReplaceFirst(MakeFirewallRule("firewalld", localIp, publicIp, port), "--add-rich-rule", "--remove-rich-rule")
    ensures MakeFirewallRule("firewalld", localIp, publicIp, port) == MakeFirewallRule("firewalld", localIp, otherIp, port)
    ensures MakeDeleteFirewallRule("firewalld", localIp, publicIp, port)
         == MakeDeleteFirewallRule("firewalld", localIp, otherIp, port)
  {
    var tail := ["='rule family=\"ipv4\" forward-port port=\"", port,
                 "\" protocol=\"tcp\" to-addr=\"", localIp, "\" to-port=\"", port, "\"'"];
    assert ["firewall-cmd --zone=public ", "--add-rich-rule"] + tail == ["firewall-cmd --zone=public ", "--add-rich-rule",
      "='rule family=\"ipv4\" forward-port port=\"", port, "\" protocol=\"tcp\" to-addr=\"", localIp,
      "\" to-port=\"", port, "\"'"];
    assert ["firewall-cmd --zone=public ", "--remove-rich-rule"] + tail == ["firewall-cmd --zone=public ", "--remove-rich-rule",
      "='rule family=\"ipv4\" forward-port port=\"", port, "\" protocol=\"tcp\" to-addr=\"", localIp,
      "\" to-port=\"", port, "\"'"];
    FirewalldHead("firewall-cmd --zone=public ", "--add-rich-rule");
    SwapSecondPiece("firewall-cmd --zone=public ", "--add-rich-rule", "--remove-rich-rule", tail);
  }

  lemma FirewalldHead(p: string, pat: string)
    requires p == "firewall-cmd --zone=public " && pat == "--add-rich-rule"
    ensures NoMatchBefore(p, pat)
  {
  }

  /** ipfw uses rule number 100, and its delete rule is the same constant whatever the arguments. */
  lemma IpfwRuleNumber(localIp: string, publicIp: string, port: string)
    ensures StartsWith(MakeFirewallRule("ipfw", localIp, publicIp, port), "ipfw add 100 ")
    ensures MakeDeleteFirewallRule("ipfw", localIp, publicIp, port) == "ipfw delete 100"
  {
    var tail := [localIp, ",", port, " tcp from any to ", publicIp, " ", port];
    assert ["ipfw add 100 fwd ", localIp, ",", port, " tcp from any to ", publicIp, " ", port]
        == ["ipfw add 100 fwd "] + tail;
    var rendered := "ipfw add 100 fwd " + Concat(tail);
    assert rendered[..13] == "ipfw add 100 ";
  }

  /** The ufw and pf delete rules do not depend on the local IP. */
  lemma DeleteIgnoresLocalIp(format: string, localIp: string, otherIp: string, publicIp: string, port: string)
    requires format == "ufw" || format == "pf"
    ensures MakeDeleteFirewallRule(format, localIp, publicIp, port)
         == MakeDeleteFirewallRule(format, otherIp, publicIp, port)
  {
  }
}
