/**
 * internal/kubeconfig/hostname.go: rewrite a loopback cluster server to the
 * configured remap target, reporting the original host (loopback names
 * normalised to 127.0.0.1) and the port for the firewall rules.
 */
module Hostname {
  import opened Wrappers
  import opened Helpers
  import opened Types

  /** The hosts that remap rewrites. */
  const RemapDomains: seq<string> := ["localhost", "127.0.0.1", "localhost.localdomain"]

  /** The four results of remap: effective address, original host, port and error. */
  datatype Remapped = Remapped(address: string, originalHost: string, port: string, err: Option<AddressError>)

  predicate IsLoopbackName(host: string) {
    host == "localhost" || host == "localhost.localdomain"
  }

  /**
   * remap: when the server parses, the target is non-empty and the host is
   * one of RemapDomains, point the address at the target (same scheme and
   * port) and report the original host as 127.0.0.1; otherwise keep the
   * address. A parse failure returns the address twice with the error.
   */
  function Remap(address: string, remapAddress: string): (r: Remapped)
    ensures r.err == AddressToSchemeHostPort(address).err
    ensures r.port == AddressToSchemeHostPort(address).port
    ensures r.err.Some? ==> r.address == address && r.originalHost == address && r.port == []
    ensures r.err.None? ==> r.port != [] && r.originalHost != []
  {
    var parsed := AddressToSchemeHostPort(address);
    if parsed.err.Some? then Remapped(address, address, parsed.port, parsed.err)
    else if remapAddress != "" && Has(RemapDomains, parsed.host) then
      var host := if IsLoopbackName(parsed.host) then "127.0.0.1" else parsed.host;
      Remapped(parsed.scheme + "://" + remapAddress + ":" + parsed.port, host, parsed.port, None)
    else Remapped(address, parsed.host, parsed.port, None)
  }

  // ---- properties ----

  /** For a parsed host, Has on the remap list is plain membership: the host holds no '/'. */
  lemma RemapDomainsExact(address: string)
    requires AddressToSchemeHostPort(address).err.None?
    ensures Has(RemapDomains, AddressToSchemeHostPort(address).host) <==>
      AddressToSchemeHostPort(address).host in RemapDomains
  {
    ResultIsClean(address);
    HasBareName(RemapDomains, AddressToSchemeHostPort(address).host);
  }

  /**
   * With a non-empty target and a loopback host, the effective address is
   * scheme://target:port and the original host is reported as 127.0.0.1.
   */
  lemma RemapLoopback(address: string, remapAddress: string)
    requires AddressToSchemeHostPort(address).err.None?
    requires remapAddress != [] && AddressToSchemeHostPort(address).host in RemapDomains
    ensures var p := AddressToSchemeHostPort(address);
      Remap(address, remapAddress) == Remapped(p.scheme + "://" + remapAddress + ":" + p.port, "127.0.0.1", p.port, None)
  {
    RemapDomainsExact(address);
    ReportedAsLoopback(AddressToSchemeHostPort(address).host);
  }

  /** Every host on the remap list is reported as 127.0.0.1. */
  lemma ReportedAsLoopback(host: string)
    requires host in RemapDomains
    ensures (if IsLoopbackName(host) then "127.0.0.1" else host) == "127.0.0.1"
  {
  }

  /** With an empty target or a host outside the remap list, the address is kept. */
  lemma RemapKeeps(address: string, remapAddress: string)
    requires AddressToSchemeHostPort(address).err.None?
    requires remapAddress == [] || AddressToSchemeHostPort(address).host !in RemapDomains
    ensures var p := AddressToSchemeHostPort(address);
      Remap(address, remapAddress) == Remapped(address, p.host, p.port, None)
  {
    RemapDomainsExact(address);
  }

  /** remap("https://localhost:6443", "10.0.0.5") points at 10.0.0.5 and reports 127.0.0.1. */
  lemma RemapExample(address: string, target: string)
    requires address == "https://localhost:6443" && target == "10.0.0.5"
    ensures Remap(address, target) == Remapped("https://10.0.0.5:6443", "127.0.0.1", "6443", None)
  {
    LocalhostUrl(address);
    LocalhostIsRemapped();
    RemapLoopback(address, target);
    EffectiveExample("https", target, "6443");
  }

  lemma LocalhostIsRemapped()
    ensures "localhost" in RemapDomains
  {
    assert RemapDomains[0] == "localhost";
  }

  lemma EffectiveExample(scheme: string, target: string, port: string)
    requires scheme == "https" && target == "10.0.0.5" && port == "6443"
    ensures scheme + "://" + target + ":" + port == "https://10.0.0.5:6443"
  {
  }
}
